/** What the validation report means: each check reports an issue exactly where its condition
    holds, and a document is valid exactly when it is sound. */
module ValidationProperties {
  import opened Wrappers
  import AgsiCore
  import Seqs
  import Geometries
  import Materials
  import GroundModels
  import Documents
  import opened Validation

  // ---------------------------------------------------------------------------------------
  // Soundness, stated without the engine's counting.

  predicate UniqueModelIds(models: seq<GroundModels.GroundModel>) {
    forall a, b :: 0 <= a < |models| && 0 <= b < |models| && a != b ==> models[a].id != models[b].id
  }

  predicate UniqueMaterialIds(model: GroundModels.GroundModel) {
    forall a, b :: 0 <= a < |model.materials| && 0 <= b < |model.materials| && a != b ==>
      model.materials[a].id != model.materials[b].id
  }

  /** Every component names a material that its own model defines. */
  predicate ReferencesResolve(model: GroundModels.GroundModel) {
    forall j :: 0 <= j < |model.components| ==>
      exists k :: 0 <= k < |model.materials| && model.materials[k].id == model.components[j].materialId
  }

  /** No axis of the extent has its minimum above its maximum (heights only when both exist). */
  predicate ExtentOrdered(e: GroundModels.ModelExtent) {
    e.minX <= e.maxX && e.minY <= e.maxY
    && (e.minZ.Some? && e.maxZ.Some? ==> e.minZ.value <= e.maxZ.value)
  }

  predicate ModelSound(model: GroundModels.GroundModel) {
    ReferencesResolve(model) && UniqueMaterialIds(model)
    && (model.extent.Some? ==> ExtentOrdered(model.extent.value))
  }

  predicate DocumentSound(models: seq<GroundModels.GroundModel>) {
    UniqueModelIds(models) && forall i :: 0 <= i < |models| ==> ModelSound(models[i])
  }

  /** An extent is ordered exactly when it contains its own lower corner. */
  lemma ExtentOrderedIffHoldsCorner(e: GroundModels.ModelExtent)
    ensures ExtentOrdered(e) <==> e.Contains(e.minX, e.minY, e.minZ)
  {
  }

  // ---------------------------------------------------------------------------------------
  // Where each check puts its errors.

  lemma {:induction false} FieldIssuesPaths(f: AgsiCore.FieldErrors, k: nat)
    requires k <= |f.messages|
    ensures forall e :: e in FieldIssues(f, k) ==> e.path == FieldPath(f.field)
  {
    if k > 0 {
      FieldIssuesPaths(f, k - 1);
    }
  }

  lemma {:induction false} DeriveErrorsPaths(fields: seq<AgsiCore.FieldErrors>, n: nat)
    requires n <= |fields|
    ensures forall e :: e in DeriveErrors(fields, n) ==> e.path.FieldPath?
  {
    if n > 0 {
      DeriveErrorsPaths(fields, n - 1);
      FieldIssuesPaths(fields[n - 1], |fields[n - 1].messages|);
    }
  }

  lemma {:induction false} ComponentErrorsPaths(model: GroundModels.GroundModel, i: nat, n: nat)
    requires n <= |model.components|
    ensures forall e :: e in ComponentErrors(model, i, n) ==>
              e.path.ComponentMaterialPath? && e.path.model == i && e.path.component < n
  {
    if n > 0 {
      ComponentErrorsPaths(model, i, n - 1);
    }
  }

  lemma {:induction false} MaterialErrorsPaths(model: GroundModels.GroundModel, i: nat, n: nat)
    requires n <= |model.materials|
    ensures forall e :: e in MaterialErrors(model, i, n) ==>
              e.path.MaterialIdPath? && e.path.model == i && e.path.material < n
  {
    if n > 0 {
      MaterialErrorsPaths(model, i, n - 1);
    }
  }

  lemma ModelErrorsPaths(models: seq<GroundModels.GroundModel>, i: nat)
    requires i < |models|
    ensures forall e :: e in ModelErrors(models, i) ==> PathModel(e.path) == Some(i)
  {
    ComponentErrorsPaths(models[i], i, |models[i].components|);
    MaterialErrorsPaths(models[i], i, |models[i].materials|);
  }

  /** An error about model `i` is in the report exactly when it is among the errors of model `i`. */
  lemma ReportLocal(check: AgsiCore.DeriveOutcome, version: string, models: seq<GroundModels.GroundModel>,
                    i: nat, e: ValidationError)
    requires i < |models| && PathModel(e.path) == Some(i)
    ensures e in Report(check, version, models).errors <==> e in ModelErrors(models, i)
  {
    if check.Failed? {
      DeriveErrorsPaths(check.fieldErrors, |check.fieldErrors|);
    }
    var perModel := PerModelErrors(models);
    Seqs.FlattenMember(perModel, e);
    if e in Seqs.Flatten(perModel) {
      var m :| 0 <= m < |perModel| && e in perModel[m];
      assert perModel[m] == ModelErrors(models, m);
      ModelErrorsPaths(models, m);
    } else {
      assert perModel[i] == ModelErrors(models, i);
    }
  }

  // ---------------------------------------------------------------------------------------
  // Path texts: distinct model-indexed paths are written differently.

  /** The paths that name a model by its index. */
  predicate ModelIndexed(p: IssuePath) {
    p.ModelIdPath? || p.ComponentMaterialPath? || p.MaterialIdPath? || p.ExtentPath?
  }

  /** What follows the model's index in the text of a model-indexed path. */
  function ModelPathRest(p: IssuePath): string {
    match p
    case ModelIdPath(_) => "].id"
    case ComponentMaterialPath(_, j) => "].components[" + AgsiCore.NatToString(j) + "].materialId"
    case MaterialIdPath(_, k) => "].materials[" + AgsiCore.NatToString(k) + "].id"
    case ExtentPath(_) => "].extent"
    case _ => ""
  }

  /** The character that tells the kinds of model-indexed path apart. */
  function KindMark(p: IssuePath): char {
    match p
    case ModelIdPath(_) => 'i'
    case ComponentMaterialPath(_, _) => 'c'
    case MaterialIdPath(_, _) => 'm'
    case _ => 'e'
  }

  /** A model-indexed path is "agsiModel[", the index, then a rest that opens with "]" and
      carries the kind's mark third. */
  lemma ModelPathShape(p: IssuePath)
    requires ModelIndexed(p)
    ensures PathText(p) == "agsiModel[" + (AgsiCore.NatToString(p.model) + ModelPathRest(p))
    ensures |ModelPathRest(p)| > 2 && ModelPathRest(p)[0] == ']' && ModelPathRest(p)[2] == KindMark(p)
  {
  }

  /** Within one model, the rest of the text determines the path. */
  lemma ModelPathRestInjective(p: IssuePath, q: IssuePath)
    requires ModelIndexed(p) && ModelIndexed(q) && p.model == q.model
    ensures ModelPathRest(p) == ModelPathRest(q) ==> p == q
  {
    ModelPathShape(p);
    ModelPathShape(q);
    if p.ComponentMaterialPath? && q.ComponentMaterialPath? {
      AgsiCore.FramedNumberInjective("].components[", p.component, q.component, "].materialId");
    } else if p.MaterialIdPath? && q.MaterialIdPath? {
      AgsiCore.FramedNumberInjective("].materials[", p.material, q.material, "].id");
    }
  }

  /** Two model-indexed paths with the same text are the same path: the text names the model,
      the kind of issue and the component or material exactly. */
  lemma ModelPathTextInjective(p: IssuePath, q: IssuePath)
    requires ModelIndexed(p) && ModelIndexed(q)
    ensures PathText(p) == PathText(q) ==> p == q
  {
    ModelPathShape(p);
    ModelPathShape(q);
    if PathText(p) == PathText(q) {
      var opening := "agsiModel[";
      assert PathText(p)[|opening|..] == AgsiCore.NatToString(p.model) + ModelPathRest(p);
      assert PathText(q)[|opening|..] == AgsiCore.NatToString(q.model) + ModelPathRest(q);
      AgsiCore.NumberThenNonDigit(p.model, ModelPathRest(p), q.model, ModelPathRest(q));
      ModelPathRestInjective(p, q);
    }
  }

  /** Every path other than a structural field's is written differently from every other:
      the schema version path cannot be mistaken for a model's. */
  lemma PathTextInjective(p: IssuePath, q: IssuePath)
    requires !p.FieldPath? && !q.FieldPath?
    ensures PathText(p) == PathText(q) ==> p == q
  {
    if ModelIndexed(p) && ModelIndexed(q) {
      ModelPathTextInjective(p, q);
    } else if ModelIndexed(p) {
      ModelPathShape(p);
      assert PathText(p)[3] == 'i' && PathText(q)[3] == 'S';
    } else if ModelIndexed(q) {
      ModelPathShape(q);
      assert PathText(q)[3] == 'i' && PathText(p)[3] == 'S';
    }
  }

  /** So the text path of a model's error locates it: it equals the text of a path other
      than a field path exactly when the error is at that path. */
  lemma ModelErrorTextLocated(models: seq<GroundModels.GroundModel>, i: nat, e: ValidationError, p: IssuePath)
    requires i < |models| && e in ModelErrors(models, i) && !p.FieldPath?
    ensures PathText(e.path) == PathText(p) <==> e.path == p
  {
    ModelErrorsPaths(models, i);
    PathTextInjective(e.path, p);
  }

  // ---------------------------------------------------------------------------------------
  // Each check, one issue at a time.

  lemma {:induction false} ComponentErrorsAt(model: GroundModels.GroundModel, i: nat, n: nat, j: nat)
    requires j < n <= |model.components|
    ensures forall e: ValidationError :: e.path == ComponentMaterialPath(i, j) ==>
              (e in ComponentErrors(model, i, n) <==>
               LacksMaterial(model, model.components[j].materialId) && e == DanglingError(model, i, j))
  {
    if n - 1 == j {
      ComponentErrorsPaths(model, i, n - 1);
    } else {
      ComponentErrorsAt(model, i, n - 1, j);
    }
  }

  lemma {:induction false} MaterialErrorsAt(model: GroundModels.GroundModel, i: nat, n: nat, k: nat)
    requires k < n <= |model.materials|
    ensures forall e: ValidationError :: e.path == MaterialIdPath(i, k) ==>
              (e in MaterialErrors(model, i, n) <==>
               SharesMaterialId(model.materials, k)
               && e == ValidationError(MaterialIdPath(i, k), "Duplicate material ID: " + model.materials[k].id, Reference))
  {
    if n - 1 == k {
      MaterialErrorsPaths(model, i, n - 1);
    } else {
      MaterialErrorsAt(model, i, n - 1, k);
    }
  }

  /** Some error at a path inside model `i` is in the report exactly when model `i` has one there. */
  lemma ReportedAt(check: AgsiCore.DeriveOutcome, version: string,
                   models: seq<GroundModels.GroundModel>, i: nat, p: IssuePath)
    requires i < |models| && PathModel(p) == Some(i)
    ensures Reports(Report(check, version, models).errors, p) <==> Reports(ModelErrors(models, i), p)
  {
    if e :| e in Report(check, version, models).errors && e.path == p {
      ReportLocal(check, version, models, i, e);
    }
    if e :| e in ModelErrors(models, i) && e.path == p {
      ReportLocal(check, version, models, i, e);
    }
  }

  lemma DanglingInModel(models: seq<GroundModels.GroundModel>, i: nat, j: nat, e: ValidationError)
    requires i < |models| && j < |models[i].components| && e.path == ComponentMaterialPath(i, j)
    ensures e in ModelErrors(models, i) <==>
            LacksMaterial(models[i], models[i].components[j].materialId) && e == DanglingError(models[i], i, j)
  {
    MaterialErrorsPaths(models[i], i, |models[i].materials|);
    ComponentErrorsAt(models[i], i, |models[i].components|, j);
  }

  lemma DuplicateIdInModel(models: seq<GroundModels.GroundModel>, i: nat, e: ValidationError)
    requires i < |models| && e.path == ModelIdPath(i)
    ensures e in ModelErrors(models, i) <==>
            SharesModelId(models, i) && e == ValidationError(ModelIdPath(i), "Duplicate model ID: " + models[i].id, Reference)
  {
    ComponentErrorsPaths(models[i], i, |models[i].components|);
    MaterialErrorsPaths(models[i], i, |models[i].materials|);
  }

  lemma DuplicateMaterialInModel(models: seq<GroundModels.GroundModel>, i: nat, k: nat, e: ValidationError)
    requires i < |models| && k < |models[i].materials| && e.path == MaterialIdPath(i, k)
    ensures e in ModelErrors(models, i) <==>
            SharesMaterialId(models[i].materials, k)
            && e == ValidationError(MaterialIdPath(i, k), "Duplicate material ID: " + models[i].materials[k].id, Reference)
  {
    ComponentErrorsPaths(models[i], i, |models[i].components|);
    MaterialErrorsAt(models[i], i, |models[i].materials|, k);
  }

  lemma ExtentInModel(models: seq<GroundModels.GroundModel>, i: nat)
    requires i < |models|
    ensures Reports(ModelErrors(models, i), ExtentPath(i)) <==>
            models[i].extent.Some? && !ExtentOrdered(models[i].extent.value)
  {
    var model := models[i];
    ComponentErrorsPaths(model, i, |model.components|);
    MaterialErrorsPaths(model, i, |model.materials|);
    if model.extent.Some? && !ExtentOrdered(model.extent.value) {
      var extentErrors := ExtentErrors(model.extent, i);
      assert |extentErrors| > 0;
      assert extentErrors[0] in ModelErrors(models, i);
    }
  }

  /** A component whose material is missing from its model is reported, with the message
      naming the material, exactly when no material of that model carries the id. */
  lemma DanglingReferenceReported(check: AgsiCore.DeriveOutcome, version: string,
                                  models: seq<GroundModels.GroundModel>, i: nat, j: nat)
    requires i < |models| && j < |models[i].components|
    ensures Reports(Report(check, version, models).errors, ComponentMaterialPath(i, j)) <==>
            LacksMaterial(models[i], models[i].components[j].materialId)
    ensures DanglingError(models[i], i, j) in Report(check, version, models).errors <==>
            LacksMaterial(models[i], models[i].components[j].materialId)
  {
    var p := ComponentMaterialPath(i, j);
    ReportedAt(check, version, models, i, p);
    DanglingInModel(models, i, j, DanglingError(models[i], i, j));
    ReportLocal(check, version, models, i, DanglingError(models[i], i, j));
    if e :| e in ModelErrors(models, i) && e.path == p {
      DanglingInModel(models, i, j, e);
    }
  }

  /** A model is reported under its id exactly when another model of the document shares the id. */
  lemma DuplicateModelReported(check: AgsiCore.DeriveOutcome, version: string,
                               models: seq<GroundModels.GroundModel>, i: nat)
    requires i < |models|
    ensures Reports(Report(check, version, models).errors, ModelIdPath(i)) <==> SharesModelId(models, i)
    ensures (ValidationError(ModelIdPath(i), "Duplicate model ID: " + models[i].id, Reference)
               in Report(check, version, models).errors) <==> SharesModelId(models, i)
  {
    var dup := ValidationError(ModelIdPath(i), "Duplicate model ID: " + models[i].id, Reference);
    ReportedAt(check, version, models, i, ModelIdPath(i));
    DuplicateIdInModel(models, i, dup);
    ReportLocal(check, version, models, i, dup);
    if e :| e in ModelErrors(models, i) && e.path == ModelIdPath(i) {
      DuplicateIdInModel(models, i, e);
    }
  }

  /** Material `k` of model `i` is reported exactly when another material of that model shares its id. */
  lemma DuplicateMaterialReported(check: AgsiCore.DeriveOutcome, version: string,
                                  models: seq<GroundModels.GroundModel>, i: nat, k: nat)
    requires i < |models| && k < |models[i].materials|
    ensures Reports(Report(check, version, models).errors, MaterialIdPath(i, k)) <==>
            SharesMaterialId(models[i].materials, k)
    ensures (ValidationError(MaterialIdPath(i, k), "Duplicate material ID: " + models[i].materials[k].id, Reference)
               in Report(check, version, models).errors) <==> SharesMaterialId(models[i].materials, k)
  {
    var dup := ValidationError(MaterialIdPath(i, k), "Duplicate material ID: " + models[i].materials[k].id, Reference);
    ReportedAt(check, version, models, i, MaterialIdPath(i, k));
    DuplicateMaterialInModel(models, i, k, dup);
    ReportLocal(check, version, models, i, dup);
    if e :| e in ModelErrors(models, i) && e.path == MaterialIdPath(i, k) {
      DuplicateMaterialInModel(models, i, k, e);
    }
  }

  /** A model is reported under its extent exactly when that extent has an axis out of order. */
  lemma ExtentReported(check: AgsiCore.DeriveOutcome, version: string,
                       models: seq<GroundModels.GroundModel>, i: nat)
    requires i < |models|
    ensures Reports(Report(check, version, models).errors, ExtentPath(i)) <==>
            models[i].extent.Some? && !ExtentOrdered(models[i].extent.value)
  {
    ReportedAt(check, version, models, i, ExtentPath(i));
    ExtentInModel(models, i);
  }

  lemma {:induction false} FieldIssuesContain(f: AgsiCore.FieldErrors, n: nat, k: nat)
    requires k < n <= |f.messages|
    ensures ValidationError(FieldPath(f.field), f.messages[k], Schema) in FieldIssues(f, n)
  {
    if k < n - 1 {
      FieldIssuesContain(f, n - 1, k);
    }
  }

  lemma {:induction false} DeriveErrorsContain(fields: seq<AgsiCore.FieldErrors>, n: nat, f: nat, k: nat)
    requires f < n <= |fields| && k < |fields[f].messages|
    ensures ValidationError(FieldPath(fields[f].field), fields[f].messages[k], Schema) in DeriveErrors(fields, n)
  {
    if f < n - 1 {
      DeriveErrorsContain(fields, n - 1, f, k);
    } else {
      FieldIssuesContain(fields[f], |fields[f].messages|, k);
    }
  }

  /** Every message of a failed structural check is reported as a Schema error on its field,
      and a failed check alone makes the document invalid. */
  lemma StructuralErrorsReported(check: AgsiCore.DeriveOutcome, version: string,
                                 models: seq<GroundModels.GroundModel>, f: nat, k: nat)
    requires check.Failed? && f < |check.fieldErrors| && k < |check.fieldErrors[f].messages|
    ensures ValidationError(FieldPath(check.fieldErrors[f].field), check.fieldErrors[f].messages[k], Schema)
              in Report(check, version, models).errors
    ensures !Report(check, version, models).isValid
  {
    DeriveErrorsContain(check.fieldErrors, |check.fieldErrors|, f, k);
  }

  // ---------------------------------------------------------------------------------------
  // Validity.

  lemma {:induction false} ComponentErrorsEmpty(model: GroundModels.GroundModel, i: nat, n: nat)
    requires n <= |model.components|
    ensures ComponentErrors(model, i, n) == [] <==>
            forall j :: 0 <= j < n ==> !LacksMaterial(model, model.components[j].materialId)
  {
    if n > 0 {
      ComponentErrorsEmpty(model, i, n - 1);
    }
  }

  lemma {:induction false} MaterialErrorsEmpty(model: GroundModels.GroundModel, i: nat, n: nat)
    requires n <= |model.materials|
    ensures MaterialErrors(model, i, n) == [] <==>
            forall k :: 0 <= k < n ==> !SharesMaterialId(model.materials, k)
  {
    if n > 0 {
      MaterialErrorsEmpty(model, i, n - 1);
    }
  }

  /** Model `i` has no errors exactly when its id is its own and the model is sound. */
  lemma ModelErrorsEmpty(models: seq<GroundModels.GroundModel>, i: nat)
    requires i < |models|
    ensures ModelErrors(models, i) == [] <==>
            !SharesModelId(models, i) && ModelSound(models[i])
  {
    var model := models[i];
    ComponentErrorsEmpty(model, i, |model.components|);
    MaterialErrorsEmpty(model, i, |model.materials|);
    var ids := DuplicateModelErrors(models, i);
    var components := ComponentErrors(model, i, |model.components|);
    var materials := MaterialErrors(model, i, |model.materials|);
    var extent := ExtentErrors(model.extent, i);
    assert |ModelErrors(models, i)| == |ids| + |components| + |materials| + |extent|;
    assert ids == [] <==> !SharesModelId(models, i);
    assert extent == [] <==> (model.extent.Some? ==> ExtentOrdered(model.extent.value));
    if UniqueMaterialIds(model) {
      forall k | 0 <= k < |model.materials|
        ensures !SharesMaterialId(model.materials, k)
      {
      }
    }
    if forall k :: 0 <= k < |model.materials| ==> !SharesMaterialId(model.materials, k) {
      forall a, b | 0 <= a < |model.materials| && 0 <= b < |model.materials| && a != b
        ensures model.materials[a].id != model.materials[b].id
      {
        assert !SharesMaterialId(model.materials, a);
      }
    }
  }

  /** The report calls a document valid exactly when the structural check passed and the
      document is sound: unique model ids, and in every model resolved material references,
      unique material ids and an ordered extent. Warnings play no part. */
  lemma ValidIffSound(check: AgsiCore.DeriveOutcome, version: string, models: seq<GroundModels.GroundModel>)
    ensures Report(check, version, models).isValid <==> check.Passed? && DocumentSound(models)
  {
    var perModel := PerModelErrors(models);
    Seqs.FlattenEmpty(perModel);
    assert |perModel| == |models|;
    assert forall i :: 0 <= i < |perModel| ==> perModel[i] == ModelErrors(models, i);
    ModelsCleanIffSound(models);
  }

  /** Every model is free of errors exactly when the document is sound. */
  lemma ModelsCleanIffSound(models: seq<GroundModels.GroundModel>)
    ensures (forall i :: 0 <= i < |models| ==> ModelErrors(models, i) == []) <==> DocumentSound(models)
  {
    forall i | 0 <= i < |models|
      ensures ModelErrors(models, i) == [] <==>
              !SharesModelId(models, i) && ModelSound(models[i])
    {
      ModelErrorsEmpty(models, i);
    }
  }

  // ---------------------------------------------------------------------------------------
  // The crate's own examples.

  /** A new document validates. */
  method FreshDocumentIsValid() returns (valid: bool)
    ensures valid
  {
    var doc := new Documents.Document("TEST001", "0.1.0");
    var result := ValidateDocument(doc, AgsiCore.Passed);
    ValidIffSound(AgsiCore.Passed, doc.agsSchema.version, doc.agsiModel);
    valid := result.value.isValid;
  }

  /** A component naming a material its model lacks makes the document invalid with errors. */
  method MissingMaterialIsInvalid() returns (valid: bool, errorCount: nat)
    ensures !valid && errorCount > 0
  {
    var doc := new Documents.Document("TEST001", "0.1.0");
    var model := GroundModels.GroundModel.New("MODEL001", "Test", GroundModels.Stratigraphic, GroundModels.TwoD);
    var component := GroundModels.ModelComponent.New("COMP001", "Layer 1", GroundModels.Layer, "MAT_MISSING",
                                                     Geometries.MakePoint(0.0, 0.0, 0.0));
    model := model.AddComponent(component);
    doc.AddModel(model);
    var result := ValidateDocument(doc, AgsiCore.Passed);
    DanglingReferenceReported(AgsiCore.Passed, doc.agsSchema.version, doc.agsiModel, 0, 0);
    valid := result.value.isValid;
    errorCount := |result.value.errors|;
  }

  /** Two materials with one id make the document invalid. */
  method DuplicateMaterialIsInvalid() returns (valid: bool)
    ensures !valid
  {
    var doc := new Documents.Document("TEST001", "0.1.0");
    var model := GroundModels.GroundModel.New("MODEL001", "Test", GroundModels.Stratigraphic, GroundModels.TwoD);
    model := model.AddMaterial(Materials.Material.New("MAT001", "Clay", Materials.Soil));
    model := model.AddMaterial(Materials.Material.New("MAT001", "Sand", Materials.Soil));
    doc.AddModel(model);
    var result := ValidateDocument(doc, AgsiCore.Passed);
    DuplicateMaterialReported(AgsiCore.Passed, doc.agsSchema.version, doc.agsiModel, 0, 0);
    valid := result.value.isValid;
  }
}
