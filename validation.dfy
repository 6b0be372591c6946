/** The validation engine (`validation.rs`): one pass over a document that collects every error
    and warning, without stopping at the first. */
module Validation {
  import opened Wrappers
  import AgsiCore
  import Seqs
  import Materials
  import GroundModels
  import Documents

  datatype ErrorType = Schema | Required | Type | Range | Format | Reference

  /** Where an issue was found; `PathText` renders it as the Rust code formats it. */
  datatype IssuePath =
    | FieldPath(field: string)
    | SchemaVersionPath
    | ModelIdPath(model: nat)
    | ComponentMaterialPath(model: nat, component: nat)
    | MaterialIdPath(model: nat, material: nat)
    | ExtentPath(model: nat)

  datatype ValidationError = ValidationError(path: IssuePath, message: string, errorType: ErrorType)

  datatype ValidationWarning = ValidationWarning(path: IssuePath, message: string)

  /** The report; its fields are what the accessors `is_valid`, `errors` and `warnings` return. */
  datatype ValidationResult = ValidationResult(isValid: bool, errors: seq<ValidationError>, warnings: seq<ValidationWarning>)

  /** The path text the Rust code formats for each kind of issue. */
  function PathText(p: IssuePath): string {
    match p
    case FieldPath(f) => f
    case SchemaVersionPath => "agsSchema.version"
    case ModelIdPath(i) => "agsiModel[" + AgsiCore.NatToString(i) + "].id"
    case ComponentMaterialPath(i, j) =>
      "agsiModel[" + AgsiCore.NatToString(i) + "].components[" + AgsiCore.NatToString(j) + "].materialId"
    case MaterialIdPath(i, k) => "agsiModel[" + AgsiCore.NatToString(i) + "].materials[" + AgsiCore.NatToString(k) + "].id"
    case ExtentPath(i) => "agsiModel[" + AgsiCore.NatToString(i) + "].extent"
  }

  /** The model a path points into, if any. */
  function PathModel(p: IssuePath): Option<nat> {
    match p
    case FieldPath(_) => None
    case SchemaVersionPath => None
    case ModelIdPath(i) => Some(i)
    case ComponentMaterialPath(i, _) => Some(i)
    case MaterialIdPath(i, _) => Some(i)
    case ExtentPath(i) => Some(i)
  }

  /** Some error in `errs` is reported at `p`. */
  predicate Reports(errs: seq<ValidationError>, p: IssuePath) {
    exists e :: e in errs && e.path == p
  }

  // ---------------------------------------------------------------------------------------
  // The report the engine must produce, stated one check at a time.

  /** The first `k` messages of one field of the structural check, each a Schema error. */
  function FieldIssues(f: AgsiCore.FieldErrors, k: nat): (r: seq<ValidationError>)
    requires k <= |f.messages|
    ensures |r| == k
  {
    if k == 0 then []
    else FieldIssues(f, k - 1) + [ValidationError(FieldPath(f.field), f.messages[k - 1], Schema)]
  }

  /** The errors of the first `n` fields of the structural check. */
  function DeriveErrors(fields: seq<AgsiCore.FieldErrors>, n: nat): (r: seq<ValidationError>)
    requires n <= |fields|
  {
    if n == 0 then [] else DeriveErrors(fields, n - 1) + FieldIssues(fields[n - 1], |fields[n - 1].messages|)
  }

  /** All errors of a structural check verdict. */
  function CheckErrors(check: AgsiCore.DeriveOutcome): (r: seq<ValidationError>)
    ensures check.Passed? ==> r == []
  {
    if check.Passed? then [] else DeriveErrors(check.fieldErrors, |check.fieldErrors|)
  }

  /** How many models carry this id (`filter(|m| m.id == id).count()`). */
  function ModelIdCount(models: seq<GroundModels.GroundModel>, id: string): nat {
    |Seqs.Filter(models, (m: GroundModels.GroundModel) => m.id == id)|
  }

  /** How many materials carry this id. */
  function MaterialIdCount(materials: seq<Materials.Material>, id: string): nat {
    |Seqs.Filter(materials, (m: Materials.Material) => m.id == id)|
  }

  /** Some other model of the document carries the id of model `i`. */
  predicate SharesModelId(models: seq<GroundModels.GroundModel>, i: nat)
    requires i < |models|
  {
    exists j :: 0 <= j < |models| && j != i && models[j].id == models[i].id
  }

  /** Some other material of the list carries the id of material `k`. */
  predicate SharesMaterialId(materials: seq<Materials.Material>, k: nat)
    requires k < |materials|
  {
    exists l :: 0 <= l < |materials| && l != k && materials[l].id == materials[k].id
  }

  /** No material of the model carries this id. */
  predicate LacksMaterial(model: GroundModels.GroundModel, id: string) {
    forall k :: 0 <= k < |model.materials| ==> model.materials[k].id != id
  }

  /** A model id is counted more than once exactly when another model shares it. */
  lemma ModelIdShared(models: seq<GroundModels.GroundModel>, i: nat)
    requires i < |models|
    ensures ModelIdCount(models, models[i].id) > 1 <==> SharesModelId(models, i)
  {
    var p := (m: GroundModels.GroundModel) => m.id == models[i].id;
    if ModelIdCount(models, models[i].id) > 1 {
      Seqs.FilterCountWitness(models, p, i);
    }
    if j :| 0 <= j < |models| && j != i && models[j].id == models[i].id {
      Seqs.FilterCountsPair(models, p, i, j);
    }
  }

  /** A material id is counted more than once exactly when another material shares it. */
  lemma MaterialIdShared(materials: seq<Materials.Material>, k: nat)
    requires k < |materials|
    ensures MaterialIdCount(materials, materials[k].id) > 1 <==> SharesMaterialId(materials, k)
  {
    var p := (m: Materials.Material) => m.id == materials[k].id;
    if MaterialIdCount(materials, materials[k].id) > 1 {
      Seqs.FilterCountWitness(materials, p, k);
    }
    if l :| 0 <= l < |materials| && l != k && materials[l].id == materials[k].id {
      Seqs.FilterCountsPair(materials, p, k, l);
    }
  }

  /** The duplicate-id error of model `i`. */
  function DuplicateModelErrors(models: seq<GroundModels.GroundModel>, i: nat): (r: seq<ValidationError>)
    requires i < |models|
  {
    if SharesModelId(models, i)
    then [ValidationError(ModelIdPath(i), "Duplicate model ID: " + models[i].id, Reference)]
    else []
  }

  /** The error for component `j` of model `i` whose material is not among that model's materials. */
  function DanglingError(model: GroundModels.GroundModel, i: nat, j: nat): ValidationError
    requires j < |model.components|
  {
    ValidationError(ComponentMaterialPath(i, j),
                    "Material ID '" + model.components[j].materialId + "' not found in model", Reference)
  }

  /** The dangling-reference errors of the first `n` components of model `i`. */
  function ComponentErrors(model: GroundModels.GroundModel, i: nat, n: nat): (r: seq<ValidationError>)
    requires n <= |model.components|
  {
    if n == 0 then []
    else ComponentErrors(model, i, n - 1)
         + (if LacksMaterial(model, model.components[n - 1].materialId) then [DanglingError(model, i, n - 1)] else [])
  }

  /** The duplicate-id errors of the first `n` materials of model `i`. */
  function MaterialErrors(model: GroundModels.GroundModel, i: nat, n: nat): (r: seq<ValidationError>)
    requires n <= |model.materials|
  {
    if n == 0 then []
    else MaterialErrors(model, i, n - 1)
         + (if SharesMaterialId(model.materials, n - 1)
            then [ValidationError(MaterialIdPath(i, n - 1), "Duplicate material ID: " + model.materials[n - 1].id, Reference)]
            else [])
  }

  /** The Range errors of the extent of model `i`: x, then y, then z when both heights exist. */
  function ExtentErrors(extent: Option<GroundModels.ModelExtent>, i: nat): (r: seq<ValidationError>)
  {
    if extent.None? then []
    else
      var e := extent.value;
      (if e.minX > e.maxX then [ValidationError(ExtentPath(i), "min_x must be less than or equal to max_x", Range)] else [])
      + (if e.minY > e.maxY then [ValidationError(ExtentPath(i), "min_y must be less than or equal to max_y", Range)] else [])
      + (if e.minZ.Some? && e.maxZ.Some? && e.minZ.value > e.maxZ.value
         then [ValidationError(ExtentPath(i), "min_z must be less than or equal to max_z", Range)] else [])
  }

  /** Every error the engine reports for model `i`, in the order it checks them. */
  function ModelErrors(models: seq<GroundModels.GroundModel>, i: nat): (r: seq<ValidationError>)
    requires i < |models|
  {
    var model := models[i];
    DuplicateModelErrors(models, i)
    + ComponentErrors(model, i, |model.components|)
    + MaterialErrors(model, i, |model.materials|)
    + ExtentErrors(model.extent, i)
  }

  /** The errors of each model, in document order. */
  function PerModelErrors(models: seq<GroundModels.GroundModel>): seq<seq<ValidationError>> {
    seq(|models|, i requires 0 <= i < |models| => ModelErrors(models, i))
  }

  /** The text of the version warning. */
  function VersionMessage(version: string): string {
    "Schema version " + version + " differs from library version " + AgsiCore.AGSI_VERSION
  }

  /** The warning for a schema version other than the library's: at most one, at the
      schema version path, naming both versions. */
  function VersionWarnings(version: string): (r: seq<ValidationWarning>)
    ensures r == [] <==> version == AgsiCore.AGSI_VERSION
    ensures r != [] ==> r == [ValidationWarning(SchemaVersionPath, VersionMessage(version))]
  {
    if version != AgsiCore.AGSI_VERSION then [ValidationWarning(SchemaVersionPath, VersionMessage(version))] else []
  }

  /** The whole report for a document with this schema version and these models, given the
      verdict of the structural check on it. */
  function Report(check: AgsiCore.DeriveOutcome, version: string, models: seq<GroundModels.GroundModel>): (r: ValidationResult)
    ensures r.errors != [] ==> !r.isValid
    ensures r.isValid ==> check.Passed?
    ensures |r.warnings| <= 1
  {
    var errors := CheckErrors(check) + Seqs.Flatten(PerModelErrors(models));
    ValidationResult(check.Passed? && errors == [], errors, VersionWarnings(version))
  }

  // ---------------------------------------------------------------------------------------
  // The engine.

  /** The Schema errors of the structural check, field by field and message by message. */
  method CollectCheckErrors(check: AgsiCore.DeriveOutcome) returns (errors: seq<ValidationError>)
    ensures errors == CheckErrors(check)
  {
    errors := [];
    if check.Failed? {
      var fields := check.fieldErrors;
      for f := 0 to |fields|
        invariant errors == DeriveErrors(fields, f)
      {
        var messages := fields[f].messages;
        for k := 0 to |messages|
          invariant errors == DeriveErrors(fields, f) + FieldIssues(fields[f], k)
        {
          errors := errors + [ValidationError(FieldPath(fields[f].field), messages[k], Schema)];
        }
      }
    }
  }

  /** One error per component of model `i` whose material id the model does not define. */
  method CollectComponentErrors(model: GroundModels.GroundModel, i: nat) returns (errors: seq<ValidationError>)
    ensures errors == ComponentErrors(model, i, |model.components|)
  {
    errors := [];
    for j := 0 to |model.components|
      invariant errors == ComponentErrors(model, i, j)
    {
      var component := model.components[j];
      if model.GetMaterial(component.materialId).None? {
        errors := errors + [ValidationError(ComponentMaterialPath(i, j),
          "Material ID '" + component.materialId + "' not found in model", Reference)];
      }
    }
  }

  /** One error per material of model `i` whose id occurs more than once in the model. */
  method CollectMaterialErrors(model: GroundModels.GroundModel, i: nat) returns (errors: seq<ValidationError>)
    ensures errors == MaterialErrors(model, i, |model.materials|)
  {
    errors := [];
    for k := 0 to |model.materials|
      invariant errors == MaterialErrors(model, i, k)
    {
      var material := model.materials[k];
      MaterialIdShared(model.materials, k);
      if MaterialIdCount(model.materials, material.id) > 1 {
        errors := errors + [ValidationError(MaterialIdPath(i, k), "Duplicate material ID: " + material.id, Reference)];
      }
    }
  }

  /** The Range errors of a model extent whose minimum exceeds its maximum on some axis. */
  method CollectExtentErrors(extent: Option<GroundModels.ModelExtent>, i: nat) returns (errors: seq<ValidationError>)
    ensures errors == ExtentErrors(extent, i)
  {
    errors := [];
    if extent.Some? {
      var e := extent.value;
      if e.minX > e.maxX {
        errors := errors + [ValidationError(ExtentPath(i), "min_x must be less than or equal to max_x", Range)];
      }
      if e.minY > e.maxY {
        errors := errors + [ValidationError(ExtentPath(i), "min_y must be less than or equal to max_y", Range)];
      }
      if e.minZ.Some? && e.maxZ.Some? {
        if e.minZ.value > e.maxZ.value {
          errors := errors + [ValidationError(ExtentPath(i), "min_z must be less than or equal to max_z", Range)];
        }
      }
    }
  }

  /** The errors of model `i`: duplicate id, dangling material references, duplicate material
      ids, then a reversed extent. */
  method CollectModelErrors(models: seq<GroundModels.GroundModel>, i: nat) returns (errors: seq<ValidationError>)
    requires i < |models|
    ensures errors == ModelErrors(models, i)
  {
    var model := models[i];
    errors := [];
    ModelIdShared(models, i);
    if ModelIdCount(models, model.id) > 1 {
      errors := [ValidationError(ModelIdPath(i), "Duplicate model ID: " + model.id, Reference)];
    }
    var componentErrors := CollectComponentErrors(model, i);
    var materialErrors := CollectMaterialErrors(model, i);
    errors := errors + componentErrors + materialErrors;
    var extentErrors := CollectExtentErrors(model.extent, i);
    errors := errors + extentErrors;
  }

  /** `validate_document`: always succeeds, and returns exactly the report above. */
  method ValidateDocument(doc: Documents.Document, check: AgsiCore.DeriveOutcome)
    returns (r: Result<ValidationResult, AgsiCore.Error>)
    ensures r == Ok(Report(check, doc.agsSchema.version, doc.agsiModel))
  {
    var checkErrors := CollectCheckErrors(check);
    var isValid := check.Passed?;

    var warnings: seq<ValidationWarning> := [];
    if doc.agsSchema.version != AgsiCore.AGSI_VERSION {
      warnings := [ValidationWarning(SchemaVersionPath, VersionMessage(doc.agsSchema.version))];
    }

    var models := doc.agsiModel;
    ghost var perModel := PerModelErrors(models);
    var modelsErrors := [];
    for i := 0 to |models|
      invariant modelsErrors == Seqs.Flatten(perModel[..i])
      invariant isValid == (check.Passed? && modelsErrors == [])
    {
      var modelErrors := CollectModelErrors(models, i);
      Seqs.FlattenPrefix(perModel, i);
      modelsErrors := modelsErrors + modelErrors;
      if modelErrors != [] {
        isValid := false;
      }
    }
    assert perModel[..|models|] == perModel;
    var errors := checkErrors + modelsErrors;
    assert isValid == (check.Passed? && errors == []) by {
      assert |errors| == |checkErrors| + |modelsErrors|;
    }
    r := Ok(ValidationResult(isValid, errors, warnings));
  }

  /** `validate_quick`: fails, with the number of errors in its message, exactly when the
      report says the document is not valid. */
  method ValidateQuick(doc: Documents.Document, check: AgsiCore.DeriveOutcome) returns (r: Result<(), AgsiCore.Error>)
    ensures r.Ok? <==> Report(check, doc.agsSchema.version, doc.agsiModel).isValid
    ensures r.Err? ==> r.error == AgsiCore.Validation(
      "Validation failed with " + AgsiCore.NatToString(|Report(check, doc.agsSchema.version, doc.agsiModel).errors|) + " errors")
  {
    var result := ValidateDocument(doc, check);
    var report := result.value;
    if !report.isValid {
      return Err(AgsiCore.Validation("Validation failed with " + AgsiCore.NatToString(|report.errors|) + " errors"));
    }
    r := Ok(());
  }
}
