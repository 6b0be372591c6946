/** The comparison behind the `agsi diff` command (`commands/diff.rs`): two loaded documents
    give a list of differences and an `identical` flag. Loading the files and printing the
    outcome are not modelled; a difference is kept as a value together with the line the
    command prints for it. */
module Diff {
  import opened AgsiCore
  import Seqs
  import Materials
  import GroundModels
  import Documents
  import Validation

  datatype Difference =
    | SchemaVersionChanged(versionBefore: string, versionAfter: string)
    | FileIdChanged(idBefore: string, idAfter: string)
    | ModelCountChanged(countBefore: nat, countAfter: nat)
    | MaterialCountChanged(countBefore: nat, countAfter: nat)
    | ComponentCountChanged(countBefore: nat, countAfter: nat)
    | ModelIdChanged(index: nat, idBefore: string, idAfter: string)
    | ModelNameChanged(index: nat, nameBefore: string, nameAfter: string)
    | MaterialNameChanged(materialId: string, nameBefore: string, nameAfter: string)
    | MaterialPropertiesChanged(materialId: string, countBefore: nat, countAfter: nat)
    | MaterialRemoved(materialId: string)
    | MaterialAdded(materialId: string)
  {
    /** The line the command prints for this difference. */
    function Text(): string {
      match this
      case SchemaVersionChanged(a, b) => "Schema version: " + a + Arrow + b
      case FileIdChanged(a, b) => "File ID: " + a + Arrow + b
      case ModelCountChanged(a, b) => "Model count: " + NatToString(a) + Arrow + NatToString(b)
      case MaterialCountChanged(a, b) => "Material count: " + NatToString(a) + Arrow + NatToString(b)
      case ComponentCountChanged(a, b) => "Component count: " + NatToString(a) + Arrow + NatToString(b)
      case ModelIdChanged(i, a, b) => "Model " + NatToString(i) + " ID: " + a + Arrow + b
      case ModelNameChanged(i, a, b) => "Model " + NatToString(i) + " name: " + a + Arrow + b
      case MaterialNameChanged(id, a, b) => "Material " + id + " name: " + a + Arrow + b
      case MaterialPropertiesChanged(id, a, b) =>
        "Material " + id + " properties: " + NatToString(a) + Arrow + NatToString(b)
      case MaterialRemoved(id) => "Material " + id + " removed"
      case MaterialAdded(id) => "Material " + id + " added"
    }
  }

  /** The separator between the old and the new value in a printed difference. */
  const Arrow: string := " \U{2192} "

  /** The difference `d` when `changed` holds, nothing otherwise: one guarded push. */
  function When(changed: bool, d: Difference): (r: seq<Difference>)
    ensures changed ==> r == [d]
    ensures !changed ==> r == []
  {
    if changed then [d] else []
  }

  // ---------------------------------------------------------------------------------------
  // Summary comparison.

  /** Number of materials over all models (the sum of the per-model list lengths). */
  function TotalMaterials(models: seq<GroundModels.GroundModel>): nat {
    if |models| == 0 then 0 else TotalMaterials(models[..|models| - 1]) + |models[|models| - 1].materials|
  }

  /** Number of components over all models. */
  function TotalComponents(models: seq<GroundModels.GroundModel>): nat {
    if |models| == 0 then 0 else TotalComponents(models[..|models| - 1]) + |models[|models| - 1].components|
  }

  /** The five summary checks, in the order the command makes them. */
  function SummaryDifferences(doc1: Documents.Document, doc2: Documents.Document): seq<Difference>
    reads doc1, doc2
  {
    var v1, v2 := doc1.agsSchema.version, doc2.agsSchema.version;
    var f1, f2 := doc1.agsFile.fileId, doc2.agsFile.fileId;
    var ms1, ms2 := doc1.agsiModel, doc2.agsiModel;
    When(v1 != v2, SchemaVersionChanged(v1, v2))
    + When(f1 != f2, FileIdChanged(f1, f2))
    + When(|ms1| != |ms2|, ModelCountChanged(|ms1|, |ms2|))
    + When(TotalMaterials(ms1) != TotalMaterials(ms2), MaterialCountChanged(TotalMaterials(ms1), TotalMaterials(ms2)))
    + When(TotalComponents(ms1) != TotalComponents(ms2),
           ComponentCountChanged(TotalComponents(ms1), TotalComponents(ms2)))
  }

  // ---------------------------------------------------------------------------------------
  // Detailed comparison of the models paired by position.

  /** What one material of the first model gives: its first namesake in the paired model is
      compared by name and by number of properties; without a namesake it was removed. */
  function MaterialChanges(mat1: Materials.Material, m2: GroundModels.GroundModel): seq<Difference> {
    match m2.GetMaterial(mat1.id)
    case Some(mat2) =>
      When(mat1.name != mat2.name, MaterialNameChanged(mat1.id, mat1.name, mat2.name))
      + When(|mat1.properties| != |mat2.properties|,
             MaterialPropertiesChanged(mat1.id, |mat1.properties|, |mat2.properties|))
    case None => [MaterialRemoved(mat1.id)]
  }

  /** What one material of the second model gives: added, when no material of the first
      model has its id (`!iter().any(|m| m.id == id)`). */
  function MaterialAddition(mat2: Materials.Material, m1: GroundModels.GroundModel): seq<Difference> {
    When(Validation.LacksMaterial(m1, mat2.id), MaterialAdded(mat2.id))
  }

  /** The changes of each material of `m1`, in order. */
  function ChangesPerMaterial(m1: GroundModels.GroundModel, m2: GroundModels.GroundModel): seq<seq<Difference>> {
    seq(|m1.materials|, k requires 0 <= k < |m1.materials| => MaterialChanges(m1.materials[k], m2))
  }

  /** The additions for each material of `m2`, in order. */
  function AdditionsPerMaterial(m1: GroundModels.GroundModel, m2: GroundModels.GroundModel): seq<seq<Difference>> {
    seq(|m2.materials|, k requires 0 <= k < |m2.materials| => MaterialAddition(m2.materials[k], m1))
  }

  /** Everything the pair of models at position `index` gives: id, name, then the materials
      of the first model, then those of the second. */
  function PairDifferences(index: nat, m1: GroundModels.GroundModel, m2: GroundModels.GroundModel): seq<Difference> {
    When(m1.id != m2.id, ModelIdChanged(index, m1.id, m2.id))
    + When(m1.name != m2.name, ModelNameChanged(index, m1.name, m2.name))
    + Seqs.Flatten(ChangesPerMaterial(m1, m2))
    + Seqs.Flatten(AdditionsPerMaterial(m1, m2))
  }

  /** Number of pairs `zip` forms: the length of the shorter list. */
  function PairCount(ms1: seq<GroundModels.GroundModel>, ms2: seq<GroundModels.GroundModel>): (n: nat)
    ensures n <= |ms1| && n <= |ms2| && (n == |ms1| || n == |ms2|)
  {
    if |ms1| < |ms2| then |ms1| else |ms2|
  }

  /** The differences of each pair of models, pairing by position up to the shorter list. */
  function PerPair(ms1: seq<GroundModels.GroundModel>, ms2: seq<GroundModels.GroundModel>): seq<seq<Difference>> {
    seq(PairCount(ms1, ms2), i requires 0 <= i < PairCount(ms1, ms2) => PairDifferences(i, ms1[i], ms2[i]))
  }

  /** What the whole comparison reports, summary first. */
  function Differences(doc1: Documents.Document, doc2: Documents.Document, detailed: bool): seq<Difference>
    reads doc1, doc2
  {
    SummaryDifferences(doc1, doc2)
    + (if detailed then Seqs.Flatten(PerPair(doc1.agsiModel, doc2.agsiModel)) else [])
  }

  // ---------------------------------------------------------------------------------------
  // The command's comparison, as the loops that build it.

  /** One pass of the loop over the first model's materials. */
  method CompareMaterial(mat1: Materials.Material, m2: GroundModels.GroundModel) returns (step: seq<Difference>)
    ensures step == MaterialChanges(mat1, m2)
  {
    step := [];
    match m2.GetMaterial(mat1.id) {
      case Some(mat2) =>
        if mat1.name != mat2.name {
          step := step + [MaterialNameChanged(mat1.id, mat1.name, mat2.name)];
        }
        if |mat1.properties| != |mat2.properties| {
          step := step + [MaterialPropertiesChanged(mat1.id, |mat1.properties|, |mat2.properties|)];
        }
      case None =>
        step := [MaterialRemoved(mat1.id)];
    }
  }

  /** The loop over the first model's materials: names and property counts of the matched
      ones, and the removed ones. */
  method CompareRemovedOrChanged(m1: GroundModels.GroundModel, m2: GroundModels.GroundModel)
    returns (changes: seq<Difference>)
    ensures changes == Seqs.Flatten(ChangesPerMaterial(m1, m2))
  {
    ghost var perChange := ChangesPerMaterial(m1, m2);
    changes := [];
    for k := 0 to |m1.materials|
      invariant changes == Seqs.Flatten(perChange[..k])
    {
      var step := CompareMaterial(m1.materials[k], m2);
      Seqs.FlattenPrefix(perChange, k);
      changes := changes + step;
    }
    assert perChange[..|m1.materials|] == perChange;
  }

  /** The loop over the second model's materials: the added ones. */
  method CompareAdded(m1: GroundModels.GroundModel, m2: GroundModels.GroundModel) returns (added: seq<Difference>)
    ensures added == Seqs.Flatten(AdditionsPerMaterial(m1, m2))
  {
    ghost var perAddition := AdditionsPerMaterial(m1, m2);
    added := [];
    for k := 0 to |m2.materials|
      invariant added == Seqs.Flatten(perAddition[..k])
    {
      var mat2 := m2.materials[k];
      var step := [];
      if Validation.LacksMaterial(m1, mat2.id) {
        step := [MaterialAdded(mat2.id)];
      }
      Seqs.FlattenPrefix(perAddition, k);
      added := added + step;
    }
    assert perAddition[..|m2.materials|] == perAddition;
  }

  /** One pass of the loop over the zipped models. */
  method CompareModelPair(index: nat, m1: GroundModels.GroundModel, m2: GroundModels.GroundModel)
    returns (step: seq<Difference>)
    ensures step == PairDifferences(index, m1, m2)
  {
    step := [];
    if m1.id != m2.id {
      step := step + [ModelIdChanged(index, m1.id, m2.id)];
    }
    if m1.name != m2.name {
      step := step + [ModelNameChanged(index, m1.name, m2.name)];
    }
    assert step == When(m1.id != m2.id, ModelIdChanged(index, m1.id, m2.id))
                   + When(m1.name != m2.name, ModelNameChanged(index, m1.name, m2.name));
    var changes := CompareRemovedOrChanged(m1, m2);
    var added := CompareAdded(m1, m2);
    step := step + changes + added;
  }

  /** The five summary checks. */
  method CompareSummary(doc1: Documents.Document, doc2: Documents.Document) returns (differences: seq<Difference>)
    ensures differences == SummaryDifferences(doc1, doc2)
  {
    differences := [];
    var v1, v2 := doc1.agsSchema.version, doc2.agsSchema.version;
    if v1 != v2 {
      differences := differences + [SchemaVersionChanged(v1, v2)];
    }
    // `expected` follows the specification's sum one check at a time, so that each step
    // is proved on its own rather than all five cases at once.
    ghost var expected := When(v1 != v2, SchemaVersionChanged(v1, v2));
    assert differences == expected;
    var f1, f2 := doc1.agsFile.fileId, doc2.agsFile.fileId;
    if f1 != f2 {
      differences := differences + [FileIdChanged(f1, f2)];
    }
    expected := expected + When(f1 != f2, FileIdChanged(f1, f2));
    assert differences == expected;
    var models1, models2 := doc1.agsiModel, doc2.agsiModel;
    if |models1| != |models2| {
      differences := differences + [ModelCountChanged(|models1|, |models2|)];
    }
    expected := expected + When(|models1| != |models2|, ModelCountChanged(|models1|, |models2|));
    assert differences == expected;
    var materials1, materials2 := TotalMaterials(models1), TotalMaterials(models2);
    if materials1 != materials2 {
      differences := differences + [MaterialCountChanged(materials1, materials2)];
    }
    expected := expected + When(materials1 != materials2, MaterialCountChanged(materials1, materials2));
    assert differences == expected;
    var components1, components2 := TotalComponents(models1), TotalComponents(models2);
    if components1 != components2 {
      differences := differences + [ComponentCountChanged(components1, components2)];
    }
  }

  /** `execute`: the differences in the order the command pushes them, and
      `identical` cleared exactly when something was pushed. */
  method CompareDocuments(doc1: Documents.Document, doc2: Documents.Document, detailed: bool)
    returns (differences: seq<Difference>, identical: bool)
    ensures differences == Differences(doc1, doc2, detailed)
    ensures identical <==> differences == []
  {
    differences := CompareSummary(doc1, doc2);
    identical := differences == [];
    var models1, models2 := doc1.agsiModel, doc2.agsiModel;

    if detailed {
      ghost var summary := differences;
      ghost var perPair := PerPair(models1, models2);
      var pairs := [];
      for idx := 0 to PairCount(models1, models2)
        invariant pairs == Seqs.Flatten(perPair[..idx])
        invariant identical == (summary == [] && pairs == [])
      {
        var step := CompareModelPair(idx, models1[idx], models2[idx]);
        Seqs.FlattenPrefix(perPair, idx);
        pairs := pairs + step;
        if step != [] {
          identical := false;
        }
      }
      assert perPair[..PairCount(models1, models2)] == perPair;
      differences := differences + pairs;
      assert identical == (differences == []) by {
        assert |differences| == |summary| + |pairs|;
      }
    }
  }
}
