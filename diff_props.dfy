/** What the comparison of `agsi diff` guarantees: the totals count every model's list, a
    document compared with itself is identical (in detailed mode, when each model's material
    ids are unique), models past the shorter list are never paired, and materials are reported
    removed, added or changed exactly when the pairing says so. */
module DiffProperties {
  import Seqs
  import Materials
  import GroundModels
  import Documents
  import opened Validation
  import opened ValidationProperties
  import opened Diff

  // ---------------------------------------------------------------------------------------
  // Totals.

  /** Each model's materials, in model order. */
  function MaterialLists(models: seq<GroundModels.GroundModel>): seq<seq<Materials.Material>> {
    seq(|models|, i requires 0 <= i < |models| => models[i].materials)
  }

  /** Each model's components, in model order. */
  function ComponentLists(models: seq<GroundModels.GroundModel>): seq<seq<GroundModels.ModelComponent>> {
    seq(|models|, i requires 0 <= i < |models| => models[i].components)
  }

  /** The totals count every material and every component of every model: they are the
      lengths of all the lists put together. */
  lemma {:induction false} TotalsCountAllLists(models: seq<GroundModels.GroundModel>)
    ensures TotalMaterials(models) == |Seqs.Flatten(MaterialLists(models))|
    ensures TotalComponents(models) == |Seqs.Flatten(ComponentLists(models))|
  {
    if |models| > 0 {
      var init := models[..|models| - 1];
      TotalsCountAllLists(init);
      assert MaterialLists(models)[..|models| - 1] == MaterialLists(init);
      assert ComponentLists(models)[..|models| - 1] == ComponentLists(init);
    }
  }

  /** Adding a model adds its materials and components to the totals. */
  lemma {:induction false} TotalsAppend(models: seq<GroundModels.GroundModel>, m: GroundModels.GroundModel)
    ensures TotalMaterials(models + [m]) == TotalMaterials(models) + |m.materials|
    ensures TotalComponents(models + [m]) == TotalComponents(models) + |m.components|
  {
    assert (models + [m])[..|models|] == models;
  }

  // ---------------------------------------------------------------------------------------
  // Materials of a pair of models.

  /** A material is compared with the first material of the paired model that has its id:
      a name change is reported exactly when the two names differ, a property-count change
      exactly when the counts differ, and the material is not reported removed. */
  lemma MatchedMaterialCompared(mat1: Materials.Material, m2: GroundModels.GroundModel, k: nat)
    requires k < |m2.materials| && m2.materials[k].id == mat1.id
    requires forall l :: 0 <= l < k ==> m2.materials[l].id != mat1.id
    ensures var mat2 := m2.materials[k];
      (MaterialNameChanged(mat1.id, mat1.name, mat2.name) in MaterialChanges(mat1, m2)) == (mat1.name != mat2.name)
    ensures var mat2 := m2.materials[k];
      (MaterialPropertiesChanged(mat1.id, |mat1.properties|, |mat2.properties|) in MaterialChanges(mat1, m2))
      == (|mat1.properties| != |mat2.properties|)
    ensures MaterialRemoved(mat1.id) !in MaterialChanges(mat1, m2)
  {
    var found := m2.GetMaterial(mat1.id);
    assert found.Some?;
    var k' :| 0 <= k' < |m2.materials| && m2.materials[k'] == found.value
              && forall l :: 0 <= l < k' ==> m2.materials[l].id != mat1.id;
    assert k' == k;
  }

  /** What a single material of the first model contributes mentions only its own id. */
  lemma MaterialChangesAbout(mat1: Materials.Material, m2: GroundModels.GroundModel, id: string)
    ensures MaterialRemoved(id) in MaterialChanges(mat1, m2) <==> mat1.id == id && LacksMaterial(m2, id)
  {
  }

  /** A material id is reported removed exactly when the first model has it and the paired
      model does not. */
  lemma RemovedReported(m1: GroundModels.GroundModel, m2: GroundModels.GroundModel, id: string)
    ensures MaterialRemoved(id) in Seqs.Flatten(ChangesPerMaterial(m1, m2))
            <==> !LacksMaterial(m1, id) && LacksMaterial(m2, id)
  {
    var per := ChangesPerMaterial(m1, m2);
    Seqs.FlattenMember(per, MaterialRemoved(id));
    if MaterialRemoved(id) in Seqs.Flatten(per) {
      var k :| 0 <= k < |per| && MaterialRemoved(id) in per[k];
      MaterialChangesAbout(m1.materials[k], m2, id);
    }
    if !LacksMaterial(m1, id) && LacksMaterial(m2, id) {
      var k :| 0 <= k < |m1.materials| && m1.materials[k].id == id;
      MaterialChangesAbout(m1.materials[k], m2, id);
      assert MaterialRemoved(id) in per[k];
    }
  }

  /** A material id is reported added exactly when the paired model has it and the first
      model does not. */
  lemma AddedReported(m1: GroundModels.GroundModel, m2: GroundModels.GroundModel, id: string)
    ensures MaterialAdded(id) in Seqs.Flatten(AdditionsPerMaterial(m1, m2))
            <==> !LacksMaterial(m2, id) && LacksMaterial(m1, id)
  {
    var per := AdditionsPerMaterial(m1, m2);
    Seqs.FlattenMember(per, MaterialAdded(id));
    if MaterialAdded(id) in Seqs.Flatten(per) {
      var k :| 0 <= k < |per| && MaterialAdded(id) in per[k];
      assert m2.materials[k].id == id;
    }
    if !LacksMaterial(m2, id) && LacksMaterial(m1, id) {
      var k :| 0 <= k < |m2.materials| && m2.materials[k].id == id;
      assert MaterialAdded(id) in per[k];
    }
  }

  /** The additions of a pair never report a removal, and its changes never an addition. */
  lemma PairListsKeepToTheirKind(m1: GroundModels.GroundModel, m2: GroundModels.GroundModel, id: string)
    ensures MaterialRemoved(id) !in Seqs.Flatten(AdditionsPerMaterial(m1, m2))
    ensures MaterialAdded(id) !in Seqs.Flatten(ChangesPerMaterial(m1, m2))
  {
    Seqs.FlattenMember(AdditionsPerMaterial(m1, m2), MaterialRemoved(id));
    Seqs.FlattenMember(ChangesPerMaterial(m1, m2), MaterialAdded(id));
  }

  /** Within one pair, a removal is reported exactly when the first model has the id and
      the second does not, and an addition exactly the other way round. */
  lemma PairReportsMaterialMoves(index: nat, m1: GroundModels.GroundModel, m2: GroundModels.GroundModel, id: string)
    ensures MaterialRemoved(id) in PairDifferences(index, m1, m2)
            <==> !LacksMaterial(m1, id) && LacksMaterial(m2, id)
    ensures MaterialAdded(id) in PairDifferences(index, m1, m2)
            <==> !LacksMaterial(m2, id) && LacksMaterial(m1, id)
  {
    RemovedReported(m1, m2, id);
    AddedReported(m1, m2, id);
    PairListsKeepToTheirKind(m1, m2, id);
  }

  /** The summary never reports a material as removed or added. */
  lemma SummaryNamesNoMaterial(doc1: Documents.Document, doc2: Documents.Document, id: string)
    ensures MaterialRemoved(id) !in SummaryDifferences(doc1, doc2)
    ensures MaterialAdded(id) !in SummaryDifferences(doc1, doc2)
  {
  }

  /** Over the pairs of two model lists: a removal is reported exactly when some pair has the
      id in its first model only, and an addition exactly when some pair has it in its second
      model only. */
  lemma PairsReportMaterialMoves(ms1: seq<GroundModels.GroundModel>, ms2: seq<GroundModels.GroundModel>, id: string)
    ensures MaterialRemoved(id) in Seqs.Flatten(PerPair(ms1, ms2))
            <==> exists i :: 0 <= i < PairCount(ms1, ms2) && !LacksMaterial(ms1[i], id) && LacksMaterial(ms2[i], id)
    ensures MaterialAdded(id) in Seqs.Flatten(PerPair(ms1, ms2))
            <==> exists i :: 0 <= i < PairCount(ms1, ms2) && !LacksMaterial(ms2[i], id) && LacksMaterial(ms1[i], id)
  {
    var per := PerPair(ms1, ms2);
    assert |per| == PairCount(ms1, ms2);
    forall i | 0 <= i < |per|
      ensures (MaterialRemoved(id) in per[i]) == (!LacksMaterial(ms1[i], id) && LacksMaterial(ms2[i], id))
      ensures (MaterialAdded(id) in per[i]) == (!LacksMaterial(ms2[i], id) && LacksMaterial(ms1[i], id))
    {
      assert per[i] == PairDifferences(i, ms1[i], ms2[i]);
      PairReportsMaterialMoves(i, ms1[i], ms2[i], id);
    }
    Seqs.FlattenMember(per, MaterialRemoved(id));
    Seqs.FlattenMember(per, MaterialAdded(id));
  }

  /** Across whole documents: a material id is reported removed exactly when some pair of
      models formed by position has it in the first model and not in the second, and only
      in detailed mode. */
  lemma RemovedInDifferences(doc1: Documents.Document, doc2: Documents.Document, id: string)
    ensures MaterialRemoved(id) !in Differences(doc1, doc2, false)
    ensures MaterialRemoved(id) in Differences(doc1, doc2, true)
            <==> exists i :: 0 <= i < PairCount(doc1.agsiModel, doc2.agsiModel)
                   && !LacksMaterial(doc1.agsiModel[i], id) && LacksMaterial(doc2.agsiModel[i], id)
  {
    SummaryNamesNoMaterial(doc1, doc2, id);
    PairsReportMaterialMoves(doc1.agsiModel, doc2.agsiModel, id);
  }

  /** The mirror of `RemovedInDifferences`: a material id is reported added exactly when some
      pair of models has it in the second model and not in the first. */
  lemma AddedInDifferences(doc1: Documents.Document, doc2: Documents.Document, id: string)
    ensures MaterialAdded(id) !in Differences(doc1, doc2, false)
    ensures MaterialAdded(id) in Differences(doc1, doc2, true)
            <==> exists i :: 0 <= i < PairCount(doc1.agsiModel, doc2.agsiModel)
                   && !LacksMaterial(doc2.agsiModel[i], id) && LacksMaterial(doc1.agsiModel[i], id)
  {
    SummaryNamesNoMaterial(doc1, doc2, id);
    PairsReportMaterialMoves(doc1.agsiModel, doc2.agsiModel, id);
  }

  // ---------------------------------------------------------------------------------------
  // Comparing a document with itself.

  /** With unique material ids, every material of a model finds itself in the same model. */
  lemma SelfMaterialUnchanged(m: GroundModels.GroundModel, k: nat)
    requires UniqueMaterialIds(m) && k < |m.materials|
    ensures MaterialChanges(m.materials[k], m) == []
    ensures MaterialAddition(m.materials[k], m) == []
  {
    var mat := m.materials[k];
    var found := m.GetMaterial(mat.id);
    assert found.Some?;
    var k' :| 0 <= k' < |m.materials| && m.materials[k'] == found.value;
    assert k' == k;
  }

  /** A model with unique material ids compared with itself gives nothing. */
  lemma SelfPairIdentical(index: nat, m: GroundModels.GroundModel)
    requires UniqueMaterialIds(m)
    ensures PairDifferences(index, m, m) == []
  {
    var changes := ChangesPerMaterial(m, m);
    var additions := AdditionsPerMaterial(m, m);
    forall k | 0 <= k < |m.materials|
      ensures changes[k] == [] && additions[k] == []
    {
      SelfMaterialUnchanged(m, k);
    }
    Seqs.FlattenEmpty(changes);
    Seqs.FlattenEmpty(additions);
  }

  /** A document compared with itself is identical in summary mode, and also in detailed mode
      when no model repeats a material id. */
  lemma SelfDiffIdentical(doc: Documents.Document)
    ensures Differences(doc, doc, false) == []
    ensures (forall i :: 0 <= i < |doc.agsiModel| ==> UniqueMaterialIds(doc.agsiModel[i]))
            ==> Differences(doc, doc, true) == []
  {
    if forall i :: 0 <= i < |doc.agsiModel| ==> UniqueMaterialIds(doc.agsiModel[i]) {
      var per := PerPair(doc.agsiModel, doc.agsiModel);
      forall i | 0 <= i < |per|
        ensures per[i] == []
      {
        SelfPairIdentical(i, doc.agsiModel[i]);
      }
      Seqs.FlattenEmpty(per);
    }
  }

  /** The uniqueness premise is needed: with two materials sharing an id under different
      names, the second is compared with the first, and a model differs from itself. */
  lemma DuplicateMaterialIdSelfDiffers()
    ensures var a := Materials.Material.New("M1", "Clay", Materials.Soil);
      var b := Materials.Material.New("M1", "Sand", Materials.Soil);
      var m := GroundModels.GroundModel.New("GM1", "Model", GroundModels.Geotechnical, GroundModels.ThreeD)
        .AddMaterial(a).AddMaterial(b);
      MaterialNameChanged("M1", "Sand", "Clay") in PairDifferences(0, m, m)
  {
    var a := Materials.Material.New("M1", "Clay", Materials.Soil);
    var b := Materials.Material.New("M1", "Sand", Materials.Soil);
    var m := GroundModels.GroundModel.New("GM1", "Model", GroundModels.Geotechnical, GroundModels.ThreeD)
      .AddMaterial(a).AddMaterial(b);
    assert m.materials == [a, b];
    MatchedMaterialCompared(b, m, 0);
    var per := ChangesPerMaterial(m, m);
    assert MaterialNameChanged("M1", "Sand", "Clay") in per[1];
    Seqs.FlattenMember(per, MaterialNameChanged("M1", "Sand", "Clay"));
  }

  // ---------------------------------------------------------------------------------------
  // Pairing by position.

  /** Models past the end of the shorter list are never compared one by one: extending the
      longer list changes nothing in the detailed part. */
  lemma PairingStopsAtShorter(ms1: seq<GroundModels.GroundModel>, ms2: seq<GroundModels.GroundModel>,
                              extra: seq<GroundModels.GroundModel>)
    ensures |ms1| <= |ms2| ==> PerPair(ms1, ms2 + extra) == PerPair(ms1, ms2)
    ensures |ms2| <= |ms1| ==> PerPair(ms1 + extra, ms2) == PerPair(ms1, ms2)
  {
    if |ms1| <= |ms2| {
      var a, b := PerPair(ms1, ms2 + extra), PerPair(ms1, ms2);
      assert |a| == |b|;
      forall i | 0 <= i < |a|
        ensures a[i] == b[i]
      {
        assert (ms2 + extra)[i] == ms2[i];
      }
    }
    if |ms2| <= |ms1| {
      var a, b := PerPair(ms1 + extra, ms2), PerPair(ms1, ms2);
      assert |a| == |b|;
      forall i | 0 <= i < |a|
        ensures a[i] == b[i]
      {
        assert (ms1 + extra)[i] == ms1[i];
      }
    }
  }
}
