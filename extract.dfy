/** The model selection behind the `agsi extract` command (`commands/extract.rs`): which model's
    materials are extracted, or why none is. Loading the file, writing the JSON and printing
    the summary are not modelled. */
module Extract {
  import opened Wrappers
  import Materials
  import GroundModels
  import Documents

  /** The two ways the selection fails, with the text the command reports. */
  datatype ExtractError =
    | ModelNotFound(id: string)
    | NoModelChosen(available: seq<string>)
  {
    function Message(): string {
      match this
      case ModelNotFound(id) => "Model not found: " + id
      case NoModelChosen(ids) => "Multiple models found. Please specify --model <id>. Available: " + Join(ids, ", ")
    }
  }

  /** The parts with the separator between neighbours (`join`). */
  function Join(parts: seq<string>, separator: string): string {
    if |parts| == 0 then ""
    else if |parts| == 1 then parts[0]
    else Join(parts[..|parts| - 1], separator) + separator + parts[|parts| - 1]
  }

  /** The ids of the models, in document order. */
  function ModelIds(models: seq<GroundModels.GroundModel>): seq<string> {
    seq(|models|, i requires 0 <= i < |models| => models[i].id)
  }

  /** The model chosen: with an id, the first model carrying it; without one, the only model; any
      other case fails, an empty document included. */
  function SelectModel(doc: Documents.Document, modelId: Option<string>): (r: Result<GroundModels.GroundModel, ExtractError>)
    reads doc
    ensures modelId.Some? ==>
      (r.Ok? <==> exists i :: 0 <= i < |doc.agsiModel| && doc.agsiModel[i].id == modelId.value)
    ensures modelId.Some? && r.Ok? ==>
      exists i :: 0 <= i < |doc.agsiModel| && doc.agsiModel[i] == r.value && r.value.id == modelId.value
                  && forall j :: 0 <= j < i ==> doc.agsiModel[j].id != modelId.value
    ensures modelId.Some? && r.Err? ==> r.error == ModelNotFound(modelId.value)
    ensures modelId.None? ==> (r.Ok? <==> |doc.agsiModel| == 1)
    ensures modelId.None? && r.Ok? ==> r.value == doc.agsiModel[0]
    ensures modelId.None? && r.Err? ==> r.error == NoModelChosen(ModelIds(doc.agsiModel))
  {
    match modelId
    case Some(id) =>
      (match doc.GetModel(id)
       case Some(m) => Ok(m)
       case None => Err(ModelNotFound(id)))
    case None =>
      if |doc.agsiModel| == 1 then Ok(doc.agsiModel[0])
      else Err(NoModelChosen(ModelIds(doc.agsiModel)))
  }

  /** What is extracted is the chosen model's material list, in its stored order. */
  function ExtractMaterials(doc: Documents.Document, modelId: Option<string>): (r: Result<seq<Materials.Material>, ExtractError>)
    reads doc
    ensures r.Ok? <==> SelectModel(doc, modelId).Ok?
    ensures r.Ok? ==> r.value == SelectModel(doc, modelId).value.materials
    ensures r.Err? ==> r.error == SelectModel(doc, modelId).error
  {
    match SelectModel(doc, modelId)
    case Ok(m) => Ok(m.materials)
    case Err(e) => Err(e)
  }

  /** Without an id, a document with no models fails like one with several: the message
      still says several models were found, and lists none. */
  lemma EmptyDocumentNotExtracted(doc: Documents.Document)
    requires doc.agsiModel == []
    ensures SelectModel(doc, None) == Err(NoModelChosen([]))
    ensures SelectModel(doc, None).error.Message()
            == "Multiple models found. Please specify --model <id>. Available: "
  {
    assert ModelIds(doc.agsiModel) == [];
  }

  /** The listing of two models in the failure message. */
  lemma TwoModelsListed()
    ensures NoModelChosen(["GM1", "GM2"]).Message()
            == "Multiple models found. Please specify --model <id>. Available: GM1, GM2"
  {
    assert ["GM1", "GM2"][..1] == ["GM1"];
  }
}
