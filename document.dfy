/** The legacy root aggregate (`document.rs`): a document that callers build up in place,
    look models up in, and pass through the structural check before saving or after loading. */
module Documents {
  import opened Wrappers
  import AgsiCore
  import Seqs
  import Projects
  import GroundModels
  import Materials

  datatype SchemaInfo = SchemaInfo(version: string, variant: Option<string>)

  datatype FileInfo = FileInfo(
    fileId: string,
    fileName: Option<string>,
    fileDate: Option<string>,
    fileAuthor: Option<string>,
    fileSoftware: Option<string>,
    fileVersion: Option<string>,
    fileComments: Option<string>)

  /** Position of the first model with this id, the slot that both lookups land on. */
  function FirstModelIndex(models: seq<GroundModels.GroundModel>, id: string): (r: Option<nat>)
    ensures r.None? <==> forall i :: 0 <= i < |models| ==> models[i].id != id
    ensures r.Some? ==> r.value < |models| && models[r.value].id == id
    ensures r.Some? ==> forall i :: 0 <= i < r.value ==> models[i].id != id
  {
    Seqs.FirstIndex(models, (m: GroundModels.GroundModel) => m.id == id)
  }

  class Document {
    var agsSchema: SchemaInfo
    var agsFile: FileInfo
    var agsProject: Option<Projects.Project>
    var agsiModel: seq<GroundModels.GroundModel>
    var extensions: map<string, AgsiCore.JsonValue>

    /** `Document::new`: the library's schema version, this file id, "agsi-rust" as the
        producing software, the crate version (passed in, as it comes from the build) and no
        project, models or extensions. */
    constructor (fileId: string, packageVersion: string)
      ensures agsSchema == SchemaInfo(AgsiCore.AGSI_VERSION, None)
      ensures agsFile == FileInfo(fileId, None, None, None, Some(AgsiCore.SOFTWARE_NAME), Some(packageVersion), None)
      ensures agsProject == None && agsiModel == [] && extensions == map[]
    {
      agsSchema := SchemaInfo(AgsiCore.AGSI_VERSION, None);
      agsFile := FileInfo(fileId, None, None, None, Some(AgsiCore.SOFTWARE_NAME), Some(packageVersion), None);
      agsProject := None;
      agsiModel := [];
      extensions := map[];
    }

    /** `with_project`: sets the project only. */
    method WithProject(p: Projects.Project)
      modifies this`agsProject
      ensures agsProject == Some(p)
    {
      agsProject := Some(p);
    }

    /** `add_model`: appends the model after the existing ones. */
    method AddModel(m: GroundModels.GroundModel)
      modifies this`agsiModel
      ensures agsiModel == old(agsiModel) + [m]
    {
      agsiModel := agsiModel + [m];
    }

    /** `get_model`: the first model with this id, None when there is none. */
    function GetModel(id: string): (r: Option<GroundModels.GroundModel>)
      reads this
      ensures r.None? <==> forall i :: 0 <= i < |agsiModel| ==> agsiModel[i].id != id
      ensures r.Some? ==> r.value.id == id
      ensures r.Some? ==> exists i :: 0 <= i < |agsiModel| && agsiModel[i] == r.value
                                      && forall j :: 0 <= j < i ==> agsiModel[j].id != id
    {
      match FirstModelIndex(agsiModel, id)
      case None => None
      case Some(i) => Some(agsiModel[i])
    }

    /** `get_model_mut`: the mutable slot of the first model with this id, given as its
        position; it holds exactly the model `get_model` returns. */
    method GetModelMut(id: string) returns (slot: Option<nat>)
      ensures slot.None? <==> GetModel(id).None?
      ensures slot.Some? ==> slot.value < |agsiModel| && GetModel(id) == Some(agsiModel[slot.value])
      ensures slot.Some? ==> forall i :: 0 <= i < slot.value ==> agsiModel[i].id != id
    {
      slot := FirstModelIndex(agsiModel, id);
    }

    /** `with_file_name`: sets the file name only. */
    method WithFileName(n: string)
      modifies this`agsFile
      ensures agsFile == old(agsFile).(fileName := Some(n))
    {
      agsFile := agsFile.(fileName := Some(n));
    }

    /** `with_author`: sets the author only. */
    method WithAuthor(a: string)
      modifies this`agsFile
      ensures agsFile == old(agsFile).(fileAuthor := Some(a))
    {
      agsFile := agsFile.(fileAuthor := Some(a));
    }

    /** `with_comments`: sets the comments only. */
    method WithComments(c: string)
      modifies this`agsFile
      ensures agsFile == old(agsFile).(fileComments := Some(c))
    {
      agsFile := agsFile.(fileComments := Some(c));
    }
  }

  /** `to_json_string`: the structural check runs first and a failure stops the save; otherwise
      the output is the serializer's text, passed in as `rendered`. */
  function ToJsonString(check: AgsiCore.DeriveOutcome, rendered: string): (r: Result<string, AgsiCore.Error>)
    ensures r.Ok? <==> check.Passed?
    ensures r.Ok? ==> r.value == rendered
    ensures r.Err? ==> r.error == AgsiCore.Validation(check.text)
  {
    if check.Failed? then Err(AgsiCore.Validation(check.text)) else Ok(rendered)
  }

  /** `from_json_str`: a parse failure is returned as it is; a parsed document is handed back
      only when the structural check on it passes. */
  function FromJsonStr<D>(parsed: Result<D, AgsiCore.Error>, check: AgsiCore.DeriveOutcome): (r: Result<D, AgsiCore.Error>)
    ensures r.Ok? <==> parsed.Ok? && check.Passed?
    ensures r.Ok? ==> r.value == parsed.value
    ensures parsed.Err? ==> r == parsed
    ensures parsed.Ok? && check.Failed? ==> r.error == AgsiCore.Validation(check.text)
  {
    if parsed.Err? then parsed
    else if check.Failed? then Err(AgsiCore.Validation(check.text))
    else parsed
  }

  /** The crate's document test: a new document with a file name and an author keeps its id,
      records the author and carries the library's schema version. */
  method DocumentBuilderExample() returns (fileId: string, author: Option<string>, version: string)
    ensures fileId == "DOC001" && author == Some("Test Author") && version == AgsiCore.AGSI_VERSION
  {
    var doc := new Document("DOC001", "0.1.0");
    doc.WithFileName("test.agsi");
    doc.WithAuthor("Test Author");
    fileId, author, version := doc.agsFile.fileId, doc.agsFile.fileAuthor, doc.agsSchema.version;
  }

  /** The crate's second document test: after adding one model, the document holds one model and
      finds it by its id. */
  method DocumentWithModelExample() returns (count: nat, found: bool)
    ensures count == 1 && found
  {
    var doc := new Document("DOC001", "0.1.0");
    var model := GroundModels.GroundModel.New("MODEL001", "Test Model",
                                               GroundModels.Stratigraphic, GroundModels.TwoD);
    model := model.AddMaterial(Materials.Material.New("MAT001", "Clay", Materials.Soil));
    doc.AddModel(model);
    count := |doc.agsiModel|;
    found := doc.GetModel("MODEL001").Some?;
  }
}
