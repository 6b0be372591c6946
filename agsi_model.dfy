/** The AGSi 1.0.1 schema tree (`agsi_model.rs`): the root, models, model elements and their
    data records. */
module AgsiSchema {
  import opened Wrappers
  import AgsiCore
  import opened ParameterCodes
  import opened ParameterCodeTable

  // ---------------------------------------------------------------------------------------
  // The schema records.

  datatype AgsSchema = AgsSchema(name: string, version: string, link: Option<string>)

  datatype AgsFile = AgsFile(
    fileUuid: Option<string>,
    title: Option<string>,
    projectName: string,
    projectTitle: Option<string>,
    description: Option<string>,
    projectCountry: Option<string>,
    producerProjectId: Option<string>,
    clientProjectId: Option<string>,
    remarks: Option<string>)

  datatype AgsProject = AgsProject(
    parentProjectName: Option<string>,
    ultimateProjectName: Option<string>,
    ultimateProjectClient: Option<string>)

  /** A value point of a profile: (independent variable, value). */
  datatype ProfilePoint = ProfilePoint(at: real, value: real)

  /** A parameter value of a model element; `codeId` is a standard code's identifier or free text. */
  datatype AgsiDataParameterValue = AgsiDataParameterValue(
    dataId: Option<string>,
    codeId: string,
    caseId: Option<string>,
    valueNumeric: Option<real>,
    valueText: Option<string>,
    valueProfileIndVarCodeId: Option<string>,
    valueProfile: Option<seq<ProfilePoint>>,
    remarks: Option<string>)
  {
    /** `numeric`: a numeric value under any code, standard or free text. */
    static function Numeric(codeId: string, value: real): (p: AgsiDataParameterValue)
      ensures p.codeId == codeId && p.valueNumeric == Some(value) && p.valueText == None
      ensures p.dataId == None && p.caseId == None && p.valueProfileIndVarCodeId == None
      ensures p.valueProfile == None && p.remarks == None
    {
      AgsiDataParameterValue(None, codeId, None, Some(value), None, None, None, None)
    }

    /** `text`: a text value under any code. */
    static function Text(codeId: string, value: string): (p: AgsiDataParameterValue)
      ensures p.codeId == codeId && p.valueText == Some(value) && p.valueNumeric == None
      ensures p.dataId == None && p.caseId == None && p.valueProfileIndVarCodeId == None
      ensures p.valueProfile == None && p.remarks == None
    {
      AgsiDataParameterValue(None, codeId, None, None, Some(value), None, None, None)
    }

    /** `from_standard_code`: a numeric value under a standard code, whose identifier parses
        back to that code. */
    static function FromStandardCode(code: AgsiParameterCode, value: real): (p: AgsiDataParameterValue)
      ensures p == Numeric(code.AsCodeId(), value)
      ensures FromCodeId(p.codeId) == Some(code)
    {
      CodeIdRoundTrip(code);
      Numeric(code.AsCodeId(), value)
    }

    /** `with_case`: sets the case identifier and nothing else. */
    function WithCase(caseId: string): (p: AgsiDataParameterValue)
      ensures p.caseId == Some(caseId)
      ensures p.(caseId := this.caseId) == this
    {
      this.(caseId := Some(caseId))
    }
  }

  datatype AgsiDataPropertyValue = AgsiDataPropertyValue(
    dataId: Option<string>,
    codeId: string,
    caseId: Option<string>,
    valueNumeric: Option<real>,
    valueText: Option<string>,
    remarks: Option<string>)

  datatype AgsiDataPropertySummary = AgsiDataPropertySummary(
    dataId: Option<string>,
    codeId: string,
    caseId: Option<string>,
    valueMin: Option<real>,
    valueMax: Option<real>,
    valueMean: Option<real>,
    remarks: Option<string>)

  datatype AgsiModelBoundary = AgsiModelBoundary(
    boundaryId: Option<string>,
    description: Option<string>,
    minX: Option<real>,
    maxX: Option<real>,
    minY: Option<real>,
    maxY: Option<real>,
    topElevation: Option<real>,
    bottomElevation: Option<real>,
    remarks: Option<string>)

  /** A model element: a material or geological unit with its parameter data. */
  datatype AgsiModelElement = AgsiModelElement(
    elementId: Option<string>,
    elementName: Option<string>,
    description: Option<string>,
    elementType: Option<string>,
    geometryObject: Option<string>,
    agsiGeometry: Option<AgsiCore.JsonValue>,
    agsiGeometryAreaLimit: Option<AgsiCore.JsonValue>,
    agsiDataParameterValue: seq<AgsiDataParameterValue>,
    agsiDataPropertyValue: seq<AgsiDataPropertyValue>,
    agsiDataPropertySummary: seq<AgsiDataPropertySummary>,
    agsiDataPropertyFromFile: Option<AgsiCore.JsonValue>,
    colourRgb: Option<string>,
    remarks: Option<string>)
  {
    /** `new`: every optional field absent and every list empty. */
    static function New(): (e: AgsiModelElement)
      ensures e.elementId == None && e.elementName == None && e.description == None
      ensures e.elementType == None && e.geometryObject == None
      ensures e.agsiGeometry == None && e.agsiGeometryAreaLimit == None
      ensures e.agsiDataParameterValue == [] && e.agsiDataPropertyValue == [] && e.agsiDataPropertySummary == []
      ensures e.agsiDataPropertyFromFile == None && e.colourRgb == None && e.remarks == None
    {
      AgsiModelElement(None, None, None, None, None, None, None, [], [], [], None, None, None)
    }

    /** `with_name`: sets the name and nothing else. */
    function WithName(name: string): (e: AgsiModelElement)
      ensures e.elementName == Some(name)
      ensures e.(elementName := this.elementName) == this
    {
      this.(elementName := Some(name))
    }

    /** `with_description`: sets the description and nothing else. */
    function WithDescription(description: string): (e: AgsiModelElement)
      ensures e.description == Some(description)
      ensures e.(description := this.description) == this
    {
      this.(description := Some(description))
    }

    /** `add_parameter`: the parameter goes at the end of the list; nothing else changes. */
    function AddParameter(parameter: AgsiDataParameterValue): (e: AgsiModelElement)
      ensures |e.agsiDataParameterValue| == |agsiDataParameterValue| + 1
      ensures e.agsiDataParameterValue[..|agsiDataParameterValue|] == agsiDataParameterValue
      ensures e.agsiDataParameterValue[|agsiDataParameterValue|] == parameter
      ensures e.(agsiDataParameterValue := this.agsiDataParameterValue) == this
    {
      this.(agsiDataParameterValue := agsiDataParameterValue + [parameter])
    }

    /** `with_parameter`: the builder form, with the same effect as `add_parameter`. */
    function WithParameter(parameter: AgsiDataParameterValue): (e: AgsiModelElement)
      ensures e == AddParameter(parameter)
    {
      this.(agsiDataParameterValue := agsiDataParameterValue + [parameter])
    }
  }

  /** A ground model in AGSi form. */
  datatype AgsiModel = AgsiModel(
    modelId: Option<string>,
    modelName: Option<string>,
    description: Option<string>,
    coordSystemId: Option<string>,
    modelType: Option<string>,
    category: Option<string>,
    domain: Option<string>,
    input: Option<string>,
    modelMethod: Option<string>,
    usage: Option<string>,
    uncertainty: Option<string>,
    documentSetId: Option<string>,
    alignmentId: Option<string>,
    agsiModelElement: seq<AgsiModelElement>,
    agsiModelBoundary: Option<AgsiModelBoundary>,
    remarks: Option<string>)
  {
    /** `new`: every optional field absent and no elements. */
    static function New(): (m: AgsiModel)
      ensures m.modelId == None && m.modelName == None && m.description == None && m.coordSystemId == None
      ensures m.modelType == None && m.category == None && m.domain == None && m.input == None
      ensures m.modelMethod == None && m.usage == None && m.uncertainty == None
      ensures m.documentSetId == None && m.alignmentId == None
      ensures m.agsiModelElement == [] && m.agsiModelBoundary == None && m.remarks == None
    {
      AgsiModel(None, None, None, None, None, None, None, None, None, None, None, None, None, [], None, None)
    }

    /** `add_element`: the element goes at the end of the list; nothing else changes. */
    function AddElement(element: AgsiModelElement): (m: AgsiModel)
      ensures |m.agsiModelElement| == |agsiModelElement| + 1
      ensures m.agsiModelElement[..|agsiModelElement|] == agsiModelElement
      ensures m.agsiModelElement[|agsiModelElement|] == element
      ensures m.(agsiModelElement := this.agsiModelElement) == this
    {
      this.(agsiModelElement := agsiModelElement + [element])
    }
  }

  const AGSI_SCHEMA_NAME: string := "AGSi"
  const AGSI_SCHEMA_LINK: string := "https://ags-data-format-wg.gitlab.io/agsi/agsi_standard/1.0.1/"

  /** The root of an AGSi file; models are added to it in place. */
  class AgsiRoot {
    var agsSchema: AgsSchema
    var agsFile: AgsFile
    var agsProject: Option<AgsProject>
    var agsiModel: seq<AgsiModel>

    /** `new`: the AGSi 1.0.1 schema header, a file record holding only the project name,
        no project and no models. */
    constructor (projectName: string)
      ensures agsSchema == AgsSchema(AGSI_SCHEMA_NAME, AgsiCore.AGSI_VERSION, Some(AGSI_SCHEMA_LINK))
      ensures agsFile == AgsFile(None, None, projectName, None, None, None, None, None, None)
      ensures agsProject == None && agsiModel == []
    {
      agsSchema := AgsSchema(AGSI_SCHEMA_NAME, AgsiCore.AGSI_VERSION, Some(AGSI_SCHEMA_LINK));
      agsFile := AgsFile(None, None, projectName, None, None, None, None, None, None);
      agsProject := None;
      agsiModel := [];
    }

    /** `add_model`: the model goes at the end; nothing else changes. */
    method AddModel(model: AgsiModel)
      modifies this`agsiModel
      ensures agsiModel == old(agsiModel) + [model]
    {
      agsiModel := agsiModel + [model];
    }
  }

  // ---------------------------------------------------------------------------------------
  // The crate's own examples.

  /** A new root carries the AGSi name, version 1.0.1 and the given project name. */
  method NewRootExample() returns (name: string, version: string, projectName: string)
    ensures name == "AGSi" && version == "1.0.1" && projectName == "Test Project"
  {
    var root := new AgsiRoot("Test Project");
    name := root.agsSchema.name;
    version := root.agsSchema.version;
    projectName := root.agsFile.projectName;
  }

  /** An element built with a name, a description and two parameters keeps the name and both
      parameters, in order. */
  lemma ModelElementExample()
    ensures var e := AgsiModelElement.New().WithName("Dense Sand").WithDescription("Dense, medium to coarse sand")
                       .AddParameter(AgsiDataParameterValue.Numeric("UnitWeightBulk", 19.0))
                       .AddParameter(AgsiDataParameterValue.Numeric("AngleFriction", 35.0));
            e.elementName == Some("Dense Sand") && |e.agsiDataParameterValue| == 2
            && e.agsiDataParameterValue[0].codeId == "UnitWeightBulk"
            && e.agsiDataParameterValue[1].valueNumeric == Some(35.0)
  {
  }

  /** A free-text code is kept verbatim and is not a standard code. */
  lemma FreeTextParameterExample()
    ensures AgsiDataParameterValue.Text("CustomParameter", "Custom Value").codeId == "CustomParameter"
    ensures AgsiDataParameterValue.Text("CustomParameter", "Custom Value").valueText == Some("Custom Value")
    ensures FromCodeId("CustomParameter") == None
  {
  }

  /** A root with one model holding one element, as the crate's round-trip test builds it. */
  method OneModelOneElementExample() returns (modelCount: nat, elementCount: nat, code: string)
    ensures modelCount == 1 && elementCount == 1 && code == "UnitWeightBulk"
  {
    var root := new AgsiRoot("Test Project");
    var model := AgsiModel.New().(modelName := Some("Test Model"));
    var element := AgsiModelElement.New().WithName("Test Material")
                     .WithParameter(AgsiDataParameterValue.FromStandardCode(UnitWeightBulk, 20.0));
    model := model.AddElement(element);
    root.AddModel(model);
    modelCount := |root.agsiModel|;
    elementCount := |root.agsiModel[0].agsiModelElement|;
    code := root.agsiModel[0].agsiModelElement[0].agsiDataParameterValue[0].codeId;
  }
}
