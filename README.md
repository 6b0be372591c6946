# AGSi core model in Dafny

This project models the core of a Rust library for AGSi, the AGS data format for ground
models and interpreted subsurface data (AGSi 1.0.1). It also models two commands of the
library's command-line tool.

The model covers:

- **The domain model.**
  - A `Document` holds file and schema information, an optional project and a list of ground
    models.
  - A ground model holds materials, components and an optional spatial extent.
  - Materials carry named engineering properties.
  - Components carry geometry: points, lines, polygons, OBJ surfaces and collections.
- **The AGSi 1.0.1 schema tree.**
  - The root, models, model elements and parameter values.
  - The table of 35 standard parameter codes, with their units, categories, descriptions and
    code ids.
- **The validation engine.** It makes one pass over a document and collects every error and
  warning:
  - structural errors from the derived field checks;
  - a schema version warning;
  - duplicate model ids;
  - components that name a material missing from their model;
  - duplicate material ids within a model;
  - extents with an axis out of order.
- **`agsi diff`.** It compares two documents and produces a summary, plus an optional detailed
  per-model, per-material comparison.
- **`agsi extract`.** It chooses the model whose materials are extracted, or says why none is.

The modules follow the source files:

| Dafny file | Module | Source file |
|---|---|---|
| `core.dfy` | `AgsiCore` | `lib.rs` and `error.rs` |
| `geometry.dfy` | `Geometries` | `geometry.rs` |
| `material.dfy` | `Materials` | `material.rs` |
| `project.dfy` | `Projects` | `project.rs` |
| `model.dfy` | `GroundModels` | `model.rs` |
| `document.dfy` | `Documents` | `document.rs` |
| `validation.dfy` | `Validation` | `validation.rs` |
| `validation_props.dfy` | `ValidationProperties` | properties of `validation.rs` |
| `parameter_codes.dfy` | `ParameterCodes`, `ParameterCodeTable` | the parameter code part of `agsi_model.rs` |
| `agsi_model.dfy` | `AgsiSchema` | the rest of `agsi_model.rs` |
| `diff.dfy` | `Diff` | `commands/diff.rs` |
| `diff_props.dfy` | `DiffProperties` | properties of `commands/diff.rs` |
| `extract.dfy` | `Extract` | `commands/extract.rs` |

`wrappers.dfy` holds `Option` and `Result`. `seqs.dfy` holds the sequence helpers the library
gets from Rust iterators: `find`, `filter`, `position` and flattening.

Most entities are values. The two root aggregates are classes: callers build them up in place.

- `Documents.Document` and `AgsiSchema.AgsiRoot` are classes. Their `add_model` is a method with
  a `modifies` clause.
- Records stored by value inside a parent's list are datatypes, with `New`/`With…` functions.
  These are ground models, materials, components, schema models and elements.

Several things are modelled as parameters:

- The derived structural check (`validator` crate) is the value `AgsiCore.DeriveOutcome`:
  `Passed`, or `Failed` with per-field messages and the rendered error text.
- The package version that `Document::new` writes is a constructor parameter.
- `f64` values are `real`.

The validation engine and the diff command are written the way the source writes them, as
loops that push into a list:

- `Validation.ValidateDocument` and `Diff.CompareDocuments` are methods with loops.
- Each is proved equal to a specification function: `Validation.Report` and
  `Diff.Differences`.
- The properties are proved as lemmas about those functions.

Some behaviours of the code are easy to miss, and the model keeps each of them:

- `AgsiParameterCode::units` returns `None` for the four lateral earth pressure (retaining-wall)
  coefficients, the three ACEC codes, the drainage condition and Poisson's ratio.
- Validity is decided by the structural check and the errors together.
  `ValidationProperties.ValidIffSound` states it: valid exactly when the check passed and the
  document is sound. `Document`'s derive has no field rules and no nested validation, so in the
  source the check always passes and `is_valid` is exactly "no errors". Only for a
  `AgsiCore.DeriveOutcome` that failed without field messages would the report be invalid
  with no errors.
- A detailed `diff` of a document against itself is not always empty. The material lookup takes
  the first material with an id, so a model that repeats a material id under two names differs
  from itself.
- `extract` without `--model` on a document with no models fails with the "Multiple models
  found" message, and lists no ids.

## Model

| member | source | states |
|---|---|---|
| `AgsiCore.NatToString` | crates/agsi-core/src/validation.rs:78 | An index is written as `format!` writes it: digits only, a single digit exactly for numbers below ten, and no leading zero. |
| `AgsiCore.DecimalRoundTrip` | crates/agsi-core/src/validation.rs:78 | Reading the written digits back as a decimal number gives the index. |
| `AgsiCore.NatToStringInjective` | crates/agsi-core/src/validation.rs:78 | Two different indices are never written the same way. |
| `AgsiCore.NumberThenNonDigit` | crates/agsi-core/src/validation.rs:78-121 | A written index followed by text that starts with a non-digit can be split back apart: the index and the rest are both recovered. |
| `AgsiCore.FramedNumberInjective` | crates/agsi-core/src/validation.rs:89-109 | A component or material index written between its fixed opening and closing text is recovered from that text. |
| `Geometries.MakePoint` | crates/agsi-core/src/geometry.rs:84-90 | `point` builds a Point at (x, y, z) with no CRS. Its WKT is the 2D point (x, y). |
| `Geometries.MakeLineString` | crates/agsi-core/src/geometry.rs:92-106 | `linestring` fails with "LineString must have at least 2 points" exactly when there are fewer than 2 coordinates. Otherwise the coordinates are kept as given, with no CRS, WKT or WKB. |
| `Geometries.MakePolygon` | crates/agsi-core/src/geometry.rs:108-125 | `polygon` fails exactly when the exterior has fewer than 3 points. Otherwise the rings are the exterior followed by the interiors, with no CRS, WKT or WKB. |
| `Geometries.MakeSurface` | crates/agsi-core/src/geometry.rs:127-135 | `surface` never fails. It keeps the base64 of the bytes and the metadata, has no CRS, and has no WKT form. |
| `Geometries.DropZ` | crates/agsi-core/src/geometry.rs:144-147 | The plane positions keep each coordinate's x and y, one for one and in order. |
| `Geometries.DropZRings` | crates/agsi-core/src/geometry.rs:162-169 | Each ring maps to its plane positions, ring for ring. |
| `Geometries.ToWkt` | crates/agsi-core/src/geometry.rs:137-181 | `to_wkt` succeeds exactly for points, lines and polygons with at least one ring. Failures are Geometry errors. The shape rendered keeps the x and y of every coordinate and drops z. |
| `Geometries.WithCrs` | crates/agsi-core/src/geometry.rs:184-205 | After `with_crs(s)`, `crs()` is `s`. Putting the old CRS back gives the original geometry. |
| `Geometries.ComputeWktWkb` | crates/agsi-core/src/geometry.rs:208-227 | `compute_wkt_wkb` fails exactly on a polygon with no rings. Lines and polygons get their WKT and no WKB. Other variants are unchanged. |
| `Geometries.ComputeWktWkbIdempotent` | crates/agsi-core/src/geometry.rs:208-227 | Computing the cached encodings does not change the WKT form, and computing them twice equals computing them once. |
| `Geometries.ConstructedGeometryHasWkt` | crates/agsi-core/src/geometry.rs:92-172 | Every line and polygon the constructors accept has a WKT form. A line's form has as many points as it was built from; a polygon's has as many interior rings. |
| `Geometries.WktIgnoresHeight` | crates/agsi-core/src/geometry.rs:143-149 | Two lines whose coordinates agree in x and y have the same WKT, whatever their heights. |
| `Materials.MaterialProperty.Numeric` | crates/agsi-core/src/material.rs:133-142 | A numeric value with the given name and unit, and no method or source. |
| `Materials.MaterialProperty.TextValue` | crates/agsi-core/src/material.rs:144-153 | A text value with no unit, method or source. |
| `Materials.MaterialProperty.RangeValue` | crates/agsi-core/src/material.rs:155-164 | A min/max value with the given unit, and no method or source. |
| `Materials.MaterialProperty.WithSource` | crates/agsi-core/src/material.rs:166-170 | Sets the source and leaves every other field unchanged. |
| `Materials.MaterialProperty.WithMethod` | crates/agsi-core/src/material.rs:172-175 | Sets the measurement method and leaves every other field unchanged. |
| `Materials.Material.New` | crates/agsi-core/src/material.rs:96-106 | A material with the given id, name and type, and no description, geology, properties or metadata. |
| `Materials.Material.WithProperty` | crates/agsi-core/src/material.rs:109-113 | Appends the property after the existing ones and changes nothing else. |
| `Materials.Material.WithDescription` | crates/agsi-core/src/material.rs:115-119 | Sets the description and nothing else. |
| `Materials.Material.GetProperty` | crates/agsi-core/src/material.rs:121-124 | Returns None exactly when no property has the name. Otherwise it returns a stored property with that name. |
| `Materials.Material.GetPropertiesByName` | crates/agsi-core/src/material.rs:126-128 | Returns every stored property with the name, and only those. |
| `Materials.FirstOfNamedIsGetProperty` | crates/agsi-core/src/material.rs:121-128 | `get_property` is None exactly when `get_properties_by_name` is empty; otherwise it is that list's first element. |
| `Materials.WithPropertyLookup` | crates/agsi-core/src/material.rs:109-128 | Adding a property extends the by-name list at its end. `get_property` keeps its earlier answer, or finds the new property when nothing matched before. |
| `Materials.TwoPropertiesExample` | crates/agsi-core/src/material.rs:183-199 | The crate's test: the built material keeps its id, has two properties, and finds "density". |
| `Projects.Location.New` | crates/agsi-core/src/project.rs:110-118 | A location with only its name set. |
| `Projects.Location.WithCoordinates` | crates/agsi-core/src/project.rs:120-124 | Stores `[lon, lat]` and replaces the CRS with the argument, even when that is None. The name and country are kept. |
| `Projects.Project.New` | crates/agsi-core/src/project.rs:70-82 | A project with an id and a name, every optional field empty and no metadata. |
| `Projects.Project.WithClient` | crates/agsi-core/src/project.rs:84-88 | Sets the client and nothing else. |
| `Projects.Project.WithContractor` | crates/agsi-core/src/project.rs:90-94 | Sets the contractor and nothing else. |
| `Projects.Project.WithLocation` | crates/agsi-core/src/project.rs:96-100 | Sets the location and nothing else. |
| `Projects.Project.WithDates` | crates/agsi-core/src/project.rs:102-105 | Sets the dates and nothing else. |
| `Projects.BuildersCommute` | crates/agsi-core/src/project.rs:84-105 | The four builders touch separate fields, so any order of application gives the same project. |
| `GroundModels.ModelExtent.New2D` | crates/agsi-core/src/model.rs:238-248 | An extent with the four plane bounds and no height bounds. |
| `GroundModels.ModelExtent.New3D` | crates/agsi-core/src/model.rs:250-267 | An extent with the four plane bounds and both height bounds. |
| `GroundModels.ModelExtent.Contains` | crates/agsi-core/src/model.rs:269-277 | Every bound is inclusive. The height is checked only when the extent has both height bounds and the query gives a height. |
| `GroundModels.Extent2DIgnoresHeight` | crates/agsi-core/src/model.rs:238-277 | A 2D extent gives the same answer for a query with or without a height. |
| `GroundModels.ExtentExamples` | crates/agsi-core/src/model.rs:301-315 | The crate's tests: the centre is inside a 100 x 100 square and (150, 50) is not. In 3D, height 0 is inside [-10, 10] and height 20 is not. |
| `GroundModels.ModelComponent.New` | crates/agsi-core/src/model.rs:191-210 | A component with the given fields, and no elevations, thickness or attributes. |
| `GroundModels.ModelComponent.WithElevations` | crates/agsi-core/src/model.rs:212-218 | Stores top and base. The thickness is the non-negative distance between them. Nothing else changes. |
| `GroundModels.ModelComponent.WithThickness` | crates/agsi-core/src/model.rs:220-224 | Sets the thickness and nothing else. |
| `GroundModels.GroundModel.New` | crates/agsi-core/src/model.rs:128-146 | An empty model: no components, materials, CRS, extent, description or metadata. |
| `GroundModels.GroundModel.AddComponent` | crates/agsi-core/src/model.rs:149-152 | Appends the component. Earlier components and every other field are kept. |
| `GroundModels.GroundModel.AddMaterial` | crates/agsi-core/src/model.rs:154-157 | Appends the material. Earlier materials and every other field are kept. |
| `GroundModels.GroundModel.GetMaterial` | crates/agsi-core/src/model.rs:159-162 | Returns None exactly when no material has the id. Otherwise it returns a stored material with that id. |
| `GroundModels.GroundModel.GetComponent` | crates/agsi-core/src/model.rs:164-167 | Returns None exactly when no component has the id. Otherwise it returns a stored component with that id. |
| `GroundModels.GroundModel.GetComponentsByMaterial` | crates/agsi-core/src/model.rs:169-175 | Returns every component made of the material, and only those. |
| `GroundModels.GroundModel.WithCrs` | crates/agsi-core/src/model.rs:177-181 | Sets the CRS and nothing else. |
| `GroundModels.GroundModel.WithExtent` | crates/agsi-core/src/model.rs:183-186 | Sets the extent and nothing else. |
| `GroundModels.AddComponentByMaterial` | crates/agsi-core/src/model.rs:149-175 | Adding a component extends the by-material list at its end, and only when the material matches. |
| `GroundModels.AddMaterialKeepsLookup` | crates/agsi-core/src/model.rs:154-162 | A material that is found stays found, as the same record, after more materials are added. |
| `Documents.FirstModelIndex` | crates/agsi-core/src/document.rs:104-112 | Gives the position of the first model with the id, or None when no model has it. |
| `Documents.Document.constructor` | crates/agsi-core/src/document.rs:71-90 | A new document has the library's schema version, the given file id, "agsi-rust" and the package version as its software, no project, no models and no extensions. |
| `Documents.Document.WithProject` | crates/agsi-core/src/document.rs:93-97 | Sets the project only. |
| `Documents.Document.AddModel` | crates/agsi-core/src/document.rs:99-102 | Appends the model after the existing ones. |
| `Documents.Document.GetModel` | crates/agsi-core/src/document.rs:104-107 | Returns None exactly when no model has the id. Otherwise it returns a stored model with that id. |
| `Documents.Document.GetModelMut` | crates/agsi-core/src/document.rs:109-112 | Gives the slot of the same model `get_model` finds, and no slot exactly when `get_model` finds none. |
| `Documents.Document.WithFileName` | crates/agsi-core/src/document.rs:141-145 | Sets the file name only. |
| `Documents.Document.WithAuthor` | crates/agsi-core/src/document.rs:147-151 | Sets the author only. |
| `Documents.Document.WithComments` | crates/agsi-core/src/document.rs:153-156 | Sets the comments only. |
| `Documents.ToJsonString` | crates/agsi-core/src/document.rs:134-138 | Saving succeeds exactly when the structural check passes. A failed check is a Validation error with the check's text. |
| `Documents.FromJsonStr` | crates/agsi-core/src/document.rs:120-124 | Loading succeeds exactly when parsing succeeds and the check passes. A parse error is passed on unchanged; a failed check is a Validation error. |
| `Documents.DocumentBuilderExample` | crates/agsi-core/src/document.rs:172-180 | The crate's test: the built document keeps its id and author and has the library's version. |
| `Documents.DocumentWithModelExample` | crates/agsi-core/src/document.rs:183-200 | The crate's test: after one model is added, the document holds one model and finds it by id. |
| `Validation.FieldIssues` | crates/agsi-core/src/validation.rs:49-55 | One error per message of a field. |
| `Validation.CheckErrors` | crates/agsi-core/src/validation.rs:47-58 | A passed structural check contributes no errors. |
| `Validation.ModelIdShared` | crates/agsi-core/src/validation.rs:75-76 | More than one model has a model's id exactly when another model shares it. |
| `Validation.MaterialIdShared` | crates/agsi-core/src/validation.rs:101-107 | More than one material has a material's id exactly when another material of the same model shares it. |
| `Validation.VersionWarnings` | crates/agsi-core/src/validation.rs:60-70 | There is no warning exactly when the schema version is the library's version. Otherwise there is exactly one warning, at `agsSchema.version`, with the message naming both versions. |
| `Validation.Report` | crates/agsi-core/src/validation.rs:39-148 | Any error makes the document invalid. A valid document passed the structural check. There is at most one warning. |
| `Validation.CollectCheckErrors` | crates/agsi-core/src/validation.rs:47-58 | The loop over field errors pushes what `CheckErrors` lists. |
| `Validation.CollectComponentErrors` | crates/agsi-core/src/validation.rs:86-98 | The component loop pushes one dangling-reference error per component whose material is missing, in order. |
| `Validation.CollectMaterialErrors` | crates/agsi-core/src/validation.rs:100-115 | The material loop pushes one duplicate error per material whose id is shared, in order. |
| `Validation.CollectExtentErrors` | crates/agsi-core/src/validation.rs:117-145 | Gives the x, y and z range errors of an extent, in that order. |
| `Validation.CollectModelErrors` | crates/agsi-core/src/validation.rs:73-146 | One model's errors in push order: duplicate id, then components, then materials, then extent. |
| `Validation.ValidateDocument` | crates/agsi-core/src/validation.rs:39-148 | `validate_document` always returns Ok with the report of the check, the schema version and the models. |
| `Validation.ValidateQuick` | crates/agsi-core/src/validation.rs:151-161 | `validate_quick` succeeds exactly when the report is valid. Otherwise it fails with "Validation failed with N errors". |
| `ValidationProperties.ExtentOrderedIffHoldsCorner` | crates/agsi-core/src/validation.rs:117-145 | The extent checks pass exactly when the extent contains its own lower corner. |
| `ValidationProperties.FieldIssuesPaths` | crates/agsi-core/src/validation.rs:49-55 | A field's errors are all reported at that field. |
| `ValidationProperties.DeriveErrorsPaths` | crates/agsi-core/src/validation.rs:47-58 | Structural errors are all reported at field paths. |
| `ValidationProperties.ComponentErrorsPaths` | crates/agsi-core/src/validation.rs:86-98 | Component errors are reported at the component paths of their model. |
| `ValidationProperties.MaterialErrorsPaths` | crates/agsi-core/src/validation.rs:100-115 | Material errors are reported at the material paths of their model. |
| `ValidationProperties.ModelErrorsPaths` | crates/agsi-core/src/validation.rs:73-146 | Every error of model `i` is reported at a path inside model `i`. |
| `ValidationProperties.ModelPathShape` | crates/agsi-core/src/validation.rs:78-138 | A path inside a model is written `agsiModel[`, the model index, then `]` and a rest whose third character tells the kind of path. |
| `ValidationProperties.ModelPathRestInjective` | crates/agsi-core/src/validation.rs:78-138 | Within one model, two different paths have different rests after the model index. |
| `ValidationProperties.ModelPathTextInjective` | crates/agsi-core/src/validation.rs:78-138 | Two different paths inside models are written differently. |
| `ValidationProperties.PathTextInjective` | crates/agsi-core/src/validation.rs:63-138 | The schema version path and the paths inside models are all written differently from each other. |
| `ValidationProperties.ModelErrorTextLocated` | crates/agsi-core/src/validation.rs:73-146 | The text path of an error of model `i` equals the text of a given non-field path exactly when the error is at that path. |
| `ValidationProperties.ReportLocal` | crates/agsi-core/src/validation.rs:39-148 | An error about model `i` is in the report exactly when it is among model `i`'s errors. |
| `ValidationProperties.ComponentErrorsAt` | crates/agsi-core/src/validation.rs:86-98 | At component `j`'s path there is an error exactly when its material is missing, and that error is the dangling-reference one. |
| `ValidationProperties.MaterialErrorsAt` | crates/agsi-core/src/validation.rs:100-115 | At material `k`'s path there is an error exactly when its id is shared, and that error is the duplicate one. |
| `ValidationProperties.ReportedAt` | crates/agsi-core/src/validation.rs:39-148 | The report has an error at a path in model `i` exactly when model `i`'s errors have one there. |
| `ValidationProperties.DanglingInModel` | crates/agsi-core/src/validation.rs:86-98 | Among model `i`'s errors, the error at component `j` is exactly the dangling-reference error, and it is there exactly when the material is missing. |
| `ValidationProperties.DuplicateIdInModel` | crates/agsi-core/src/validation.rs:73-84 | Among model `i`'s errors, the error at its id is exactly "Duplicate model ID: …", and it is there exactly when the id is shared. |
| `ValidationProperties.DuplicateMaterialInModel` | crates/agsi-core/src/validation.rs:100-115 | Among model `i`'s errors, the error at material `k` is exactly "Duplicate material ID: …", and it is there exactly when the id is shared. |
| `ValidationProperties.ExtentInModel` | crates/agsi-core/src/validation.rs:117-145 | Model `i` has an extent error exactly when it has an extent with an axis out of order. |
| `ValidationProperties.DanglingReferenceReported` | crates/agsi-core/src/validation.rs:86-98 | A component is reported, with the message naming its material, exactly when no material of its model has that id. |
| `ValidationProperties.DuplicateModelReported` | crates/agsi-core/src/validation.rs:73-84 | A model is reported under its id exactly when another model shares the id. |
| `ValidationProperties.DuplicateMaterialReported` | crates/agsi-core/src/validation.rs:100-115 | A material is reported exactly when another material of the same model shares its id. |
| `ValidationProperties.ExtentReported` | crates/agsi-core/src/validation.rs:117-145 | A model is reported under its extent exactly when the extent has an axis out of order. |
| `ValidationProperties.FieldIssuesContain` | crates/agsi-core/src/validation.rs:49-55 | Every message of a field becomes a Schema error at that field. |
| `ValidationProperties.DeriveErrorsContain` | crates/agsi-core/src/validation.rs:47-58 | Every message of every field becomes a Schema error. |
| `ValidationProperties.StructuralErrorsReported` | crates/agsi-core/src/validation.rs:47-58 | Every message of a failed structural check is in the report, and a failed check alone makes the document invalid. |
| `ValidationProperties.ComponentErrorsEmpty` | crates/agsi-core/src/validation.rs:86-98 | There are no component errors exactly when every component's material exists in its model. |
| `ValidationProperties.MaterialErrorsEmpty` | crates/agsi-core/src/validation.rs:100-115 | There are no material errors exactly when the model's material ids are unique. |
| `ValidationProperties.ModelErrorsEmpty` | crates/agsi-core/src/validation.rs:73-146 | A model has no errors exactly when its id is unique, its references resolve, its material ids are unique and its extent is ordered. |
| `ValidationProperties.ValidIffSound` | crates/agsi-core/src/validation.rs:39-148 | A document is valid exactly when the structural check passes, model ids are unique, and every model is sound: references resolve, material ids are unique, and the extent is ordered. |
| `ValidationProperties.ModelsCleanIffSound` | crates/agsi-core/src/validation.rs:73-146 | Every model is free of errors exactly when the document is sound. |
| `ValidationProperties.FreshDocumentIsValid` | crates/agsi-core/src/validation.rs:214-219 | The crate's test: a new document is valid. |
| `ValidationProperties.MissingMaterialIsInvalid` | crates/agsi-core/src/validation.rs:221-245 | The crate's test: a component naming a missing material makes the document invalid, with at least one error. |
| `ValidationProperties.DuplicateMaterialIsInvalid` | crates/agsi-core/src/validation.rs:247-265 | The crate's test: two materials with one id make the document invalid. |
| `ParameterCodes.AgsiParameterCode.Units` | crates/agsi-core/src/agsi_model.rs:219-236 | A unit, when there is one, is among m, kN/m3, deg, kPa, MPa, %, m/s. There is no unit exactly for the retaining-wall and ACEC codes, the drainage condition and Poisson's ratio. |
| `ParameterCodes.AgsiParameterCode.Category` | crates/agsi-core/src/agsi_model.rs:238-257 | Every code is in one of the eight categories. |
| `ParameterCodes.AgsiParameterCode.AsCodeId` | crates/agsi-core/src/agsi_model.rs:300-339 | Every code id is non-empty. |
| `ParameterCodeTable.CodeIdRoundTrip` | crates/agsi-core/src/agsi_model.rs:300-380 | `from_code_id(as_code_id(c))` gives back `c` for every code. |
| `ParameterCodeTable.FromCodeIdSound` | crates/agsi-core/src/agsi_model.rs:300-380 | Whatever `from_code_id` recognises renders back to the same text. |
| `ParameterCodeTable.DescriptionNonEmpty` | crates/agsi-core/src/agsi_model.rs:259-298 | Every code has a non-empty description. |
| `ParameterCodeTable.CodeIdIsStandardIff` | crates/agsi-core/src/agsi_model.rs:300-380 | A text is recognised exactly when it is some code's id, and no two codes share an id. |
| `ParameterCodeTable.StandardCodeExamples` | crates/agsi-core/src/agsi_model.rs:613-618 | The crate's tests on undrained shear strength (kPa, Strength) and on looking up AngleFriction. |
| `AgsiSchema.AgsiDataParameterValue.Numeric` | crates/agsi-core/src/agsi_model.rs:548-560 | A numeric value under the code id, with every other field empty. |
| `AgsiSchema.AgsiDataParameterValue.Text` | crates/agsi-core/src/agsi_model.rs:562-574 | A text value under the code id, with every other field empty. |
| `AgsiSchema.AgsiDataParameterValue.FromStandardCode` | crates/agsi-core/src/agsi_model.rs:576-579 | A numeric value under the code's id, and that id parses back to the code. |
| `AgsiSchema.AgsiDataParameterValue.WithCase` | crates/agsi-core/src/agsi_model.rs:581-584 | Sets the case id and nothing else. |
| `AgsiSchema.AgsiModelElement.New` | crates/agsi-core/src/agsi_model.rs:508-524 | An element with every field empty. |
| `AgsiSchema.AgsiModelElement.WithName` | crates/agsi-core/src/agsi_model.rs:526-529 | Sets the name and nothing else. |
| `AgsiSchema.AgsiModelElement.WithDescription` | crates/agsi-core/src/agsi_model.rs:531-534 | Sets the description and nothing else. |
| `AgsiSchema.AgsiModelElement.AddParameter` | crates/agsi-core/src/agsi_model.rs:536-538 | Appends the parameter after the existing ones and changes nothing else. |
| `AgsiSchema.AgsiModelElement.WithParameter` | crates/agsi-core/src/agsi_model.rs:540-543 | The builder form has the same effect as `add_parameter`. |
| `AgsiSchema.AgsiModel.New` | crates/agsi-core/src/agsi_model.rs:481-500 | A model with every field empty. |
| `AgsiSchema.AgsiModel.AddElement` | crates/agsi-core/src/agsi_model.rs:502-504 | Appends the element after the existing ones and changes nothing else. |
| `AgsiSchema.AgsiRoot.constructor` | crates/agsi-core/src/agsi_model.rs:452-473 | The schema is "AGSi" at the library's version with the standard link. The file gets the project name. There is no project and there are no models. |
| `AgsiSchema.AgsiRoot.AddModel` | crates/agsi-core/src/agsi_model.rs:475-477 | Appends the model after the existing ones. |
| `AgsiSchema.NewRootExample` | crates/agsi-core/src/agsi_model.rs:592-597 | The crate's test: a new root names the schema "AGSi", version "1.0.1", and keeps the project name. |
| `AgsiSchema.ModelElementExample` | crates/agsi-core/src/agsi_model.rs:600-610 | The crate's test: the built element keeps its name and holds both parameters, in order. |
| `AgsiSchema.FreeTextParameterExample` | crates/agsi-core/src/agsi_model.rs:621-625 | The crate's test: a free-text parameter keeps its code id and text. That id is not a standard code. |
| `AgsiSchema.OneModelOneElementExample` | crates/agsi-core/src/agsi_model.rs:628-641 | The crate's test: a root with one model of one element holds one model, one element and the UnitWeightBulk code. |
| `Diff.PairCount` | crates/agsi/src/commands/diff.rs:65 | The zip pairs as many models as the shorter list holds. |
| `Diff.CompareMaterial` | crates/agsi/src/commands/diff.rs:76-98 | One material's pushes are those of `MaterialChanges`. |
| `Diff.CompareRemovedOrChanged` | crates/agsi/src/commands/diff.rs:76-98 | The loop over the first model's materials pushes every material's changes, in order. |
| `Diff.CompareAdded` | crates/agsi/src/commands/diff.rs:100-105 | The loop over the second model's materials pushes every addition, in order. |
| `Diff.CompareModelPair` | crates/agsi/src/commands/diff.rs:65-106 | One pair's pushes: id change, name change, material changes, then additions. |
| `Diff.CompareSummary` | crates/agsi/src/commands/diff.rs:20-60 | The summary pushes schema version, file id, model count, material total and component total, each only when it differs. |
| `Diff.CompareDocuments` | crates/agsi/src/commands/diff.rs:17-107 | The differences are the summary, followed in detailed mode by the per-pair differences. `identical` holds exactly when there are none. |
| `DiffProperties.TotalsCountAllLists` | crates/agsi/src/commands/diff.rs:47-58 | The material and component totals are the lengths of all models' lists put together. |
| `DiffProperties.TotalsAppend` | crates/agsi/src/commands/diff.rs:47-58 | Adding a model adds its materials and components to the totals. |
| `DiffProperties.MatchedMaterialCompared` | crates/agsi/src/commands/diff.rs:77-93 | A material found in the paired model is compared with the first match. A name change is reported exactly when the names differ, a property change exactly when the counts differ, and the material is not reported removed. |
| `DiffProperties.RemovedReported` | crates/agsi/src/commands/diff.rs:76-98 | An id is reported removed exactly when the first model has it and the paired model does not. |
| `DiffProperties.AddedReported` | crates/agsi/src/commands/diff.rs:100-105 | An id is reported added exactly when the paired model has it and the first model does not. |
| `DiffProperties.PairListsKeepToTheirKind` | crates/agsi/src/commands/diff.rs:76-105 | The loop over the second model never reports a removal, and the loop over the first model never reports an addition. |
| `DiffProperties.PairReportsMaterialMoves` | crates/agsi/src/commands/diff.rs:65-106 | Within one pair of models, a removal is reported exactly when the first model has the id and the second does not; an addition exactly the other way round. |
| `DiffProperties.PairsReportMaterialMoves` | crates/agsi/src/commands/diff.rs:65-106 | Over all pairs formed by position, a removal is reported exactly when some pair has the id in its first model only; an addition exactly when some pair has it in its second model only. |
| `DiffProperties.RemovedInDifferences` | crates/agsi/src/commands/diff.rs:17-107 | A document comparison reports an id removed only in detailed mode, and then exactly when some pair of models by position has the id in the first document's model and not in the second's. |
| `DiffProperties.AddedInDifferences` | crates/agsi/src/commands/diff.rs:17-107 | A document comparison reports an id added only in detailed mode, and then exactly when some pair of models by position has the id in the second document's model and not in the first's. |
| `DiffProperties.SelfMaterialUnchanged` | crates/agsi/src/commands/diff.rs:76-105 | With unique material ids, a material compared within its own model contributes nothing. |
| `DiffProperties.SelfPairIdentical` | crates/agsi/src/commands/diff.rs:65-106 | A model with unique material ids compared with itself gives no differences. |
| `DiffProperties.SelfDiffIdentical` | crates/agsi/src/commands/diff.rs:17-107 | A document compared with itself is identical in summary mode. It is also identical in detailed mode when no model repeats a material id. |
| `DiffProperties.DuplicateMaterialIdSelfDiffers` | crates/agsi/src/commands/diff.rs:76-84 | Without unique ids, a model holding "M1" Clay and "M1" Sand reports "Material M1 name: Sand → Clay" against itself. |
| `DiffProperties.PairingStopsAtShorter` | crates/agsi/src/commands/diff.rs:65 | Models past the end of the shorter list are never compared: extending the longer list leaves the per-pair part unchanged. |
| `Extract.SelectModel` | crates/agsi/src/commands/extract.rs:16-30 | With an id, it succeeds exactly when some model has the id, and gives the first such model; otherwise "Model not found". Without an id, it succeeds exactly when there is one model, and gives it; otherwise it fails listing every model id. |
| `Extract.ExtractMaterials` | crates/agsi/src/commands/extract.rs:16-36 | What is extracted is the chosen model's material list, in stored order. It fails exactly when the selection fails, with the same error. |
| `Extract.EmptyDocumentNotExtracted` | crates/agsi/src/commands/extract.rs:19-29 | Without an id, a document with no models fails with the "Multiple models found" message and lists no ids. |
| `Extract.TwoModelsListed` | crates/agsi/src/commands/extract.rs:22-29 | The failure message lists the ids joined by ", ". |

## Left out

- JSON, Avro and Protobuf serialization, and file reading and writing (`serialization.rs`, `from_json_file`, `to_json_file`). Parsing and rendering are inputs to `Documents.FromJsonStr` and `Documents.ToJsonString`.
- The `validator` crate's derived field checks. These are generated code. Their outcome is the parameter `AgsiCore.DeriveOutcome`. `Document`'s derive has no field rules, so in the source the check always passes. A failed outcome without field messages, which would give an invalid report with no errors, arises only from the parameter.
- WKT text rendering by the `wkt` crate and base64 encoding. The model keeps the 2D shape (`Geometries.WktOf`) and the bytes (`Geometries.Base64Of`), which determine the text.
- The WKB encoding. The source never computes it and always sets it to None.
- `Geometries.ComputeWktWkb` and the element and model pushes (`AgsiSchema.AgsiModelElement.AddParameter`, `AgsiSchema.AgsiModel.AddElement`, `GroundModels.GroundModel.AddComponent`, `GroundModels.GroundModel.AddMaterial`) update a record in place in the source. Here they return the updated value, because these records live by value inside their parent's list.
- `Documents.Document.WithProject`, `WithFileName`, `WithAuthor` and `WithComments` are by-value builders in the source. They are modelled as updates of the document object, which is what a builder chain amounts to.
- `Documents.Document.GetModelMut` returns the position of the model rather than a mutable reference. Aliasing through the reference is not modelled.
- `Documents.Document.constructor` takes the package version as a parameter, because the source reads it from the build environment.
- `ModelComponent::with_attribute`. It stores an opaque JSON value under a key; attributes are kept as a map of JSON texts.
- `ValidationResult::to_string`, the report's text rendering.
- Floating-point behaviour: `f64` is `real`, so NaN and rounding are not modelled.
- UUID generation and timestamps. No modelled operation uses them.
- The terminal interface, the MCP server, the binary's argument parsing and every other command of the tool.
- Loading the two files, printing the differences, and the exit status of `agsi diff`. Differences are kept structured, and `Diff.Difference.Text` gives the line printed for each.
- Loading the file, pretty-printing the JSON and writing the output of `agsi extract`.
- The JSON half of the crate's serialization test (agsi_model.rs:643-654). Its construction half is `AgsiSchema.OneModelOneElementExample`.
- `Validation.ValidateDocument` and `Diff.CompareDocuments` split their loops into helper methods, one per inner loop. The pushes happen in the same order as in the source.
- `ParameterCodes.AgsiParameterCode.Description` has no contract on the function itself. That every description is non-empty is proved per code by `ParameterCodeTable.DescriptionNonEmpty`.
