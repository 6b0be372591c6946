/** Ground models, their components and their spatial extent (`model.rs`). */
module GroundModels {
  import opened Wrappers
  import AgsiCore
  import Seqs
  import Geometries
  import Materials

  datatype ModelType = Stratigraphic | Structural | Hydrogeological | Geotechnical | Environmental | Composite

  datatype ModelDimension = OneD | TwoD | ThreeD

  datatype ComponentType = Layer | Lens | Volume | Fault | Intrusion | Boundary

  /** A bounding box whose heights are optional. */
  datatype ModelExtent = ModelExtent(minX: real, maxX: real, minY: real, maxY: real, minZ: Option<real>, maxZ: Option<real>)
  {
    /** `ModelExtent::new_2d`: no height bounds. */
    static function New2D(minX: real, maxX: real, minY: real, maxY: real): (e: ModelExtent)
      ensures e.minX == minX && e.maxX == maxX && e.minY == minY && e.maxY == maxY
      ensures e.minZ == None && e.maxZ == None
    {
      ModelExtent(minX, maxX, minY, maxY, None, None)
    }

    /** `ModelExtent::new_3d`: both height bounds present. */
    static function New3D(minX: real, maxX: real, minY: real, maxY: real, minZ: real, maxZ: real): (e: ModelExtent)
      ensures e.minX == minX && e.maxX == maxX && e.minY == minY && e.maxY == maxY
      ensures e.minZ == Some(minZ) && e.maxZ == Some(maxZ)
    {
      ModelExtent(minX, maxX, minY, maxY, Some(minZ), Some(maxZ))
    }

    /** Both height bounds are present. */
    predicate HasHeights() {
      minZ.Some? && maxZ.Some?
    }

    /** `contains`: every bound is inclusive; the height is checked only when the query has one
        and both height bounds are present. */
    function Contains(x: real, y: real, z: Option<real>): (r: bool)
      ensures r ==> minX <= x <= maxX && minY <= y <= maxY
      ensures !HasHeights() || z.None? ==> (r <==> minX <= x <= maxX && minY <= y <= maxY)
      ensures HasHeights() && z.Some? && minZ.value <= z.value <= maxZ.value ==>
                (r <==> minX <= x <= maxX && minY <= y <= maxY)
      ensures HasHeights() && z.Some? && !(minZ.value <= z.value <= maxZ.value) ==> !r
    {
      var xyInside := x >= minX && x <= maxX && y >= minY && y <= maxY;
      if z.Some? && minZ.Some? && maxZ.Some? then
        xyInside && z.value >= minZ.value && z.value <= maxZ.value
      else xyInside
    }
  }

  /** A 2D extent ignores the height of every query. */
  lemma Extent2DIgnoresHeight(minX: real, maxX: real, minY: real, maxY: real, x: real, y: real, z: Option<real>)
    ensures ModelExtent.New2D(minX, maxX, minY, maxY).Contains(x, y, z)
         == ModelExtent.New2D(minX, maxX, minY, maxY).Contains(x, y, None)
  {
  }

  /** The examples of the crate's tests: a 100 x 100 square holds its centre but not (150, 50),
      and with heights -10..10 it holds height 0 but not height 20. */
  lemma ExtentExamples()
    ensures ModelExtent.New2D(0.0, 100.0, 0.0, 100.0).Contains(50.0, 50.0, None)
    ensures !ModelExtent.New2D(0.0, 100.0, 0.0, 100.0).Contains(150.0, 50.0, None)
    ensures ModelExtent.New3D(0.0, 100.0, 0.0, 100.0, -10.0, 10.0).Contains(50.0, 50.0, Some(0.0))
    ensures !ModelExtent.New3D(0.0, 100.0, 0.0, 100.0, -10.0, 10.0).Contains(50.0, 50.0, Some(20.0))
  {
  }

  datatype ModelComponent = ModelComponent(
    id: string,
    name: string,
    componentType: ComponentType,
    materialId: string,
    geometry: Geometries.Geometry,
    top: Option<real>,
    base: Option<real>,
    thickness: Option<real>,
    attributes: map<string, AgsiCore.JsonValue>)
  {
    /** `ModelComponent::new`: no elevations, no thickness and no attributes. */
    static function New(id: string, name: string, componentType: ComponentType, materialId: string,
                        geometry: Geometries.Geometry): (c: ModelComponent)
      ensures c.id == id && c.name == name && c.componentType == componentType
      ensures c.materialId == materialId && c.geometry == geometry
      ensures c.top == None && c.base == None && c.thickness == None && c.attributes == map[]
    {
      ModelComponent(id, name, componentType, materialId, geometry, None, None, None, map[])
    }

    /** `with_elevations`: stores top and base and the distance between them as the thickness,
        which is therefore never negative; nothing else changes. */
    function WithElevations(newTop: real, newBase: real): (c: ModelComponent)
      ensures c.top == Some(newTop) && c.base == Some(newBase)
      ensures c.thickness.Some? && c.thickness.value >= 0.0
      ensures c.thickness.value == newTop - newBase || c.thickness.value == newBase - newTop
      ensures c.(top := top, base := base, thickness := thickness) == this
    {
      var diff := newTop - newBase;
      this.(top := Some(newTop), base := Some(newBase), thickness := Some(if diff < 0.0 then -diff else diff))
    }

    /** `with_thickness`: sets the thickness and nothing else. */
    function WithThickness(t: real): (c: ModelComponent)
      ensures c.thickness == Some(t) && c.(thickness := thickness) == this
    {
      this.(thickness := Some(t))
    }
  }

  datatype GroundModel = GroundModel(
    id: string,
    name: string,
    description: Option<string>,
    modelType: ModelType,
    dimension: ModelDimension,
    components: seq<ModelComponent>,
    materials: seq<Materials.Material>,
    crs: Option<string>,
    extent: Option<ModelExtent>,
    metadata: map<string, AgsiCore.JsonValue>)
  {
    /** `GroundModel::new`: no components, no materials, no CRS, no extent and no metadata. */
    static function New(id: string, name: string, modelType: ModelType, dimension: ModelDimension): (m: GroundModel)
      ensures m.id == id && m.name == name && m.modelType == modelType && m.dimension == dimension
      ensures m.description == None && m.components == [] && m.materials == []
      ensures m.crs == None && m.extent == None && m.metadata == map[]
    {
      GroundModel(id, name, None, modelType, dimension, [], [], None, None, map[])
    }

    /** `add_component`: the component goes at the end; earlier components and every other
        field are kept. */
    function AddComponent(c: ModelComponent): (m: GroundModel)
      ensures |m.components| == |components| + 1 && m.components[|components|] == c
      ensures m.components[..|components|] == components
      ensures m.(components := components) == this
    {
      this.(components := components + [c])
    }

    /** `add_material`: the material goes at the end; earlier materials and every other field
        are kept. */
    function AddMaterial(mat: Materials.Material): (m: GroundModel)
      ensures |m.materials| == |materials| + 1 && m.materials[|materials|] == mat
      ensures m.materials[..|materials|] == materials
      ensures m.(materials := materials) == this
    {
      this.(materials := materials + [mat])
    }

    /** `get_material`: the first material with this id, None when there is none. */
    function GetMaterial(materialId: string): (r: Option<Materials.Material>)
      ensures r.None? <==> forall k :: 0 <= k < |materials| ==> materials[k].id != materialId
      ensures r.Some? ==> r.value.id == materialId
      ensures r.Some? ==> exists k :: 0 <= k < |materials| && materials[k] == r.value
                                      && forall l :: 0 <= l < k ==> materials[l].id != materialId
    {
      Seqs.Find(materials, (mat: Materials.Material) => mat.id == materialId)
    }

    /** `get_component`: the first component with this id, None when there is none. */
    function GetComponent(componentId: string): (r: Option<ModelComponent>)
      ensures r.None? <==> forall j :: 0 <= j < |components| ==> components[j].id != componentId
      ensures r.Some? ==> r.value.id == componentId
      ensures r.Some? ==> exists j :: 0 <= j < |components| && components[j] == r.value
                                      && forall l :: 0 <= l < j ==> components[l].id != componentId
    {
      Seqs.Find(components, (c: ModelComponent) => c.id == componentId)
    }

    /** `get_components_by_material`: all and only the components made of this material. That
        they keep their original order, repeats included, is `AddComponentByMaterial` (with
        `Seqs.FilterAppend`). */
    function GetComponentsByMaterial(materialId: string): (r: seq<ModelComponent>)
      ensures forall j :: 0 <= j < |r| ==> r[j].materialId == materialId && r[j] in components
      ensures forall j :: 0 <= j < |components| && components[j].materialId == materialId ==> components[j] in r
    {
      Seqs.Filter(components, (c: ModelComponent) => c.materialId == materialId)
    }

    /** `with_crs`: sets the CRS and nothing else. */
    function WithCrs(newCrs: string): (m: GroundModel)
      ensures m.crs == Some(newCrs) && m.(crs := crs) == this
    {
      this.(crs := Some(newCrs))
    }

    /** `with_extent`: sets the extent and nothing else. */
    function WithExtent(e: ModelExtent): (m: GroundModel)
      ensures m.extent == Some(e) && m.(extent := extent) == this
    {
      this.(extent := Some(e))
    }
  }

  /** Adding a component extends the by-material list at its end: the filter keeps the order in
      which components were added. */
  lemma AddComponentByMaterial(m: GroundModel, c: ModelComponent, materialId: string)
    ensures m.AddComponent(c).GetComponentsByMaterial(materialId)
         == m.GetComponentsByMaterial(materialId) + (if c.materialId == materialId then [c] else [])
  {
    var f := (x: ModelComponent) => x.materialId == materialId;
    Seqs.FilterAppend(m.components, [c], f);
    assert Seqs.Filter([c], f) == (if c.materialId == materialId then [c] else []);
  }

  /** A material that is found stays found, as the same record, after more materials are added. */
  lemma AddMaterialKeepsLookup(m: GroundModel, mat: Materials.Material, materialId: string)
    requires m.GetMaterial(materialId).Some?
    ensures m.AddMaterial(mat).GetMaterial(materialId) == m.GetMaterial(materialId)
  {
    Seqs.FindAppend(m.materials, [mat], (x: Materials.Material) => x.id == materialId);
  }
}
