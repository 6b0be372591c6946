/** Materials and their engineering properties (`material.rs`). */
module Materials {
  import opened Wrappers
  import AgsiCore
  import Seqs

  datatype MaterialType = Soil | Rock | Fill | MadeGround | Anthropogenic | Water | Void | Unknown

  /** Where a property value comes from. */
  datatype PropertySource = Tested | Estimated | Literature | Assumed | Calculated

  datatype PropertyValue =
    | Number(number: real)
    | Text(text: string)
    | Boolean(flag: bool)
    | Range(min: real, max: real)
    | Array(values: seq<real>)

  /** One named property; `measurementMethod` is the Rust field `method`. */
  datatype MaterialProperty = MaterialProperty(
    name: string,
    value: PropertyValue,
    unit: Option<string>,
    measurementMethod: Option<string>,
    source: Option<PropertySource>)
  {
    /** `MaterialProperty::numeric`: a number with the given unit, no method and no source. */
    static function Numeric(name: string, v: real, unit: Option<string>): (p: MaterialProperty)
      ensures p.name == name && p.value == Number(v) && p.unit == unit
      ensures p.measurementMethod == None && p.source == None
    {
      MaterialProperty(name, Number(v), unit, None, None)
    }

    /** `MaterialProperty::text`: a text value, with no unit, no method and no source. */
    static function TextValue(name: string, v: string): (p: MaterialProperty)
      ensures p.name == name && p.value == Text(v) && p.unit == None
      ensures p.measurementMethod == None && p.source == None
    {
      MaterialProperty(name, Text(v), None, None, None)
    }

    /** `MaterialProperty::range`: a min/max pair with the given unit, no method and no source. */
    static function RangeValue(name: string, min: real, max: real, unit: Option<string>): (p: MaterialProperty)
      ensures p.name == name && p.value == Range(min, max) && p.unit == unit
      ensures p.measurementMethod == None && p.source == None
    {
      MaterialProperty(name, Range(min, max), unit, None, None)
    }

    /** `with_source`: sets the source and nothing else. */
    function WithSource(s: PropertySource): (p: MaterialProperty)
      ensures p.source == Some(s) && p.(source := source) == this
    {
      this.(source := Some(s))
    }

    /** `with_method`: sets the measurement method and nothing else. */
    function WithMethod(m: string): (p: MaterialProperty)
      ensures p.measurementMethod == Some(m) && p.(measurementMethod := measurementMethod) == this
    {
      this.(measurementMethod := Some(m))
    }
  }

  datatype Material = Material(
    id: string,
    name: string,
    description: Option<string>,
    materialType: MaterialType,
    geology: Option<string>,
    properties: seq<MaterialProperty>,
    metadata: map<string, AgsiCore.JsonValue>)
  {
    /** `Material::new`: no description, no geology, no properties and no metadata. */
    static function New(id: string, name: string, materialType: MaterialType): (m: Material)
      ensures m.id == id && m.name == name && m.materialType == materialType
      ensures m.description == None && m.geology == None
      ensures m.properties == [] && m.metadata == map[]
    {
      Material(id, name, None, materialType, None, [], map[])
    }

    /** `with_property`: appends `p` after the existing properties and changes nothing else. */
    function WithProperty(p: MaterialProperty): (m: Material)
      ensures |m.properties| == |properties| + 1 && m.properties[|properties|] == p
      ensures m.properties[..|properties|] == properties
      ensures m.(properties := properties) == this
    {
      this.(properties := properties + [p])
    }

    /** `with_description`: sets the description and nothing else. */
    function WithDescription(d: string): (m: Material)
      ensures m.description == Some(d) && m.(description := description) == this
    {
      this.(description := Some(d))
    }

    /** `get_property`: the first property with this name, None when no property has it. */
    function GetProperty(name: string): (r: Option<MaterialProperty>)
      ensures r.None? <==> forall i :: 0 <= i < |properties| ==> properties[i].name != name
      ensures r.Some? ==> r.value.name == name
      ensures r.Some? ==> exists i :: 0 <= i < |properties| && properties[i] == r.value
                                      && forall j :: 0 <= j < i ==> properties[j].name != name
    {
      Seqs.Find(properties, (q: MaterialProperty) => q.name == name)
    }

    /** `get_properties_by_name`: all and only the properties with this name. That they keep
        their original order, repeats included, is `WithPropertyLookup` (with `Seqs.FilterAppend`). */
    function GetPropertiesByName(name: string): (r: seq<MaterialProperty>)
      ensures forall i :: 0 <= i < |r| ==> r[i].name == name && r[i] in properties
      ensures forall i :: 0 <= i < |properties| && properties[i].name == name ==> properties[i] in r
    {
      Seqs.Filter(properties, (q: MaterialProperty) => q.name == name)
    }
  }

  /** `get_property` is the head of `get_properties_by_name`: both see the same properties. */
  lemma FirstOfNamedIsGetProperty(m: Material, name: string)
    ensures m.GetProperty(name).None? <==> m.GetPropertiesByName(name) == []
    ensures m.GetPropertiesByName(name) != [] ==> m.GetProperty(name) == Some(m.GetPropertiesByName(name)[0])
  {
    Seqs.FilterHeadIsFind(m.properties, (q: MaterialProperty) => q.name == name);
  }

  /** Adding a property extends the by-name list at its end, and `get_property` keeps returning
      an earlier match when there is one. */
  lemma WithPropertyLookup(m: Material, p: MaterialProperty, name: string)
    ensures m.WithProperty(p).GetPropertiesByName(name)
            == m.GetPropertiesByName(name) + (if p.name == name then [p] else [])
    ensures m.WithProperty(p).GetProperty(name)
            == if m.GetProperty(name).Some? then m.GetProperty(name)
               else if p.name == name then Some(p) else None
  {
    var f := (q: MaterialProperty) => q.name == name;
    Seqs.FilterAppend(m.properties, [p], f);
    assert Seqs.Filter([p], f) == (if p.name == name then [p] else []);
    FirstOfNamedIsGetProperty(m, name);
    FirstOfNamedIsGetProperty(m.WithProperty(p), name);
  }

  /** The material built in the crate's own test: two numeric properties from testing, and
      `density` is found. */
  lemma TwoPropertiesExample()
    ensures var m := Material.New("MAT001", "Dense Sand", Soil)
              .WithDescription("Dense, medium to coarse sand")
              .WithProperty(MaterialProperty.Numeric("density", 1900.0, Some("kg/m3")).WithSource(Tested))
              .WithProperty(MaterialProperty.Numeric("friction_angle", 35.0, Some("degrees")).WithSource(Tested));
            m.id == "MAT001" && |m.properties| == 2 && m.GetProperty("density").Some?
  {
    var m0 := Material.New("MAT001", "Dense Sand", Soil).WithDescription("Dense, medium to coarse sand");
    var d := MaterialProperty.Numeric("density", 1900.0, Some("kg/m3")).WithSource(Tested);
    var f := MaterialProperty.Numeric("friction_angle", 35.0, Some("degrees")).WithSource(Tested);
    WithPropertyLookup(m0, d, "density");
    WithPropertyLookup(m0.WithProperty(d), f, "density");
  }
}
