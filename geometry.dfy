/** Geometry payloads of model components (`geometry.rs`): points, lines, polygons, OBJ
    surfaces and collections, their constructors, the CRS accessor and the WKT step. */
module Geometries {
  import opened Wrappers
  import AgsiCore

  /** A coordinate triple `[x, y, z]`. */
  datatype Coord = Coord(x: real, y: real, z: real)

  /** A plane position: the part of a coordinate that WKT output keeps. */
  datatype Coord2 = Coord2(x: real, y: real)

  /** The 2D shape handed to the `wkt` crate. That crate renders it as text; the model keeps
      the shape, which determines the text. */
  datatype Shape2D =
    | PointShape(at: Coord2)
    | LineShape(points: seq<Coord2>)
    | PolygonShape(exterior: seq<Coord2>, interiors: seq<seq<Coord2>>)

  /** The `wkt` field: text rendered from a shape, or text taken over from a loaded file. */
  datatype WktText = WktOf(shape: Shape2D) | WktString(text: string)

  /** The `obj_data` field: the base64 text of some bytes, or text taken over from a loaded file. */
  datatype ObjData = Base64Of(bytes: seq<bv8>) | ObjString(text: string)

  datatype BoundingBox = BoundingBox(min: Coord, max: Coord)

  datatype SurfaceMetadata = SurfaceMetadata(vertexCount: nat, faceCount: nat, bounds: Option<BoundingBox>)

  datatype Geometry =
    | Point(position: Coord, crs: Option<string>)
    | LineString(coordinates: seq<Coord>, crs: Option<string>, wkt: Option<WktText>, wkb: Option<string>)
    | Polygon(rings: seq<seq<Coord>>, crs: Option<string>, wkt: Option<WktText>, wkb: Option<string>)
    | Surface(objData: ObjData, crs: Option<string>, metadata: Option<SurfaceMetadata>)
    | Collection(geometries: seq<Geometry>, crs: Option<string>)

  /** `ps` lists the plane positions of `cs`, one for one and in order. */
  predicate SameXY(ps: seq<Coord2>, cs: seq<Coord>) {
    |ps| == |cs| && forall i :: 0 <= i < |cs| ==> ps[i] == Coord2(cs[i].x, cs[i].y)
  }

  /** `Geometry::point`: a point at (x, y, z) with no CRS. */
  function MakePoint(x: real, y: real, z: real): (g: Geometry)
    ensures g.Point? && g.position == Coord(x, y, z)
    ensures Crs(g) == None
    ensures ToWkt(g) == Ok(WktOf(PointShape(Coord2(x, y))))
  {
    Point(Coord(x, y, z), None)
  }

  /** `Geometry::linestring`: at least two coordinates, kept as given; crs, wkt and wkb empty. */
  function MakeLineString(coords: seq<Coord>): (r: Result<Geometry, AgsiCore.Error>)
    ensures r.Err? <==> |coords| < 2
    ensures r.Err? ==> r.error == AgsiCore.Geometry("LineString must have at least 2 points")
    ensures r.Ok? ==> r.value.LineString? && r.value.coordinates == coords
    ensures r.Ok? ==> Crs(r.value) == None && r.value.wkt == None && r.value.wkb == None
  {
    if |coords| < 2 then Err(AgsiCore.Geometry("LineString must have at least 2 points"))
    else Ok(LineString(coords, None, None, None))
  }

  /** `Geometry::polygon`: the exterior needs three points; the rings are the exterior followed
      by the interiors in order, whose sizes are not checked. */
  function MakePolygon(exterior: seq<Coord>, interiors: seq<seq<Coord>>): (r: Result<Geometry, AgsiCore.Error>)
    ensures r.Err? <==> |exterior| < 3
    ensures r.Err? ==> r.error == AgsiCore.Geometry("Polygon exterior ring must have at least 3 points")
    ensures r.Ok? ==> r.value.Polygon? && |r.value.rings| == 1 + |interiors|
    ensures r.Ok? ==> r.value.rings[0] == exterior && r.value.rings[1..] == interiors
    ensures r.Ok? ==> Crs(r.value) == None && r.value.wkt == None && r.value.wkb == None
  {
    if |exterior| < 3 then Err(AgsiCore.Geometry("Polygon exterior ring must have at least 3 points"))
    else Ok(Polygon([exterior] + interiors, None, None, None))
  }

  /** `Geometry::surface`: never fails; the bytes are kept as their base64 text. */
  function MakeSurface(objBytes: seq<bv8>, metadata: Option<SurfaceMetadata>): (g: Geometry)
    ensures g.Surface? && g.objData == Base64Of(objBytes) && g.metadata == metadata
    ensures Crs(g) == None
    ensures ToWkt(g).Err?
  {
    Surface(Base64Of(objBytes), None, metadata)
  }

  /** The plane positions of a list of coordinates (`.map(|c| Coord { x: c[0], y: c[1] })`). */
  function DropZ(cs: seq<Coord>): (r: seq<Coord2>)
    ensures SameXY(r, cs)
  {
    if |cs| == 0 then [] else [Coord2(cs[0].x, cs[0].y)] + DropZ(cs[1..])
  }

  /** The plane positions of each ring of a list of rings. */
  function DropZRings(rings: seq<seq<Coord>>): (r: seq<seq<Coord2>>)
    ensures |r| == |rings| && forall k :: 0 <= k < |rings| ==> SameXY(r[k], rings[k])
  {
    if |rings| == 0 then [] else [DropZ(rings[0])] + DropZRings(rings[1..])
  }

  /** `Geometry::to_wkt`: points, lines and non-empty polygons have a WKT form built from the
      x and y of their coordinates in order; surfaces, collections and ringless polygons fail. */
  function ToWkt(g: Geometry): (r: Result<WktText, AgsiCore.Error>)
    ensures r.Ok? <==> g.Point? || g.LineString? || (g.Polygon? && |g.rings| > 0)
    ensures r.Err? ==> r.error.Geometry?
    ensures g.Point? ==> r == Ok(WktOf(PointShape(Coord2(g.position.x, g.position.y))))
    ensures g.LineString? ==> r.value.WktOf? && r.value.shape.LineShape?
                              && SameXY(r.value.shape.points, g.coordinates)
    ensures g.Polygon? && |g.rings| > 0 ==>
      r.value.WktOf? && r.value.shape.PolygonShape?
      && SameXY(r.value.shape.exterior, g.rings[0])
      && |r.value.shape.interiors| == |g.rings| - 1
      && forall k :: 1 <= k < |g.rings| ==> SameXY(r.value.shape.interiors[k - 1], g.rings[k])
  {
    match g
    case Point(c, _) => Ok(WktOf(PointShape(Coord2(c.x, c.y))))
    case LineString(cs, _, _, _) => Ok(WktOf(LineShape(DropZ(cs))))
    case Polygon(rings, _, _, _) =>
      if |rings| == 0 then Err(AgsiCore.Geometry("Empty polygon"))
      else Ok(WktOf(PolygonShape(DropZ(rings[0]), DropZRings(rings[1..]))))
    case Surface(_, _, _) => Err(AgsiCore.Geometry("Surface geometry cannot be converted to WKT"))
    case Collection(_, _) => Err(AgsiCore.Geometry("Collection geometry not yet supported for WKT"))
  }

  /** `Geometry::crs`, the CRS of any variant. */
  function Crs(g: Geometry): Option<string> {
    g.crs
  }

  /** `Geometry::with_crs`: afterwards `crs()` is `s`, and resetting the CRS gives back `g`. */
  function WithCrs(g: Geometry, s: string): (r: Geometry)
    ensures Crs(r) == Some(s)
    ensures r.(crs := g.crs) == g
  {
    g.(crs := Some(s))
  }

  /** `Geometry::compute_wkt_wkb`: lines and polygons get their WKT text and no WKB (a ringless
      polygon fails and is left unchanged); every other variant is returned unchanged. */
  function ComputeWktWkb(g: Geometry): (r: Result<Geometry, AgsiCore.Error>)
    ensures r.Err? <==> g.Polygon? && |g.rings| == 0
    ensures r.Ok? && (g.LineString? || g.Polygon?) ==>
      (r.value.LineString? || r.value.Polygon?) && r.value.wkt == Some(ToWkt(g).value) && r.value.wkb == None
      && r.value.(wkt := g.wkt, wkb := g.wkb) == g
    ensures r.Ok? && !(g.LineString? || g.Polygon?) ==> r.value == g
  {
    match g
    case LineString(cs, crs, _, _) => Ok(LineString(cs, crs, Some(ToWkt(g).value), None))
    case Polygon(rings, crs, _, _) =>
      if |rings| == 0 then Err(ToWkt(g).error)
      else Ok(Polygon(rings, crs, Some(ToWkt(g).value), None))
    case _ => Ok(g)
  }

  /** WKT output does not look at the crs, wkt or wkb fields, so computing the cached encodings
      leaves the WKT of a geometry unchanged and computing them twice is the same as once. */
  lemma ComputeWktWkbIdempotent(g: Geometry)
    requires ComputeWktWkb(g).Ok?
    ensures ToWkt(ComputeWktWkb(g).value) == ToWkt(g)
    ensures ComputeWktWkb(ComputeWktWkb(g).value) == ComputeWktWkb(g)
  {
  }

  /** Every line and polygon the constructors accept has a WKT form of the same size. */
  lemma ConstructedGeometryHasWkt(coords: seq<Coord>, exterior: seq<Coord>, interiors: seq<seq<Coord>>)
    ensures MakeLineString(coords).Ok? ==>
      ToWkt(MakeLineString(coords).value).Ok?
      && |ToWkt(MakeLineString(coords).value).value.shape.points| == |coords|
    ensures MakePolygon(exterior, interiors).Ok? ==>
      ToWkt(MakePolygon(exterior, interiors).value).Ok?
      && |ToWkt(MakePolygon(exterior, interiors).value).value.shape.interiors| == |interiors|
  {
  }

  /** Two lines with the same plane positions have the same WKT, whatever their heights. */
  lemma {:induction false} WktIgnoresHeight(a: seq<Coord>, b: seq<Coord>)
    requires |a| == |b| && forall i :: 0 <= i < |a| ==> a[i].x == b[i].x && a[i].y == b[i].y
    ensures ToWkt(LineString(a, None, None, None)) == ToWkt(LineString(b, None, None, None))
  {
    var pa, pb := DropZ(a), DropZ(b);
    assert |pa| == |pb|;
    forall i | 0 <= i < |pa| ensures pa[i] == pb[i] {
    }
    assert pa == pb;
  }
}
