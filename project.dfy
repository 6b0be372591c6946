/** Project metadata embedded in a document (`project.rs`): plain records with by-value builders. */
module Projects {
  import opened Wrappers
  import AgsiCore

  /** A longitude/latitude pair, stored in that order (`[lon, lat]`). */
  datatype LonLat = LonLat(lon: real, lat: real)

  datatype Location = Location(name: string, country: Option<string>, coordinates: Option<LonLat>, crs: Option<string>)
  {
    /** `Location::new`: only the name, with country, coordinates and CRS empty. */
    static function New(name: string): (l: Location)
      ensures l.name == name && l.country == None && l.coordinates == None && l.crs == None
    {
      Location(name, None, None, None)
    }

    /** `with_coordinates`: stores `[lon, lat]` and replaces the CRS with the argument, even when
        that is None; the name and country are kept. */
    function WithCoordinates(lon: real, lat: real, newCrs: Option<string>): (l: Location)
      ensures l.coordinates == Some(LonLat(lon, lat)) && l.crs == newCrs
      ensures l.name == name && l.country == country
    {
      this.(coordinates := Some(LonLat(lon, lat)), crs := newCrs)
    }
  }

  datatype ProjectDates = ProjectDates(start: Option<string>, end: Option<string>, dataCollection: Option<string>)

  datatype Project = Project(
    id: string,
    name: string,
    description: Option<string>,
    client: Option<string>,
    contractor: Option<string>,
    location: Option<Location>,
    dates: Option<ProjectDates>,
    metadata: map<string, AgsiCore.JsonValue>)
  {
    /** `Project::new`: id and name, every optional field empty and no metadata. */
    static function New(id: string, name: string): (p: Project)
      ensures p.id == id && p.name == name
      ensures p.description == None && p.client == None && p.contractor == None
      ensures p.location == None && p.dates == None && p.metadata == map[]
    {
      Project(id, name, None, None, None, None, None, map[])
    }

    /** `with_client`: sets the client and nothing else. */
    function WithClient(c: string): (p: Project)
      ensures p.client == Some(c) && p.(client := client) == this
    {
      this.(client := Some(c))
    }

    /** `with_contractor`: sets the contractor and nothing else. */
    function WithContractor(c: string): (p: Project)
      ensures p.contractor == Some(c) && p.(contractor := contractor) == this
    {
      this.(contractor := Some(c))
    }

    /** `with_location`: sets the location and nothing else. */
    function WithLocation(l: Location): (p: Project)
      ensures p.location == Some(l) && p.(location := location) == this
    {
      this.(location := Some(l))
    }

    /** `with_dates`: sets the dates and nothing else. */
    function WithDates(d: ProjectDates): (p: Project)
      ensures p.dates == Some(d) && p.(dates := dates) == this
    {
      this.(dates := Some(d))
    }
  }

  /** Since each builder touches its own field only, the builders can be applied in any order. */
  lemma BuildersCommute(p: Project, client: string, contractor: string, l: Location, d: ProjectDates)
    ensures p.WithClient(client).WithContractor(contractor).WithLocation(l).WithDates(d)
         == p.WithDates(d).WithLocation(l).WithContractor(contractor).WithClient(client)
  {
  }
}
