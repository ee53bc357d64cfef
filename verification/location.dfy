/**
 The decision logic of `getCoordinates`: what a geocoding response turns into.
 The HTTP request itself, the URL encoding of the address and `parseFloat` are
 not modelled; coordinates keep the decimal text the provider returned.
 */
module Location {

  import opened Options

  /** One entry of the provider's JSON array. */
  datatype Match = Match(lat: string, lon: string)

  /** The parsed body: not JSON at all, JSON `null`, or an array of matches. */
  datatype JsonBody = Unparsable | Null | Results(matches: seq<Match>)

  /** What `fetch` produced: a network failure, or a response with a status and a body. */
  datatype GeoResponse = NetworkError | Responded(status: int, body: JsonBody)

  datatype Coordinates = Coordinates(lat: string, lng: string)

  /** The number of matches the query asks for (`limit=1`). */
  const SearchLimit: nat := 1

  /** `response.ok`: a status in the 2xx range. */
  predicate IsOk(status: int) {
    200 <= status <= 299
  }

  /** `getCoordinates` over the response it would have fetched. Every failure
      is caught inside and turned into `null`. */
  function GetCoordinates(response: GeoResponse): (r: Option<Coordinates>)
    // a location is produced exactly for an ok response with at least one match
    ensures r.Some? <==>
              && response.Responded?
              && IsOk(response.status)
              && response.body.Results?
              && |response.body.matches| > 0
    // and it is the first match, `lat` from `lat` and `lng` from `lon`
    ensures r.Some? ==>
              && r.value.lat == response.body.matches[0].lat
              && r.value.lng == response.body.matches[0].lon
  {
    match response
    case NetworkError => None
    case Responded(status, body) =>
      if !IsOk(status) then None
      else if !body.Results? || |body.matches| == 0 then None
      else Some(Coordinates(body.matches[0].lat, body.matches[0].lon))
  }

  /** Asking for one match loses nothing: only the first match is ever read,
      so a response cut to `SearchLimit` entries yields the same location. */
  lemma LimitLosesNothing(status: int, matches: seq<Match>)
    ensures GetCoordinates(Responded(status, Results(matches)))
         == GetCoordinates(Responded(status, Results(matches[..if |matches| < SearchLimit then |matches| else SearchLimit])))
  {
  }
}
