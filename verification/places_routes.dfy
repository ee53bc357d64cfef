/**
 The `/api/places` router: which handler a request reaches, which routes sit
 behind the authentication middleware, and the body validation rules.
 Paths are given as their non-empty segments below `/api/places`.
 */
module PlacesRoutes {

  import opened Options
  import opened UserModel
  import opened Text

  datatype Method = Get | Post | Patch | Delete | Put

  datatype Route =
    | UserPlacesRoute(uid: UserId)   // GET /user/:uid
    | PlaceRoute(pid: PlaceId)       // GET /:pid
    | CreateRoute                    // POST /
    | UpdateRoute(pid: PlaceId)      // PATCH /:pid
    | DeleteRoute(pid: PlaceId)      // DELETE /:pid
    | Unmatched

  /** How far a request gets through the router. */
  datatype Gate =
    | Proceed(route: Route, requester: Option<UserId>)   // reaches its handler
    | AuthRejected                                       // stopped by the authentication middleware
    | FallThrough                                        // leaves the router for the 404 fallback

  /** The literal segment of `/user/:uid`. Express routers match paths
      without regard to case unless `caseSensitive` is set, and it is not. */
  predicate IsUserSegment(segment: string) {
    SameIgnoringAsciiCase(segment, "user")
  }

  /** The request shapes some route is registered for. */
  predicate HasRoute(m: Method, segments: seq<string>) {
    || (m == Get && (|segments| == 1 || (|segments| == 2 && IsUserSegment(segments[0]))))
    || (m == Post && segments == [])
    || ((m == Patch || m == Delete) && |segments| == 1)
  }

  /** The routes in registration order. */
  function Dispatch(m: Method, segments: seq<string>): (r: Route)
    ensures r.UserPlacesRoute? ==> m == Get && |segments| == 2 && IsUserSegment(segments[0]) && segments[1] == r.uid
    ensures r.PlaceRoute? ==> m == Get && segments == [r.pid]
    ensures r == CreateRoute ==> m == Post && segments == []
    ensures r.UpdateRoute? ==> m == Patch && segments == [r.pid]
    ensures r.DeleteRoute? ==> m == Delete && segments == [r.pid]
    ensures r == Unmatched <==> !HasRoute(m, segments)
  {
    if m == Get && |segments| == 2 && IsUserSegment(segments[0]) then UserPlacesRoute(segments[1])
    else if m == Get && |segments| == 1 then PlaceRoute(segments[0])
    else if m == Post && segments == [] then CreateRoute
    else if m == Patch && |segments| == 1 then UpdateRoute(segments[0])
    else if m == Delete && |segments| == 1 then DeleteRoute(segments[0])
    else Unmatched
  }

  /** The two GET routes registered before `router.use(checkAuth)`. */
  predicate IsPublic(r: Route) {
    r.UserPlacesRoute? || r.PlaceRoute?
  }

  /** A request's way through the router. Anything not matched by the two
      public routes meets the authentication middleware first, even a request
      that then matches no route at all. */
  function Admit(m: Method, segments: seq<string>, auth: Option<UserId>): (g: Gate)
    ensures g.AuthRejected? <==> !IsPublic(Dispatch(m, segments)) && auth.None?
    ensures g.FallThrough? <==> Dispatch(m, segments) == Unmatched && auth.Some?
    ensures g.Proceed? ==> g.route == Dispatch(m, segments)
    ensures g.Proceed? && !IsPublic(g.route) ==> g.requester == auth && auth.Some?
  {
    var route := Dispatch(m, segments);
    if IsPublic(route) then Proceed(route, None)
    else if auth.None? then AuthRejected
    else if route == Unmatched then FallThrough
    else Proceed(route, auth)
  }

  /** `check('title').not().isEmpty()`, `check('description').isLength({min:5})`,
      `check('address').not().isEmpty()`. A missing field reads as "". */
  predicate CreateFieldsValid(title: string, description: string, address: string) {
    title != "" && ValidatorLength(description) >= 5 && address != ""
  }

  /** The PATCH rules: the same title and description checks, no address check. */
  predicate UpdateFieldsValid(title: string, description: string) {
    title != "" && ValidatorLength(description) >= 5
  }

  /** With a title present, a description passes exactly when `isLength` counts
      at least five: a presentation selector adds nothing, so three letters and
      a heart with its emoji selector, five code points, fail. */
  lemma DescriptionLengthSkipsSelectors(title: string, description: string)
    requires title != ""
    ensures UpdateFieldsValid(title, description) <==> ValidatorLength(description) >= 5
    ensures !UpdateFieldsValid(title, "abc\U{2764}\U{FE0F}")
  {
  }

  /** POST and PATCH agree on title and description; only POST looks at the address. */
  lemma CreateRulesExtendUpdateRules(title: string, description: string, address: string)
    ensures CreateFieldsValid(title, description, address) <==> UpdateFieldsValid(title, description) && address != ""
  {
  }

  /** Only the two GET routes can be reached without a token; every write needs one. */
  lemma WritesNeedAuthentication(m: Method, segments: seq<string>)
    ensures m != Get ==> Admit(m, segments, None) == AuthRejected
    ensures m == Get && 1 <= |segments| <= 2 && (|segments| == 2 ==> IsUserSegment(segments[0])) ==>
              Admit(m, segments, None).Proceed?
  {
  }

  /** `GET /USER/:uid` and `GET /User/:uid` reach the public user route like
      `GET /user/:uid`, without a token; a different word does not. */
  lemma UserSegmentIgnoresCase(uid: UserId)
    ensures Admit(Get, ["USER", uid], None) == Proceed(UserPlacesRoute(uid), None)
    ensures Admit(Get, ["User", uid], None) == Proceed(UserPlacesRoute(uid), None)
    ensures Admit(Get, ["users", uid], None) == AuthRejected
  {
  }
}
