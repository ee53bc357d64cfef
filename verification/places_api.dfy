/**
 The place routes end to end: the POST pipeline (authentication, the upload
 middleware, validation, `createPlace`), and the properties the handlers
 keep across requests.
 */
module PlacesApi {

  import opened Options
  import opened Http
  import opened UserModel
  import opened Ledger
  import opened FileUpload
  import opened PlacesRoutes
  import opened PlacesController

  /** Why a request never reached its handler. */
  datatype Refusal = AuthFailed | UploadRefused(error: HttpError)

  /** A request stopped before its handler, with the external calls made so
      far, or the handler's outcome with the middleware's calls in front. */
  datatype ApiResult = NotAdmitted(refusal: Refusal, calls: seq<Call>) | Handled(outcome: Outcome)

  /** The storage call the upload middleware makes for a request, if any. */
  function MiddlewareCalls(file: Option<IncomingFile>, uuid: string): (c: seq<Call>)
    ensures c != [] <==> ReachesStorage(file)
    ensures c != [] ==> c == [StoreUpload(StoredAsset(StorageFolder, uuid, StorageFormat))]
  {
    if ReachesStorage(file) then [StoreUpload(StorageParams(uuid))] else []
  }

  /** The storage call the trace records is the one `single('image')` depends
      on: an accepted file was stored under the recorded asset, the result
      depends on the storage engine only through that asset, and when no call
      is recorded the storage engine does not matter at all. */
  lemma StorageCallIsTheOneUploadUses(file: Option<IncomingFile>, uuid: string, store: StoredAsset -> StorageOutcome)
    ensures SingleImage(file, uuid, store).Accepted? ==>
              MiddlewareCalls(file, uuid) == [StoreUpload(StorageParams(uuid))]
    ensures forall st: StoredAsset -> StorageOutcome | st(StorageParams(uuid)) == store(StorageParams(uuid)) ::
              SingleImage(file, uuid, st) == SingleImage(file, uuid, store)
    ensures MiddlewareCalls(file, uuid) == [] ==>
              forall st: StoredAsset -> StorageOutcome :: SingleImage(file, uuid, st) == SingleImage(file, uuid, store)
  {
  }

  /** `POST /api/places`: `checkAuth`, then `single('image')`, then the
      validators and `createPlace`. */
  function PostPlace(s: Store, auth: Option<UserId>, file: Option<IncomingFile>,
                     uuid: string, store: StoredAsset -> StorageOutcome,
                     title: string, description: string, address: string, env: CreateEnv): (r: ApiResult)
    ensures auth.None? ==> r == NotAdmitted(AuthFailed, [])
    // an authenticated request whose upload is not refused reaches `createPlace`
    ensures auth.Some? && !SingleImage(file, uuid, store).Rejected? ==> r.Handled?
    // a file the middleware refuses never reaches the handler
    ensures auth.Some? && SingleImage(file, uuid, store).Rejected? ==>
              r == NotAdmitted(UploadRefused(SingleImage(file, uuid, store).error), MiddlewareCalls(file, uuid))
    // what reaches the handler is the authenticated user and the stored file's
    // path; the middleware's storage call comes before the handler's own calls
    ensures r.Handled? ==>
              && auth.Some?
              && !SingleImage(file, uuid, store).Rejected?
              && var c := CreatePlace(s, CreatePlaceRequest(title, description, address,
                                        if file.Some? then Some(store(StorageParams(uuid)).url) else None,
                                        auth.value), env);
                 r.outcome == Outcome(c.store, c.reply, MiddlewareCalls(file, uuid) + c.calls)
    // a file that reaches the handler has been stored already, whatever the handler answers
    ensures r.Handled? && file.Some? ==> r.outcome.calls != [] && r.outcome.calls[0] == StoreUpload(StorageParams(uuid))
  {
    if auth.None? then NotAdmitted(AuthFailed, [])
    else
      var stored := MiddlewareCalls(file, uuid);
      match SingleImage(file, uuid, store)
      case Rejected(e) => NotAdmitted(UploadRefused(e), stored)
      case NoFile =>
        var c := CreatePlace(s, CreatePlaceRequest(title, description, address, None, auth.value), env);
        Handled(Outcome(c.store, c.reply, stored + c.calls))
      case Accepted(path) =>
        var c := CreatePlace(s, CreatePlaceRequest(title, description, address, Some(path), auth.value), env);
        Handled(Outcome(c.store, c.reply, stored + c.calls))
  }

  /** A POST without a file is answered 400 once it passes validation, with no external call. */
  lemma PostWithoutFileAnswers400(s: Store, uid: UserId, uuid: string, store: StoredAsset -> StorageOutcome,
                                  title: string, description: string, address: string, env: CreateEnv)
    requires CreateFieldsValid(title, description, address)
    ensures PostPlace(s, Some(uid), None, uuid, store, title, description, address, env)
         == Handled(Outcome(s, Sent(400, MessageJson(NoImageMessage)), []))
  {
  }

  /** The image is stored before the body is validated: an invalid POST with an
      acceptable image answers 422 and leaves the stored image behind. */
  lemma InvalidPostKeepsStoredImage(s: Store, uid: UserId, f: IncomingFile,
                                    uuid: string, store: StoredAsset -> StorageOutcome,
                                    title: string, description: string, address: string, env: CreateEnv)
    requires SingleImage(Some(f), uuid, store).Accepted?
    requires !CreateFieldsValid(title, description, address)
    ensures PostPlace(s, Some(uid), Some(f), uuid, store, title, description, address, env)
         == Handled(Outcome(s, Passed(HttpError(InvalidInputsMessage, Status(422))),
                            [StoreUpload(StorageParams(uuid))]))
  {
  }

  /** A successful POST uploads the image twice: once by the middleware under
      `uploads/images`, once more by the handler from the first copy's URL. */
  lemma CreatedPostUploadsTwice(s: Store, uid: UserId, f: IncomingFile,
                                uuid: string, store: StoredAsset -> StorageOutcome,
                                title: string, description: string, address: string, env: CreateEnv)
    requires SingleImage(Some(f), uuid, store).Accepted?
    requires CreateSucceeds(s, CreatePlaceRequest(title, description, address,
                                                  Some(store(StorageParams(uuid)).url), uid), env)
    ensures PostPlace(s, Some(uid), Some(f), uuid, store, title, description, address, env).outcome.calls
         == [StoreUpload(StoredAsset(StorageFolder, uuid, StorageFormat)),
             UploadImage(store(StorageParams(uuid)).url), Geocode(address)]
  {
  }

  // ---------------------------------------------------------------- the not-found fallback

  /** The fallback middleware of `index.js`: a request the router lets
      through becomes the not-found error; any other request was already
      answered, refused or handed to its handler. */
  function Fallback(g: Gate): (r: Option<Reply<PlacesJson>>)
    ensures r.Some? <==> g.FallThrough?
    ensures r.Some? ==> r.value.Passed? && r.value.error.code == Status(404)
  {
    if g.FallThrough? then Some(Passed(RouteNotFound())) else None
  }

  /** An authenticated request reaches the fallback exactly when no route is
      registered for its shape, and then the client gets 404
      "Could not find this route.". */
  lemma UnregisteredRequestAnswers404(m: Method, segments: seq<string>, uid: UserId)
    ensures Fallback(Admit(m, segments, Some(uid))).Some? <==> !HasRoute(m, segments)
    ensures !HasRoute(m, segments) ==>
              Deliver(Fallback(Admit(m, segments, Some(uid))).value) == ErrorBody(Numeric(404), RouteNotFoundMessage)
  {
  }

  // ---------------------------------------------------------------- the ownership invariant

  lemma CreatePlaceKeepsOwnership(s: Store, req: CreatePlaceRequest, env: CreateEnv)
    requires Ownership(s)
    ensures Ownership(CreatePlace(s, req, env).store)
  {
    if CreateSucceeds(s, req, env) {
      var place := Place(req.title, req.description, req.address,
                         Location.GetCoordinates(env.geocoder).value, env.upload.value, req.requester);
      AttachKeepsOwnership(s, env.newPlaceId, place);
    }
  }

  lemma UpdatePlaceKeepsOwnership(s: Store, pid: PlaceId, title: string, description: string,
                                  requester: UserId, env: UpdateEnv)
    requires Ownership(s)
    ensures Ownership(UpdatePlace(s, pid, title, description, requester, env).store)
  {
  }

  lemma DeletePlaceKeepsOwnership(s: Store, pid: PlaceId, requester: UserId, env: DeleteEnv)
    requires Ownership(s)
    ensures Ownership(DeletePlace(s, pid, requester, env).store)
  {
    if DeleteCommits(s, pid, requester, env) {
      DetachKeepsOwnership(s, pid);
    }
  }

  /** After a 201 the new place exists and its creator lists it. */
  lemma CreatedPlaceIsListed(s: Store, req: CreatePlaceRequest, env: CreateEnv)
    requires Ownership(s) && CreateSucceeds(s, req, env)
    ensures var s' := CreatePlace(s, req, env).store;
            && env.newPlaceId in s'.places
            && s'.places[env.newPlaceId].creator == req.requester
            && req.requester in s'.users
            && env.newPlaceId in s'.users[req.requester].places
  {
  }

  /** Under the invariant a delete never throws outside its `try`. */
  lemma DeleteNeverThrowsUnderOwnership(s: Store, pid: PlaceId, requester: UserId, env: DeleteEnv)
    requires Ownership(s)
    ensures !DeletePlace(s, pid, requester, env).reply.Uncaught?
  {
  }

  // ---------------------------------------------------------------- sequences of requests

  /** A second delete of the same id finds nothing: 404, and no further change. */
  lemma DeleteTwice(s: Store, pid: PlaceId, requester: UserId, env1: DeleteEnv, env2: DeleteEnv)
    requires Ownership(s) && DeleteCommits(s, pid, requester, env1) && !env2.readFails
    ensures var s1 := DeletePlace(s, pid, requester, env1).store;
            DeletePlace(s1, pid, requester, env2)
              == Outcome(s1, Passed(HttpError(DeleteUnknownMessage, Status(404))), [])
  {
  }

  /** After a committed delete, reading the place answers 404. */
  lemma DeletedPlaceIsNotFound(s: Store, pid: PlaceId, requester: UserId, env: DeleteEnv)
    requires Ownership(s) && DeleteCommits(s, pid, requester, env)
    ensures Deliver(GetPlaceById(DeletePlace(s, pid, requester, env).store, pid, false))
         == ErrorBody(Numeric(404), NoPlaceForIdMessage)
  {
  }

  /** Creating a place and then deleting it as its creator, with every
      outside call succeeding, leaves the store as it was; the destroy call
      names the id taken from the uploaded image's URL. */
  lemma CreateThenDeleteRestores(s: Store, req: CreatePlaceRequest, cenv: CreateEnv, denv: DeleteEnv)
    requires Ownership(s) && CreateSucceeds(s, req, cenv)
    requires !denv.readFails && denv.commitOk && denv.destroyOk
    ensures var s1 := CreatePlace(s, req, cenv).store;
            DeletePlace(s1, cenv.newPlaceId, req.requester, denv)
              == Outcome(s, Sent(200, MessageJson(DeletedMessage)),
                         [DestroyImage(PublicId.PublicIdOf(cenv.upload.value))])
  {
    var place := Place(req.title, req.description, req.address,
                       Location.GetCoordinates(cenv.geocoder).value, cenv.upload.value, req.requester);
    DetachUndoesAttach(s, cenv.newPlaceId, place);
  }

  /** Repeating an update changes nothing further. */
  lemma UpdateIsIdempotent(s: Store, pid: PlaceId, title: string, description: string,
                           requester: UserId, env: UpdateEnv)
    ensures var s1 := UpdatePlace(s, pid, title, description, requester, env).store;
            UpdatePlace(s1, pid, title, description, requester, env).store == s1
  {
  }
}
