/**
 The place handlers. Each is a pure function from the store, the request and
 the outcomes of the external services it calls to the new store, the reply,
 and the trace of external calls made, in order.
 */
module PlacesController {

  import opened Options
  import opened Http
  import opened Location
  import opened UserModel
  import opened Ledger
  import opened PlacesRoutes
  import opened PublicId
  import FileUpload

  /** An external call made while serving a request. */
  datatype Call =
    | StoreUpload(asset: FileUpload.StoredAsset)   // the upload middleware's storage engine
    | UploadImage(path: string)        // the image-store upload of `req.file.path`
    | Geocode(address: string)         // `getCoordinates(address)`
    | DestroyImage(publicId: string)   // the image-store destroy

  /** The JSON bodies the place handlers send. */
  datatype PlacesJson =
    | PlaceJson(id: PlaceId, place: Place)             // `{place}`
    | PlaceListJson(places: seq<(PlaceId, Place)>)     // `{places: [...]}`
    | UpdatedPlaceJson(id: PlaceId, place: Place)      // PATCH answers under the key `places`
    | MessageJson(message: string)                     // `{message}`

  datatype Outcome = Outcome(store: Store, reply: Reply<PlacesJson>, calls: seq<Call>)

  const NoImageMessage := "No image uploaded!"
  const UploadFailedMessage := "Image upload failed. Please try again."
  const CoordinatesMessage := "Could not fetch coordinates for the provided address."
  const FetchUserFailedMessage := "Fetching user failed, please try again"
  const UnknownCreatorMessage := "Could not find user for provided ID"
  const CreateFailedMessage := "Creating place failed. Please try again."
  const FetchPlaceFailedMessage := "Fetching place failed, please try again later."
  const UnknownPlaceMessage := "Could not find a place for the provided ID."
  const NotAllowedToEditMessage := "You are not allowed to edit this place."
  const UpdateFailedMessage := "Updating place failed, please try again later."
  const DeleteFailedMessage := "Something went wrong, could not delete place."
  const DeleteUnknownMessage := "Could not find place for this id."
  const NotAllowedToDeleteMessage := "You are not allowed to delete this place."
  const DeletedMessage := "Deleted place"
  const FindPlaceFailedMessage := "Something went wrong ,could not find a place "
  const NoPlaceForIdMessage := "Could not find a place for the provided id."
  const FetchPlacesFailedMessage := "Fetching places failed,please try again later "
  const NoPlacesForUserMessage := "Could not find  places for the provided user id."

  // ---------------------------------------------------------------- createPlace

  /** The body fields, the stored file's path (`req.file`) and the authenticated user. */
  datatype CreatePlaceRequest = CreatePlaceRequest(
    title: string,
    description: string,
    address: string,
    file: Option<string>,
    requester: UserId)

  /** The outcomes of everything `createPlace` does not decide itself: the
      upload's URL (None: it threw), the geocoding response, whether reading
      the user threw, the id the new place gets, and whether the commit succeeded. */
  datatype CreateEnv = CreateEnv(
    upload: Option<string>,
    geocoder: GeoResponse,
    userReadFails: bool,
    newPlaceId: PlaceId,
    commitOk: bool)

  /** Every step of `createPlace` succeeds. */
  predicate CreateSucceeds(s: Store, req: CreatePlaceRequest, env: CreateEnv) {
    && CreateFieldsValid(req.title, req.description, req.address)
    && req.file.Some?
    && env.upload.Some?
    && GetCoordinates(env.geocoder).Some?
    && !env.userReadFails
    && req.requester in s.users
    && env.newPlaceId !in s.places
    && env.commitOk
  }

  function CreatePlace(s: Store, req: CreatePlaceRequest, env: CreateEnv): (r: Outcome)
    // invalid input: 422 before any external call or write
    ensures !CreateFieldsValid(req.title, req.description, req.address) ==>
              r == Outcome(s, Passed(HttpError(InvalidInputsMessage, Status(422))), [])
    // no file: 400, sent directly, before any external call or write
    ensures CreateFieldsValid(req.title, req.description, req.address) && req.file.None? ==>
              r == Outcome(s, Sent(400, MessageJson(NoImageMessage)), [])
    // external calls: the upload first, geocoding only after a successful upload
    ensures r.calls != [] ==> req.file.Some? && r.calls[0] == UploadImage(req.file.value)
    ensures |r.calls| <= 2
    ensures |r.calls| == 2 ==> r.calls[1] == Geocode(req.address) && env.upload.Some?
    ensures env.upload.None? ==> |r.calls| <= 1 && r.store == s
    ensures GetCoordinates(env.geocoder).None? ==> r.store == s
    // a failed upload: 500 after the one upload call, nothing written
    ensures (&& CreateFieldsValid(req.title, req.description, req.address) && req.file.Some?
             && env.upload.None?) ==>
              r == Outcome(s, Passed(HttpError(UploadFailedMessage, Status(500))), [UploadImage(req.file.value)])
    // no usable coordinates: 500 after the upload and the geocoding call, nothing written
    ensures (&& CreateFieldsValid(req.title, req.description, req.address) && req.file.Some?
             && env.upload.Some? && GetCoordinates(env.geocoder).None?) ==>
              r == Outcome(s, Passed(HttpError(CoordinatesMessage, Status(500))),
                           [UploadImage(req.file.value), Geocode(req.address)])
    // reading the creator threw: 500, nothing written
    ensures (&& CreateFieldsValid(req.title, req.description, req.address) && req.file.Some?
             && env.upload.Some? && GetCoordinates(env.geocoder).Some? && env.userReadFails) ==>
              r == Outcome(s, Passed(HttpError(FetchUserFailedMessage, Status(500))),
                           [UploadImage(req.file.value), Geocode(req.address)])
    // unknown creator: 404, nothing written
    ensures (&& CreateFieldsValid(req.title, req.description, req.address) && req.file.Some?
             && env.upload.Some? && GetCoordinates(env.geocoder).Some? && !env.userReadFails
             && req.requester !in s.users) ==>
              r == Outcome(s, Passed(HttpError(UnknownCreatorMessage, Status(404))),
                           [UploadImage(req.file.value), Geocode(req.address)])
    // a failed commit, or an id already taken, writes nothing and answers 500
    ensures !env.commitOk ==> r.store == s
    ensures (&& CreateFieldsValid(req.title, req.description, req.address) && req.file.Some?
             && env.upload.Some? && GetCoordinates(env.geocoder).Some? && !env.userReadFails
             && req.requester in s.users && (!env.commitOk || env.newPlaceId in s.places)) ==>
              r == Outcome(s, Passed(HttpError(CreateFailedMessage, Status(500))),
                           [UploadImage(req.file.value), Geocode(req.address)])
    // the store changes only through a committed create, answered with 201
    ensures r.reply.Sent? && r.reply.status == 201 <==> CreateSucceeds(s, req, env)
    ensures r.store != s ==> CreateSucceeds(s, req, env)
    ensures CreateSucceeds(s, req, env) ==>
              var place := Place(req.title, req.description, req.address,
                                 GetCoordinates(env.geocoder).value, env.upload.value, req.requester);
              && r.store == Attach(s, env.newPlaceId, place)
              && r.reply == Sent(201, PlaceJson(env.newPlaceId, place))
              && r.calls == [UploadImage(req.file.value), Geocode(req.address)]
  {
    if !CreateFieldsValid(req.title, req.description, req.address) then
      Outcome(s, Passed(HttpError(InvalidInputsMessage, Status(422))), [])
    else if req.file.None? then
      Outcome(s, Sent(400, MessageJson(NoImageMessage)), [])
    else
      var uploaded := [UploadImage(req.file.value)];
      if env.upload.None? then
        Outcome(s, Passed(HttpError(UploadFailedMessage, Status(500))), uploaded)
      else
        var calls := uploaded + [Geocode(req.address)];
        var coordinates := GetCoordinates(env.geocoder);
        if coordinates.None? then
          Outcome(s, Passed(HttpError(CoordinatesMessage, Status(500))), calls)
        else if env.userReadFails then
          Outcome(s, Passed(HttpError(FetchUserFailedMessage, Status(500))), calls)
        else if req.requester !in s.users then
          Outcome(s, Passed(HttpError(UnknownCreatorMessage, Status(404))), calls)
        else
          var place := Place(req.title, req.description, req.address,
                             coordinates.value, env.upload.value, req.requester);
          // saving under an id already taken fails like any other failed write
          if env.newPlaceId in s.places || !env.commitOk then
            Outcome(s, Passed(HttpError(CreateFailedMessage, Status(500))), calls)
          else
            Outcome(Attach(s, env.newPlaceId, place), Sent(201, PlaceJson(env.newPlaceId, place)), calls)
  }

  // ---------------------------------------------------------------- updatePlace

  /** Two places agree on everything `updatePlace` must not touch. */
  predicate SameExceptText(a: Place, b: Place) {
    a.address == b.address && a.location == b.location && a.image == b.image && a.creator == b.creator
  }

  /** Whether reading the place threw, and whether saving it succeeded. */
  datatype UpdateEnv = UpdateEnv(readFails: bool, saveOk: bool)

  function UpdatePlace(s: Store, pid: PlaceId, title: string, description: string,
                       requester: UserId, env: UpdateEnv): (r: Outcome)
    ensures r.calls == []
    ensures r.store.users == s.users
    ensures !UpdateFieldsValid(title, description) ==>
              r == Outcome(s, Passed(HttpError(InvalidInputsMessage, Status(422))), [])
    ensures UpdateFieldsValid(title, description) && env.readFails ==>
              r == Outcome(s, Passed(HttpError(FetchPlaceFailedMessage, Status(500))), [])
    ensures UpdateFieldsValid(title, description) && !env.readFails && pid !in s.places ==>
              r == Outcome(s, Passed(HttpError(UnknownPlaceMessage, Status(404))), [])
    ensures (UpdateFieldsValid(title, description) && !env.readFails && pid in s.places
             && s.places[pid].creator != requester) ==>
              r == Outcome(s, Passed(HttpError(NotAllowedToEditMessage, Status(401))), [])
    ensures (UpdateFieldsValid(title, description) && !env.readFails && pid in s.places
             && s.places[pid].creator == requester && !env.saveOk) ==>
              r == Outcome(s, Passed(HttpError(UpdateFailedMessage, Status(500))), [])
    // success exactly when every check passes and the save succeeds
    ensures r.reply.Sent? <==>
              && UpdateFieldsValid(title, description) && !env.readFails && pid in s.places
              && s.places[pid].creator == requester && env.saveOk
    // only this place's title and description change
    ensures r.store.places.Keys == s.places.Keys
    ensures forall q | q in s.places && q != pid :: r.store.places[q] == s.places[q]
    ensures pid in s.places ==> SameExceptText(s.places[pid], r.store.places[pid])
    ensures r.reply.Sent? ==>
              && r.store.places[pid].title == title
              && r.store.places[pid].description == description
              && r.reply == Sent(200, UpdatedPlaceJson(pid, r.store.places[pid]))
    ensures !r.reply.Sent? ==> r.store == s
  {
    if !UpdateFieldsValid(title, description) then
      Outcome(s, Passed(HttpError(InvalidInputsMessage, Status(422))), [])
    else if env.readFails then
      Outcome(s, Passed(HttpError(FetchPlaceFailedMessage, Status(500))), [])
    else if pid !in s.places then
      Outcome(s, Passed(HttpError(UnknownPlaceMessage, Status(404))), [])
    else if s.places[pid].creator != requester then
      Outcome(s, Passed(HttpError(NotAllowedToEditMessage, Status(401))), [])
    else if !env.saveOk then
      Outcome(s, Passed(HttpError(UpdateFailedMessage, Status(500))), [])
    else
      var updated := s.places[pid].(title := title, description := description);
      Outcome(s.(places := s.places[pid := updated]), Sent(200, UpdatedPlaceJson(pid, updated)), [])
  }

  // ---------------------------------------------------------------- deletePlace

  /** Whether reading the place threw, whether the commit succeeded, and
      whether the image-store destroy succeeded. */
  datatype DeleteEnv = DeleteEnv(readFails: bool, commitOk: bool, destroyOk: bool)

  /** Every check of `deletePlace` passes and the transaction commits. */
  predicate DeleteCommits(s: Store, pid: PlaceId, requester: UserId, env: DeleteEnv) {
    && !env.readFails
    && pid in s.places
    && s.places[pid].creator in s.users
    && s.places[pid].creator == requester
    && env.commitOk
  }

  function DeletePlace(s: Store, pid: PlaceId, requester: UserId, env: DeleteEnv): (r: Outcome)
    ensures env.readFails ==> r == Outcome(s, Passed(HttpError(DeleteFailedMessage, Status(500))), [])
    ensures !env.readFails && pid !in s.places ==>
              r == Outcome(s, Passed(HttpError(DeleteUnknownMessage, Status(404))), [])
    ensures (!env.readFails && pid in s.places && s.places[pid].creator in s.users
             && s.places[pid].creator != requester) ==>
              r == Outcome(s, Passed(HttpError(NotAllowedToDeleteMessage, Status(401))), [])
    // a place whose creator document is gone makes the handler throw before its `try`
    ensures r.reply.Uncaught? <==> !env.readFails && pid in s.places && s.places[pid].creator !in s.users
    // the store changes exactly when the transaction commits, and then by removing this place
    ensures DeleteCommits(s, pid, requester, env) ==> r.store == Detach(s, pid)
    ensures !DeleteCommits(s, pid, requester, env) ==> r.store == s && r.calls == []
    // the destroy call comes only after the commit, with the id taken from the image URL
    ensures DeleteCommits(s, pid, requester, env) ==> r.calls == [DestroyImage(PublicIdOf(s.places[pid].image))]
    // 200 exactly when the commit and the destroy both succeed; a failed destroy
    // after the commit still answers 500
    ensures r.reply == Sent(200, MessageJson(DeletedMessage)) <==> DeleteCommits(s, pid, requester, env) && env.destroyOk
    // a failed transaction answers 500 with nothing removed and no destroy call
    ensures (!env.readFails && pid in s.places && s.places[pid].creator in s.users
             && s.places[pid].creator == requester && !env.commitOk) ==>
              r == Outcome(s, Passed(HttpError(DeleteFailedMessage, Status(500))), [])
    ensures DeleteCommits(s, pid, requester, env) && !env.destroyOk ==>
              r.reply == Passed(HttpError(DeleteFailedMessage, Status(500)))
  {
    if env.readFails then
      Outcome(s, Passed(HttpError(DeleteFailedMessage, Status(500))), [])
    else if pid !in s.places then
      Outcome(s, Passed(HttpError(DeleteUnknownMessage, Status(404))), [])
    else
      var place := s.places[pid];
      // `place.creator.id` on a creator that populated to null throws a TypeError
      if place.creator !in s.users then
        Outcome(s, Uncaught, [])
      else if place.creator != requester then
        Outcome(s, Passed(HttpError(NotAllowedToDeleteMessage, Status(401))), [])
      else
        var publicId := PublicIdOf(place.image);
        if !env.commitOk then
          Outcome(s, Passed(HttpError(DeleteFailedMessage, Status(500))), [])
        else
          var s' := Detach(s, pid);
          var calls := [DestroyImage(publicId)];
          if !env.destroyOk then
            Outcome(s', Passed(HttpError(DeleteFailedMessage, Status(500))), calls)
          else
            Outcome(s', Sent(200, MessageJson(DeletedMessage)), calls)
  }

  // ---------------------------------------------------------------- reads

  /** `populate('places')`: the listed ids that still name a place. */
  function Populate(ids: seq<PlaceId>, places: map<PlaceId, Place>): (r: seq<(PlaceId, Place)>)
    ensures forall e | e in r :: e.0 in ids && e.0 in places && e.1 == places[e.0]
    ensures forall id | id in ids && id in places :: (id, places[id]) in r
    ensures |r| <= |ids|
  {
    if ids == [] then []
    else
      var rest := Populate(ids[1..], places);
      if ids[0] in places then [(ids[0], places[ids[0]])] + rest else rest
  }

  /** `getPlaceById` as written: the not-found error is built without a code. */
  function GetPlaceByIdAsWritten(s: Store, pid: PlaceId, readFails: bool): (r: Reply<PlacesJson>)
    ensures !readFails && pid in s.places ==> r == Sent(200, PlaceJson(pid, s.places[pid]))
    ensures !readFails && pid !in s.places ==> r == Passed(HttpError(NoPlaceForIdMessage, NoCode))
    ensures readFails ==> r == Passed(HttpError(FindPlaceFailedMessage, Status(500)))
  {
    if readFails then Passed(HttpError(FindPlaceFailedMessage, Status(500)))
    else if pid !in s.places then Passed(HttpError(NoPlaceForIdMessage, NoCode))
    else Sent(200, PlaceJson(pid, s.places[pid]))
  }

  /** An unknown id reaches the client as 500, not 404. */
  lemma GetPlaceByIdAsWrittenAnswers500(s: Store, pid: PlaceId)
    requires pid !in s.places
    ensures Deliver(GetPlaceByIdAsWritten(s, pid, false)) == ErrorBody(Numeric(500), NoPlaceForIdMessage)
  {
  }

  /** `getPlaceById` with the not-found error carrying 404. */
  function GetPlaceById(s: Store, pid: PlaceId, readFails: bool): (r: Reply<PlacesJson>)
    ensures !readFails && pid in s.places ==> r == Sent(200, PlaceJson(pid, s.places[pid]))
    ensures !readFails && pid !in s.places ==>
              Deliver(r) == ErrorBody(Numeric(404), NoPlaceForIdMessage)
    ensures readFails ==> Deliver(r) == ErrorBody(Numeric(500), FindPlaceFailedMessage)
  {
    if readFails then Passed(HttpError(FindPlaceFailedMessage, Status(500)))
    else if pid !in s.places then Passed(HttpError(NoPlaceForIdMessage, Status(404)))
    else Sent(200, PlaceJson(pid, s.places[pid]))
  }

  /** `getPlacesByUserId` as written: no user, or no places, is an error without a code. */
  function GetPlacesByUserIdAsWritten(s: Store, uid: UserId, readFails: bool): (r: Reply<PlacesJson>)
    ensures readFails ==> r == Passed(HttpError(FetchPlacesFailedMessage, Status(500)))
    ensures (!readFails && (uid !in s.users || Populate(s.users[uid].places, s.places) == [])) ==>
              r == Passed(HttpError(NoPlacesForUserMessage, NoCode))
    // 200 exactly for a known user with at least one existing place, listing those places
    ensures r.Sent? <==> !readFails && uid in s.users && Populate(s.users[uid].places, s.places) != []
    ensures r.Sent? ==> uid in s.users && r == Sent(200, PlaceListJson(Populate(s.users[uid].places, s.places)))
  {
    if readFails then Passed(HttpError(FetchPlacesFailedMessage, Status(500)))
    else if uid !in s.users || |Populate(s.users[uid].places, s.places)| == 0 then
      Passed(HttpError(NoPlacesForUserMessage, NoCode))
    else Sent(200, PlaceListJson(Populate(s.users[uid].places, s.places)))
  }

  /** A user without places reaches the client as 500, not 404. */
  lemma GetPlacesByUserIdAsWrittenAnswers500(s: Store, uid: UserId)
    requires uid in s.users && s.users[uid].places == []
    ensures Deliver(GetPlacesByUserIdAsWritten(s, uid, false)) == ErrorBody(Numeric(500), NoPlacesForUserMessage)
  {
  }

  /** `getPlacesByUserId` with the not-found error carrying 404. */
  function GetPlacesByUserId(s: Store, uid: UserId, readFails: bool): (r: Reply<PlacesJson>)
    ensures readFails ==> Deliver(r) == ErrorBody(Numeric(500), FetchPlacesFailedMessage)
    ensures (!readFails && (uid !in s.users || Populate(s.users[uid].places, s.places) == [])) ==>
              Deliver(r) == ErrorBody(Numeric(404), NoPlacesForUserMessage)
    // 200 exactly for a known user with at least one existing place, listing those places
    ensures r.Sent? <==> !readFails && uid in s.users && Populate(s.users[uid].places, s.places) != []
    ensures r.Sent? ==> uid in s.users && r == Sent(200, PlaceListJson(Populate(s.users[uid].places, s.places)))
  {
    if readFails then Passed(HttpError(FetchPlacesFailedMessage, Status(500)))
    else if uid !in s.users || |Populate(s.users[uid].places, s.places)| == 0 then
      Passed(HttpError(NoPlacesForUserMessage, Status(404)))
    else Sent(200, PlaceListJson(Populate(s.users[uid].places, s.places)))
  }

  /** Under the ownership invariant a user's places are exactly the places that name them as creator. */
  lemma PlacesOfUserAreTheirs(s: Store, uid: UserId)
    requires Ownership(s) && uid in s.users
    ensures forall e | e in Populate(s.users[uid].places, s.places) :: s.places[e.0].creator == uid
    ensures forall pid | pid in s.places && s.places[pid].creator == uid ::
              (pid, s.places[pid]) in Populate(s.users[uid].places, s.places)
  {
  }
}
