/**
 The two collections the place handlers write together, `Place` and `User`,
 and the ownership invariant that ties them: every place is listed by its
 creator, and every listed place exists and names that user as creator.
 */
module Ledger {

  import opened UserModel
  import Location

  /** A `Place` document. Its schema is not part of this model; the fields are
      the ones the handlers set and read. */
  datatype Place = Place(
    title: string,
    description: string,
    address: string,
    location: Location.Coordinates,
    image: string,
    creator: UserId)

  datatype Store = Store(places: map<PlaceId, Place>, users: map<UserId, User>)

  ghost predicate NoDuplicates(xs: seq<PlaceId>) {
    forall i, j | 0 <= i < j < |xs| :: xs[i] != xs[j]
  }

  /** Every place's creator exists and lists it. */
  ghost predicate CreatorsListTheirPlaces(s: Store) {
    forall pid | pid in s.places ::
      s.places[pid].creator in s.users && pid in s.users[s.places[pid].creator].places
  }

  /** Every listed place exists and names the listing user as its creator. */
  ghost predicate ListedPlacesAreOwned(s: Store) {
    forall uid, i | uid in s.users && 0 <= i < |s.users[uid].places| ::
      s.users[uid].places[i] in s.places && s.places[s.users[uid].places[i]].creator == uid
  }

  ghost predicate ListsAreSets(s: Store) {
    forall uid | uid in s.users :: NoDuplicates(s.users[uid].places)
  }

  ghost predicate Ownership(s: Store) {
    CreatorsListTheirPlaces(s) && ListedPlacesAreOwned(s) && ListsAreSets(s)
  }

  /** Mongoose's array `pull`: every occurrence of `x` removed. */
  function Pull(xs: seq<PlaceId>, x: PlaceId): (r: seq<PlaceId>)
    ensures forall y :: y in r <==> y in xs && y != x
    ensures x !in xs ==> r == xs
    ensures NoDuplicates(xs) ==> NoDuplicates(r)
  {
    if xs == [] then []
    else
      var rest := Pull(xs[1..], x);
      assert NoDuplicates(xs) ==> xs[0] !in xs[1..] by {
        if NoDuplicates(xs) {
          forall k | 0 <= k < |xs[1..]|
            ensures xs[1..][k] != xs[0]
          {
            assert xs[1..][k] == xs[k + 1];
          }
        }
      }
      if xs[0] == x then rest else [xs[0]] + rest
  }

  /** The committed effect of `createPlace`'s transaction: the place is saved
      and its id pushed onto its creator's list. */
  function Attach(s: Store, pid: PlaceId, place: Place): (r: Store)
    requires place.creator in s.users
    ensures r.places == s.places[pid := place]
    // the creator's list gains the id at its end; every other user, and the
    // creator's other fields, stay as they were
    ensures r.users.Keys == s.users.Keys
    ensures forall uid | uid in s.users && uid != place.creator :: r.users[uid] == s.users[uid]
    ensures r.users[place.creator].places == s.users[place.creator].places + [pid]
    ensures r.users[place.creator].(places := []) == s.users[place.creator].(places := [])
  {
    var owner := s.users[place.creator];
    Store(s.places[pid := place], s.users[place.creator := owner.(places := owner.places + [pid])])
  }

  /** The committed effect of `deletePlace`'s transaction: the place is
      removed and its id pulled from its creator's list. */
  function Detach(s: Store, pid: PlaceId): (r: Store)
    requires pid in s.places && s.places[pid].creator in s.users
    // only this place goes; the others stay as they were
    ensures r.places.Keys == s.places.Keys - {pid}
    ensures forall q | q in r.places :: r.places[q] == s.places[q]
    // the creator's list loses exactly the id; every other user, and the
    // creator's other fields, stay as they were
    ensures r.users.Keys == s.users.Keys
    ensures forall uid | uid in s.users && uid != s.places[pid].creator :: r.users[uid] == s.users[uid]
    ensures forall q :: q in r.users[s.places[pid].creator].places <==>
                          q in s.users[s.places[pid].creator].places && q != pid
    ensures r.users[s.places[pid].creator].(places := []) == s.users[s.places[pid].creator].(places := [])
  {
    var owner := s.users[s.places[pid].creator];
    Store(s.places - {pid}, s.users[s.places[pid].creator := owner.(places := Pull(owner.places, pid))])
  }

  /** An id no place has is on nobody's list. */
  lemma FreshIdIsUnlisted(s: Store, pid: PlaceId)
    requires ListedPlacesAreOwned(s) && pid !in s.places
    ensures forall uid | uid in s.users :: pid !in s.users[uid].places
  {
  }

  /** Attaching a place under a fresh id to an existing user keeps the invariant. */
  lemma AttachKeepsOwnership(s: Store, pid: PlaceId, place: Place)
    requires Ownership(s) && pid !in s.places && place.creator in s.users
    ensures Ownership(Attach(s, pid, place))
  {
  }

  /** Detaching an existing place keeps the invariant. */
  lemma DetachKeepsOwnership(s: Store, pid: PlaceId)
    requires Ownership(s) && pid in s.places
    ensures s.places[pid].creator in s.users
    ensures Ownership(Detach(s, pid))
  {
    var r := Detach(s, pid);
    var c := s.places[pid].creator;
    forall q | q in r.places
      ensures r.places[q].creator in r.users && q in r.users[r.places[q].creator].places
    {
      var owner := s.places[q].creator;
      assert q in s.users[owner].places;
      if owner == c {
        assert q in Pull(s.users[c].places, pid);
      }
    }
    forall uid, i | uid in r.users && 0 <= i < |r.users[uid].places|
      ensures r.users[uid].places[i] in r.places && r.places[r.users[uid].places[i]].creator == uid
    {
      var q := r.users[uid].places[i];
      if uid == c {
        assert q in Pull(s.users[c].places, pid);
        var k :| 0 <= k < |s.users[c].places| && s.users[c].places[k] == q;
      } else {
        assert q == s.users[uid].places[i];
        assert s.places[q].creator == uid;
      }
    }
  }

  /** Pulling an id just pushed onto a list that did not hold it gives the list back. */
  lemma {:induction false} PullAfterPush(xs: seq<PlaceId>, x: PlaceId)
    requires x !in xs
    ensures Pull(xs + [x], x) == xs
  {
    if xs == [] {
    } else {
      assert (xs + [x])[1..] == xs[1..] + [x];
      PullAfterPush(xs[1..], x);
    }
  }

  /** Deleting a place right after creating it restores the store exactly. */
  lemma DetachUndoesAttach(s: Store, pid: PlaceId, place: Place)
    requires Ownership(s) && pid !in s.places && place.creator in s.users
    ensures pid in Attach(s, pid, place).places
    ensures Detach(Attach(s, pid, place), pid) == s
  {
    var c := place.creator;
    var r := Attach(s, pid, place);
    FreshIdIsUnlisted(s, pid);
    PullAfterPush(s.users[c].places, pid);
    assert r.places - {pid} == s.places;
    assert Detach(r, pid).users[c] == s.users[c];
    assert Detach(r, pid).users == s.users;
  }
}
