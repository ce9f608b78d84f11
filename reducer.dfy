/** The store's pure transition function: a state record and the six action kinds. */
module Reducer {
  import opened Cities

  /** The store state. `currentCity` is `None` where the store holds the empty record `{}`. */
  datatype State = State(
    cities: seq<City>,
    isLoading: bool,
    currentCity: Option<City>,
    error: string)

  /** Empty list, not loading, no current city, no error. */
  const InitialState := State([], false, None, "")

  /** The six action kinds, each with its payload. An action with any other tag,
      which the source rejects at run time, cannot be built. */
  datatype Action =
    | Loading
    | CitiesLoaded(cities: seq<City>)
    | CityLoaded(city: City)
    | CityCreated(city: City)
    | CityDeleted(id: int)
    | Rejected(message: string)
  {
    /** The actions dispatched after a request has succeeded. */
    predicate IsSuccess()
    {
      CitiesLoaded? || CityLoaded? || CityCreated? || CityDeleted?
    }
  }

  /** The reducer. Only `loading` leaves the store loading; only `rejected` writes
      `error`, so an error message outlives every later success; and neither
      `loading` nor `rejected` touches the data fields. */
  function Reduce(s: State, a: Action): (r: State)
    ensures r.isLoading <==> a.Loading?
    ensures !a.Rejected? ==> r.error == s.error
    ensures a.Loading? || a.Rejected? ==> r.cities == s.cities && r.currentCity == s.currentCity
  {
    match a
    case Loading => s.(isLoading := true)
    case CitiesLoaded(data) => s.(isLoading := false, cities := data)
    case CityLoaded(c) => s.(isLoading := false, currentCity := Some(c))
    case CityCreated(c) => s.(isLoading := false, cities := s.cities + [c], currentCity := Some(c))
    case CityDeleted(id) => s.(isLoading := false, cities := RemoveId(s.cities, id), currentCity := None)
    case Rejected(msg) => s.(isLoading := false, error := msg)
  }

  /** The state reached by dispatching `log` in order, starting from `s`. */
  function Replay(s: State, log: seq<Action>): State
    decreases |log|
  {
    if log == [] then s else Replay(Reduce(s, log[0]), log[1..])
  }

  /** Replaying two logs one after the other is replaying their concatenation. */
  lemma {:induction false} ReplayAppend(s: State, first: seq<Action>, second: seq<Action>)
    ensures Replay(s, first + second) == Replay(Replay(s, first), second)
    decreases |first|
  {
    if first != [] {
      var log := first + second;
      assert log[0] == first[0] && log[1..] == first[1..] + second;
      calc {
        Replay(s, log);
        Replay(Reduce(s, first[0]), first[1..] + second);
        { ReplayAppend(Reduce(s, first[0]), first[1..], second); }
        Replay(Replay(Reduce(s, first[0]), first[1..]), second);
        Replay(Replay(s, first), second);
      }
    } else {
      assert first + second == second;
    }
  }

  /** Dispatching one more action after a log. */
  lemma ReplaySnoc(s: State, log: seq<Action>, a: Action)
    ensures Replay(s, log + [a]) == Reduce(Replay(s, log), a)
  {
    ReplayAppend(s, log, [a]);
    assert Replay(Replay(s, log), [a]) == Replay(Reduce(Replay(s, log), a), []);
  }

  /** `loading` raises the flag and changes nothing else. */
  lemma LoadingOnlyRaisesFlag(s: State)
    ensures Reduce(s, Loading) == s.(isLoading := true)
    ensures Reduce(s, Loading).cities == s.cities
    ensures Reduce(s, Loading).currentCity == s.currentCity
    ensures Reduce(s, Loading).error == s.error
  {
  }

  /** `cities/loaded` replaces the list and keeps the current city and the error. */
  lemma CitiesLoadedReplacesList(s: State, data: seq<City>)
    ensures Reduce(s, CitiesLoaded(data)).cities == data
    ensures !Reduce(s, CitiesLoaded(data)).isLoading
    ensures Reduce(s, CitiesLoaded(data)).currentCity == s.currentCity
    ensures Reduce(s, CitiesLoaded(data)).error == s.error
  {
  }

  /** `city/loaded` sets the current city and keeps the list and the error. */
  lemma CityLoadedSetsCurrent(s: State, c: City)
    ensures Reduce(s, CityLoaded(c)).currentCity == Some(c)
    ensures !Reduce(s, CityLoaded(c)).isLoading
    ensures Reduce(s, CityLoaded(c)).cities == s.cities
    ensures Reduce(s, CityLoaded(c)).error == s.error
  {
  }

  /** `city/created` appends exactly the payload: the old list is a prefix, the list
      grows by one, the new city becomes current, and the error is kept. */
  lemma CityCreatedAppends(s: State, c: City)
    ensures var r := Reduce(s, CityCreated(c));
      |r.cities| == |s.cities| + 1 && r.cities[..|s.cities|] == s.cities && r.cities[|s.cities|] == c
    ensures multiset(Reduce(s, CityCreated(c)).cities) == multiset(s.cities) + multiset{c}
    ensures Reduce(s, CityCreated(c)).currentCity == Some(c)
    ensures !Reduce(s, CityCreated(c)).isLoading
    ensures Reduce(s, CityCreated(c)).error == s.error
  {
  }

  /** `city/deleted`: no city with the id remains; every other city is kept, as often
      as before and in its original order; the list is untouched exactly when the id
      was absent; the current city is reset and the error kept. */
  lemma CityDeletedRemovesId(s: State, id: int)
    ensures var r := Reduce(s, CityDeleted(id));
      forall i :: 0 <= i < |r.cities| ==> r.cities[i].id != id
    ensures var r := Reduce(s, CityDeleted(id));
      forall c: City :: c.id != id ==> multiset(r.cities)[c] == multiset(s.cities)[c]
    ensures IsSubsequence(Reduce(s, CityDeleted(id)).cities, s.cities)
    ensures Reduce(s, CityDeleted(id)).cities == s.cities <==> !HasId(s.cities, id)
    ensures Reduce(s, CityDeleted(id)).currentCity == None
    ensures !Reduce(s, CityDeleted(id)).isLoading
    ensures Reduce(s, CityDeleted(id)).error == s.error
  {
    RemoveIdNoneRemain(s.cities, id);
    RemoveIdKeepsOthers(s.cities, id);
    RemoveIdKeepsOrder(s.cities, id);
    RemoveIdUnchangedIffAbsent(s.cities, id);
  }

  /** Deleting the same id twice in a row gives the same state as deleting it once. */
  lemma CityDeletedIdempotent(s: State, id: int)
    ensures Reduce(Reduce(s, CityDeleted(id)), CityDeleted(id)) == Reduce(s, CityDeleted(id))
  {
    RemoveIdIdempotent(s.cities, id);
  }

  /** `rejected` records its message and keeps the list and the current city. */
  lemma RejectedRecordsError(s: State, msg: string)
    ensures Reduce(s, Rejected(msg)).error == msg
    ensures !Reduce(s, Rejected(msg)).isLoading
    ensures Reduce(s, Rejected(msg)).cities == s.cities
    ensures Reduce(s, Rejected(msg)).currentCity == s.currentCity
  {
  }

  /** Only `rejected` writes the error: once set, an error message survives any
      number of later actions of the other kinds, successes included. */
  lemma {:induction false} StaleErrorSurvives(s: State, log: seq<Action>)
    requires forall i :: 0 <= i < |log| ==> !log[i].Rejected?
    ensures Replay(s, log).error == s.error
    decreases |log|
  {
    if log != [] {
      StaleErrorSurvives(Reduce(s, log[0]), log[1..]);
    }
  }
}
