/** The provider's four operations, each seen as the requests it sends and the
    actions it dispatches. The network is abstracted: every operation is given the
    outcome of its one request. */
module Provider {
  import opened Cities
  import opened Reducer

  /** How a request ended: with a parsed response body, or with an exception
      (a network failure or a body that is not JSON). The HTTP status is not
      looked at, so a resolved request is an `Ok`. */
  datatype Outcome<+T> = Ok(body: T) | Fail

  /** The one request an operation sends to the remote API. */
  datatype Request =
    | FetchAll            // GET    /cities
    | FetchOne(id: int)   // GET    /cities/{id}
    | Post(city: City)    // POST   /cities, JSON body
    | Remove(id: int)     // DELETE /cities/{id}

  /** An operation together with the outcome of its request. A deletion's
      response body is never read, so its outcome carries nothing. */
  datatype Operation =
    | LoadCities(fetched: Outcome<seq<City>>)
    | GetCity(id: int, loaded: Outcome<City>)
    | CreateCity(newCity: City, created: Outcome<City>)
    | DeleteCity(id: int, deleted: Outcome<()>)
  {
    /** The request did not fail. */
    predicate Succeeded()
    {
      match this
      case LoadCities(o) => o.Ok?
      case GetCity(_, o) => o.Ok?
      case CreateCity(_, o) => o.Ok?
      case DeleteCity(_, o) => o.Ok?
    }
  }

  /** The fixed message each operation reports when its request fails. */
  const LoadCitiesMessage := "There was an error loading cities..."
  const LoadCityMessage := "There was an error loading the city..."
  const CreateCityMessage := "There was an error creating the city..."
  const DeleteCityMessage := "There was an error deleting the city..."

  function FailureMessage(op: Operation): string
  {
    match op
    case LoadCities(_) => LoadCitiesMessage
    case GetCity(_, _) => LoadCityMessage
    case CreateCity(_, _) => CreateCityMessage
    case DeleteCity(_, _) => DeleteCityMessage
  }

  /** `getCity` skips its request when the asked id is the current city's id;
      with no current city (the empty record) it never does. */
  predicate IsCacheHit(s: State, id: int)
  {
    s.currentCity.Some? && s.currentCity.value.id == id
  }

  /** The operation returns early, before dispatching anything. */
  predicate ShortCircuits(s: State, op: Operation)
  {
    op.GetCity? && IsCacheHit(s, op.id)
  }

  /** The action dispatched once the request has ended. */
  function Settle(op: Operation): (a: Action)
    ensures !a.Loading?
    ensures a.IsSuccess() <==> op.Succeeded()
    ensures !op.Succeeded() ==> a == Rejected(FailureMessage(op))
  {
    match op
    case LoadCities(o) =>
      if o.Ok? then CitiesLoaded(o.body) else Rejected(LoadCitiesMessage)
    case GetCity(_, o) =>
      if o.Ok? then CityLoaded(o.body) else Rejected(LoadCityMessage)
    case CreateCity(_, o) =>
      if o.Ok? then CityCreated(o.body) else Rejected(CreateCityMessage)
    case DeleteCity(id, o) =>
      if o.Ok? then CityDeleted(id) else Rejected(DeleteCityMessage)
  }

  /** The actions the operation dispatches from state `s`, in order: nothing on a
      cache hit, otherwise `loading` and then the settling action. */
  function Dispatches(s: State, op: Operation): (log: seq<Action>)
    ensures log == [] <==> ShortCircuits(s, op)
    ensures log != [] ==> |log| == 2 && log[0] == Loading
    ensures log != [] ==> !log[1].Loading? && (log[1].IsSuccess() <==> op.Succeeded())
    ensures log != [] && !op.Succeeded() ==> log[1] == Rejected(FailureMessage(op))
  {
    if ShortCircuits(s, op) then [] else [Loading, Settle(op)]
  }

  /** The requests the operation sends from state `s`: none on a cache hit, one otherwise. */
  function Requests(s: State, op: Operation): (sent: seq<Request>)
    ensures |sent| == if ShortCircuits(s, op) then 0 else 1
    ensures op.LoadCities? ==> sent == [FetchAll]
    ensures op.GetCity? && !ShortCircuits(s, op) ==> sent == [FetchOne(op.id)]
    ensures op.CreateCity? ==> sent == [Post(op.newCity)]
    ensures op.DeleteCity? ==> sent == [Remove(op.id)]
  {
    if ShortCircuits(s, op) then []
    else
      match op
      case LoadCities(_) => [FetchAll]
      case GetCity(id, _) => [FetchOne(id)]
      case CreateCity(c, _) => [Post(c)]
      case DeleteCity(id, _) => [Remove(id)]
  }

  /** The state after the operation: its dispatches replayed through the reducer. */
  function Perform(s: State, op: Operation): State
  {
    Replay(s, Dispatches(s, op))
  }

  /** Away from a cache hit, an operation is `loading` followed by its settling action. */
  lemma PerformIsTwoSteps(s: State, op: Operation)
    requires !ShortCircuits(s, op)
    ensures Perform(s, op) == Reduce(Reduce(s, Loading), Settle(op))
  {
    var log := Dispatches(s, op);
    assert log[1..] == [Settle(op)] && log[1..][1..] == [];
    calc {
      Replay(s, log);
      Replay(Reduce(s, Loading), [Settle(op)]);
      Replay(Reduce(Reduce(s, Loading), Settle(op)), []);
    }
  }

  /** A cache hit dispatches nothing and sends nothing: the state is entirely unchanged. */
  lemma CacheHitChangesNothing(s: State, id: int, loaded: Outcome<City>)
    requires IsCacheHit(s, id)
    ensures Dispatches(s, GetCity(id, loaded)) == []
    ensures Requests(s, GetCity(id, loaded)) == []
    ensures Perform(s, GetCity(id, loaded)) == s
  {
  }

  /** Every operation that does not short-circuit leaves the store not loading. */
  lemma OperationEndsIdle(s: State, op: Operation)
    requires !ShortCircuits(s, op)
    ensures !Perform(s, op).isLoading
  {
    PerformIsTwoSteps(s, op);
  }

  /** A failed request leaves the list and the current city as they were and records
      the operation's fixed message. */
  lemma FailureRecordsMessage(s: State, op: Operation)
    requires !ShortCircuits(s, op) && !op.Succeeded()
    ensures Perform(s, op).cities == s.cities
    ensures Perform(s, op).currentCity == s.currentCity
    ensures Perform(s, op).error == FailureMessage(op)
    ensures !Perform(s, op).isLoading
  {
    PerformIsTwoSteps(s, op);
  }

  /** A successful operation never touches `error`: a message left by an earlier
      failure is still shown afterwards. */
  lemma SuccessKeepsStaleError(s: State, op: Operation)
    requires op.Succeeded()
    ensures Perform(s, op).error == s.error
  {
    StaleErrorSurvives(s, Dispatches(s, op));
  }

  /** A successful initial load installs the fetched list. */
  lemma LoadCitiesInstallsList(s: State, data: seq<City>)
    ensures var r := Perform(s, LoadCities(Ok(data)));
      r.cities == data && r.currentCity == s.currentCity && r.error == s.error && !r.isLoading
  {
    PerformIsTwoSteps(s, LoadCities(Ok(data)));
  }

  /** A successful `getCity` that missed the cache makes the loaded city current. */
  lemma GetCityLoadsCurrent(s: State, id: int, c: City)
    requires !IsCacheHit(s, id)
    ensures var r := Perform(s, GetCity(id, Ok(c)));
      r.currentCity == Some(c) && r.cities == s.cities && r.error == s.error && !r.isLoading
  {
    PerformIsTwoSteps(s, GetCity(id, Ok(c)));
  }

  /** A successful `createCity` appends the record returned by the server and makes it current. */
  lemma CreateCityAppends(s: State, newCity: City, c: City)
    ensures var r := Perform(s, CreateCity(newCity, Ok(c)));
      r.cities == s.cities + [c] && r.currentCity == Some(c) && r.error == s.error && !r.isLoading
  {
    PerformIsTwoSteps(s, CreateCity(newCity, Ok(c)));
  }

  /** A successful `deleteCity` removes every city with the id, keeps the others in
      order and clears the current city. */
  lemma DeleteCityRemoves(s: State, id: int)
    ensures var r := Perform(s, DeleteCity(id, Ok(())));
      (forall i :: 0 <= i < |r.cities| ==> r.cities[i].id != id) &&
      IsSubsequence(r.cities, s.cities) &&
      (forall c: City :: c.id != id ==> multiset(r.cities)[c] == multiset(s.cities)[c]) &&
      r.currentCity == None && r.error == s.error && !r.isLoading
  {
    PerformIsTwoSteps(s, DeleteCity(id, Ok(())));
    CityDeletedRemovesId(Reduce(s, Loading), id);
  }

  /** Two `getCity` calls for the same id: when the first one succeeds with a record
      carrying that id, the second sends no request and changes nothing. */
  lemma GetCityTwiceFetchesOnce(s: State, id: int, c: City, second: Outcome<City>)
    requires c.id == id
    ensures var mid := Perform(s, GetCity(id, Ok(c)));
      |Requests(s, GetCity(id, Ok(c)))| + |Requests(mid, GetCity(id, second))| <= 1 &&
      Perform(mid, GetCity(id, second)) == mid
  {
    if !IsCacheHit(s, id) {
      GetCityLoadsCurrent(s, id, c);
    }
  }

  /** Without a successful first call the cache does not help: when the first `getCity`
      fails, the current city is not updated and the second call for the same id
      sends its own request. */
  lemma GetCityTwiceAfterFailureFetchesTwice(s: State, id: int, second: Outcome<City>)
    requires !IsCacheHit(s, id)
    ensures var mid := Perform(s, GetCity(id, Fail));
      |Requests(s, GetCity(id, Fail))| + |Requests(mid, GetCity(id, second))| == 2
  {
    FailureRecordsMessage(s, GetCity(id, Fail));
  }
}
