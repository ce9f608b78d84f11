/** The provider's state cell and its operations. Each operation runs to completion
    before the next one starts; the outcome of its one request is a parameter. */
module Store {
  import opened Cities
  import opened Reducer
  import opened Provider

  class CityStore {
    /** The state held by the reducer hook. */
    var state: State
    /** Every action dispatched so far, oldest first. */
    ghost var dispatched: seq<Action>
    /** Every request sent to the remote API so far, oldest first. */
    ghost var requests: seq<Request>

    /** The state is what the dispatched actions make of the initial state. */
    ghost predicate Consistent()
      reads this
    {
      state == Replay(InitialState, dispatched)
    }

    /** Between operations the state is consistent and no request is pending. */
    ghost predicate Valid()
      reads this
    {
      Consistent() && !state.isLoading
    }

    /** The provider mounts with the initial state. */
    constructor ()
      ensures Valid()
      ensures state == InitialState && dispatched == [] && requests == []
    {
      state := InitialState;
      dispatched := [];
      requests := [];
    }

    /** `dispatch`: run the reducer on the current state and store the result. */
    method Dispatch(a: Action)
      requires Consistent()
      modifies this
      ensures Consistent()
      ensures state == Reduce(old(state), a)
      ensures dispatched == old(dispatched) + [a] && requests == old(requests)
    {
      ReplaySnoc(InitialState, dispatched, a);
      state := Reduce(state, a);
      dispatched := dispatched + [a];
    }

    /** The request is sent. */
    method Send(r: Request)
      modifies this
      ensures requests == old(requests) + [r]
      ensures state == old(state) && dispatched == old(dispatched)
    {
      requests := requests + [r];
    }

    /** The load run once on mount: `loading`, one GET of all cities, then
        `cities/loaded` with the list or `rejected` with the loading message. */
    method InitialLoad(fetched: Outcome<seq<City>>)
      requires Valid()
      modifies this
      ensures Valid()
      ensures state == Perform(old(state), LoadCities(fetched))
      ensures dispatched == old(dispatched) + Dispatches(old(state), LoadCities(fetched))
      ensures requests == old(requests) + [FetchAll]
      ensures fetched.Ok? ==> state.cities == fetched.body && state.error == old(state.error)
      ensures fetched.Fail? ==> state.cities == old(state.cities) && state.error == LoadCitiesMessage
      ensures state.currentCity == old(state.currentCity)
    {
      ghost var s0 := state;
      Dispatch(Loading);
      Send(FetchAll);
      match fetched {
        case Ok(data) => Dispatch(CitiesLoaded(data));
        case Fail => Dispatch(Rejected(LoadCitiesMessage));
      }
      PerformIsTwoSteps(s0, LoadCities(fetched));
    }

    /** `getCity(id)`: nothing at all when `id` is the current city's id; otherwise
        `loading`, one GET of that city, then `city/loaded` or `rejected`. */
    method GetCity(id: int, loaded: Outcome<City>)
      requires Valid()
      modifies this
      ensures Valid()
      ensures state == Perform(old(state), Provider.GetCity(id, loaded))
      ensures dispatched == old(dispatched) + Dispatches(old(state), Provider.GetCity(id, loaded))
      ensures requests == old(requests) + Requests(old(state), Provider.GetCity(id, loaded))
      ensures IsCacheHit(old(state), id) ==>
        state == old(state) && dispatched == old(dispatched) && requests == old(requests)
      ensures !IsCacheHit(old(state), id) ==> requests == old(requests) + [FetchOne(id)]
      ensures !IsCacheHit(old(state), id) && loaded.Ok? ==>
        state.currentCity == Some(loaded.body) && state.error == old(state.error)
      ensures !IsCacheHit(old(state), id) && loaded.Fail? ==>
        state.currentCity == old(state.currentCity) && state.error == LoadCityMessage
      ensures state.cities == old(state.cities)
    {
      if state.currentCity.Some? && state.currentCity.value.id == id {
        return;
      }
      ghost var s0 := state;
      Dispatch(Loading);
      Send(FetchOne(id));
      match loaded {
        case Ok(c) => Dispatch(CityLoaded(c));
        case Fail => Dispatch(Rejected(LoadCityMessage));
      }
      PerformIsTwoSteps(s0, Provider.GetCity(id, loaded));
    }

    /** `createCity(newCity)`: `loading`, one POST of the record, then `city/created`
        with the record the server returns, or `rejected`. */
    method CreateCity(newCity: City, created: Outcome<City>)
      requires Valid()
      modifies this
      ensures Valid()
      ensures state == Perform(old(state), Provider.CreateCity(newCity, created))
      ensures dispatched == old(dispatched) + Dispatches(old(state), Provider.CreateCity(newCity, created))
      ensures requests == old(requests) + [Post(newCity)]
      ensures created.Ok? ==>
        state.cities == old(state.cities) + [created.body] &&
        state.currentCity == Some(created.body) && state.error == old(state.error)
      ensures created.Fail? ==>
        state.cities == old(state.cities) && state.currentCity == old(state.currentCity) &&
        state.error == CreateCityMessage
    {
      ghost var s0 := state;
      Dispatch(Loading);
      Send(Post(newCity));
      match created {
        case Ok(c) => Dispatch(CityCreated(c));
        case Fail => Dispatch(Rejected(CreateCityMessage));
      }
      PerformIsTwoSteps(s0, Provider.CreateCity(newCity, created));
    }

    /** `deleteCity(id)`: `loading`, one DELETE, then `city/deleted` with the id it was
        given (the response is not read), or `rejected`. */
    method DeleteCity(id: int, deleted: Outcome<()>)
      requires Valid()
      modifies this
      ensures Valid()
      ensures state == Perform(old(state), Provider.DeleteCity(id, deleted))
      ensures dispatched == old(dispatched) + Dispatches(old(state), Provider.DeleteCity(id, deleted))
      ensures requests == old(requests) + [Remove(id)]
      ensures deleted.Ok? ==>
        state.cities == RemoveId(old(state.cities), id) &&
        state.currentCity == None && state.error == old(state.error)
      ensures deleted.Ok? ==> forall i :: 0 <= i < |state.cities| ==> state.cities[i].id != id
      ensures deleted.Fail? ==>
        state.cities == old(state.cities) && state.currentCity == old(state.currentCity) &&
        state.error == DeleteCityMessage
    {
      ghost var s0 := state;
      Dispatch(Loading);
      Send(Remove(id));
      match deleted {
        case Ok(_) => Dispatch(CityDeleted(id));
        case Fail => Dispatch(Rejected(DeleteCityMessage));
      }
      PerformIsTwoSteps(s0, Provider.DeleteCity(id, deleted));
      RemoveIdNoneRemain(s0.cities, id);
    }
  }

  /** A session: mount with one city, load it by id (a cache miss), ask for it again
      (a cache hit), create a city, delete it, and fail to create another. */
  method Session(paris: City, rome: City, fetchedRome: City)
    requires rome.id == 1 && fetchedRome.id == 1 && paris.id == 5
  {
    var store := new CityStore();
    store.InitialLoad(Ok([rome]));
    assert store.state == State([rome], false, None, "");

    store.GetCity(1, Ok(fetchedRome));
    store.GetCity(1, Fail);
    assert |store.requests| == 2;
    assert store.state.currentCity == Some(fetchedRome) && store.state.error == "";

    store.CreateCity(paris.(id := 0), Ok(paris));
    assert store.state.cities == [rome, paris];
    assert store.state.currentCity.value.id == 5;

    assert RemoveId([rome, paris], 5) == [rome] by {
      assert [rome, paris][1..] == [paris] && [paris][1..] == [];
      assert RemoveId([paris], 5) == [];
    }
    store.DeleteCity(5, Ok(()));
    assert store.state.cities == [rome];
    assert store.state.currentCity == None;

    store.CreateCity(paris, Fail);
    assert store.state.cities == [rome] && !store.state.isLoading;
    assert store.state.error == CreateCityMessage;
  }
}
