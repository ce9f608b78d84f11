# City store of the WorldWise travel tracker

WorldWise is a single-page app that lists the cities a traveller has visited.
Its one piece of real logic is the city store in `src/contexts/CityContext.jsx`.
The store has two parts:

- **The reducer.** A pure state machine over `{cities, isLoading, currentCity, error}` with six action kinds.
- **The provider's operations.** These are `fetchCities` (run once on mount), `getCity`, `createCity` and `deleteCity`. Each one dispatches `loading`, sends one request to the REST API, and then dispatches either a success action or `rejected` with a fixed message. `getCity` skips all of this when the requested id is already the current city's id.

The model has four modules, one per file:

- `cities.dfy` (`Cities`): the city record and the delete filter (`RemoveId`), with lemmas. No city with the id remains. Every other city keeps its count and its relative order. The list is unchanged exactly when the id is absent. Filtering twice equals filtering once.
- `reducer.dfy` (`Reducer`):
  - the state, the initial state, the six actions and `Reduce`;
  - `Replay`, which folds `Reduce` over a log of actions;
  - one lemma per action, plus the lemma that only `rejected` ever writes `error`.
- `provider.dfy` (`Provider`): the operations as values. Each operation carries the outcome of its request: `Ok(body)` or `Fail`. `Dispatches` and `Requests` give the actions and the requests an operation produces from a state. `Perform` replays those actions. The lemmas state each operation's outcome.
- `store.dfy` (`Store`): the class `CityStore`. It holds the mutable `state` cell and two ghost logs, one of dispatched actions and one of sent requests. Its methods `InitialLoad`, `GetCity`, `CreateCity` and `DeleteCity` call the reducer step by step, through `Dispatch`. `GetCity` has the early return. The object invariant `Valid()` says two things: the state is the initial state replayed over the dispatched log, and the store is never loading between operations. `Session` is a client that runs a mount, a cache-miss `getCity` that loads the city, a cache hit for the same id, a create, a delete and a failed create.

The reducer handles six action kinds (`loading`, `cities/loaded`, `city/loaded`, `city/created`, `city/deleted`, `rejected`).

## Model

| member | source | states |
|---|---|---|
| `Cities.RemoveId` | src/contexts/CityContext.jsx:48 | definition of `cities.filter((city) => city.id !== id)`; its properties are in the five `RemoveId…` lemmas below |
| `Cities.RemoveIdNoneRemain` | src/contexts/CityContext.jsx:48 | after the delete filter, no city has the removed id; the result is no longer than the input and holds only cities of the input |
| `Cities.RemoveIdKeepsOrder` | src/contexts/CityContext.jsx:48 | the cities the filter keeps are in their original relative order (the result is a subsequence of the input) |
| `Cities.RemoveIdKeepsOthers` | src/contexts/CityContext.jsx:48 | every city whose id differs occurs in the result exactly as often as in the input; cities with the id occur zero times |
| `Cities.RemoveIdAbsent` | src/contexts/CityContext.jsx:48 | when no city has the id, the filter returns the list unchanged |
| `Cities.RemoveIdUnchangedIffAbsent` | src/contexts/CityContext.jsx:48 | the filter leaves the list unchanged if and only if no city has the id |
| `Cities.RemoveIdIdempotent` | src/contexts/CityContext.jsx:48 | filtering the same id twice gives the same list as filtering it once |
| `Reducer.Reduce` | src/contexts/CityContext.jsx:19-62 | the reducer: only `loading` leaves `isLoading` true; only `rejected` changes `error`; `loading` and `rejected` never change `cities` or `currentCity` |
| `Reducer.Replay` | src/contexts/CityContext.jsx:67-70 | definition: the state reached by dispatching a log of actions in order through `useReducer`; its properties are in `Reducer.ReplayAppend`, `Reducer.ReplaySnoc` and `Reducer.StaleErrorSurvives` |
| `Reducer.ReplayAppend` | src/contexts/CityContext.jsx:67-70 | dispatching two sequences of actions one after the other is the same as dispatching their concatenation |
| `Reducer.ReplaySnoc` | src/contexts/CityContext.jsx:67-70 | dispatching one more action applies the reducer once more to the state reached so far |
| `Reducer.LoadingOnlyRaisesFlag` | src/contexts/CityContext.jsx:21-22 | `loading` sets `isLoading` and leaves `cities`, `currentCity` and `error` unchanged |
| `Reducer.CitiesLoadedReplacesList` | src/contexts/CityContext.jsx:24-29 | `cities/loaded` makes `cities` the payload and clears `isLoading`; `currentCity` and `error` are unchanged |
| `Reducer.CityLoadedSetsCurrent` | src/contexts/CityContext.jsx:31-32 | `city/loaded` makes the payload the current city and clears `isLoading`; `cities` and `error` are unchanged |
| `Reducer.CityCreatedAppends` | src/contexts/CityContext.jsx:34-41 | `city/created` grows the list by exactly one: the old list is a prefix, the payload is last, and the multiset gains the payload once. It makes the payload current, clears `isLoading` and keeps `error` |
| `Reducer.CityDeletedRemovesId` | src/contexts/CityContext.jsx:44-50 | `city/deleted` leaves no city with the id. Every other city keeps its count and its order. The list is unchanged exactly when the id was absent. `currentCity` becomes empty, `isLoading` is cleared and `error` is kept |
| `Reducer.CityDeletedIdempotent` | src/contexts/CityContext.jsx:44-50 | applying the same `city/deleted` twice gives the same state as applying it once |
| `Reducer.RejectedRecordsError` | src/contexts/CityContext.jsx:52-57 | `rejected` sets `error` to the payload and clears `isLoading`; `cities` and `currentCity` are unchanged |
| `Reducer.StaleErrorSurvives` | src/contexts/CityContext.jsx:21-50 | any sequence of actions without `rejected`, successes included, leaves `error` as it was, so a stale error persists |
| `Provider.Dispatches` | src/contexts/CityContext.jsx:72-154 | an operation dispatches nothing exactly on the `getCity` cache hit. Otherwise it dispatches `loading` and then one action that is not `loading`: a success action exactly when the request succeeded, and on a failure `rejected` with that operation's fixed message |
| `Provider.Requests` | src/contexts/CityContext.jsx:72-154 | an operation sends exactly one request, or none on the `getCity` cache hit: GET of all cities, GET of the city by id, POST of the new city, DELETE by id |
| `Provider.Settle` | src/contexts/CityContext.jsx:79-84 | the action an operation dispatches when its request ends is never `loading`; it is a success action exactly when the request succeeded, and on a failure `rejected` with that operation's fixed message (also :102-107, :130-135, :147-152) |
| `Provider.FailureMessage` | src/contexts/CityContext.jsx:83 | definition: the fixed failure message of each operation (also :106, :134, :151); its use is stated by `Provider.Settle` and `Provider.FailureRecordsMessage` |
| `Provider.IsCacheHit` | src/contexts/CityContext.jsx:93-95 | definition: the requested id equals the current city's id, never true for the empty current city; its effect is stated by `Provider.CacheHitChangesNothing` |
| `Provider.ShortCircuits` | src/contexts/CityContext.jsx:93-95 | definition: the operation is a `getCity` that hits the cache; `Provider.Dispatches` and `Provider.Requests` state that exactly these dispatch and send nothing |
| `Provider.Perform` | src/contexts/CityContext.jsx:67-70 | definition: an operation's effect is its dispatches run through the reducer; its properties are in `Provider.PerformIsTwoSteps` and the outcome lemmas below |
| `Provider.PerformIsTwoSteps` | src/contexts/CityContext.jsx:72-154 | away from a cache hit, an operation's effect is the reducer applied to `loading` and then to the settling action |
| `Provider.CacheHitChangesNothing` | src/contexts/CityContext.jsx:93-95 | `getCity` with the current city's id dispatches nothing, sends nothing and leaves the whole state unchanged |
| `Provider.OperationEndsIdle` | src/contexts/CityContext.jsx:72-154 | every operation that does not short-circuit ends with `isLoading` false |
| `Provider.FailureRecordsMessage` | src/contexts/CityContext.jsx:72-154 | on a failed request, `cities` and `currentCity` are unchanged, `error` is that operation's fixed message (loading cities, loading the city, creating, deleting) and `isLoading` is false |
| `Provider.SuccessKeepsStaleError` | src/contexts/CityContext.jsx:72-154 | an operation whose request succeeds leaves `error` as it was |
| `Provider.LoadCitiesInstallsList` | src/contexts/CityContext.jsx:73-86 | a successful initial load makes `cities` the fetched list and keeps `currentCity` and `error` |
| `Provider.GetCityLoadsCurrent` | src/contexts/CityContext.jsx:91-112 | a `getCity` that misses the cache and succeeds makes the fetched city current and keeps `cities` and `error` |
| `Provider.CreateCityAppends` | src/contexts/CityContext.jsx:115-137 | a successful `createCity` appends the record the server returned and makes it current; `error` is kept |
| `Provider.DeleteCityRemoves` | src/contexts/CityContext.jsx:139-154 | a successful `deleteCity` leaves no city with the id, keeps every other city with its count and order, and resets `currentCity` |
| `Provider.GetCityTwiceFetchesOnce` | src/contexts/CityContext.jsx:91-112 | two `getCity` calls with the same id send at most one request when the first one succeeds with a record carrying that id; the second call changes nothing |
| `Provider.GetCityTwiceAfterFailureFetchesTwice` | src/contexts/CityContext.jsx:91-112 | the condition above is needed: when the first `getCity` for an id misses the cache and fails, the current city is not updated and the second call sends its own request, two in all |
| `Store.CityStore.constructor` | src/contexts/CityContext.jsx:12-17 | the store starts from the initial state: no cities, not loading, no current city, empty error; nothing dispatched or sent |
| `Store.CityStore.Dispatch` | src/contexts/CityContext.jsx:67-70 | `dispatch` replaces the state with the reducer's result and logs the action; the state stays the replay of the log |
| `Store.CityStore.InitialLoad` | src/contexts/CityContext.jsx:72-88 | `loading`, one GET of all cities, then `cities/loaded` or `rejected` with the loading-cities message; ends not loading |
| `Store.CityStore.GetCity` | src/contexts/CityContext.jsx:91-112 | a cache hit leaves state and logs unchanged; otherwise `loading`, one GET of the city, then `city/loaded` or `rejected` with the loading-city message |
| `Store.CityStore.CreateCity` | src/contexts/CityContext.jsx:115-137 | `loading`, one POST of the new city, then the returned record is appended and made current, or `rejected` with the creating message and the lists untouched |
| `Store.CityStore.DeleteCity` | src/contexts/CityContext.jsx:139-154 | `loading`, one DELETE, then the id is filtered out and `currentCity` reset, or `rejected` with the deleting message and the lists untouched |
| `Store.CityStore.Send` | src/contexts/CityContext.jsx:77 | a `fetch` call (also :100, :121-127, :143-145): the request is appended to the request log and the state is untouched |
| `Store.Session` | src/contexts/CityContext.jsx:72-154 | a client with no contract of its own: after a mount with one city, a cache-miss `getCity`, a cache hit (two requests in all), a create, a delete and a failed create, it asserts the list, the current city and the error the methods' contracts give |

## Left out

- Network I/O is left out: `fetch`, `res.json()`, the base URL, JSON serialisation and the `console.log` of the new city. Each operation instead receives the outcome of its one request, `Ok(body)` or `Fail`. The request itself is recorded in a ghost log.
- Response bodies are typed in the model. A successful list fetch yields a `seq<City>` and a successful single fetch or POST yields a `City`. The source does not check the HTTP status, so an error body in valid JSON would be dispatched as if it were a city. The model cannot express a body of that shape.
- City ids are `int`. JavaScript's `Number(id)` coercion in the cache check, a `NaN` id, and the difference between a string id and a numeric id under `!==` in the delete filter are not modelled.
- The reducer's `default` branch, which throws on an unknown action tag, is not modelled. An action with any other tag cannot be built from the `Action` datatype.
- The React machinery is left out: `createContext`, `useReducer`, `useEffect`, `useCallback` and the provider's context value. `useCity` and its error when used outside the provider are also left out. These are framework plumbing.
- Overlapping operations, their last-write-wins races and the stale closure capture in `getCity` are not modelled. Each operation runs atomically, so `isLoading` is false between operations (`Valid()`); in the browser this is not guaranteed.
- `InitialLoad` can be called more than once in the model. The source runs it once, on mount.
- Coordinates are `real`, not IEEE floating point. The store never computes with them.
- The city passed to `createCity` is a `City` whose `id` is carried but ignored. The server assigns the id.
- `src/App.js` (route declarations) and `src/components/Map.jsx` (a view that only navigates) hold no store logic and are not part of this model.
