/** The city record held by the store, and the id filter the store applies
    when a city is deleted. */
module Cities {

  datatype Option<+T> = None | Some(value: T)

  /** Map coordinates; the store only carries them, it never computes with them. */
  datatype Position = Position(lat: real, lng: real)

  /** One visited place. `id` is assigned by the remote API when the city is created. */
  datatype City = City(
    id: int,
    cityName: string,
    country: string,
    emoji: string,
    date: string,
    notes: string,
    position: Position)

  /** True when some city of `cities` has the given id. */
  predicate HasId(cities: seq<City>, id: int)
  {
    exists i :: 0 <= i < |cities| && cities[i].id == id
  }

  /** `cities.filter((city) => city.id !== id)`: every city whose id differs,
      in the order of `cities`. */
  function RemoveId(cities: seq<City>, id: int): seq<City>
    decreases |cities|
  {
    if cities == [] then []
    else if cities[0].id != id then [cities[0]] + RemoveId(cities[1..], id)
    else RemoveId(cities[1..], id)
  }

  /** `a` is obtained from `b` by dropping some of its elements, keeping the order
      of the others (leftmost matching, which finds an embedding whenever one exists). */
  predicate IsSubsequence<T(==)>(a: seq<T>, b: seq<T>)
    decreases |b|
  {
    if a == [] then true
    else if b == [] then false
    else if a[0] == b[0] then IsSubsequence(a[1..], b[1..])
    else IsSubsequence(a, b[1..])
  }

  /** No city with the removed id survives the filter, and nothing new appears. */
  lemma {:induction false} RemoveIdNoneRemain(cities: seq<City>, id: int)
    ensures |RemoveId(cities, id)| <= |cities|
    ensures forall i :: 0 <= i < |RemoveId(cities, id)| ==> RemoveId(cities, id)[i].id != id
    ensures forall c :: c in RemoveId(cities, id) ==> c in cities
    decreases |cities|
  {
    if cities != [] {
      RemoveIdNoneRemain(cities[1..], id);
      if cities[0].id != id {
        var r := RemoveId(cities, id);
        assert r == [cities[0]] + RemoveId(cities[1..], id);
        forall i | 0 <= i < |r| ensures r[i].id != id {
          if i > 0 { assert r[i] == RemoveId(cities[1..], id)[i - 1]; }
        }
      }
    }
  }

  /** The cities that survive keep their original relative order. */
  lemma {:induction false} RemoveIdKeepsOrder(cities: seq<City>, id: int)
    ensures IsSubsequence(RemoveId(cities, id), cities)
    decreases |cities|
  {
    if cities != [] {
      RemoveIdKeepsOrder(cities[1..], id);
      var rest := RemoveId(cities[1..], id);
      if cities[0].id != id {
        assert ([cities[0]] + rest)[1..] == rest;
      } else {
        RemoveIdNoneRemain(cities[1..], id);
        if rest != [] {
          assert rest[0].id != id;
        }
      }
    }
  }

  /** Every city whose id differs is kept as often as it occurs; every city whose id
      matches is gone. */
  lemma {:induction false} RemoveIdKeepsOthers(cities: seq<City>, id: int)
    ensures forall c: City :: multiset(RemoveId(cities, id))[c] == if c.id == id then 0 else multiset(cities)[c]
    decreases |cities|
  {
    if cities != [] {
      RemoveIdKeepsOthers(cities[1..], id);
      assert cities == [cities[0]] + cities[1..];
      assert multiset(cities) == multiset{cities[0]} + multiset(cities[1..]);
    }
  }

  /** The filter leaves the list as it was exactly when no city has the id. */
  lemma RemoveIdUnchangedIffAbsent(cities: seq<City>, id: int)
    ensures RemoveId(cities, id) == cities <==> !HasId(cities, id)
  {
    RemoveIdNoneRemain(cities, id);
    if !HasId(cities, id) {
      RemoveIdAbsent(cities, id);
    }
  }

  lemma {:induction false} RemoveIdAbsent(cities: seq<City>, id: int)
    requires !HasId(cities, id)
    ensures RemoveId(cities, id) == cities
    decreases |cities|
  {
    if cities != [] {
      assert cities[0].id != id;
      assert !HasId(cities[1..], id) by {
        forall i | 0 <= i < |cities[1..]| ensures cities[1..][i].id != id {
          assert cities[1..][i] == cities[i + 1];
        }
      }
      RemoveIdAbsent(cities[1..], id);
      assert cities == [cities[0]] + cities[1..];
    }
  }

  /** Filtering the same id twice is the same as filtering it once. */
  lemma {:induction false} RemoveIdIdempotent(cities: seq<City>, id: int)
    ensures RemoveId(RemoveId(cities, id), id) == RemoveId(cities, id)
  {
    RemoveIdNoneRemain(cities, id);
    RemoveIdAbsent(RemoveId(cities, id), id);
  }
}
