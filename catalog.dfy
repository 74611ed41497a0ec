/** The vehicle catalogue as the game and the admin panel read it (src/App.jsx,
    src/JuegoMultijugador.jsx): today's vehicle, the multiplayer round vehicles and
    the admin search filter. */
module Catalog {
  import opened Base
  import opened Text

  /** One catalogue document. `Imagenes` and `fechaProgramada` may be missing. */
  datatype Vehicle = Vehicle(
    id: string,
    brand: string,
    model: string,
    year: int,
    images: Option<seq<string>>,
    scheduledDate: Option<string>)

  /** `coche.fechaProgramada === hoy`. */
  predicate ScheduledOn(car: Vehicle, today: string)
  {
    car.scheduledDate == Some(today)
  }

  /** `Array.prototype.filter`. */
  function Filter<T>(s: seq<T>, keep: T -> bool): (r: seq<T>)
    ensures |r| <= |s|
    ensures forall i :: 0 <= i < |r| ==> r[i] in s && keep(r[i])
    ensures forall i :: 0 <= i < |s| && keep(s[i]) ==> s[i] in r
  {
    if s == [] then [] else (if keep(s[0]) then [s[0]] else []) + Filter(s[1..], keep)
  }

  /** Filtering a concatenation filters each part in turn: the kept elements stay in
      their original relative order. */
  lemma {:induction false} FilterAppend<T>(a: seq<T>, b: seq<T>, keep: T -> bool)
    ensures Filter(a + b, keep) == Filter(a, keep) + Filter(b, keep)
  {
    if a == [] {
      assert a + b == b;
    } else {
      assert (a + b)[1..] == a[1..] + b;
      FilterAppend(a[1..], b, keep);
    }
  }

  /** A filter that keeps everything is the identity. */
  lemma {:induction false} FilterAll<T>(s: seq<T>, keep: T -> bool)
    requires forall i :: 0 <= i < |s| ==> keep(s[i])
    ensures Filter(s, keep) == s
  {
    if s != [] {
      FilterAll(s[1..], keep);
    }
  }

  /** `getVehiculoDelDia` (src/App.jsx) and the `coches.find` of both single-player
      modes: the first car scheduled for `today`. */
  function VehicleOfTheDay(cars: seq<Vehicle>, today: string): (r: Option<Vehicle>)
    ensures r.None? <==> forall i :: 0 <= i < |cars| ==> !ScheduledOn(cars[i], today)
    ensures r.Some? ==> exists i :: 0 <= i < |cars| && cars[i] == r.value && ScheduledOn(cars[i], today)
                           && forall j :: 0 <= j < i ==> !ScheduledOn(cars[j], today)
  {
    if cars == [] then None
    else if ScheduledOn(cars[0], today) then Some(cars[0])
    else
      var r := VehicleOfTheDay(cars[1..], today);
      assert r.Some? ==> exists i :: 0 <= i < |cars| && cars[i] == r.value && ScheduledOn(cars[i], today)
                           && forall j :: 0 <= j < i ==> !ScheduledOn(cars[j], today) by {
        if r.Some? {
          var k :| 0 <= k < |cars[1..]| && cars[1..][k] == r.value && ScheduledOn(cars[1..][k], today)
                   && forall j :: 0 <= j < k ==> !ScheduledOn(cars[1..][j], today);
          assert forall j :: 0 <= j < k + 1 ==> !ScheduledOn(cars[j], today) by {
            forall j | 0 <= j < k + 1 ensures !ScheduledOn(cars[j], today) {
              if j > 0 { assert cars[j] == cars[1..][j - 1]; }
            }
          }
        }
      }
      assert r.None? ==> forall i :: 0 <= i < |cars| ==> !ScheduledOn(cars[i], today) by {
        if r.None? {
          forall i | 0 <= i < |cars| ensures !ScheduledOn(cars[i], today) {
            if i > 0 { assert cars[i] == cars[1..][i - 1]; }
          }
        }
      }
      r
  }

  /** `fetchVehiculosDelDia` (src/JuegoMultijugador.jsx): the cars scheduled for today,
      in catalogue order, cut to the first three. */
  function RoundVehicles(cars: seq<Vehicle>, today: string): (r: seq<Vehicle>)
    ensures |r| <= 3
    ensures forall i :: 0 <= i < |r| ==> r[i] in cars && ScheduledOn(r[i], today)
    ensures r <= Filter(cars, c => ScheduledOn(c, today))
    ensures |r| == Min(3, |Filter(cars, c => ScheduledOn(c, today))|)
  {
    var all := Filter(cars, c => ScheduledOn(c, today));
    if |all| <= 3 then all else all[..3]
  }

  /** The first multiplayer round plays the single-player vehicle of the day, and there
      is a round exactly when there is a vehicle of the day. */
  lemma {:induction false} FirstRoundIsVehicleOfTheDay(cars: seq<Vehicle>, today: string)
    ensures RoundVehicles(cars, today) != [] <==> VehicleOfTheDay(cars, today).Some?
    ensures RoundVehicles(cars, today) != [] ==> RoundVehicles(cars, today)[0] == VehicleOfTheDay(cars, today).value
  {
    var keep := c => ScheduledOn(c, today);
    if cars != [] {
      FirstRoundIsVehicleOfTheDay(cars[1..], today);
      assert Filter(cars, keep) == (if keep(cars[0]) then [cars[0]] else []) + Filter(cars[1..], keep);
    }
  }

  /** The admin search test: the lowercased brand or model contains the lowercased term. */
  predicate MatchesSearch(car: Vehicle, term: string)
    ensures term == [] ==> MatchesSearch(car, term)
    ensures MatchesSearch(car, term) ==> |term| <= |car.brand| || |term| <= |car.model|
  {
    assert term == [] ==> OccursAt(Lower(car.brand), Lower(term), 0);
    Contains(Lower(car.brand), Lower(term)) || Contains(Lower(car.model), Lower(term))
  }

  /** `filteredCoches` (src/App.jsx). */
  function FilteredCars(cars: seq<Vehicle>, term: string): (r: seq<Vehicle>)
    ensures forall c :: c in r <==> c in cars && MatchesSearch(c, term)
    ensures |r| <= |cars|
  {
    var r := Filter(cars, c => MatchesSearch(c, term));
    assert forall c :: c in r ==> c in cars && MatchesSearch(c, term) by {
      forall c | c in r ensures c in cars && MatchesSearch(c, term) {
        var i :| 0 <= i < |r| && r[i] == c;
      }
    }
    assert forall c :: c in cars && MatchesSearch(c, term) ==> c in r by {
      forall c | c in cars && MatchesSearch(c, term) ensures c in r {
        var i :| 0 <= i < |cars| && cars[i] == c;
      }
    }
    r
  }

  /** An empty search term keeps every car, in order. */
  lemma EmptySearchKeepsAll(cars: seq<Vehicle>)
    ensures FilteredCars(cars, "") == cars
  {
    forall i | 0 <= i < |cars| ensures MatchesSearch(cars[i], "") {
      assert OccursAt(Lower(cars[i].brand), Lower(""), 0);
    }
    FilterAll(cars, c => MatchesSearch(c, ""));
  }

  /** Searching a concatenated list searches each part: relative order is preserved. */
  lemma SearchKeepsOrder(a: seq<Vehicle>, b: seq<Vehicle>, term: string)
    ensures FilteredCars(a + b, term) == FilteredCars(a, term) + FilteredCars(b, term)
  {
    FilterAppend(a, b, c => MatchesSearch(c, term));
  }
}
