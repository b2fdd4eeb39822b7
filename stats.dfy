/** The counts and sums the trip and customer lists display: each is a
    `filter(...).length` or a `reduce` over the loaded customers. */
module Stats {
  import opened Models

  /** `filter(c => c.delivered).length`. */
  function Delivered(cs: seq<Cliente>): (n: nat)
    ensures n <= |cs|
  {
    if cs == [] then 0 else (if cs[0].delivered then 1 else 0) + Delivered(cs[1..])
  }

  /** `filter(c => !c.delivered).length`: the customers not counted as delivered. */
  function Pending(cs: seq<Cliente>): (n: nat)
    ensures Delivered(cs) + n == |cs|
  {
    if cs == [] then 0 else (if cs[0].delivered then 0 else 1) + Pending(cs[1..])
  }

  /** `filter(c => c.viaje_id === id).length`. */
  function OnTrip(cs: seq<Cliente>, id: int): (n: nat)
    ensures n <= |cs|
  {
    if cs == [] then 0 else (if cs[0].viaje_id == id then 1 else 0) + OnTrip(cs[1..], id)
  }

  /** `filter(c => c.viaje_id === id && c.delivered).length`. */
  function DeliveredOnTrip(cs: seq<Cliente>, id: int): (n: nat)
    ensures n <= OnTrip(cs, id) && n <= Delivered(cs)
  {
    if cs == [] then 0
    else (if cs[0].viaje_id == id && cs[0].delivered then 1 else 0) + DeliveredOnTrip(cs[1..], id)
  }

  /** `filter(c => c.viaje_id === id && !c.delivered).length`: together with the
      delivered ones they are exactly the trip's customers. */
  function PendingOnTrip(cs: seq<Cliente>, id: int): (n: nat)
    ensures DeliveredOnTrip(cs, id) + n == OnTrip(cs, id)
  {
    if cs == [] then 0
    else (if cs[0].viaje_id == id && !cs[0].delivered then 1 else 0) + PendingOnTrip(cs[1..], id)
  }

  /** `reduce((total, c) => total + c.packages, 0)`. */
  function Packages(cs: seq<Cliente>): int {
    if cs == [] then 0 else cs[0].packages + Packages(cs[1..])
  }

  /** `filter(c => c.viaje_id === id)`. */
  function ByTrip(cs: seq<Cliente>, id: int): (r: seq<Cliente>)
    ensures |r| == OnTrip(cs, id)
    ensures forall c :: c in r <==> c in cs && c.viaje_id == id
  {
    if cs == [] then []
    else (if cs[0].viaje_id == id then [cs[0]] else []) + ByTrip(cs[1..], id)
  }

  /** The complementary filter: the customers of every other trip. */
  function OtherTrips(cs: seq<Cliente>, id: int): (r: seq<Cliente>)
    ensures |r| + OnTrip(cs, id) == |cs|
    ensures forall c :: c in r <==> c in cs && c.viaje_id != id
  {
    if cs == [] then []
    else (if cs[0].viaje_id != id then [cs[0]] else []) + OtherTrips(cs[1..], id)
  }

  /** The filter then `reduce((t, c) => t + (c.packages || 0), 0)`; a package
      count is always a number here, so `|| 0` changes nothing. */
  function TripPackages(cs: seq<Cliente>, id: int): int {
    Packages(ByTrip(cs, id))
  }

  lemma {:induction false} PackagesAppend(a: seq<Cliente>, b: seq<Cliente>)
    ensures Packages(a + b) == Packages(a) + Packages(b)
  {
    if a == [] {
      assert a + b == b;
    } else {
      assert (a + b)[1..] == a[1..] + b;
      PackagesAppend(a[1..], b);
    }
  }

  /** One trip's packages and every other trip's packages add up to the total:
      the per-trip sum counts that trip's customers and no others. */
  lemma {:induction false} TripPackagesPartition(cs: seq<Cliente>, id: int)
    ensures TripPackages(cs, id) + Packages(OtherTrips(cs, id)) == Packages(cs)
  {
    if cs != [] {
      TripPackagesPartition(cs[1..], id);
      var head := if cs[0].viaje_id == id then [cs[0]] else [];
      var other := if cs[0].viaje_id != id then [cs[0]] else [];
      PackagesAppend(head, ByTrip(cs[1..], id));
      PackagesAppend(other, OtherTrips(cs[1..], id));
    }
  }

  /** With no negative package counts, one trip never holds more packages than all of them. */
  lemma TripPackagesBounded(cs: seq<Cliente>, id: int)
    requires forall i :: 0 <= i < |cs| ==> cs[i].packages >= 0
    ensures 0 <= TripPackages(cs, id) <= Packages(cs)
  {
    TripPackagesPartition(cs, id);
    NonNegativePackages(OtherTrips(cs, id));
    var t := ByTrip(cs, id);
    forall i | 0 <= i < |t| ensures t[i].packages >= 0 {
      assert t[i] in t;
    }
    NonNegativePackages(t);
  }

  lemma {:induction false} NonNegativePackages(cs: seq<Cliente>)
    requires forall c :: c in cs ==> c.packages >= 0
    ensures Packages(cs) >= 0
  {
    if cs != [] {
      assert cs[0] in cs;
      forall c | c in cs[1..] ensures c.packages >= 0 {
        assert c in cs;
      }
      NonNegativePackages(cs[1..]);
    }
  }

  /** No negative package count, no negative total. */
  lemma PackagesNonNegative(cs: seq<Cliente>)
    ensures (forall i :: 0 <= i < |cs| ==> cs[i].packages >= 0) ==> Packages(cs) >= 0
  {
    if forall i :: 0 <= i < |cs| ==> cs[i].packages >= 0 {
      NonNegativePackages(cs);
    }
  }

  /** Replacing one customer changes the delivered count by the change in that customer's flag. */
  lemma {:induction false} DeliveredUpdate(cs: seq<Cliente>, i: nat, c: Cliente)
    requires i < |cs|
    ensures Delivered(cs[i := c]) + (if cs[i].delivered then 1 else 0)
         == Delivered(cs) + (if c.delivered then 1 else 0)
  {
    if i > 0 {
      assert cs[i := c][1..] == cs[1..][i - 1 := c];
      DeliveredUpdate(cs[1..], i - 1, c);
    } else {
      assert cs[i := c][1..] == cs[1..];
    }
  }

  /** A list loaded for one trip: the trip filters keep all of it, so the
      per-trip figures of the trip list agree with the customer page's. */
  lemma {:induction false} OneTripAgrees(cs: seq<Cliente>, id: int)
    requires forall i :: 0 <= i < |cs| ==> cs[i].viaje_id == id
    ensures ByTrip(cs, id) == cs
    ensures OnTrip(cs, id) == |cs|
    ensures DeliveredOnTrip(cs, id) == Delivered(cs)
    ensures TripPackages(cs, id) == Packages(cs)
  {
    if cs != [] {
      assert cs[0].viaje_id == id;
      OneTripAgrees(cs[1..], id);
      assert [cs[0]] + cs[1..] == cs;
    }
  }

  /** `Math.round(d / t * 100)` computed exactly, with halves rounded up;
      0 when there is nothing to divide. */
  function RoundedPercent(d: nat, t: nat): (p: int)
    requires d <= t
    ensures t == 0 ==> p == 0
    ensures 0 <= p <= 100
    ensures t > 0 ==> 2 * t * p <= 200 * d + t < 2 * t * (p + 1)
  {
    if t == 0 then 0
    else
      var p := (200 * d + t) / (2 * t);
      MulLe(200, d, t);
      DivBounds(200 * d + t, 2 * t);
      p
  }

  lemma MulLe(m: nat, a: int, b: int)
    requires a <= b
    ensures m * a <= m * b
  {
  }

  /** The quotient `x / m` brackets `x` and stays within 0..100 below `101 * m`. */
  lemma DivBounds(x: nat, m: nat)
    requires m > 0 && x < 101 * m
    ensures m * (x / m) <= x < m * (x / m + 1)
    ensures 0 <= x / m <= 100
  {
    var q, r := x / m, x % m;
    assert x == m * q + r && 0 <= r < m;
    if q >= 101 {
      MulLe(m, 101, q);
    }
  }

  /** The quotient is determined by any exact split into quotient and remainder. */
  lemma DivUnique(x: nat, m: nat, q: int, r: int)
    requires m > 0 && 0 <= r < m && x == m * q + r
    ensures x / m == q
  {
    var q', r' := x / m, x % m;
    assert x == m * q' + r' && 0 <= r' < m;
    if q' < q {
      MulLe(m, q' + 1, q);
    } else if q < q' {
      MulLe(m, q + 1, q');
    }
  }

  /** Nobody delivered reads 0%, everybody delivered reads 100%. */
  lemma PercentExtremes(t: nat)
    requires t > 0
    ensures RoundedPercent(0, t) == 0
    ensures RoundedPercent(t, t) == 100
  {
    DivUnique(t, 2 * t, 0, t);
    DivUnique(200 * t + t, 2 * t, 100, t);
  }
}
