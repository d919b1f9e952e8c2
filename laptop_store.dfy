/**
 * The in-memory laptop store and rating store of service/laptop_store.go:
 * `Save`, `Find`, `Search` with its filter `isQualified` and unit conversion
 * `toBit`, and the rating accumulator `Add`. Laptops are values, so the
 * deep copies `Save`, `Find` and `Search` make are equal values. Go's map
 * iteration order is an input: a list of the stored ids, each once.
 */
module LaptopStore {
  import opened Wrappers
  import opened Grpc
  import opened StoreErrors

  const TwoTo64: int := 0x1_0000_0000_0000_0000
  const TwoTo32: int := 0x1_0000_0000

  type U64 = x: int | 0 <= x < TwoTo64
  type U32 = x: int | 0 <= x < TwoTo32

  /** `pb.Memory_Unit`; `UnknownUnit` stands for UNKNOWN and every value outside the named ones. */
  datatype MemoryUnit = UnknownUnit | Bit | Byte | Kilobyte | Megabyte | Gigabyte | Terabyte

  datatype Memory = Memory(value: U64, unit: MemoryUnit)

  datatype Cpu = Cpu(numberCores: U32, minGhz: real)

  /** The fields of `pb.Laptop` the core reads; a nil sub-message is None. */
  datatype Laptop = Laptop(id: string, priceUsd: real, cpu: Option<Cpu>, ram: Option<Memory>)

  datatype Filter = Filter(maxPriceUsd: real, minCpuCores: U32, minCpuGhz: real, minRam: Option<Memory>)

  /** `GetCpu().GetNumberCores()`: zero for a nil CPU. */
  function CoresOf(laptop: Laptop): U32
  {
    if laptop.cpu.Some? then laptop.cpu.value.numberCores else 0
  }

  /** `GetCpu().GetMinGhz()`: zero for a nil CPU. */
  function GhzOf(laptop: Laptop): real
  {
    if laptop.cpu.Some? then laptop.cpu.value.minGhz else 0.0
  }

  function Pow2(n: nat): (p: nat)
    ensures p >= 1
  {
    if n == 0 then 1 else 2 * Pow2(n - 1)
  }

  /** `x << n` on a uint64: n one-bit shifts, each dropping the bit shifted out of the top. */
  function ShiftLeft(x: U64, n: nat): U64
    decreases n
  {
    if n == 0 then x else ShiftLeft((2 * x) % TwoTo64, n - 1)
  }

  lemma {:induction false} AddMultipleMod(k: int, c: int)
    ensures (k * TwoTo64 + c) % TwoTo64 == c % TwoTo64
  {
  }

  lemma {:induction false} MulMod(a: nat, b: nat)
    ensures ((a % TwoTo64) * b) % TwoTo64 == (a * b) % TwoTo64
  {
    var q, r := a / TwoTo64, a % TwoTo64;
    assert a * b == (q * b) * TwoTo64 + r * b by {
      assert a == q * TwoTo64 + r;
    }
    AddMultipleMod(q * b, r * b);
  }

  /** A uint64 left shift by n multiplies by 2^n modulo 2^64. */
  lemma {:induction false} ShiftLeftIsMulPow2(x: U64, n: nat)
    ensures ShiftLeft(x, n) == (x * Pow2(n)) % TwoTo64
    decreases n
  {
    if n > 0 {
      ShiftLeftIsMulPow2((2 * x) % TwoTo64, n - 1);
      MulMod(2 * x, Pow2(n - 1));
      assert (2 * x) * Pow2(n - 1) == x * Pow2(n);
    }
  }

  /** The shift `toBit` applies for each named unit. */
  function UnitShift(unit: MemoryUnit): nat
  {
    match unit
    case UnknownUnit => 0
    case Bit => 0
    case Byte => 3
    case Kilobyte => 13
    case Megabyte => 23
    case Gigabyte => 33
    case Terabyte => 43
  }

  /** `toBit`: the memory size in bits as a uint64; a nil memory or an unknown unit gives 0. */
  function ToBit(memory: Option<Memory>): U64
  {
    match memory
    case None => 0
    case Some(m) =>
      match m.unit
      case UnknownUnit => 0
      case Bit => m.value
      case Byte => ShiftLeft(m.value, 3)
      case Kilobyte => ShiftLeft(m.value, 13)
      case Megabyte => ShiftLeft(m.value, 23)
      case Gigabyte => ShiftLeft(m.value, 33)
      case Terabyte => ShiftLeft(m.value, 43)
  }

  /** `toBit` multiplies by 2^0, 2^3, 2^13, 2^23, 2^33, 2^43 modulo 2^64, and gives 0 for an unknown unit. */
  lemma ToBitScales(m: Memory)
    ensures m.unit == UnknownUnit ==> ToBit(Some(m)) == 0
    ensures m.unit != UnknownUnit ==> ToBit(Some(m)) == (m.value * Pow2(UnitShift(m.unit))) % TwoTo64
    ensures ToBit(None) == 0
  {
    if m.unit != UnknownUnit {
      ShiftLeftIsMulPow2(m.value, UnitShift(m.unit));
    }
  }

  /** The conversion wraps: 2^61 bytes come out as 0 bits, below any non-zero minimum. */
  lemma ToBitWrapsAround()
    ensures ToBit(Some(Memory(0x2000_0000_0000_0000, Byte))) == 0
  {
    ShiftLeftIsMulPow2(0x2000_0000_0000_0000, 3);
    assert Pow2(3) == 8;
  }

  /** `isQualified`: every bound of the filter holds, each one inclusive. */
  function IsQualified(filter: Filter, laptop: Laptop): (ok: bool)
    ensures ok <==>
              && laptop.priceUsd <= filter.maxPriceUsd
              && CoresOf(laptop) >= filter.minCpuCores
              && GhzOf(laptop) >= filter.minCpuGhz
              && ToBit(laptop.ram) >= ToBit(filter.minRam)
  {
    if laptop.priceUsd > filter.maxPriceUsd then false
    else if CoresOf(laptop) < filter.minCpuCores then false
    else if GhzOf(laptop) < filter.minCpuGhz then false
    else if ToBit(laptop.ram) < ToBit(filter.minRam) then false
    else true
  }

  /** The number of leading steps at which the context is still live, among the first n. */
  function LiveSteps(ctx: nat -> ContextState, n: nat): (k: nat)
    ensures k <= n
    ensures forall i :: 0 <= i < k ==> ctx(i) == Live
    ensures k < n ==> ctx(k) != Live
  {
    if n == 0 then 0
    else
      var k := LiveSteps(ctx, n - 1);
      if k < n - 1 then k else if ctx(n - 1) == Live then n else n - 1
  }

  /** The stored laptops under `keys`, in that order, that pass the filter. */
  function QualifiedIn(data: map<string, Laptop>, keys: seq<string>, filter: Filter): seq<Laptop>
    requires AllIn(data, keys)
  {
    if keys == [] then []
    else
      var prev := QualifiedIn(data, keys[..|keys| - 1], filter);
      var laptop := data[keys[|keys| - 1]];
      if IsQualified(filter, laptop) then prev + [laptop] else prev
  }

  /** Scanning fewer keys reports a prefix of what scanning more keys reports. */
  lemma {:induction false} QualifiedInPrefix(data: map<string, Laptop>, keys: seq<string>, filter: Filter, a: nat)
    requires AllIn(data, keys) && a <= |keys|
    ensures QualifiedIn(data, keys[..a], filter) <= QualifiedIn(data, keys, filter)
    decreases |keys|
  {
    if a < |keys| {
      var n := |keys| - 1;
      assert keys[..n][..a] == keys[..a];
      QualifiedInPrefix(data, keys[..n], filter, a);
    } else {
      assert keys[..a] == keys;
    }
  }

  /** Every laptop stored under its own id. */
  ghost predicate KeyedById(data: map<string, Laptop>)
  {
    forall id :: id in data ==> data[id].id == id
  }

  /** Everything reported is a listed, stored, qualified laptop, filed under its own id. */
  lemma {:induction false} QualifiedInSound(data: map<string, Laptop>, keys: seq<string>, filter: Filter)
    requires AllIn(data, keys) && KeyedById(data)
    ensures forall l :: l in QualifiedIn(data, keys, filter) ==>
              l.id in keys && l.id in data && data[l.id] == l && IsQualified(filter, l)
    decreases |keys|
  {
    if keys != [] {
      var init := keys[..|keys| - 1];
      QualifiedInSound(data, init, filter);
      assert forall k :: k in init ==> k in keys;
    }
  }

  /** No two laptops share an id. */
  predicate DistinctIds(laptops: seq<Laptop>)
  {
    forall i, j :: 0 <= i < j < |laptops| ==> laptops[i].id != laptops[j].id
  }

  /** Distinct keys give distinct reported ids. */
  lemma {:induction false} QualifiedInDistinct(data: map<string, Laptop>, keys: seq<string>, filter: Filter)
    requires AllIn(data, keys) && KeyedById(data) && Distinct(keys)
    ensures DistinctIds(QualifiedIn(data, keys, filter))
    decreases |keys|
  {
    if keys != [] {
      var n := |keys| - 1;
      var init := keys[..n];
      QualifiedInDistinct(data, init, filter);
      QualifiedInSound(data, init, filter);
      var prev := QualifiedIn(data, init, filter);
      assert keys[n] !in init by {
        forall i | 0 <= i < n ensures init[i] != keys[n] { assert keys[i] == init[i]; }
      }
      forall i | 0 <= i < |prev| ensures prev[i].id != keys[n] {
        assert prev[i] in prev;
      }
      var r := QualifiedIn(data, keys, filter);
      if IsQualified(filter, data[keys[n]]) {
        assert r == prev + [data[keys[n]]];
        assert data[keys[n]].id == keys[n];
        forall i, j | 0 <= i < j < |r| ensures r[i].id != r[j].id {
          if j < |prev| {
            assert r[i] == prev[i] && r[j] == prev[j];
          } else {
            assert r[i] == prev[i];
            assert r[j] == data[keys[n]];
          }
        }
      } else {
        assert r == prev;
      }
    }
  }

  /** Every listed key whose laptop passes the filter is reported. */
  lemma {:induction false} QualifiedInComplete(data: map<string, Laptop>, keys: seq<string>, filter: Filter)
    requires AllIn(data, keys)
    ensures forall k :: k in keys && IsQualified(filter, data[k]) ==> data[k] in QualifiedIn(data, keys, filter)
    decreases |keys|
  {
    if keys != [] {
      var n := |keys| - 1;
      var init := keys[..n];
      QualifiedInComplete(data, init, filter);
      forall k | k in keys && IsQualified(filter, data[k]) ensures data[k] in QualifiedIn(data, keys, filter) {
        if k != keys[n] {
          var j :| 0 <= j < |keys| && keys[j] == k;
          assert init[j] == k;
        }
      }
    }
  }

  /** Callbacks made when the context stops at `LiveSteps` and the callback first fails at `FirstFailure`. */
  function SearchOutcome(data: map<string, Laptop>, order: seq<string>, filter: Filter,
                         ctx: nat -> ContextState, found: nat -> Option<string>)
    : (r: (seq<Laptop>, Option<string>))
    requires AllIn(data, order)
    ensures r.0 <= QualifiedIn(data, order, filter)
    ensures r.1.Some? ==> |r.0| > 0 && r.1 == found(|r.0| - 1)
    ensures ctx(0) != Live ==> r == ([], None)
  {
    var live := LiveSteps(ctx, |order|);
    var q := QualifiedIn(data, order[..live], filter);
    var f := FirstFailure(found, |q|);
    QualifiedInPrefix(data, order, filter, live);
    if f < |q| then (q[..f + 1], found(f)) else (q, None)
  }

  /** The outcome when the context is first found stopped at step i. */
  lemma SearchOutcomeStopped(data: map<string, Laptop>, order: seq<string>, filter: Filter,
                             ctx: nat -> ContextState, found: nat -> Option<string>, i: nat)
    requires AllIn(data, order) && i <= |order|
    requires forall k :: 0 <= k < i ==> ctx(k) == Live
    requires i < |order| ==> ctx(i) != Live
    requires forall j :: 0 <= j < |QualifiedIn(data, order[..i], filter)| ==> found(j).None?
    ensures SearchOutcome(data, order, filter, ctx, found) == (QualifiedIn(data, order[..i], filter), None)
  {
    assert LiveSteps(ctx, |order|) == i;
  }

  /** The outcome when the callback for the laptop at step i is the first to fail. */
  lemma SearchOutcomeFailed(data: map<string, Laptop>, order: seq<string>, filter: Filter,
                            ctx: nat -> ContextState, found: nat -> Option<string>, i: nat)
    requires AllIn(data, order) && i < |order|
    requires forall k :: 0 <= k <= i ==> ctx(k) == Live
    requires var q := QualifiedIn(data, order[..i + 1], filter);
             |q| > 0 && (forall j :: 0 <= j < |q| - 1 ==> found(j).None?) && found(|q| - 1).Some?
    ensures var q := QualifiedIn(data, order[..i + 1], filter);
            SearchOutcome(data, order, filter, ctx, found) == (q, found(|q| - 1))
  {
    var live := LiveSteps(ctx, |order|);
    var q := QualifiedIn(data, order[..i + 1], filter);
    assert i < live;
    QualifiedInPrefix(data, order[..live], filter, i + 1);
    assert order[..live][..i + 1] == order[..i + 1];
    var all := QualifiedIn(data, order[..live], filter);
    assert q <= all;
    assert FirstFailure(found, |all|) == |q| - 1;
    assert all[..|q|] == q;
  }

  class InMemoryLaptopStore {
    var data: map<string, Laptop>

    ghost predicate Valid()
      reads this
    {
      KeyedById(data)
    }

    constructor ()
      ensures Valid() && data == map[]
    {
      data := map[];
    }

    /** `Save`: always succeeds; files a copy under its id, replacing any laptop stored there. */
    method Save(laptop: Laptop) returns (err: Option<Error>)
      requires Valid()
      modifies this
      ensures Valid()
      ensures err == None
      ensures data == old(data)[laptop.id := laptop]
    {
      data := data[laptop.id := laptop];
      return None;
    }

    /** `Find`: a copy of the stored laptop, or NotFound. */
    method Find(id: string) returns (r: Result<Laptop, Status>)
      ensures id in data ==> r == Success(data[id])
      ensures id !in data ==> r == Failure(Status(NotFound, "Laptop with id:  " + id + " not Found."))
    {
      if id in data {
        return Success(data[id]);
      }
      return Failure(Status(NotFound, "Laptop with id:  " + id + " not Found."));
    }

    /**
     * `Search` over the stored ids in the iteration order `order`: before each
     * laptop it consults the context (`ctx(i)` at step i) and returns nil once
     * it is cancelled or past its deadline; each qualified laptop goes to the
     * callback (`found(j)` is the j-th callback's error), and the first callback
     * error is returned at once. Returns the laptops handed to the callback.
     */
    method Search(ctx: nat -> ContextState, filter: Filter, order: seq<string>, found: nat -> Option<string>)
      returns (reported: seq<Laptop>, err: Option<string>)
      requires Distinct(order) && (forall id :: id in data <==> id in order)
      ensures AllIn(data, order)
      ensures (reported, err) == SearchOutcome(data, order, filter, ctx, found)
    {
      reported, err := [], None;
      var i := 0;
      while i < |order|
        invariant 0 <= i <= |order|
        invariant forall k :: 0 <= k < i ==> ctx(k) == Live
        invariant reported == QualifiedIn(data, order[..i], filter)
        invariant forall j :: 0 <= j < |reported| ==> found(j).None?
        invariant err == None
      {
        if ctx(i) != Live {
          SearchOutcomeStopped(data, order, filter, ctx, found, i);
          return;
        }
        var laptop := data[order[i]];
        assert order[..i + 1][..i] == order[..i];
        if IsQualified(filter, laptop) {
          var e := found(|reported|);
          reported := reported + [laptop];
          if e.Some? {
            SearchOutcomeFailed(data, order, filter, ctx, found, i);
            err := e;
            return;
          }
        }
        i := i + 1;
      }
      SearchOutcomeStopped(data, order, filter, ctx, found, i);
    }
  }

  /** `Search` on a store whose context stays live and whose callback never fails reports every qualified laptop once. */
  lemma SearchReportsEachQualifiedOnce(data: map<string, Laptop>, order: seq<string>, filter: Filter,
                                       ctx: nat -> ContextState, found: nat -> Option<string>)
    requires KeyedById(data) && Distinct(order) && (forall id :: id in data <==> id in order)
    requires forall i :: 0 <= i < |order| ==> ctx(i) == Live
    requires forall j :: found(j).None?
    ensures var (reported, err) := SearchOutcome(data, order, filter, ctx, found);
            && err == None
            && DistinctIds(reported)
            && (forall l :: l in reported ==> l.id in data && data[l.id] == l && IsQualified(filter, l))
            && (forall id :: id in data && IsQualified(filter, data[id]) ==> data[id] in reported)
  {
    assert AllIn(data, order);
    assert order[..|order|] == order;
    SearchOutcomeStopped(data, order, filter, ctx, found, |order|);
    QualifiedInSound(data, order, filter);
    QualifiedInDistinct(data, order, filter);
    QualifiedInComplete(data, order, filter);
  }

  /** `Rating`: how many times a laptop was rated (a uint32) and the sum of its scores. */
  datatype Rating = Rating(count: U32, sum: real)

  /** The rating after one more score: Count=1, Sum=score the first time, else Count+1 (wrapping at 2^32) and Sum+score. */
  function AddScore(previous: Option<Rating>, score: real): (r: Rating)
    ensures previous.None? ==> r.count == 1 && r.sum == score
    ensures previous.Some? ==> r.count == (previous.value.count + 1) % TwoTo32
    ensures previous.Some? && previous.value.count < TwoTo32 - 1 ==> r.count == previous.value.count + 1
    ensures previous.Some? && previous.value.count == TwoTo32 - 1 ==> r.count == 0
    ensures previous.Some? ==> r.sum == previous.value.sum + score
  {
    match previous
    case None => Rating(1, score)
    case Some(p) => Rating((p.count + 1) % TwoTo32, p.sum + score)
  }

  function Lookup(ratings: map<string, Rating>, laptopId: string): Option<Rating>
  {
    if laptopId in ratings then Some(ratings[laptopId]) else None
  }

  class InMemoryRatingStore {
    var rating: map<string, Rating>

    constructor ()
      ensures rating == map[]
    {
      rating := map[];
    }

    /** `Add`: updates the laptop's rating, leaves every other laptop's alone, and returns the new rating. */
    method Add(laptopId: string, score: real) returns (r: Rating, err: Option<Error>)
      modifies this
      ensures err == None
      ensures r == AddScore(Lookup(old(rating), laptopId), score)
      ensures rating == old(rating)[laptopId := r]
    {
      if laptopId !in rating {
        r := Rating(1, score);
      } else {
        var current := rating[laptopId];
        r := Rating((current.count + 1) % TwoTo32, current.sum + score);
      }
      rating := rating[laptopId := r];
      err := None;
    }
  }
}
