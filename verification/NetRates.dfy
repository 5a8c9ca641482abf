/**
 Network rates from cumulative counters (internal/collectors): a sampler that
 caches for 0.9 seconds and differences each sample with the one before. Time
 is in seconds, counters and rates in bytes.
 */
module NetRates {
  import opened Prelude

  const CACHE_TTL: real := 0.9

  datatype Sample = Sample(rx: nat, tx: nat)

  type Samples = map<string, Sample>

  datatype Interface = Interface(name: string, rxBytes: nat, txBytes: nat, rxRate: nat, txRate: nat)

  /** The two directions are counted alike; properties are stated for either. */
  datatype Direction = Receive | Transmit

  function Counter(s: Sample, d: Direction): nat {
    if d == Receive then s.rx else s.tx
  }

  function RateOf(i: Interface, d: Direction): nat {
    if d == Receive then i.rxRate else i.txRate
  }

  /** Bytes per second, rounded down; a counter that went back gives 0. */
  function Rate(prev: nat, curr: nat, elapsed: real): nat
    requires elapsed > 0.0
  {
    if curr >= prev then
      RateBounds(curr - prev, elapsed);
      ((curr - prev) as real / elapsed).Floor
    else 0
  }

  lemma PositiveProduct(a: real, e: real)
    requires a > 0.0 && e > 0.0
    ensures a * e > 0.0
  {
  }

  lemma Expand(q: real, lo: real, e: real)
    ensures (lo + 1.0 - q) * e == (lo * e + e) - q * e
  {
  }

  lemma BelowByPositive(x: real, product: real, top: real)
    requires x > 0.0 && x == top - product
    ensures product < top
  {
  }

  lemma Scaled(q: real, lo: real, e: real, product: real)
    requires lo <= q < lo + 1.0 && e > 0.0 && product == q * e
    ensures product < lo * e + e
    ensures lo * e <= product
  {
    var x := (lo + 1.0 - q) * e;
    PositiveProduct(lo + 1.0 - q, e);
    Expand(q, lo, e);
    BelowByPositive(x, product, lo * e + e);
    if lo < q {
      PositiveProduct(q - lo, e);
    }
  }

  lemma RateBounds(growth: nat, elapsed: real)
    requires elapsed > 0.0
    ensures var r := (growth as real / elapsed).Floor;
            r >= 0 && r as real * elapsed <= growth as real < r as real * elapsed + elapsed
  {
    var q := growth as real / elapsed;
    assert q >= 0.0;
    assert q * elapsed == growth as real;
    Scaled(q, q.Floor as real, elapsed, growth as real);
  }

  function Divisor(elapsed: real): (e: real)
    ensures e > 0.0
  {
    if elapsed <= 0.0 then 1.0 else elapsed
  }

  function Diffed(prev: Samples, name: string, c: Sample, elapsed: real): Interface {
    if name in prev then
      Interface(name, c.rx, c.tx, Rate(prev[name].rx, c.rx, Divisor(elapsed)), Rate(prev[name].tx, c.tx, Divisor(elapsed)))
    else Interface(name, c.rx, c.tx, 0, 0)
  }

  /** Two cumulative samples into rates, loopback left out. */
  function Diff(prev: Samples, curr: Samples, elapsed: real): map<string, Interface> {
    map name | name in curr && name != "lo" :: Diffed(prev, name, curr[name], elapsed)
  }

  // ---- the list, sorted by name ----

  ghost predicate Sorted(list: seq<Interface>) {
    forall i, k :: 0 <= i < k < |list| ==> Before(list[i].name, list[k].name)
  }

  /** The list as a table; a name listed twice stands for its last entry. */
  function ByName(list: seq<Interface>): map<string, Interface> {
    if list == [] then map[]
    else
      var last := |list| - 1;
      ByName(list[..last])[list[last].name := list[last]]
  }

  lemma {:induction false} ByNameEntries(list: seq<Interface>)
    ensures forall i :: i in list ==> i.name in ByName(list)
    ensures forall name :: name in ByName(list) ==> ByName(list)[name] in list && ByName(list)[name].name == name
  {
    if list != [] {
      ByNameEntries(list[..|list| - 1]);
      assert list == list[..|list| - 1] + [list[|list| - 1]];
    }
  }

  lemma ByNameAppend(list: seq<Interface>, i: Interface)
    ensures ByName(list + [i]) == ByName(list)[i.name := i]
  {
    assert (list + [i])[..|list|] == list;
  }

  /** Two lists with the same entries, no name twice, are the same table. */
  lemma SameEntriesSameTable(a: seq<Interface>, b: seq<Interface>)
    requires forall i :: i in a <==> i in b
    requires forall i, k :: i in a && k in a && i.name == k.name ==> i == k
    ensures ByName(a) == ByName(b)
  {
    ByNameEntries(a);
    ByNameEntries(b);
    forall name ensures name in ByName(a) <==> name in ByName(b) {
      if name in ByName(a) { assert ByName(a)[name] in b; }
      if name in ByName(b) { assert ByName(b)[name] in a; }
    }
  }

  /** sort.Slice by name, for entries with different names. */
  method SortByName(list: seq<Interface>) returns (out: seq<Interface>)
    requires NamedApart(list)
    ensures Sorted(out) && ByName(out) == ByName(list)
    ensures forall i :: i in out <==> i in list
  {
    out := [];
    for n := 0 to |list|
      invariant Sorted(out)
      invariant forall i :: i in out <==> i in list[..n]
    {
      var k := |out|;
      while k > 0 && Before(list[n].name, out[k - 1].name)
        invariant 0 <= k <= |out|
        invariant k < |out| ==> Before(list[n].name, out[k].name)
      {
        k := k - 1;
      }
      InsertKeepsSorted(out, k, list[n]);
      SplitKeepsEntries(out, k);
      out := out[..k] + [list[n]] + out[k..];
      assert list[..n + 1] == list[..n] + [list[n]];
    }
    assert list[..|list|] == list;
    SameEntriesSameTable(list, out);
  }

  lemma SplitKeepsEntries(list: seq<Interface>, k: nat)
    requires k <= |list|
    ensures forall i :: i in list <==> i in list[..k] || i in list[k..]
  {
    assert list == list[..k] + list[k..];
  }

  lemma InsertKeepsSorted(list: seq<Interface>, k: nat, i: Interface)
    requires Sorted(list) && k <= |list|
    requires forall e :: e in list ==> e.name != i.name
    requires k > 0 ==> !Before(i.name, list[k - 1].name)
    requires k < |list| ==> Before(i.name, list[k].name)
    ensures Sorted(list[..k] + [i] + list[k..])
  {
    var out := list[..k] + [i] + list[k..];
    forall x | 0 <= x < k ensures Before(list[x].name, i.name) {
      BeforeIsTotal(list[k - 1].name, i.name);
      if x < k - 1 { BeforeIsTransitive(list[x].name, list[k - 1].name, i.name); }
    }
    forall x | k <= x < |list| ensures Before(i.name, list[x].name) {
      if x > k { BeforeIsTransitive(i.name, list[k].name, list[x].name); }
    }
  }

  /** A rate is 0 without a sample before or when the counter went back, and otherwise the whole bytes a second of its growth. */
  ghost predicate RateSays(rate: nat, before: Option<nat>, counter: nat, seconds: real) {
    if before.None? || counter < before.value then rate == 0
    else rate as real * seconds <= (counter - before.value) as real < rate as real * seconds + seconds
  }

  /** An entry shows the interface's own counters and their rates. */
  ghost predicate EntrySays(prev: Samples, c: Sample, seconds: real, i: Interface) {
    && i.rxBytes == c.rx && i.txBytes == c.tx
    && RateSays(i.rxRate, if i.name in prev then Some(prev[i.name].rx) else None, c.rx, seconds)
    && RateSays(i.txRate, if i.name in prev then Some(prev[i.name].tx) else None, c.tx, seconds)
  }

  /** The list names every interface but loopback, in order and once, each with its entry. */
  ghost predicate ListSays(prev: Samples, curr: Samples, seconds: real, out: seq<Interface>) {
    && Sorted(out)
    && (forall name :: name in curr && name != "lo" ==> exists i :: i in out && i.name == name)
    && (forall i :: i in out ==> i.name in curr && i.name != "lo" && EntrySays(prev, curr[i.name], seconds, i))
  }

  /** The entry of one interface. */
  method NewEntry(prev: Samples, name: string, c: Sample, elapsed: real) returns (ni: Interface)
    requires elapsed > 0.0
    ensures ni == Diffed(prev, name, c, elapsed)
    ensures ni.name == name && EntrySays(prev, c, elapsed, ni)
  {
    ni := Interface(name, c.rx, c.tx, 0, 0);
    if name in prev {
      var p := prev[name];
      if c.rx >= p.rx {
        RateBounds(c.rx - p.rx, elapsed);
        ni := ni.(rxRate := ((c.rx - p.rx) as real / elapsed).Floor);
      }
      if c.tx >= p.tx {
        RateBounds(c.tx - p.tx, elapsed);
        ni := ni.(txRate := ((c.tx - p.tx) as real / elapsed).Floor);
      }
    }
  }

  /** The entries of some of the interfaces. */
  function DiffOf(prev: Samples, curr: Samples, names: set<string>, elapsed: real): map<string, Interface>
    requires names <= curr.Keys
  {
    map name | name in names && name != "lo" :: Diffed(prev, name, curr[name], elapsed)
  }

  lemma DiffOfAdd(prev: Samples, curr: Samples, names: set<string>, elapsed: real, name: string)
    requires names <= curr.Keys && name in curr && name !in names
    ensures DiffOf(prev, curr, names + {name}, elapsed) ==
            if name == "lo" then DiffOf(prev, curr, names, elapsed)
            else DiffOf(prev, curr, names, elapsed)[name := Diffed(prev, name, curr[name], elapsed)]
  {
  }

  ghost predicate NamedApart(list: seq<Interface>) {
    forall i, k :: 0 <= i < k < |list| ==> list[i].name != list[k].name
  }

  lemma AppendKeepsApart(list: seq<Interface>, i: Interface)
    requires NamedApart(list) && i.name !in ByName(list)
    ensures NamedApart(list + [i]) && ByName(list + [i]) == ByName(list)[i.name := i]
  {
    ByNameAppend(list, i);
    ByNameEntries(list);
  }

  /** Every interface but loopback has an entry in a table of the entries. */
  lemma EntriesCover(curr: Samples, out: seq<Interface>)
    requires forall name :: name in curr && name != "lo" ==> name in ByName(out)
    ensures forall name :: name in curr && name != "lo" ==> exists i :: i in out && i.name == name
  {
    ByNameEntries(out);
  }

  method NetDiff(prev: Samples, curr: Samples, elapsedSec: real) returns (out: seq<Interface>)
    ensures Sorted(out) && ByName(out) == Diff(prev, curr, elapsedSec)
    ensures ListSays(prev, curr, if elapsedSec <= 0.0 then 1.0 else elapsedSec, out)
  {
    var elapsed := elapsedSec;
    if elapsed <= 0.0 {
      elapsed := 1.0;
    }
    out := [];
    var pending := curr.Keys;
    while pending != {}
      invariant pending <= curr.Keys
      invariant ByName(out) == DiffOf(prev, curr, curr.Keys - pending, elapsed)
      invariant NamedApart(out)
      invariant forall i :: i in out ==> i.name in curr && i.name != "lo" && EntrySays(prev, curr[i.name], elapsed, i)
    {
      var name :| name in pending;
      DiffOfAdd(prev, curr, curr.Keys - pending, elapsed, name);
      assert curr.Keys - (pending - {name}) == (curr.Keys - pending) + {name};
      pending := pending - {name};
      if name == "lo" {
        continue;
      }
      var ni := NewEntry(prev, name, curr[name], elapsed);
      AppendKeepsApart(out, ni);
      out := out + [ni];
    }
    assert curr.Keys - pending == curr.Keys;
    EntriesCover(curr, out);
    out := SortByName(out);
  }

  /** What the aggregator carries from one snapshot to the next. */
  datatype State = Fresh | Sampled(prevNet: Samples, sampledAt: real, cachedAt: real, cached: map<string, Interface>)

  /** One call: the clock read for the cache test, the clock read after it, and what /proc/net/dev then holds (nothing, if it cannot be read). */
  datatype Tick = Tick(checkedAt: real, now: real, sample: Samples)

  function Snap(s: State, t: Tick): (State, map<string, Interface>) {
    if s.Sampled? && t.checkedAt - s.cachedAt < CACHE_TTL then (s, s.cached)
    else
      var net := if s.Sampled? then Diff(s.prevNet, t.sample, t.now - s.sampledAt) else Diff(map[], t.sample, 0.0);
      (Sampled(t.sample, t.now, t.now, net), net)
  }

  /** The seconds a sample is compared over: those since the one before, or a single one if none passed. */
  function SecondsSince(before: Option<real>, now: real): real {
    if before.Some? && before.value < now then now - before.value else 1.0
  }

  class Aggregator {
    var prevNet: Samples
    var prevSampledAt: Option<real>   // None for the zero time
    var cached: seq<Interface>
    var cachedAt: Option<real>

    ghost predicate Valid()
      reads this
    {
      && (prevSampledAt.Some? <==> cachedAt.Some?)
      && (prevSampledAt.None? ==> prevNet == map[])
      && Sorted(cached)
    }

    ghost function View(): State
      requires Valid()
      reads this
    {
      if prevSampledAt.None? then Fresh else Sampled(prevNet, prevSampledAt.value, cachedAt.value, ByName(cached))
    }

    constructor ()
      ensures Valid() && View() == Fresh
    {
      prevNet, prevSampledAt, cached, cachedAt := map[], None, [], None;
    }

    method Snapshot(t: Tick) returns (net: seq<Interface>)
      requires Valid()
      modifies this
      ensures Valid() && Sorted(net) && (View(), ByName(net)) == Snap(old(View()), t)
      ensures old(cachedAt).Some? && t.checkedAt - old(cachedAt).value < 0.9 ==>
                net == cached == old(cached) && cachedAt == old(cachedAt) && prevNet == old(prevNet) && prevSampledAt == old(prevSampledAt)
      ensures !(old(cachedAt).Some? && t.checkedAt - old(cachedAt).value < 0.9) ==>
                && cached == net && prevNet == t.sample && prevSampledAt == cachedAt == Some(t.now)
                && ListSays(old(prevNet), t.sample, SecondsSince(old(prevSampledAt), t.now), net)
    {
      if cachedAt.Some? && t.checkedAt - cachedAt.value < CACHE_TTL {
        return cached;
      }
      var elapsed := if prevSampledAt.Some? then t.now - prevSampledAt.value else 0.0;
      net := NetDiff(prevNet, t.sample, elapsed);
      prevNet := t.sample;
      prevSampledAt := Some(t.now);
      cached := net;
      cachedAt := Some(t.now);
    }
  }

  // ---- runs ----

  predicate InOrder(ticks: seq<Tick>, from: real) {
    ticks == [] || (from <= ticks[0].checkedAt <= ticks[0].now && InOrder(ticks[1..], ticks[0].now))
  }

  /** The previous sample lies at or before the clock, and the cache dates from it. */
  predicate Consistent(s: State, now: real) {
    s.Sampled? ==> s.sampledAt == s.cachedAt <= now
  }

  /** The call takes a new sample, and has an earlier one to compare with. */
  predicate Compares(s: State, t: Tick) {
    s.Sampled? && t.checkedAt - s.cachedAt >= CACHE_TTL
  }

  /** Both samples of the comparison hold the interface. */
  predicate Observes(s: State, t: Tick, name: string) {
    Compares(s, t) && name != "lo" && name in s.prevNet && name in t.sample
  }

  function Growth(s: State, t: Tick, name: string, d: Direction): nat
    requires Observes(s, t, name)
  {
    var p, c := Counter(s.prevNet[name], d), Counter(t.sample[name], d);
    if c >= p then c - p else 0
  }

  /** What a rate amounts to over some seconds. */
  function Bytes(rate: nat, seconds: real): real {
    rate as real * seconds
  }

  /** Bytes a call's rate stands for: rate times the seconds since the sample before. */
  function Accounted(s: State, t: Tick, name: string, d: Direction): real {
    var net := Snap(s, t).1;
    if Compares(s, t) && name in net then Bytes(RateOf(net[name], d), t.now - s.sampledAt) else 0.0
  }

  /** Sum over a run of the bytes its rates stand for. */
  function Reported(s: State, ticks: seq<Tick>, name: string, d: Direction): real
    decreases |ticks|
  {
    if ticks == [] then 0.0
    else Accounted(s, ticks[0], name, d) + Reported(Snap(s, ticks[0]).0, ticks[1..], name, d)
  }

  /** Counter growth between consecutive samples that both hold the interface. */
  function Observed(s: State, ticks: seq<Tick>, name: string, d: Direction): nat
    decreases |ticks|
  {
    if ticks == [] then 0
    else (if Observes(s, ticks[0], name) then Growth(s, ticks[0], name, d) else 0)
         + Observed(Snap(s, ticks[0]).0, ticks[1..], name, d)
  }

  /** The time those growths took. */
  function ObservedTime(s: State, ticks: seq<Tick>, name: string): real
    decreases |ticks|
  {
    if ticks == [] then 0.0
    else (if Observes(s, ticks[0], name) then ticks[0].now - s.sampledAt else 0.0)
         + ObservedTime(Snap(s, ticks[0]).0, ticks[1..], name)
  }

  lemma RateInSnap(s: State, t: Tick, name: string, d: Direction)
    requires Observes(s, t, name) && t.now - s.sampledAt > 0.0
    ensures name in Snap(s, t).1
    ensures RateOf(Snap(s, t).1[name], d) == Rate(Counter(s.prevNet[name], d), Counter(t.sample[name], d), t.now - s.sampledAt)
  {
  }

  lemma RateAccounts(p: nat, c: nat, elapsed: real)
    requires elapsed > 0.0
    ensures var bytes := Bytes(Rate(p, c, elapsed), elapsed);
            bytes <= (if c >= p then c - p else 0) as real <= bytes + elapsed
  {
    if c >= p {
      RateBounds(c - p, elapsed);
    } else {
      assert Rate(p, c, elapsed) == 0;
    }
  }

  lemma TickAccounts(s: State, t: Tick, name: string, d: Direction)
    requires Observes(s, t, name) && t.now - s.sampledAt > 0.0
    ensures Accounted(s, t, name, d) <= Growth(s, t, name, d) as real <= Accounted(s, t, name, d) + (t.now - s.sampledAt)
  {
    var elapsed := t.now - s.sampledAt;
    var p, c := Counter(s.prevNet[name], d), Counter(t.sample[name], d);
    RateInSnap(s, t, name, d);
    RateAccounts(p, c, elapsed);
    assert Accounted(s, t, name, d) == Bytes(RateOf(Snap(s, t).1[name], d), elapsed) == Bytes(Rate(p, c, elapsed), elapsed);
  }

  lemma TickWithoutObservation(s: State, t: Tick, name: string, d: Direction)
    requires !Observes(s, t, name)
    ensures Accounted(s, t, name, d) == 0.0
  {
  }

  /**
   In every run, with any caching, failed reads, interfaces that come and go and
   counters that restart, the bytes the rates account for are at most the growth
   observed between consecutive samples, and short of it by at most one byte per
   second of the time observed.
   */
  lemma {:induction false} RatesAccountForObservedGrowth(s: State, ticks: seq<Tick>, name: string, d: Direction, from: real)
    requires InOrder(ticks, from) && Consistent(s, from)
    ensures Reported(s, ticks, name, d) <= Observed(s, ticks, name, d) as real
            <= Reported(s, ticks, name, d) + ObservedTime(s, ticks, name)
    decreases |ticks|
  {
    if ticks != [] {
      var t := ticks[0];
      RatesAccountForObservedGrowth(Snap(s, t).0, ticks[1..], name, d, t.now);
      if Observes(s, t, name) {
        TickAccounts(s, t, name, d);
      } else {
        TickWithoutObservation(s, t, name, d);
      }
    }
  }

  predicate Sampling(s: State, t: Tick) {
    s.Fresh? || Compares(s, t)
  }

  /** The counter a call's sample shows, if it takes one that holds the interface; otherwise the one seen before. */
  function SeenBy(seen: nat, s: State, t: Tick, name: string, d: Direction): nat {
    if Sampling(s, t) && name in t.sample then Counter(t.sample[name], d) else seen
  }

  /** The last counter shown by a run whose predecessor showed `seen`. */
  function Seen(seen: nat, s: State, ticks: seq<Tick>, name: string, d: Direction): nat
    decreases |ticks|
  {
    if ticks == [] then seen
    else Seen(SeenBy(seen, s, ticks[0], name, d), Snap(s, ticks[0]).0, ticks[1..], name, d)
  }

  /** No sample that holds the interface shows a counter below the last one seen. */
  predicate Rising(seen: nat, s: State, ticks: seq<Tick>, name: string, d: Direction)
    decreases |ticks|
  {
    ticks == [] ||
    (&& seen <= SeenBy(seen, s, ticks[0], name, d)
     && Rising(SeenBy(seen, s, ticks[0], name, d), Snap(s, ticks[0]).0, ticks[1..], name, d))
  }

  /** Growth that shows in a sample whose predecessor lacked the interface. */
  function Missed(seen: nat, s: State, ticks: seq<Tick>, name: string, d: Direction): nat
    requires Rising(seen, s, ticks, name, d)
    decreases |ticks|
  {
    if ticks == [] then 0
    else (if Observes(s, ticks[0], name) then 0 else SeenBy(seen, s, ticks[0], name, d) - seen)
         + Missed(SeenBy(seen, s, ticks[0], name, d), Snap(s, ticks[0]).0, ticks[1..], name, d)
  }

  /** What the previous sample shows of the interface, if anything, is what was seen last. */
  predicate Remembers(seen: nat, s: State, name: string, d: Direction) {
    s.Sampled? && name in s.prevNet ==> Counter(s.prevNet[name], d) == seen
  }

  function Last(s: State, ticks: seq<Tick>): State
    decreases |ticks|
  {
    if ticks == [] then s else Last(Snap(s, ticks[0]).0, ticks[1..])
  }

  lemma {:induction false} GrowthIsObservedOrMissed(seen: nat, s: State, ticks: seq<Tick>, name: string, d: Direction)
    requires name != "lo" && Remembers(seen, s, name, d) && Rising(seen, s, ticks, name, d)
    ensures Observed(s, ticks, name, d) + Missed(seen, s, ticks, name, d) == Seen(seen, s, ticks, name, d) - seen
    decreases |ticks|
  {
    if ticks != [] {
      GrowthIsObservedOrMissed(SeenBy(seen, s, ticks[0], name, d), Snap(s, ticks[0]).0, ticks[1..], name, d);
    }
  }

  lemma {:induction false} ObservedTimeWithin(s: State, ticks: seq<Tick>, name: string, from: real)
    requires InOrder(ticks, from) && Consistent(s, from) && s.Sampled?
    ensures Last(s, ticks).Sampled? && 0.0 <= ObservedTime(s, ticks, name) <= Last(s, ticks).sampledAt - s.sampledAt
    decreases |ticks|
  {
    if ticks != [] {
      ObservedTimeWithin(Snap(s, ticks[0]).0, ticks[1..], name, ticks[0].now);
    }
  }

  /**
   For an interface whose counter never drops between the samples that hold it,
   whatever samples fail or lack it in between, the rates of a run never account
   for more than the counter's growth; they fall short by the growth across the
   gaps, and otherwise by at most a byte per second. So nothing but rounding is
   lost if and only if the counter stood still across every gap.
   */
  lemma RisingRatesTelescope(seen: nat, s: State, ticks: seq<Tick>, name: string, d: Direction, from: real)
    requires InOrder(ticks, from) && Consistent(s, from) && s.Sampled?
    requires name != "lo" && Remembers(seen, s, name, d) && Rising(seen, s, ticks, name, d)
    ensures var growth := Seen(seen, s, ticks, name, d) - seen;
            var missed := Missed(seen, s, ticks, name, d);
            var reported := Reported(s, ticks, name, d);
            && Last(s, ticks).Sampled?
            && reported <= (growth - missed) as real <= reported + (Last(s, ticks).sampledAt - s.sampledAt)
            && reported <= growth as real
            && (Observed(s, ticks, name, d) == growth <==> missed == 0)
  {
    RatesAccountForObservedGrowth(s, ticks, name, d, from);
    GrowthIsObservedOrMissed(seen, s, ticks, name, d);
    ObservedTimeWithin(s, ticks, name, from);
  }

  /** Every sample the run takes holds the interface. */
  predicate Present(s: State, ticks: seq<Tick>, name: string)
    decreases |ticks|
  {
    ticks == [] || ((Sampling(s, ticks[0]) ==> name in ticks[0].sample) && Present(Snap(s, ticks[0]).0, ticks[1..], name))
  }

  lemma {:induction false} PresentMissesNothing(seen: nat, s: State, ticks: seq<Tick>, name: string, d: Direction)
    requires name != "lo" && s.Sampled? && name in s.prevNet && Remembers(seen, s, name, d)
    requires Present(s, ticks, name) && Rising(seen, s, ticks, name, d)
    ensures Missed(seen, s, ticks, name, d) == 0
    decreases |ticks|
  {
    if ticks != [] {
      PresentMissesNothing(SeenBy(seen, s, ticks[0], name, d), Snap(s, ticks[0]).0, ticks[1..], name, d);
    }
  }

  /** In a run without a gap the rates account for all of the growth, short by at most a byte per second. */
  lemma SteadyRatesTelescope(s: State, ticks: seq<Tick>, name: string, d: Direction, from: real)
    requires InOrder(ticks, from) && Consistent(s, from)
    requires s.Sampled? && name in s.prevNet && name != "lo" && Present(s, ticks, name)
    requires Rising(Counter(s.prevNet[name], d), s, ticks, name, d)
    ensures var seen, e := Counter(s.prevNet[name], d), Last(s, ticks);
            var growth := Seen(seen, s, ticks, name, d) - seen;
            e.Sampled? && Reported(s, ticks, name, d) <= growth as real <= Reported(s, ticks, name, d) + (e.sampledAt - s.sampledAt)
  {
    var seen := Counter(s.prevNet[name], d);
    RisingRatesTelescope(seen, s, ticks, name, d, from);
    PresentMissesNothing(seen, s, ticks, name, d);
  }

  /**
   Across a gap all growth is lost: from any state, after any number of samples
   that fail or lack the interface, the sample that shows it again reports none
   of what the counter grew meanwhile.
   */
  lemma {:induction false} FailedReadLosesGrowth(seen: nat, s: State, gap: seq<Tick>, back: Tick, name: string, d: Direction)
    requires name != "lo"
    requires forall t :: t in gap ==> name !in t.sample
    requires Sampling(Last(s, gap), back) && name in back.sample && seen <= Counter(back.sample[name], d)
    requires Last(s, gap).Sampled? ==> name !in Last(s, gap).prevNet   // the gap has at least one sample
    ensures Rising(seen, s, gap + [back], name, d)
    ensures Reported(s, gap + [back], name, d) == 0.0
    ensures Missed(seen, s, gap + [back], name, d) == Seen(seen, s, gap + [back], name, d) - seen
            == Counter(back.sample[name], d) - seen
    decreases |gap|
  {
    var ticks := gap + [back];
    var s1 := Snap(s, ticks[0]).0;
    if gap == [] {
      assert ticks[0] == back && ticks[1..] == [];
      TickWithoutObservation(s, back, name, d);
    } else {
      assert ticks[0] == gap[0] && ticks[1..] == gap[1..] + [back];
      FailedReadLosesGrowth(seen, s1, gap[1..], back, name, d);
      TickWithoutObservation(s, gap[0], name, d);
    }
  }
}
