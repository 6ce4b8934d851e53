/** The first, self-contained chord diagram: totals per entity, arches laid
    round the circle in proportion to them, and flows that take consecutive
    slots of their two arches as they are drawn. */
module Chord {
  import opened Common
  import opened Layout
  import opened Paths
  import Elements
  import Scheduler

  /** `CommonElements.radius` when never set. */
  const DefaultRadius := 2.0
  /** `CommonElements.width` when never set. */
  const DefaultWidth := 0.3
  /** `Arch.ribbon_gap`: the share of an arch left between two ribbons. */
  const RibbonGap := 0.05
  /** `Ribbon.gap` when never set: the width of the band a ribbon ends in. */
  const DefaultRibbonBand := 0.2
  /** `ChordDiagram.gap` when never set: the gap between two arches, in the
      units of the amounts. */
  const DefaultGap := 0.1

  // ------------------------------------------------------------- totals

  /** `k[key]` on a `defaultdict(list)`: the list of `key`, empty when absent. */
  function ListOf(d: seq<(string, seq<real>)>, key: string): seq<real>
  {
    match Get(d, key)
    case None => []
    case Some(ys) => ys
  }

  /** `k[key].append(x)` on a `defaultdict(list)`. */
  function AppendTo(d: seq<(string, seq<real>)>, key: string, x: real): (r: seq<(string, seq<real>)>)
    ensures KeysOf(r) == AppendNew(KeysOf(d), key)
  {
    var r := Put(d, key, ListOf(d, key) + [x]);
    assert key in KeysOf(d) ==> KeysOf(r) == KeysOf(d);
    r
  }

  /** Appending to the list of `key` leaves every other list as it was. */
  lemma AppendToGet(d: seq<(string, seq<real>)>, key: string, x: real, k: string)
    ensures Get(AppendTo(d, key, x), k).None? <==> k != key && Get(d, k).None?
    ensures ListOf(AppendTo(d, key, x), k) == if k == key then ListOf(d, k) + [x] else ListOf(d, k)
  {
    GetPut(d, key, ListOf(d, key) + [x], k);
  }

  /** The lists `_generate_amount` builds: every flow appends its amount to
      the list of its source, then to the list of its destination. */
  function Incidents(data: seq<FlowRecord>): seq<(string, seq<real>)>
    decreases |data|
  {
    if data == [] then []
    else
      var d := data[|data| - 1];
      AppendTo(AppendTo(Incidents(data[..|data| - 1]), d.source, d.amount), d.destination, d.amount)
  }

  /** How many ends of the flows lie at `k`: a flow from `k` to itself
      counts twice. */
  function Occurrences(data: seq<FlowRecord>, k: string): nat
    decreases |data|
  {
    if data == [] then 0
    else
      var d := data[|data| - 1];
      Occurrences(data[..|data| - 1], k) + (if d.source == k then 1 else 0) + (if d.destination == k then 1 else 0)
  }

  /** `{m: sum(n) for m, n in k.items()}`. */
  function SumsOf(k: seq<(string, seq<real>)>): (r: seq<(string, real)>)
    ensures KeysOf(r) == KeysOf(k)
  {
    var r := seq(|k|, i requires 0 <= i < |k| => (k[i].0, Sum(k[i].1)));
    assert KeysOf(r) == KeysOf(k);
    r
  }

  /** `{m: len(n) for m, n in k.items()}`. */
  function LengthsOf(k: seq<(string, seq<real>)>): (r: seq<(string, nat)>)
    ensures KeysOf(r) == KeysOf(k)
  {
    var r := seq(|k|, i requires 0 <= i < |k| => (k[i].0, |k[i].1|));
    assert KeysOf(r) == KeysOf(k);
    r
  }

  /** `amount`: the sum of every entity's list. */
  function Amounts(data: seq<FlowRecord>): seq<(string, real)>
  {
    SumsOf(Incidents(data))
  }

  /** `no_of_ribbons`: the length of every entity's list. */
  function Counts(data: seq<FlowRecord>): seq<(string, nat)>
  {
    LengthsOf(Incidents(data))
  }

  /** The lists are keyed by the entities in the order they are first met. */
  lemma {:induction false} IncidentsKeys(data: seq<FlowRecord>)
    ensures KeysOf(Incidents(data)) == DiscoveryOrder(data)
    decreases |data|
  {
    if data != [] {
      IncidentsKeys(data[..|data| - 1]);
    }
  }

  /** What flow `d` appends to the list of `k`: its amount once per end at `k`. */
  function Ends(d: FlowRecord, k: string): (r: seq<real>)
    ensures Sum(r) == Incident(d, k)
    ensures |r| == (if d.source == k then 1 else 0) + (if d.destination == k then 1 else 0)
  {
    var r := (if d.source == k then [d.amount] else []) + (if d.destination == k then [d.amount] else []);
    assert [d.amount][..0] == [];
    assert [d.amount, d.amount][..1] == [d.amount];
    SumPair(d.amount);
    assert r == if d.source == k && d.destination == k then [d.amount, d.amount]
      else if d.source == k || d.destination == k then [d.amount] else [];
    r
  }

  lemma SumPair(x: real)
    ensures Sum([x]) == x && Sum([x, x]) == x + x
  {
    assert [x][..0] == [];
    assert [x, x][..1] == [x];
  }

  /** The incidence lists after one more flow. */
  lemma IncidentsLast(data: seq<FlowRecord>, k: string)
    requires data != []
    ensures var front, d := data[..|data| - 1], data[|data| - 1];
      (Get(Incidents(data), k).None? <==> Get(Incidents(front), k).None? && d.source != k && d.destination != k) &&
      ListOf(Incidents(data), k) == ListOf(Incidents(front), k) + Ends(d, k)
  {
    var d := data[|data| - 1];
    var k0 := Incidents(data[..|data| - 1]);
    var k1 := AppendTo(k0, d.source, d.amount);
    assert Incidents(data) == AppendTo(k1, d.destination, d.amount);
    AppendToGet(k0, d.source, d.amount, k);
    AppendToGet(k1, d.destination, d.amount, k);
  }

  /** `k` has a list exactly when a flow mentions it. */
  lemma {:induction false} IncidentsMention(data: seq<FlowRecord>, k: string)
    ensures Get(Incidents(data), k).None? <==> !Mentions(data, k)
    decreases |data|
  {
    if data != [] {
      IncidentsMention(data[..|data| - 1], k);
      IncidentsLast(data, k);
    }
  }

  /** The list of `k` adds up to the total of `k`. */
  lemma {:induction false} IncidentsAgree(data: seq<FlowRecord>, k: string)
    ensures Sum(ListOf(Incidents(data), k)) == TotalAmount(data, k)
    decreases |data|
  {
    if data == [] {
      assert ListOf([], k) == [];
    } else {
      var front := data[..|data| - 1];
      IncidentsAgree(front, k);
      IncidentsLast(data, k);
      SumAppend(ListOf(Incidents(front), k), Ends(data[|data| - 1], k));
    }
  }

  /** The list of `k` holds one amount per end of a flow at `k`. */
  lemma {:induction false} IncidentsCount(data: seq<FlowRecord>, k: string)
    ensures |ListOf(Incidents(data), k)| == Occurrences(data, k)
    decreases |data|
  {
    if data == [] {
      assert ListOf([], k) == [];
    } else {
      IncidentsCount(data[..|data| - 1], k);
      IncidentsLast(data, k);
    }
  }

  /** Looking up a key after summing, or counting, every list. */
  lemma GetSumsOf(k: seq<(string, seq<real>)>, key: string)
    ensures Get(SumsOf(k), key) == if Get(k, key).None? then None else Some(Sum(ListOf(k, key)))
    ensures Get(LengthsOf(k), key) == if Get(k, key).None? then None else Some(|ListOf(k, key)|)
  {
  }

  /** `amount[k]` is the total of `k` and `no_of_ribbons[k]` the number of
      flow ends at `k`, for exactly the entities some flow mentions, in the
      order they are first met. */
  lemma AmountsAgree(data: seq<FlowRecord>, k: string)
    ensures KeysOf(Amounts(data)) == KeysOf(Counts(data)) == DiscoveryOrder(data)
    ensures Get(Amounts(data), k) == if Mentions(data, k) then Some(TotalAmount(data, k)) else None
    ensures Get(Counts(data), k) == if Mentions(data, k) then Some(Occurrences(data, k)) else None
  {
    IncidentsKeys(data);
    IncidentsMention(data, k);
    IncidentsAgree(data, k);
    IncidentsCount(data, k);
    GetSumsOf(Incidents(data), k);
  }

  /** No entity has two lists. */
  lemma {:induction false} IncidentsDistinct(data: seq<FlowRecord>)
    ensures DistinctKeys(Incidents(data))
    decreases |data|
  {
    if data != [] {
      IncidentsDistinct(data[..|data| - 1]);
    }
  }

  /** `amount` and `no_of_ribbons` have one entry per entity, and there is
      none exactly when there is no flow. */
  lemma AmountsDistinct(data: seq<FlowRecord>)
    ensures DistinctKeys(Amounts(data)) && DistinctKeys(Counts(data))
    ensures Amounts(data) == [] <==> data == []
  {
    IncidentsDistinct(data);
    var k := Incidents(data);
    assert forall j :: 0 <= j < |k| ==> Amounts(data)[j].0 == k[j].0 && Counts(data)[j].0 == k[j].0;
    if data != [] {
      MentionsEnds(data, 0);
      AmountsAgree(data, data[0].source);
    }
  }

  /** The totals have one key per entity, and one for each end of every
      flow. */
  lemma AmountsKeys(data: seq<FlowRecord>, i: nat)
    requires i < |data|
    ensures DistinctKeys(Amounts(data)) && DistinctKeys(Counts(data))
    ensures data[i].source in KeysOf(Amounts(data)) && data[i].destination in KeysOf(Amounts(data))
  {
    AmountsDistinct(data);
    MentionsEnds(data, i);
    AmountsAgree(data, data[i].source);
    AmountsAgree(data, data[i].destination);
  }

  /** The loop of `_generate_amount`. */
  method GenerateAmount(data: seq<FlowRecord>) returns (amount: seq<(string, real)>, counts: seq<(string, nat)>)
    ensures amount == Amounts(data) && counts == Counts(data)
  {
    var k: seq<(string, seq<real>)> := [];
    for i := 0 to |data|
      invariant k == Incidents(data[..i])
    {
      assert data[..i + 1][..i] == data[..i];
      k := AppendTo(k, data[i].source, data[i].amount);
      k := AppendTo(k, data[i].destination, data[i].amount);
    }
    assert data[..|data|] == data;
    counts := LengthsOf(k);
    amount := SumsOf(k);
  }

  // ------------------------------------------------------------- angles

  /** `gap * len(amount) + sum(amount.values())`: the whole circle in the
      units of the amounts. */
  function AngleTotal(amount: seq<(string, real)>, gap: real): real
  {
    gap * |amount| as real + Sum(ValuesOf(amount))
  }

  /** Where the cursor of `_generate_angles` stands before the `i`-th arch:
      every arch moves it on by `v * 360 / total`, every gap after an arch by
      `gap * 360 / total`. The cursor is never brought back below 360. */
  function AngleCursor(amount: seq<(string, real)>, total: real, gap: real, start: real, i: nat): real
    requires total != 0.0 && i <= |amount|
  {
    if i == 0 then start
    else AngleCursor(amount, total, gap, start, i - 1) + amount[i - 1].1 * 360.0 / total + gap * 360.0 / total
  }

  /** `agl_start` once the first `n` arches are placed. */
  function StartsUpTo(amount: seq<(string, real)>, total: real, gap: real, start: real, n: nat): (r: seq<(string, real)>)
    requires total != 0.0 && n <= |amount|
    ensures |r| == n
  {
    if n == 0 then []
    else StartsUpTo(amount, total, gap, start, n - 1) + [(amount[n - 1].0, AngleCursor(amount, total, gap, start, n - 1))]
  }

  /** `agl_end` once the first `n` arches are placed. */
  function EndsUpTo(amount: seq<(string, real)>, total: real, gap: real, start: real, n: nat): (r: seq<(string, real)>)
    requires total != 0.0 && n <= |amount|
    ensures |r| == n
  {
    if n == 0 then []
    else
      EndsUpTo(amount, total, gap, start, n - 1) +
      [(amount[n - 1].0, AngleCursor(amount, total, gap, start, n - 1) + amount[n - 1].1 * 360.0 / total)]
  }

  /** `arch_start`: where every entity's arch starts. */
  function ArchStarts(amount: seq<(string, real)>, gap: real, start: real): seq<(string, real)>
    requires AngleTotal(amount, gap) != 0.0
  {
    StartsUpTo(amount, AngleTotal(amount, gap), gap, start, |amount|)
  }

  /** `arch_end`: where every entity's arch ends. */
  function ArchEnds(amount: seq<(string, real)>, gap: real, start: real): seq<(string, real)>
    requires AngleTotal(amount, gap) != 0.0
  {
    EndsUpTo(amount, AngleTotal(amount, gap), gap, start, |amount|)
  }

  /** Entry `i` of the placed arches: the key of the `i`-th amount, starting
      where the cursor stood before it and ending its share further on. */
  lemma {:induction false} PlacedAt(amount: seq<(string, real)>, total: real, gap: real, start: real, n: nat, i: nat)
    requires total != 0.0 && i < n <= |amount|
    ensures StartsUpTo(amount, total, gap, start, n)[i] == (amount[i].0, AngleCursor(amount, total, gap, start, i))
    ensures EndsUpTo(amount, total, gap, start, n)[i] ==
      (amount[i].0, AngleCursor(amount, total, gap, start, i) + amount[i].1 * 360.0 / total)
    decreases n
  {
    if i < n - 1 {
      PlacedAt(amount, total, gap, start, n - 1, i);
    }
  }

  /** `arch_start` and `arch_end` have the keys of `amount`, in its order. */
  lemma ArchKeys(amount: seq<(string, real)>, gap: real, start: real)
    requires AngleTotal(amount, gap) != 0.0
    ensures KeysOf(ArchStarts(amount, gap, start)) == KeysOf(amount)
    ensures KeysOf(ArchEnds(amount, gap, start)) == KeysOf(amount)
  {
    var total := AngleTotal(amount, gap);
    forall i | 0 <= i < |amount|
      ensures ArchStarts(amount, gap, start)[i].0 == amount[i].0 && ArchEnds(amount, gap, start)[i].0 == amount[i].0
    {
      PlacedAt(amount, total, gap, start, |amount|, i);
    }
  }

  /** Arch `i` of `_generate_angles` takes `v * 360 / total` degrees of the
      circle, and the next arch starts `gap * 360 / total` degrees after it
      ends. */
  lemma ArchesInTurn(amount: seq<(string, real)>, gap: real, start: real, i: nat)
    requires AngleTotal(amount, gap) != 0.0 && i < |amount|
    ensures ArchEnds(amount, gap, start)[i].1 - ArchStarts(amount, gap, start)[i].1
      == amount[i].1 * 360.0 / AngleTotal(amount, gap)
    ensures i + 1 < |amount| ==>
      ArchStarts(amount, gap, start)[i + 1].1 == ArchEnds(amount, gap, start)[i].1 + gap * 360.0 / AngleTotal(amount, gap)
  {
    var total := AngleTotal(amount, gap);
    PlacedAt(amount, total, gap, start, |amount|, i);
    if i + 1 < |amount| {
      PlacedAt(amount, total, gap, start, |amount|, i + 1);
    }
  }

  /** The degrees every arch takes: `v * 360 / total`. */
  function Widths(amount: seq<(string, real)>, total: real): (w: seq<real>)
    requires total != 0.0
    ensures |w| == |amount|
  {
    seq(|amount|, i requires 0 <= i < |amount| => amount[i].1 * 360.0 / total)
  }

  /** The arches together take the amounts' share of the circle. */
  lemma WidthsSum(amount: seq<(string, real)>, total: real)
    requires total != 0.0
    ensures Sum(Widths(amount, total)) == Sum(ValuesOf(amount)) * (360.0 / total)
  {
    var u := 360.0 / total;
    var w := Widths(amount, total);
    var t := Scheduler.Times(ValuesOf(amount), u);
    forall i | 0 <= i < |amount|
      ensures w[i] == t[i]
    {
      Scheduler.Regroup(amount[i].1, 360.0, total);
    }
    assert w == t;
    assert Sum(w) == Sum(t);
    Scheduler.SumTimes(ValuesOf(amount), u);
  }

  /** The cursor has passed the first `i` arches and the gap after each. */
  lemma {:induction false} AngleCursorPassed(amount: seq<(string, real)>, total: real, gap: real, start: real, i: nat)
    requires total != 0.0 && i <= |amount|
    ensures AngleCursor(amount, total, gap, start, i) ==
      start + Sum(Widths(amount, total)[..i]) + i as real * (gap * 360.0 / total)
  {
    if i > 0 {
      AngleCursorPassed(amount, total, gap, start, i - 1);
      SumStep(Widths(amount, total), i - 1);
      TimesStep(i, gap * 360.0 / total);
    }
  }

  lemma TimesStep(i: nat, g: real)
    requires i > 0
    ensures (i - 1) as real * g + g == i as real * g
  {
  }

  /** The arches and the gaps after them add up to the whole circle. */
  lemma CircleCloses(s: real, n: real, gap: real, total: real)
    requires total == gap * n + s && total != 0.0
    ensures s * (360.0 / total) + n * (gap * 360.0 / total) == 360.0
  {
    var u := 360.0 / total;
    Scheduler.Regroup(gap, 360.0, total);
    Rearrange(s, n, gap, total, u);
    Scheduler.MulQuotient(360.0, total);
  }

  lemma Rearrange(s: real, n: real, g: real, t: real, u: real)
    requires t == g * n + s
    ensures s * u + n * (g * u) == t * u
  {
  }

  /** After the last arch and its gap the cursor stands a full turn on. */
  lemma CursorGoesRound(amount: seq<(string, real)>, gap: real, start: real)
    requires AngleTotal(amount, gap) != 0.0
    ensures AngleCursor(amount, AngleTotal(amount, gap), gap, start, |amount|) == start + 360.0
  {
    var n := |amount|;
    var total := AngleTotal(amount, gap);
    var w := Widths(amount, total);
    var ga := gap * 360.0 / total;
    AngleCursorPassed(amount, total, gap, start, n);
    assert w[..n] == w;
    assert AngleCursor(amount, total, gap, start, n) == start + Sum(w) + n as real * ga;
    WidthsSum(amount, total);
    CircleCloses(Sum(ValuesOf(amount)), n as real, gap, total);
    assert Sum(w) + n as real * ga == 360.0;
  }

  /** The arches of `_generate_angles` go round the circle exactly once: the
      first starts at `start`, and the gap after the last one ends at
      `start + 360`. Nothing is brought back below 360. */
  lemma AnglesGoRound(amount: seq<(string, real)>, gap: real, start: real)
    requires AngleTotal(amount, gap) != 0.0 && amount != []
    ensures ArchStarts(amount, gap, start)[0].1 == start
    ensures ArchEnds(amount, gap, start)[|amount| - 1].1 + gap * 360.0 / AngleTotal(amount, gap) == start + 360.0
  {
    var total := AngleTotal(amount, gap);
    PlacedAt(amount, total, gap, start, |amount|, 0);
    PlacedAt(amount, total, gap, start, |amount|, |amount| - 1);
    CursorGoesRound(amount, gap, start);
  }

  /** The body of `_generate_angles`: a total of zero divides by zero, before
      any arch is placed. The keys of `amount` are distinct, so each
      `agl_start[k] = current` adds an entry at the end. */
  method LayOutAngles(amount: seq<(string, real)>, gap: real, start: real)
    returns (r: Result<(seq<(string, real)>, seq<(string, real)>)>)
    ensures AngleTotal(amount, gap) == 0.0 ==> r == Err(ZeroDivisionError)
    ensures AngleTotal(amount, gap) != 0.0 ==> r == Ok((ArchStarts(amount, gap, start), ArchEnds(amount, gap, start)))
  {
    var total := gap * |amount| as real + Sum(ValuesOf(amount));
    if total == 0.0 {
      return Err(ZeroDivisionError);
    }
    var gp := gap * 360.0 / total;
    var aglStart: seq<(string, real)> := [];
    var aglEnd: seq<(string, real)> := [];
    var current := start;
    for i := 0 to |amount|
      invariant current == AngleCursor(amount, total, gap, start, i)
      invariant aglStart == StartsUpTo(amount, total, gap, start, i)
      invariant aglEnd == EndsUpTo(amount, total, gap, start, i)
    {
      aglStart := aglStart + [(amount[i].0, current)];
      current := current + amount[i].1 * 360.0 / total;
      aglEnd := aglEnd + [(amount[i].0, current)];
      current := current + gp;
    }
    return Ok((aglStart, aglEnd));
  }

  // -------------------------------------------------------------- slots

  /** The slot `Flow.get_angles` takes on an arch from `start` spanning
      `available` degrees whose cursor stands at `used`: it starts `used`
      of the way along and is `fraction` of the arch wide. */
  function Slot(start: real, available: real, used: real, fraction: real): (s: Scheduler.Span)
    ensures s.end - s.start == available * fraction
  {
    var s1 := start + available * used;
    Scheduler.Span(s1, s1 + available * fraction)
  }

  /** A slot ends past the end of its arch exactly when it ends more than
      the whole arch along it. */
  lemma SlotPastEnd(start: real, available: real, used: real, fraction: real)
    requires available > 0.0
    ensures Slot(start, available, used, fraction).end > start + available <==> used + fraction > 1.0
    ensures Slot(start, available, used, fraction).end == start + available <==> used + fraction == 1.0
  {
    var w := used + fraction;
    assert Slot(start, available, used, fraction).end == start + available * w;
    Scale1(available, w);
  }

  lemma Scale1(a: real, w: real)
    requires a > 0.0
    ensures a * w > a <==> w > 1.0
    ensures a * w == a <==> w == 1.0
  {
    if w > 1.0 {
      assert a * w - a == a * (w - 1.0);
    } else if w < 1.0 {
      assert a - a * w == a * (1.0 - w);
    }
  }

  /** The arch's cursor (`used`) after `update` for every fraction of
      `fracs` in turn, from `used`: each moves it on by the fraction and
      the ribbon gap. */
  function UsedAfter(used: real, fracs: seq<real>, gap: real): real
    decreases |fracs|
  {
    if fracs == [] then used else UsedAfter(used, fracs[..|fracs| - 1], gap) + fracs[|fracs| - 1] + gap
  }

  /** The part of a fresh arch, as fractions of it, that the `i`-th ribbon
      takes when ribbons take `fracs` of it in turn. */
  function PartOf(fracs: seq<real>, gap: real, i: nat): (p: Scheduler.Span)
    requires i < |fracs|
    ensures p.end - p.start == fracs[i]
  {
    var used := UsedAfter(0.0, fracs[..i], gap);
    Scheduler.Span(used, used + fracs[i])
  }

  /** `k` ribbon gaps of `gap` each, laid end to end. */
  function Gaps(k: nat, gap: real): (g: real)
    ensures gap >= 0.0 ==> g >= 0.0
    ensures gap > 0.0 && k > 0 ==> g > 0.0
  {
    if k == 0 then 0.0 else Gaps(k - 1, gap) + gap
  }

  /** `k` gaps take `gap * k` of the arch, which is how `ribbons` counts
      them. */
  lemma {:induction false} GapsTimes(k: nat, gap: real)
    ensures Gaps(k, gap) == gap * k as real
  {
    if k > 0 {
      GapsTimes(k - 1, gap);
      assert gap * k as real == gap * (k - 1) as real + gap;
    }
  }

  /** The cursor has moved on by every fraction and one gap per fraction. */
  lemma {:induction false} UsedAfterSum(used: real, fracs: seq<real>, gap: real)
    ensures UsedAfter(used, fracs, gap) == used + Sum(fracs) + Gaps(|fracs|, gap)
    decreases |fracs|
  {
    if fracs != [] {
      UsedAfterSum(used, fracs[..|fracs| - 1], gap);
    }
  }

  /** Consecutive parts are one ribbon gap apart: the first starts at the
      beginning of the arch, and no two ribbons on an arch overlap when the
      fractions and the gap are not negative. */
  lemma PartsApart(fracs: seq<real>, gap: real, i: nat)
    requires i + 1 < |fracs|
    ensures PartOf(fracs, gap, 0).start == 0.0
    ensures PartOf(fracs, gap, i + 1).start == PartOf(fracs, gap, i).end + gap
  {
    assert fracs[..0] == [];
    assert fracs[..i + 1][..i] == fracs[..i];
  }

  /** The last part ends the fractions and the gaps between them (one fewer
      than the parts) along the arch. */
  lemma LastPartEnd(fracs: seq<real>, gap: real)
    requires fracs != []
    ensures PartOf(fracs, gap, |fracs| - 1).end == Sum(fracs) + Gaps(|fracs| - 1, gap)
  {
    var n := |fracs|;
    UsedAfterSum(0.0, fracs[..n - 1], gap);
    SumStep(fracs, n - 1);
    assert fracs[..n] == fracs;
  }

  // ---------------------------------------------------------- fractions

  /** `total + gaps * total`: an arch's total inflated by the share `gaps`
      of the arch its ribbon gaps take, as `ribbons` computes it. */
  function Inflated(total: real, gaps: real): real
  {
    total + gaps * total
  }

  /** The share of an arch that `ribbons` gives a flow carrying `x` there,
      as written: `x` over the inflated total. */
  function WrittenFraction(x: real, total: real, gaps: real): (r: Result<real>)
    ensures r.Err? <==> Inflated(total, gaps) == 0.0
    ensures r.Err? ==> r.error == ZeroDivisionError
    ensures r.Ok? ==> r.value * Inflated(total, gaps) == x
  {
    var t := Inflated(total, gaps);
    if t == 0.0 then Err(ZeroDivisionError) else Ok(x / t)
  }

  /** The share of an arch a flow carrying `x` there should take: `x / total`
      of what the ribbon gaps leave of it, so that shares and gaps together
      fill the arch. An arch whose total is zero divides by zero. */
  function Fraction(x: real, total: real, gaps: real): (r: Result<real>)
    ensures r.Err? <==> total == 0.0
    ensures r.Err? ==> r.error == ZeroDivisionError
    ensures r.Ok? ==> r.value * total == x * (1.0 - gaps)
  {
    if total == 0.0 then Err(ZeroDivisionError) else Ok(Share(x, total, gaps))
  }

  function Share(x: real, total: real, gaps: real): real
    requires total != 0.0
  {
    x * ((1.0 - gaps) / total)
  }

  /** The correction fails on exactly the inputs the code as written fails
      on when the gaps take no negative share. */
  lemma FractionErrorsAsWritten(x: real, total: real, gaps: real)
    requires gaps >= 0.0
    ensures Fraction(x, total, gaps).Err? <==> WrittenFraction(x, total, gaps).Err?
  {
    assert total + gaps * total == (1.0 + gaps) * total;
  }

  /** The shares the flows at one arch take of it, as written, given the
      amounts `xs` they carry there in drawing order. */
  function WrittenShares(xs: seq<real>, total: real, gaps: real): (r: seq<real>)
    requires Inflated(total, gaps) != 0.0
    ensures |r| == |xs|
    ensures forall i :: 0 <= i < |xs| ==> WrittenFraction(xs[i], total, gaps) == Ok(r[i])
  {
    seq(|xs|, i requires 0 <= i < |xs| => xs[i] / Inflated(total, gaps))
  }

  /** The corrected shares the flows at one arch take of it. */
  function Shares(xs: seq<real>, total: real, gaps: real): (r: seq<real>)
    requires total != 0.0
    ensures |r| == |xs|
    ensures forall i :: 0 <= i < |xs| ==> Fraction(xs[i], total, gaps) == Ok(r[i])
  {
    seq(|xs|, i requires 0 <= i < |xs| => Share(xs[i], total, gaps))
  }

  /** With the corrected shares, the shares and the gaps add up to the
      whole arch. */
  lemma SharesFill(xs: seq<real>, gaps: real)
    requires Sum(xs) != 0.0
    ensures Sum(Shares(xs, Sum(xs), gaps)) + gaps == 1.0
  {
    var c := (1.0 - gaps) / Sum(xs);
    var w := Shares(xs, Sum(xs), gaps);
    var m := Scheduler.Times(xs, c);
    forall i | 0 <= i < |xs|
      ensures w[i] == m[i]
    {
    }
    assert w == m;
    assert Sum(w) == Sum(m);
    Scheduler.SumTimes(xs, c);
    Scheduler.MulQuotient(1.0 - gaps, Sum(xs));
  }

  /** With the shares as written, the shares and the gaps add up to
      `1 / (1 + gaps) + gaps` of the arch: more than the whole arch as soon
      as there are gaps. */
  lemma WrittenSharesOverfill(xs: seq<real>, gaps: real)
    requires Sum(xs) != 0.0 && 1.0 + gaps != 0.0
    ensures Inflated(Sum(xs), gaps) != 0.0
    ensures Sum(WrittenShares(xs, Sum(xs), gaps)) + gaps == 1.0 / (1.0 + gaps) + gaps
    ensures gaps > 0.0 ==> Sum(WrittenShares(xs, Sum(xs), gaps)) + gaps > 1.0
  {
    var total := Sum(xs);
    Inflate(total, gaps);
    var t := Inflated(total, gaps);
    var w := WrittenShares(xs, total, gaps);
    var m := Scheduler.Times(xs, 1.0 / t);
    forall i | 0 <= i < |xs|
      ensures w[i] == m[i]
    {
      DivAsMul(xs[i], t);
    }
    assert w == m;
    assert Sum(w) == Sum(m);
    Scheduler.SumTimes(xs, 1.0 / t);
    Cancel(total, gaps);
    if gaps > 0.0 {
      Overshoot(gaps);
    }
  }

  lemma DivAsMul(a: real, t: real)
    requires t != 0.0
    ensures a / t == a * (1.0 / t)
  {
  }

  lemma Inflate(total: real, x: real)
    requires total != 0.0 && 1.0 + x != 0.0
    ensures total + x * total != 0.0
  {
    assert total + x * total == (1.0 + x) * total;
  }

  lemma Cancel(total: real, x: real)
    requires total != 0.0 && 1.0 + x != 0.0
    ensures total * (1.0 / (total + x * total)) == 1.0 / (1.0 + x)
  {
    assert total + x * total == (1.0 + x) * total;
  }

  lemma Overshoot(x: real)
    requires x > 0.0
    ensures 1.0 / (1.0 + x) + x > 1.0
  {
    assert (1.0 / (1.0 + x)) * (1.0 + x) == 1.0;
    assert (1.0 / (1.0 + x) + x - 1.0) * (1.0 + x) == x * x;
  }

  // ------------------------------------------------------- arch by arch

  /** `ribbon_gap * (count - 1)`: the share of an arch its gaps take when
      `count` flow ends lie on it, one gap between each two. */
  function GapShare(count: nat, gap: real): real
  {
    if count == 0 then -gap else Gaps(count - 1, gap)
  }

  /** The gaps' share is `ribbon_gap * (count - 1)`, as `ribbons` computes
      it. */
  lemma GapShareTimes(count: nat, gap: real)
    ensures GapShare(count, gap) == gap * (count as real - 1.0)
  {
    if count > 0 {
      GapsTimes(count - 1, gap);
      assert gap * (count - 1) as real == gap * (count as real - 1.0);
    }
  }

  /** What flow `d` takes of arch `k` when it takes `f.0` of its source and
      `f.1` of its destination: `Flow.draw` takes the source's slot first. */
  function Handed(d: FlowRecord, f: (real, real), k: string): seq<real>
  {
    (if d.source == k then [f.0] else []) + (if d.destination == k then [f.1] else [])
  }

  /** The fractions of arch `k` the flows take, in the order they are drawn,
      when flow `i` takes `fr[i].0` of its source and `fr[i].1` of its
      destination. */
  function Consumed(data: seq<FlowRecord>, fr: seq<(real, real)>, k: string): seq<real>
    requires |fr| == |data|
    decreases |data|
  {
    if data == [] then []
    else
      var n := |data| - 1;
      Consumed(data[..n], fr[..n], k) + Handed(data[n], fr[n], k)
  }

  lemma TimesAppend(a: seq<real>, b: seq<real>, c: real)
    ensures Scheduler.Times(a + b, c) == Scheduler.Times(a, c) + Scheduler.Times(b, c)
  {
    var l := Scheduler.Times(a + b, c);
    var r := Scheduler.Times(a, c) + Scheduler.Times(b, c);
    forall i | 0 <= i < |l|
      ensures l[i] == r[i]
    {
      if i < |a| {
        assert l[i] == a[i] * c;
      } else {
        assert l[i] == b[i - |a|] * c;
      }
    }
  }

  /** What one flow hands out at `k` when each of its ends there takes its
      amount times `c`. */
  lemma HandedTimes(d: FlowRecord, f: (real, real), k: string, c: real)
    requires d.source == k ==> f.0 == d.amount * c
    requires d.destination == k ==> f.1 == d.amount * c
    ensures Handed(d, f, k) == Scheduler.Times(Ends(d, k), c)
  {
    var e := Ends(d, k);
    var t := Scheduler.Times(e, c);
    if d.source == k && d.destination == k {
      assert e == [d.amount] + [d.amount];
      assert t[0] == d.amount * c && t[1] == d.amount * c;
    } else if d.source == k || d.destination == k {
      assert e == [d.amount] + [];
      assert t[0] == d.amount * c;
    } else {
      assert e == [];
    }
  }

  /** When every flow takes of arch `k` its amount times the same factor
      `c`, the arch hands out its list of amounts, each times `c`, in
      order. */
  lemma {:induction false} ConsumedTimes(data: seq<FlowRecord>, fr: seq<(real, real)>, k: string, c: real)
    requires |fr| == |data|
    requires forall i :: 0 <= i < |data| && data[i].source == k ==> fr[i].0 == data[i].amount * c
    requires forall i :: 0 <= i < |data| && data[i].destination == k ==> fr[i].1 == data[i].amount * c
    ensures Consumed(data, fr, k) == Scheduler.Times(ListOf(Incidents(data), k), c)
    decreases |data|
  {
    if data != [] {
      var n := |data| - 1;
      var d := data[n];
      HandedTimes(d, fr[n], k, c);
      assert forall i :: 0 <= i < n ==> data[..n][i] == data[i] && fr[..n][i] == fr[i];
      ConsumedTimes(data[..n], fr[..n], k, c);
      IncidentsLast(data, k);
      TimesAppend(ListOf(Incidents(data[..n]), k), Ends(d, k), c);
    }
  }

  /** The corrected shares are the amounts times one factor. */
  lemma SharesTimes(xs: seq<real>, t: real, g: real)
    requires t != 0.0
    ensures Shares(xs, t, g) == Scheduler.Times(xs, (1.0 - g) / t)
  {
    var w := Shares(xs, t, g);
    var m := Scheduler.Times(xs, (1.0 - g) / t);
    forall i | 0 <= i < |xs|
      ensures w[i] == m[i]
    {
    }
  }

  /** The shares as written are the amounts times one factor. */
  lemma WrittenSharesTimes(xs: seq<real>, t: real, g: real)
    requires Inflated(t, g) != 0.0
    ensures WrittenShares(xs, t, g) == Scheduler.Times(xs, 1.0 / Inflated(t, g))
  {
    var w := WrittenShares(xs, t, g);
    var m := Scheduler.Times(xs, 1.0 / Inflated(t, g));
    forall i | 0 <= i < |xs|
      ensures w[i] == m[i]
    {
      DivAsMul(xs[i], Inflated(t, g));
    }
  }

  /** Flows that each take `Share(amount, t, g)` of arch `k` hand out its
      list of amounts as corrected shares. */
  lemma ConsumedShares(data: seq<FlowRecord>, fr: seq<(real, real)>, k: string, t: real, g: real)
    requires |fr| == |data| && t != 0.0
    requires forall i :: 0 <= i < |data| && data[i].source == k ==> fr[i].0 == Share(data[i].amount, t, g)
    requires forall i :: 0 <= i < |data| && data[i].destination == k ==> fr[i].1 == Share(data[i].amount, t, g)
    ensures Consumed(data, fr, k) == Shares(ListOf(Incidents(data), k), t, g)
  {
    var c := (1.0 - g) / t;
    forall i | 0 <= i < |data| && data[i].source == k
      ensures fr[i].0 == data[i].amount * c
    {
    }
    forall i | 0 <= i < |data| && data[i].destination == k
      ensures fr[i].1 == data[i].amount * c
    {
    }
    ConsumedTimes(data, fr, k, c);
    SharesTimes(ListOf(Incidents(data), k), t, g);
  }

  /** Flows that each take `WrittenFraction(amount, t, g)` of arch `k` hand
      out its list of amounts as written shares. */
  lemma ConsumedWritten(data: seq<FlowRecord>, fr: seq<(real, real)>, k: string, t: real, g: real)
    requires |fr| == |data| && Inflated(t, g) != 0.0
    requires forall i :: 0 <= i < |data| && data[i].source == k ==> WrittenFraction(data[i].amount, t, g) == Ok(fr[i].0)
    requires forall i :: 0 <= i < |data| && data[i].destination == k ==> WrittenFraction(data[i].amount, t, g) == Ok(fr[i].1)
    ensures Consumed(data, fr, k) == WrittenShares(ListOf(Incidents(data), k), t, g)
  {
    var it := Inflated(t, g);
    var c := 1.0 / it;
    forall i | 0 <= i < |data| && data[i].source == k
      ensures fr[i].0 == data[i].amount * c
    {
      DivAsMul(data[i].amount, it);
    }
    forall i | 0 <= i < |data| && data[i].destination == k
      ensures fr[i].1 == data[i].amount * c
    {
      DivAsMul(data[i].amount, it);
    }
    ConsumedTimes(data, fr, k, c);
    WrittenSharesTimes(ListOf(Incidents(data), k), t, g);
  }

  /** On an arch whose list of amounts is `xs`, the corrected shares and
      the gaps between them fill the arch exactly. */
  lemma ListFilled(xs: seq<real>, g: real)
    requires Sum(xs) != 0.0 && g == GapShare(|xs|, RibbonGap)
    ensures xs != []
    ensures PartOf(Shares(xs, Sum(xs), g), RibbonGap, |xs| - 1).end == 1.0
  {
    SharesFill(xs, g);
    LastPartEnd(Shares(xs, Sum(xs), g), RibbonGap);
  }

  /** On an arch whose list of amounts is `xs`, the shares as written and
      the gaps between them overfill the arch once it has two flow ends. */
  lemma ListOverfilled(xs: seq<real>, g: real)
    requires Sum(xs) != 0.0 && g == GapShare(|xs|, RibbonGap)
    ensures xs != [] && Inflated(Sum(xs), g) != 0.0
    ensures |xs| >= 2 ==> PartOf(WrittenShares(xs, Sum(xs), g), RibbonGap, |xs| - 1).end > 1.0
  {
    assert xs != [];
    Inflate(Sum(xs), g);
    LastPartEnd(WrittenShares(xs, Sum(xs), g), RibbonGap);
    if |xs| >= 2 {
      WrittenSharesOverfill(xs, g);
    }
  }

  /** Flows that take the corrected fractions of arch `k`, and the gaps
      between them, fill the arch exactly: the last slot ends where the arch
      ends. */
  lemma ArchFilled(data: seq<FlowRecord>, fr: seq<(real, real)>, k: string)
    requires |fr| == |data| && TotalAmount(data, k) != 0.0
    requires forall i :: 0 <= i < |data| && data[i].source == k ==>
      fr[i].0 == Share(data[i].amount, TotalAmount(data, k), GapShare(Occurrences(data, k), RibbonGap))
    requires forall i :: 0 <= i < |data| && data[i].destination == k ==>
      fr[i].1 == Share(data[i].amount, TotalAmount(data, k), GapShare(Occurrences(data, k), RibbonGap))
    ensures Consumed(data, fr, k) != []
    ensures PartOf(Consumed(data, fr, k), RibbonGap, |Consumed(data, fr, k)| - 1).end == 1.0
  {
    var xs := ListOf(Incidents(data), k);
    var t := TotalAmount(data, k);
    var g := GapShare(Occurrences(data, k), RibbonGap);
    ConsumedShares(data, fr, k, t, g);
    IncidentsAgree(data, k);
    IncidentsCount(data, k);
    ListFilled(xs, g);
  }

  /** Flows that take the fractions of arch `k` as `ribbons` writes them run
      past the end of the arch as soon as two flow ends share it. */
  lemma WrittenArchOverflows(data: seq<FlowRecord>, fr: seq<(real, real)>, k: string)
    requires |fr| == |data| && TotalAmount(data, k) != 0.0
    requires forall i :: 0 <= i < |data| && data[i].source == k ==>
      WrittenFraction(data[i].amount, TotalAmount(data, k), GapShare(Occurrences(data, k), RibbonGap)) == Ok(fr[i].0)
    requires forall i :: 0 <= i < |data| && data[i].destination == k ==>
      WrittenFraction(data[i].amount, TotalAmount(data, k), GapShare(Occurrences(data, k), RibbonGap)) == Ok(fr[i].1)
    ensures Consumed(data, fr, k) != []
    ensures Occurrences(data, k) >= 2 ==>
      PartOf(Consumed(data, fr, k), RibbonGap, |Consumed(data, fr, k)| - 1).end > 1.0
  {
    var xs := ListOf(Incidents(data), k);
    var t := TotalAmount(data, k);
    var g := GapShare(Occurrences(data, k), RibbonGap);
    IncidentsAgree(data, k);
    IncidentsCount(data, k);
    ListOverfilled(xs, g);
    ConsumedWritten(data, fr, k, t, g);
  }

  /** Two flows of 1 out of `a`, to `b` and to `c`: as written, `ribbons`
      gives each `1 / 2.1` of arch `a`, so the second ends `2 / 2.1 + 0.05`
      of the way along, past the arch's end. */
  lemma OverflowExample()
    ensures var data := [FlowRecord("a", "b", 1.0), FlowRecord("a", "c", 1.0)];
      var fr := [(1.0 / 2.1, 1.0), (1.0 / 2.1, 1.0)];
      WrittenFraction(1.0, TotalAmount(data, "a"), GapShare(Occurrences(data, "a"), RibbonGap)) == Ok(1.0 / 2.1) &&
      Consumed(data, fr, "a") == [1.0 / 2.1, 1.0 / 2.1] &&
      PartOf(Consumed(data, fr, "a"), RibbonGap, 1).end == 2.0 / 2.1 + 0.05 > 1.0
  {
    var data := [FlowRecord("a", "b", 1.0), FlowRecord("a", "c", 1.0)];
    var fr := [(1.0 / 2.1, 1.0), (1.0 / 2.1, 1.0)];
    assert data[..1] == [data[0]] && data[..1][..0] == [];
    assert fr[..1] == [fr[0]];
    assert TotalAmount(data, "a") == 2.0;
    assert Occurrences(data, "a") == 2;
    assert GapShare(2, RibbonGap) == RibbonGap;
    assert WrittenFraction(1.0, 2.0, RibbonGap) == Ok(1.0 / 2.1);
    WrittenArchOverflows(data, fr, "a");
    var xs := Consumed(data, fr, "a");
    assert xs == [1.0 / 2.1, 1.0 / 2.1];
    assert xs[..1] == [xs[0]] && xs[..1][..0] == [];
    assert UsedAfter(0.0, xs[..1], RibbonGap) == UsedAfter(0.0, [], RibbonGap) + xs[0] + RibbonGap;
  }
}
