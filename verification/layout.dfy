/** The track-level layout shared by both tracks: the per-entity totals
    gathered from the flows, the order the arches are laid out in, the
    share of the circle each arch gets, and the cursor that places them. */
module Layout {
  import opened Common
  import opened Scheduler

  /** One data triple `(source, destination, amount)`. */
  datatype FlowRecord = FlowRecord(source: string, destination: string, amount: real)

  /** The key a generated ribbon is stored under, `f"{entry}-{index}"`:
      the data triple and its position among the flows. */
  datatype RibbonKey = RibbonKey(entry: FlowRecord, index: nat)

  // ------------------------------------------------------------- totals

  /** A `defaultdict(int)` of totals: the keys in insertion order and the
      value of each. */
  datatype Tally = Tally(keys: seq<string>, amount: map<string, real>)
  {
    /** The keys listed are exactly the keys with a value, each once. */
    ghost predicate Valid()
    {
      Distinct(keys) && forall k :: k in amount <==> k in keys
    }
  }

  /** `amounts[k] += x`: a missing key starts at 0 and is appended, a
      present key keeps its place. */
  function AddAmount(t: Tally, k: string, x: real): (r: Tally)
    ensures r.keys == AppendNew(t.keys, k)
    ensures r.amount == t.amount[k := (if k in t.amount then t.amount[k] else 0.0) + x]
  {
    Tally(AppendNew(t.keys, k), t.amount[k := (if k in t.amount then t.amount[k] else 0.0) + x])
  }

  /** `amounts[k] += x` keeps the keys listed once each. */
  lemma AddAmountValid(t: Tally, k: string, x: real)
    requires t.Valid()
    ensures AddAmount(t, k, x).Valid()
  {
  }

  /** The totals after `add_flow(d)`: the amount is added to the source's
      total and then to the destination's. */
  function AddFlowTotals(t: Tally, d: FlowRecord): Tally
  {
    AddAmount(AddAmount(t, d.source, d.amount), d.destination, d.amount)
  }

  /** The totals after adding every flow of `data`, from empty. */
  function Totals(data: seq<FlowRecord>): Tally
    decreases |data|
  {
    if data == [] then Tally([], map[]) else AddFlowTotals(Totals(data[..|data| - 1]), data[|data| - 1])
  }

  /** What flow `d` contributes to the total of `k`: its amount once per
      end at `k`, so twice for a flow from `k` to itself. */
  function Incident(d: FlowRecord, k: string): real
  {
    (if d.source == k then d.amount else 0.0) + (if d.destination == k then d.amount else 0.0)
  }

  /** The total of `k` over all the flows. */
  function TotalAmount(data: seq<FlowRecord>, k: string): real
    decreases |data|
  {
    if data == [] then 0.0 else TotalAmount(data[..|data| - 1], k) + Incident(data[|data| - 1], k)
  }

  /** Some flow of `data` starts or ends at `k`. */
  predicate Mentions(data: seq<FlowRecord>, k: string)
    decreases |data|
  {
    data != [] &&
    (Mentions(data[..|data| - 1], k) || data[|data| - 1].source == k || data[|data| - 1].destination == k)
  }

  /** The entities in the order `add_flow` first meets them: the source,
      then the destination, each on first appearance. */
  function DiscoveryOrder(data: seq<FlowRecord>): seq<string>
    decreases |data|
  {
    if data == [] then [] else Discovered(DiscoveryOrder(data[..|data| - 1]), data[|data| - 1])
  }

  /** The entity order after `add_flow` of every flow of `data`, starting
      from `order`. */
  function DiscoverFrom(order: seq<string>, data: seq<FlowRecord>): seq<string>
    decreases |data|
  {
    if data == [] then order else Discovered(DiscoverFrom(order, data[..|data| - 1]), data[|data| - 1])
  }

  /** Discovering from nothing is the discovery order. */
  lemma {:induction false} DiscoverFromEmpty(data: seq<FlowRecord>)
    ensures DiscoverFrom([], data) == DiscoveryOrder(data)
    decreases |data|
  {
    if data != [] {
      DiscoverFromEmpty(data[..|data| - 1]);
    }
  }

  /** One more flow: the totals and the order each take one more step. */
  lemma AppendFlow(order: seq<string>, data: seq<FlowRecord>, d: FlowRecord)
    ensures Totals(data + [d]) == AddFlowTotals(Totals(data), d)
    ensures DiscoverFrom(order, data + [d]) == Discovered(DiscoverFrom(order, data), d)
  {
    assert (data + [d])[..|data|] == data;
  }

  /** The totals `add_flow` keeps list each entity once, in the order the
      flows first mention it. */
  lemma {:induction false} TotalsKeys(data: seq<FlowRecord>)
    ensures Totals(data).Valid()
    ensures Totals(data).keys == DiscoveryOrder(data)
    decreases |data|
  {
    if data != [] {
      var front := data[..|data| - 1];
      var d := data[|data| - 1];
      TotalsKeys(front);
      AddAmountValid(Totals(front), d.source, d.amount);
      AddAmountValid(AddAmount(Totals(front), d.source, d.amount), d.destination, d.amount);
    }
  }

  /** The totals `add_flow` keeps are exactly the per-entity sums: an entity
      any flow mentions has the sum of its incident amounts, any other has
      no entry. */
  lemma {:induction false} TotalsAgree(data: seq<FlowRecord>, k: string)
    ensures k in Totals(data).amount <==> Mentions(data, k)
    ensures k in Totals(data).amount ==> Totals(data).amount[k] == TotalAmount(data, k)
    decreases |data|
  {
    if data != [] {
      var front := data[..|data| - 1];
      TotalsAgree(front, k);
      UnmentionedZero(front, k);
      AddFlowAmount(Totals(front), data[|data| - 1], k, TotalAmount(front, k), Mentions(front, k));
    }
  }

  /** One `add_flow` step on the entry of `k`, which holds `t0` before
      (and is present exactly when `b0`). */
  lemma AddFlowAmount(t: Tally, d: FlowRecord, k: string, t0: real, b0: bool)
    requires k in t.amount <==> b0
    requires k in t.amount ==> t.amount[k] == t0
    requires !b0 ==> t0 == 0.0
    ensures k in AddFlowTotals(t, d).amount <==> b0 || d.source == k || d.destination == k
    ensures k in AddFlowTotals(t, d).amount ==> AddFlowTotals(t, d).amount[k] == t0 + Incident(d, k)
  {
    var m1 := AddAmount(t, d.source, d.amount).amount;
    assert m1 == t.amount[d.source := (if d.source in t.amount then t.amount[d.source] else 0.0) + d.amount];
  }

  /** An entity no flow mentions has a total of 0. */
  lemma {:induction false} UnmentionedZero(data: seq<FlowRecord>, k: string)
    ensures !Mentions(data, k) ==> TotalAmount(data, k) == 0.0
    decreases |data|
  {
    if data != [] {
      UnmentionedZero(data[..|data| - 1], k);
    }
  }

  /** Both ends of every flow are mentioned. */
  lemma {:induction false} MentionsEnds(data: seq<FlowRecord>, i: nat)
    requires i < |data|
    ensures Mentions(data, data[i].source) && Mentions(data, data[i].destination)
    decreases |data|
  {
    if i < |data| - 1 {
      var front := data[..|data| - 1];
      MentionsEnds(front, i);
      assert front[i] == data[i];
    }
  }

  /** Both ends of every flow have a total, so both are laid out. */
  lemma FlowEndsLaidOut(order: seq<string>, data: seq<FlowRecord>, j: nat)
    requires j < |data|
    ensures data[j].source in LayoutOrder(order, Totals(data).keys)
    ensures data[j].destination in LayoutOrder(order, Totals(data).keys)
  {
    MentionsEnds(data, j);
    TotalsAgree(data, data[j].source);
    TotalsAgree(data, data[j].destination);
    TotalsKeys(data);
    OrderCovers(order, Totals(data).keys, data[j].source);
    OrderCovers(order, Totals(data).keys, data[j].destination);
  }

  // --------------------------------------------------------- registries

  /** The ribbons of the flows leaving `k`, in flow order, each with its
      amount: `rbs[j]` is the ribbon drawn for `data[j]`. */
  function Leaving<R>(data: seq<FlowRecord>, rbs: seq<R>, k: string): seq<(R, real)>
    requires |rbs| == |data|
    decreases |data|
  {
    if data == [] then []
    else
      var n := |data| - 1;
      Leaving(data[..n], rbs[..n], k) + (if data[n].source == k then [(rbs[n], data[n].amount)] else [])
  }

  /** The ribbons of the flows arriving at `k`, in the same way. */
  function Arriving<R>(data: seq<FlowRecord>, rbs: seq<R>, k: string): seq<(R, real)>
    requires |rbs| == |data|
    decreases |data|
  {
    if data == [] then []
    else
      var n := |data| - 1;
      Arriving(data[..n], rbs[..n], k) + (if data[n].destination == k then [(rbs[n], data[n].amount)] else [])
  }

  /** One more flow and its ribbon. */
  lemma RegistriesStep<R>(data: seq<FlowRecord>, rbs: seq<R>, d: FlowRecord, rb: R, k: string)
    requires |rbs| == |data|
    ensures Leaving(data + [d], rbs + [rb], k)
      == Leaving(data, rbs, k) + (if d.source == k then [(rb, d.amount)] else [])
    ensures Arriving(data + [d], rbs + [rb], k)
      == Arriving(data, rbs, k) + (if d.destination == k then [(rb, d.amount)] else [])
  {
    assert (data + [d])[..|data|] == data;
    assert (rbs + [rb])[..|rbs|] == rbs;
  }

  /** Only the ribbons drawn for the flows are registered. */
  lemma {:induction false} RegisteredAreDrawn<R>(data: seq<FlowRecord>, rbs: seq<R>, k: string, x: R)
    requires |rbs| == |data|
    ensures x in KeysOf(Leaving(data, rbs, k)) ==> x in rbs
    ensures x in KeysOf(Arriving(data, rbs, k)) ==> x in rbs
    decreases |data|
  {
    if data != [] {
      var n := |data| - 1;
      RegisteredAreDrawn(data[..n], rbs[..n], k, x);
      assert KeysOf(Leaving(data, rbs, k)) == KeysOf(Leaving(data[..n], rbs[..n], k))
        + (if data[n].source == k then [rbs[n]] else []);
      assert KeysOf(Arriving(data, rbs, k)) == KeysOf(Arriving(data[..n], rbs[..n], k))
        + (if data[n].destination == k then [rbs[n]] else []);
      assert rbs == rbs[..n] + [rbs[n]];
    }
  }

  /** The ribbon of flow `n` is registered, with the flow's amount, as
      leaving its source and as arriving at its destination. */
  lemma {:induction false} DrawnAreRegistered<R>(data: seq<FlowRecord>, rbs: seq<R>, n: nat)
    requires |rbs| == |data| && n < |data|
    ensures (rbs[n], data[n].amount) in Leaving(data, rbs, data[n].source)
    ensures (rbs[n], data[n].amount) in Arriving(data, rbs, data[n].destination)
    decreases |data|
  {
    var m := |data| - 1;
    if n < m {
      DrawnAreRegistered(data[..m], rbs[..m], n);
    }
  }

  /** The amounts registered at `k`, leaving and arriving, add up to the
      total of `k`: an arch's ribbons share out exactly its own total. */
  lemma {:induction false} RegisteredTotal<R>(data: seq<FlowRecord>, rbs: seq<R>, k: string)
    requires |rbs| == |data|
    ensures Sum(ValuesOf(Leaving(data, rbs, k))) + Sum(ValuesOf(Arriving(data, rbs, k)))
      == TotalAmount(data, k)
    decreases |data|
  {
    if data != [] {
      var n := |data| - 1;
      var d := data[n];
      RegisteredTotal(data[..n], rbs[..n], k);
      var l1: seq<(R, real)> := if d.source == k then [(rbs[n], d.amount)] else [];
      var a1: seq<(R, real)> := if d.destination == k then [(rbs[n], d.amount)] else [];
      assert Leaving(data, rbs, k) == Leaving(data[..n], rbs[..n], k) + l1;
      assert Arriving(data, rbs, k) == Arriving(data[..n], rbs[..n], k) + a1;
      SumValuesAppend(Leaving(data[..n], rbs[..n], k), l1);
      SumValuesAppend(Arriving(data[..n], rbs[..n], k), a1);
      assert Sum(ValuesOf(l1)) + Sum(ValuesOf(a1)) == Incident(d, k) by {
        assert ValuesOf(l1) == if d.source == k then [d.amount] else [];
        assert ValuesOf(a1) == if d.destination == k then [d.amount] else [];
      }
    }
  }

  /** The values of two lists appended add up to the sum of each. */
  lemma SumValuesAppend<R>(x: seq<(R, real)>, y: seq<(R, real)>)
    ensures Sum(ValuesOf(x + y)) == Sum(ValuesOf(x)) + Sum(ValuesOf(y))
  {
    assert ValuesOf(x + y) == ValuesOf(x) + ValuesOf(y);
    SumAppend(ValuesOf(x), ValuesOf(y));
  }

  // -------------------------------------------------------------- order

  /** `if k not in order: order.append(k)`. */
  function AppendNew(order: seq<string>, k: string): (r: seq<string>)
  {
    if k in order then order else order + [k]
  }

  /** The entity order after `add_flow(d)`: the source, then the
      destination, each appended on first appearance. */
  function Discovered(order: seq<string>, d: FlowRecord): seq<string>
  {
    AppendNew(AppendNew(order, d.source), d.destination)
  }

  /** `[x for x in order if x in keys]`. */
  function Filter(order: seq<string>, keys: seq<string>): (r: seq<string>)
    ensures forall x :: x in r <==> x in order && x in keys
    decreases |order|
  {
    if order == [] then []
    else
      var front := Filter(order[..|order| - 1], keys);
      var x := order[|order| - 1];
      assert order == order[..|order| - 1] + [x];
      if x in keys then front + [x] else front
  }

  /** `for k in keys: if k not in tmp: tmp.append(k)`. */
  function Extend(tmp: seq<string>, keys: seq<string>): (r: seq<string>)
    ensures forall x :: x in r <==> x in tmp || x in keys
    decreases |keys|
  {
    if keys == [] then tmp
    else
      assert keys == keys[..|keys| - 1] + [keys[|keys| - 1]];
      AppendNew(Extend(tmp, keys[..|keys| - 1]), keys[|keys| - 1])
  }

  /** The `order` property: the given order restricted to entities that
      have a total, followed by the entities it does not mention, in
      insertion order. */
  function LayoutOrder(order: seq<string>, keys: seq<string>): seq<string>
  {
    Extend(Filter(order, keys), keys)
  }

  /** The layout order holds every entity with a total and nothing else. */
  lemma OrderCovers(order: seq<string>, keys: seq<string>, x: string)
    ensures x in LayoutOrder(order, keys) <==> x in keys
  {
  }

  lemma {:induction false} FilterDistinct(order: seq<string>, keys: seq<string>)
    requires Distinct(order)
    ensures Distinct(Filter(order, keys))
    decreases |order|
  {
    if order != [] {
      var front := order[..|order| - 1];
      assert Distinct(front);
      FilterDistinct(front, keys);
      assert order[|order| - 1] !in front;
    }
  }

  lemma AppendNewDistinct(order: seq<string>, k: string)
    requires Distinct(order)
    ensures Distinct(AppendNew(order, k))
  {
  }

  lemma {:induction false} ExtendDistinct(tmp: seq<string>, keys: seq<string>)
    requires Distinct(tmp)
    ensures Distinct(Extend(tmp, keys))
    decreases |keys|
  {
    if keys != [] {
      ExtendDistinct(tmp, keys[..|keys| - 1]);
      AppendNewDistinct(Extend(tmp, keys[..|keys| - 1]), keys[|keys| - 1]);
    }
  }

  /** A given order without repeats yields a layout order without repeats,
      so no entity gets two arches. */
  lemma OrderDistinct(order: seq<string>, keys: seq<string>)
    requires Distinct(order)
    ensures Distinct(LayoutOrder(order, keys))
  {
    FilterDistinct(order, keys);
    ExtendDistinct(Filter(order, keys), keys);
  }

  lemma {:induction false} FilterAll(order: seq<string>, keys: seq<string>)
    requires forall x :: x in order ==> x in keys
    ensures Filter(order, keys) == order
    decreases |order|
  {
    if order != [] {
      FilterAll(order[..|order| - 1], keys);
      assert order == order[..|order| - 1] + [order[|order| - 1]];
    }
  }

  lemma {:induction false} ExtendAll(tmp: seq<string>, keys: seq<string>)
    requires forall x :: x in keys ==> x in tmp
    ensures Extend(tmp, keys) == tmp
    decreases |keys|
  {
    if keys != [] {
      ExtendAll(tmp, keys[..|keys| - 1]);
      assert keys[|keys| - 1] in keys;
    }
  }

  /** While the order is only ever discovered by `add_flow` (never set), the
      layout order is the order in which the flows first mention each
      entity. */
  lemma DiscoveredLayoutOrder(data: seq<FlowRecord>)
    ensures LayoutOrder(DiscoveryOrder(data), Totals(data).keys) == DiscoveryOrder(data)
  {
    TotalsKeys(data);
    FilterAll(DiscoveryOrder(data), Totals(data).keys);
    ExtendAll(DiscoveryOrder(data), Totals(data).keys);
  }

  /** The loops of the `order` property. */
  method BuildOrder(order: seq<string>, keys: seq<string>) returns (tmp: seq<string>)
    ensures tmp == LayoutOrder(order, keys)
  {
    tmp := [];
    var i := 0;
    while i < |order|
      invariant 0 <= i <= |order|
      invariant tmp == Filter(order[..i], keys)
    {
      assert order[..i + 1][..i] == order[..i];
      if order[i] in keys {
        tmp := tmp + [order[i]];
      }
      i := i + 1;
    }
    assert order[..i] == order;
    var j := 0;
    while j < |keys|
      invariant 0 <= j <= |keys|
      invariant tmp == Extend(Filter(order, keys), keys[..j])
    {
      assert keys[..j + 1][..j] == keys[..j];
      if keys[j] !in tmp {
        tmp := tmp + [keys[j]];
      }
      j := j + 1;
    }
    assert keys[..j] == keys;
  }

  /** `[amounts[k] for k in keys]`, a key without a total reading as 0 as
      in a `defaultdict(int)`. */
  function AmountsOf(t: Tally, keys: seq<string>): seq<real>
  {
    seq(|keys|, i requires 0 <= i < |keys| => if keys[i] in t.amount then t.amount[keys[i]] else 0.0)
  }

  /** The loop of `generate_elements` that reads the total of every entity
      of the layout order. */
  method GatherAmounts(t: Tally, keys: seq<string>) returns (amount: seq<real>)
    ensures amount == AmountsOf(t, keys)
  {
    amount := [];
    var i := 0;
    while i < |keys|
      invariant 0 <= i <= |keys|
      invariant amount == AmountsOf(t, keys[..i])
    {
      var k := keys[i];
      assert keys[..i + 1] == keys[..i] + [k];
      amount := amount + [if k in t.amount then t.amount[k] else 0.0];
      i := i + 1;
    }
    assert keys[..i] == keys;
  }

  // --------------------------------------------------- arc allocation

  /** The width of every arch: after checking that the gaps (`gap` per
      entity, `count` entities) leave some of `maxAngle`, each total gets
      its share of what is left. Too large a gap is a ValueError, reported
      before the division; totals adding up to zero divide by zero. */
  function ArcWidths(amounts: seq<real>, gap: real, count: nat, maxAngle: real): (r: Result<seq<real>>)
    ensures gap * count as real >= maxAngle ==> r == Err(ValueError)
    ensures gap * count as real < maxAngle ==>
      (r.Err? <==> amounts != [] && Sum(amounts) == 0.0)
    ensures r.Err? ==> r.error == ValueError || r.error == ZeroDivisionError
    ensures r.Ok? ==> |r.value| == |amounts|
  {
    var gapAmount := gap * count as real;
    if gapAmount >= maxAngle then Err(ValueError)
    else if amounts == [] then Ok([])
    else if Sum(amounts) == 0.0 then Err(ZeroDivisionError)
    else Ok(Scale(amounts, maxAngle - gapAmount, Sum(amounts)))
  }

  /** Each width is its total's share of what the gaps leave:
      `x * available_angle / total`. */
  lemma ArcWidthsShare(amounts: seq<real>, gap: real, count: nat, maxAngle: real)
    requires ArcWidths(amounts, gap, count, maxAngle).Ok?
    ensures forall i :: 0 <= i < |amounts| ==>
      ArcWidths(amounts, gap, count, maxAngle).value[i] * Sum(amounts) == amounts[i] * (maxAngle - gap * count as real)
  {
    if amounts != [] {
      var rest := maxAngle - gap * count as real;
      assert ArcWidths(amounts, gap, count, maxAngle).value == Scale(amounts, rest, Sum(amounts));
    }
  }

  /** The arches and the gaps together take up exactly `maxAngle`. */
  lemma ArcWidthsFill(amounts: seq<real>, gap: real, count: nat, maxAngle: real)
    requires ArcWidths(amounts, gap, count, maxAngle).Ok? && amounts != []
    ensures Sum(ArcWidths(amounts, gap, count, maxAngle).value) + gap * count as real == maxAngle
  {
    ScaleFills(amounts, maxAngle - gap * count as real);
  }

  /** With non-negative totals, no arch has a negative width. */
  lemma ArcWidthsNonNegative(amounts: seq<real>, gap: real, count: nat, maxAngle: real)
    requires ArcWidths(amounts, gap, count, maxAngle).Ok?
    requires forall i :: 0 <= i < |amounts| ==> amounts[i] >= 0.0
    ensures forall i :: 0 <= i < |amounts| ==> ArcWidths(amounts, gap, count, maxAngle).value[i] >= 0.0
  {
    if amounts != [] {
      SumNonNegative(amounts);
      ScaleNonNegative(amounts, maxAngle - gap * count as real, Sum(amounts));
    }
  }

  // ------------------------------------------------------------- cursor

  /** `if current >= 360: current = current % 360`. */
  function Wrap360(x: real): (r: real)
    ensures x < 360.0 ==> r == x
    ensures x >= 360.0 ==> 0.0 <= r < 360.0 && x == r + 360.0 * ((x / 360.0).Floor as real)
  {
    if x >= 360.0 then RealMod(x, 360.0) else x
  }

  /** Where arch `i` starts: the first at `rotation`, each next one a width
      and a gap further on, brought back into the circle once past 360. */
  function CursorAt(widths: seq<real>, gap: real, rotation: real, i: nat): real
    requires i <= |widths|
    decreases i
  {
    if i == 0 then rotation
    else Wrap360(CursorAt(widths, gap, rotation, i - 1) + (widths[i - 1] + gap))
  }

  /** The whole turns Wrap360 takes off `x`. */
  function Turn(x: real): (t: int)
    ensures Wrap360(x) + 360.0 * t as real == x
  {
    if x >= 360.0 then (x / 360.0).Floor else 0
  }

  /** How many whole turns the cursor has been brought back by before arch `i`. */
  function TurnsAt(widths: seq<real>, gap: real, rotation: real, i: nat): int
    requires i <= |widths|
    decreases i
  {
    if i == 0 then 0
    else TurnsAt(widths, gap, rotation, i - 1) + Turn(CursorAt(widths, gap, rotation, i - 1) + (widths[i - 1] + gap))
  }

  /** Where arch `i` would start with no wrapping: `rotation` plus the
      widths and gaps of the arches before it. */
  function Unwrapped(widths: seq<real>, gap: real, rotation: real, i: nat): (u: real)
    requires i <= |widths|
    ensures u == rotation + Sum(widths[..i]) + (i as real) * gap
    decreases i
  {
    if i == 0 then rotation
    else
      SumStep(widths, i - 1);
      Unwrapped(widths, gap, rotation, i - 1) + (widths[i - 1] + gap)
  }

  /** Up to whole turns, arch `i` starts where the widths and gaps before it
      end: the wrapping never loses or adds anything but full circles. */
  lemma {:induction false} CursorUnwrapped(widths: seq<real>, gap: real, rotation: real, i: nat)
    requires i <= |widths|
    ensures CursorAt(widths, gap, rotation, i) + 360.0 * TurnsAt(widths, gap, rotation, i) as real
      == Unwrapped(widths, gap, rotation, i)
    decreases i
  {
    if i > 0 {
      CursorUnwrapped(widths, gap, rotation, i - 1);
      var x := CursorAt(widths, gap, rotation, i - 1) + (widths[i - 1] + gap);
      var before := TurnsAt(widths, gap, rotation, i - 1);
      assert 360.0 * (before + Turn(x)) as real == 360.0 * before as real + 360.0 * Turn(x) as real;
    }
  }

  /** Starting inside the circle, with no negative width or gap, every arch
      starts inside the circle: at least 0 and less than 360 degrees. */
  lemma {:induction false} CursorInCircle(widths: seq<real>, gap: real, rotation: real, i: nat)
    requires i <= |widths|
    requires 0.0 <= rotation < 360.0 && gap >= 0.0
    requires forall k :: 0 <= k < |widths| ==> widths[k] >= 0.0
    ensures 0.0 <= CursorAt(widths, gap, rotation, i) < 360.0
    decreases i
  {
    if i > 0 {
      CursorInCircle(widths, gap, rotation, i - 1);
    }
  }

  /** The geometry of arch `i`: from its cursor over its width. */
  function ArchAt(widths: seq<real>, gap: real, rotation: real, radius: real, i: nat): (g: ArchGeometry)
    requires i < |widths|
    ensures g.endAngle - g.startAngle == widths[i]
    ensures g.radius == radius
  {
    var start := CursorAt(widths, gap, rotation, i);
    ArchGeometry(radius, start, start + widths[i])
  }

  /** The geometry of the arches after `n` rounds of the cursor loop, as the
      dictionary from entity to arch it fills (a repeated entity keeps its
      first place and takes the later arch). */
  function ArchLayout(keys: seq<string>, widths: seq<real>, gap: real, rotation: real, radius: real, n: nat)
    : seq<(string, ArchGeometry)>
    requires n <= |keys| == |widths|
    decreases n
  {
    if n == 0 then []
    else Put(ArchLayout(keys, widths, gap, rotation, radius, n - 1), keys[n - 1],
             ArchAt(widths, gap, rotation, radius, n - 1))
  }

  /** One more round of the arch loop: the next entity is stored with the
      arch from the cursor over its width. */
  lemma ArchLayoutNext(keys: seq<string>, widths: seq<real>, gap: real, rotation: real, radius: real, i: nat)
    requires i < |keys| == |widths|
    ensures ArchLayout(keys, widths, gap, rotation, radius, i + 1)
      == Put(ArchLayout(keys, widths, gap, rotation, radius, i), keys[i],
             ArchGeometry(radius, CursorAt(widths, gap, rotation, i), CursorAt(widths, gap, rotation, i) + widths[i]))
  {
  }

  /** The layout after `n` rounds has an arch for exactly the first `n`
      entities. */
  lemma {:induction false} ArchLayoutKeys(keys: seq<string>, widths: seq<real>, gap: real, rotation: real,
                                          radius: real, n: nat, x: string)
    requires n <= |keys| == |widths|
    ensures x in KeysOf(ArchLayout(keys, widths, gap, rotation, radius, n)) <==> x in keys[..n]
    decreases n
  {
    if n > 0 {
      ArchLayoutKeys(keys, widths, gap, rotation, radius, n - 1, x);
      var front := ArchLayout(keys, widths, gap, rotation, radius, n - 1);
      PutKeys(front, keys[n - 1], ArchAt(widths, gap, rotation, radius, n - 1), x);
      PrefixMember(keys, n, x);
    }
  }

  /** One more element of a prefix. */
  lemma PrefixMember(keys: seq<string>, n: nat, x: string)
    requires 0 < n <= |keys|
    ensures x in keys[..n] <==> x in keys[..n - 1] || x == keys[n - 1]
  {
    assert keys[..n] == keys[..n - 1] + [keys[n - 1]];
  }

  /** In a sequence without repeats, the entry at `i` is not among those
      before it. */
  lemma LaterKeyAbsent(keys: seq<string>, i: nat, before: seq<string>)
    requires i < |keys| && Distinct(keys) && before == keys[..i]
    ensures keys[i] !in before
  {
    forall j | 0 <= j < i
      ensures before[j] != keys[i]
    {
      assert before[j] == keys[j];
    }
  }

  /** With every entity once, the layout lists entity `j` at position `j`
      with arch `j`. */
  lemma {:induction false} ArchLayoutDistinct(keys: seq<string>, widths: seq<real>, gap: real, rotation: real,
                                              radius: real, n: nat)
    requires n <= |keys| == |widths| && Distinct(keys)
    ensures |ArchLayout(keys, widths, gap, rotation, radius, n)| == n
    ensures forall j :: 0 <= j < n ==>
      ArchLayout(keys, widths, gap, rotation, radius, n)[j] == (keys[j], ArchAt(widths, gap, rotation, radius, j))
    decreases n
  {
    if n > 0 {
      ArchLayoutDistinct(keys, widths, gap, rotation, radius, n - 1);
      var front := ArchLayout(keys, widths, gap, rotation, radius, n - 1);
      var entry := (keys[n - 1], ArchAt(widths, gap, rotation, radius, n - 1));
      LaterKeyAbsent(keys, n - 1, KeysOf(front));
      var layout := ArchLayout(keys, widths, gap, rotation, radius, n);
      assert layout == front + [entry];
      forall j | 0 <= j < n
        ensures layout[j] == (keys[j], ArchAt(widths, gap, rotation, radius, j))
      {
        if j < n - 1 {
          assert layout[j] == front[j];
        }
      }
    }
  }
}
