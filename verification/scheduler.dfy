/** How an arch shares its angle among the ribbons attached to it: every
    ribbon gets a slot whose width is proportional to its amount, the slots
    of one direction packed one after the other from a base angle. */
module Scheduler {
  import opened Common

  /** A stretch of angle (degrees) on an arch: `start` to `end`. */
  datatype Span = Span(start: real, end: real)

  /** `[x * angle / total for x in vals]`. */
  function Scale(vals: seq<real>, angle: real, total: real): (r: seq<real>)
    requires total != 0.0
    ensures |r| == |vals|
    ensures forall i :: 0 <= i < |vals| ==> r[i] * total == vals[i] * angle
  {
    seq(|vals|, i requires 0 <= i < |vals| => vals[i] * angle / total)
  }

  /** Every term multiplied by `c`. */
  function Times(vals: seq<real>, c: real): (r: seq<real>)
    ensures |r| == |vals|
  {
    seq(|vals|, i requires 0 <= i < |vals| => vals[i] * c)
  }

  /** Multiplying every term by `c` multiplies the sum by `c`. */
  lemma {:induction false} SumTimes(vals: seq<real>, c: real)
    ensures Sum(Times(vals, c)) == Sum(vals) * c
    decreases |vals|
  {
    if vals != [] {
      var n := |vals|;
      var front := vals[..n - 1];
      var s := Times(vals, c);
      assert forall j :: 0 <= j < n - 1 ==> s[..n - 1][j] == Times(front, c)[j];
      assert s[..n - 1] == Times(front, c);
      SumTimes(front, c);
      Distribute(c, Sum(front), vals[n - 1]);
    }
  }

  /** Scaling every term scales the sum. */
  lemma ScaleSum(vals: seq<real>, angle: real, total: real)
    requires total != 0.0
    ensures Sum(Scale(vals, angle, total)) == Sum(vals) * (angle / total)
  {
    forall i | 0 <= i < |vals|
      ensures Scale(vals, angle, total)[i] == Times(vals, angle / total)[i]
    {
      Regroup(vals[i], angle, total);
    }
    assert Scale(vals, angle, total) == Times(vals, angle / total);
    SumTimes(vals, angle / total);
  }

  lemma Regroup(x: real, angle: real, total: real)
    requires total != 0.0
    ensures x * angle / total == x * (angle / total)
  {
  }

  lemma Distribute(c: real, a: real, b: real)
    ensures a * c + b * c == (a + b) * c
  {
  }

  /** With no negative amount, a positive total and a non-negative angle, no
      slot is negative. */
  lemma ScaleNonNegative(vals: seq<real>, angle: real, total: real)
    requires total > 0.0 && angle >= 0.0
    requires forall i :: 0 <= i < |vals| ==> vals[i] >= 0.0
    ensures forall i :: 0 <= i < |vals| ==> Scale(vals, angle, total)[i] >= 0.0
  {
    forall i | 0 <= i < |vals|
      ensures Scale(vals, angle, total)[i] >= 0.0
    {
      assert Scale(vals, angle, total)[i] == vals[i] * angle / total;
      assert vals[i] * angle >= 0.0;
      QuotientNonNegative(vals[i] * angle, total);
    }
  }

  lemma QuotientNonNegative(a: real, t: real)
    requires a >= 0.0 && t > 0.0
    ensures a / t >= 0.0
  {
  }

  lemma MulQuotient(a: real, t: real)
    requires t != 0.0
    ensures t * (a / t) == a
  {
  }

  /** `Arch.get_order`: the origin amounts followed by the destination
      amounts, each turned into its share of the arch's angle, split back
      into (origins, destinations). An empty arch yields two empty lists;
      a non-empty one whose amounts add up to zero divides by zero. */
  function GetOrder(origins: seq<real>, destinations: seq<real>, angle: real)
    : (r: Result<(seq<real>, seq<real>)>)
    ensures r.Err? <==> origins + destinations != [] && Sum(origins + destinations) == 0.0
    ensures r.Err? ==> r.error == ZeroDivisionError
    ensures r.Ok? ==> |r.value.0| == |origins| && |r.value.1| == |destinations|
  {
    var all := origins + destinations;
    if all == [] then Ok(([], []))
    else if Sum(all) == 0.0 then Err(ZeroDivisionError)
    else
      var scaled := Scale(all, angle, Sum(all));
      Ok((scaled[..|origins|], scaled[|origins|..]))
  }

  /** Each origin's share stands to the arch's angle as its amount stands
      to the total of all amounts. */
  lemma OriginShares(origins: seq<real>, destinations: seq<real>, angle: real)
    requires GetOrder(origins, destinations, angle).Ok?
    ensures forall i {:trigger GetOrder(origins, destinations, angle).value.0[i]} :: 0 <= i < |origins| ==>
      GetOrder(origins, destinations, angle).value.0[i] * Sum(origins + destinations) == origins[i] * angle
  {
    forall i | 0 <= i < |origins|
      ensures GetOrder(origins, destinations, angle).value.0[i] * Sum(origins + destinations) == origins[i] * angle
    {
      OriginShare(origins, destinations, angle, i);
    }
  }

  /** The same for each destination's share. */
  lemma DestinationShares(origins: seq<real>, destinations: seq<real>, angle: real)
    requires GetOrder(origins, destinations, angle).Ok?
    ensures forall i {:trigger GetOrder(origins, destinations, angle).value.1[i]} :: 0 <= i < |destinations| ==>
      GetOrder(origins, destinations, angle).value.1[i] * Sum(origins + destinations) == destinations[i] * angle
  {
    forall i | 0 <= i < |destinations|
      ensures GetOrder(origins, destinations, angle).value.1[i] * Sum(origins + destinations) == destinations[i] * angle
    {
      DestinationShare(origins, destinations, angle, i);
    }
  }

  lemma OriginShare(origins: seq<real>, destinations: seq<real>, angle: real, i: nat)
    requires GetOrder(origins, destinations, angle).Ok? && i < |origins|
    ensures GetOrder(origins, destinations, angle).value.0[i] * Sum(origins + destinations) == origins[i] * angle
  {
    var all := origins + destinations;
    var scaled := Scale(all, angle, Sum(all));
    assert GetOrder(origins, destinations, angle).value.0 == scaled[..|origins|];
    assert scaled[..|origins|][i] == scaled[i] && all[i] == origins[i];
  }

  lemma DestinationShare(origins: seq<real>, destinations: seq<real>, angle: real, i: nat)
    requires GetOrder(origins, destinations, angle).Ok? && i < |destinations|
    ensures GetOrder(origins, destinations, angle).value.1[i] * Sum(origins + destinations) == destinations[i] * angle
  {
    var all := origins + destinations;
    var n := |origins|;
    var scaled := Scale(all, angle, Sum(all));
    assert GetOrder(origins, destinations, angle).value.1 == scaled[n..];
    assert scaled[n..][i] == scaled[n + i] && all[n + i] == destinations[i];
  }

  /** Shares of a non-zero total add up to the whole angle. */
  lemma ScaleFills(vals: seq<real>, angle: real)
    requires Sum(vals) != 0.0
    ensures Sum(Scale(vals, angle, Sum(vals))) == angle
  {
    ScaleSum(vals, angle, Sum(vals));
    MulQuotient(angle, Sum(vals));
  }

  /** The shares of a non-empty arch add up to its whole angle. */
  lemma OrderFillsAngle(origins: seq<real>, destinations: seq<real>, angle: real)
    requires GetOrder(origins, destinations, angle).Ok?
    requires origins + destinations != []
    ensures var (vo, vd) := GetOrder(origins, destinations, angle).value;
      Sum(vo) + Sum(vd) == angle
  {
    var all := origins + destinations;
    var total := Sum(all);
    var scaled := Scale(all, angle, total);
    var vo, vd := scaled[..|origins|], scaled[|origins|..];
    assert GetOrder(origins, destinations, angle).value == (vo, vd);
    assert scaled == vo + vd;
    SumAppend(vo, vd);
    ScaleFills(all, angle);
  }

  /** When no amount is negative and the total is positive, no share is
      negative either (for a non-negative angle). */
  lemma OrderNonNegative(origins: seq<real>, destinations: seq<real>, angle: real)
    requires GetOrder(origins, destinations, angle).Ok?
    requires angle >= 0.0
    requires forall i :: 0 <= i < |origins| ==> origins[i] >= 0.0
    requires forall i :: 0 <= i < |destinations| ==> destinations[i] >= 0.0
    ensures var (vo, vd) := GetOrder(origins, destinations, angle).value;
      (forall i :: 0 <= i < |vo| ==> vo[i] >= 0.0) &&
      (forall i :: 0 <= i < |vd| ==> vd[i] >= 0.0)
  {
    var all := origins + destinations;
    if all != [] {
      assert forall i :: 0 <= i < |all| ==> all[i] >= 0.0;
      SumNonNegative(all);
      ScaleNonNegative(all, angle, Sum(all));
    }
  }

  // ------------------------------------------------------------- slots

  /** The `k`-th slot when `widths` are packed one after the other from `base`. */
  function SlotAt(widths: seq<real>, base: real, k: nat): (s: Span)
    requires k < |widths|
    ensures s.end - s.start == widths[k]
  {
    var start := base + Sum(widths[..k]);
    Span(start, start + widths[k])
  }

  /** The slot of `node` among `keys` (the ribbons in insertion order, paired
      position by position with `widths`), or AttributeError when `node` is
      not one of them. */
  function SlotOf<K(==)>(keys: seq<K>, widths: seq<real>, base: real, node: K): (r: Result<Span>)
    requires |keys| == |widths|
    ensures r.Err? <==> node !in keys
    ensures r.Err? ==> r.error == AttributeError
    ensures r.Ok? ==> exists k :: 0 <= k < |keys| && keys[k] == node && r.value == SlotAt(widths, base, k)
  {
    match IndexOf(keys, node)
    case None => Err(AttributeError)
    case Some(k) => Ok(SlotAt(widths, base, k))
  }

  /** The loop of `Arch.get_angle`: walk the ribbons in order, moving the
      cursor past every slot until `node` is met. */
  method Walk<K(==)>(keys: seq<K>, widths: seq<real>, base: real, node: K) returns (r: Result<Span>)
    requires |keys| == |widths|
    ensures r == SlotOf(keys, widths, base, node)
  {
    var current := base;
    var val := widths;
    var i := 0;
    while i < |keys|
      invariant 0 <= i <= |keys|
      invariant val == widths[i..]
      invariant current == base + Sum(widths[..i])
      invariant node !in keys[..i]
    {
      if keys[i] == node {
        IndexOfFirst(keys, node, i);
        return Ok(Span(current, current + val[0]));
      }
      SumStep(widths, i);
      current := current + val[0];
      val := val[1..];
      assert keys[..i + 1] == keys[..i] + [keys[i]];
      i := i + 1;
    }
    assert keys[..i] == keys;
    return Err(AttributeError);
  }

  /** Consecutive slots touch: each one ends where the next one starts. */
  lemma SlotsContiguous(widths: seq<real>, base: real, k: nat)
    requires k + 1 < |widths|
    ensures SlotAt(widths, base, k).end == SlotAt(widths, base, k + 1).start
  {
    SumStep(widths, k);
  }

  /** With non-negative widths, an earlier slot ends no later than a later
      slot starts: the slots never overlap. */
  lemma SlotsOrdered(widths: seq<real>, base: real, i: nat, j: nat)
    requires i < j < |widths|
    requires forall k :: 0 <= k < |widths| ==> widths[k] >= 0.0
    ensures SlotAt(widths, base, i).end <= SlotAt(widths, base, j).start
  {
    SumStep(widths, i);
    SumPrefixMonotone(widths, i + 1, j);
  }

  /** With non-negative widths, every slot lies inside the block that starts
      at `base` and is `Sum(widths)` wide. */
  lemma SlotWithinBlock(widths: seq<real>, base: real, k: nat)
    requires k < |widths|
    requires forall i :: 0 <= i < |widths| ==> widths[i] >= 0.0
    ensures base <= SlotAt(widths, base, k).start
    ensures SlotAt(widths, base, k).end <= base + Sum(widths)
  {
    SumPrefixMonotone(widths, 0, k);
    assert widths[..0] == [];
    SumStep(widths, k);
    SumPrefixMonotone(widths, k + 1, |widths|);
    assert widths[..|widths|] == widths;
  }

  /** The first slot starts at the base and the last one ends one block
      width further on. */
  lemma BlockEnds(widths: seq<real>, base: real)
    requires widths != []
    ensures SlotAt(widths, base, 0).start == base
    ensures SlotAt(widths, base, |widths| - 1).end == base + Sum(widths)
  {
    assert widths[..0] == [];
    SumStep(widths, |widths| - 1);
    assert widths[..|widths|] == widths;
  }

  // ------------------------------------------------- one arch, two blocks

  /** The slot of `node` on an arch whose `leading` ribbons are packed from
      `start` with widths `wl` and whose `trailing` ribbons follow the whole
      leading block with widths `wt`; `inTrailing` says which block to search. */
  function BlockSlot<K(==)>(leading: seq<(K, real)>, trailing: seq<(K, real)>,
                            wl: seq<real>, wt: seq<real>, start: real, node: K, inTrailing: bool)
    : (r: Result<Span>)
    requires |wl| == |leading| && |wt| == |trailing|
    ensures r.Err? <==> node !in KeysOf(if inTrailing then trailing else leading)
    ensures r.Err? ==> r.error == AttributeError
  {
    if inTrailing then SlotOf(KeysOf(trailing), wt, start + Sum(wl), node)
    else SlotOf(KeysOf(leading), wl, start, node)
  }

  /** With non-negative widths, a leading slot lies inside the leading block
      and a trailing slot inside the trailing block, so the slot a ribbon
      gets in one block never overlaps the one it gets in the other. */
  lemma BlockSlotWithin<K>(leading: seq<(K, real)>, trailing: seq<(K, real)>,
                           wl: seq<real>, wt: seq<real>, start: real, node: K, inTrailing: bool)
    requires |wl| == |leading| && |wt| == |trailing|
    requires forall i :: 0 <= i < |wl| ==> wl[i] >= 0.0
    requires forall i :: 0 <= i < |wt| ==> wt[i] >= 0.0
    requires BlockSlot(leading, trailing, wl, wt, start, node, inTrailing).Ok?
    ensures var s := BlockSlot(leading, trailing, wl, wt, start, node, inTrailing).value;
      if inTrailing then start + Sum(wl) <= s.start && s.end <= start + Sum(wl) + Sum(wt)
      else start <= s.start && s.end <= start + Sum(wl)
  {
    var ks := KeysOf(if inTrailing then trailing else leading);
    var k := IndexOf(ks, node).value;
    if inTrailing {
      SlotWithinBlock(wt, start + Sum(wl), k);
    } else {
      SlotWithinBlock(wl, start, k);
    }
  }

  /** With non-negative widths, every leading slot ends before any
      trailing slot starts. */
  lemma BlocksInOrder<K>(leading: seq<(K, real)>, trailing: seq<(K, real)>,
                         wl: seq<real>, wt: seq<real>, start: real, lead: K, trail: K)
    requires |wl| == |leading| && |wt| == |trailing|
    requires forall i :: 0 <= i < |wl| ==> wl[i] >= 0.0
    requires forall i :: 0 <= i < |wt| ==> wt[i] >= 0.0
    requires BlockSlot(leading, trailing, wl, wt, start, lead, false).Ok?
    requires BlockSlot(leading, trailing, wl, wt, start, trail, true).Ok?
    ensures BlockSlot(leading, trailing, wl, wt, start, lead, false).value.end
      <= BlockSlot(leading, trailing, wl, wt, start, trail, true).value.start
  {
    BlockSlotWithin(leading, trailing, wl, wt, start, lead, false);
    BlockSlotWithin(leading, trailing, wl, wt, start, trail, true);
  }

  /** The first leading ribbon's slot starts at `start`. */
  lemma FirstLeadingSlot<K>(leading: seq<(K, real)>, trailing: seq<(K, real)>,
                            wl: seq<real>, wt: seq<real>, start: real)
    requires |wl| == |leading| && |wt| == |trailing|
    requires leading != []
    ensures BlockSlot(leading, trailing, wl, wt, start, leading[0].0, false) == Ok(Span(start, start + wl[0]))
  {
    IndexOfFirst(KeysOf(leading), leading[0].0, 0);
    BlockEnds(wl, start);
  }

  /** The last trailing ribbon's slot ends where both blocks together end. */
  lemma LastTrailingSlot<K>(leading: seq<(K, real)>, trailing: seq<(K, real)>,
                            wl: seq<real>, wt: seq<real>, start: real)
    requires |wl| == |leading| && |wt| == |trailing|
    requires DistinctKeys(trailing) && trailing != []
    ensures BlockSlot(leading, trailing, wl, wt, start, trailing[|trailing| - 1].0, true).Ok?
    ensures BlockSlot(leading, trailing, wl, wt, start, trailing[|trailing| - 1].0, true).value.end
      == start + Sum(wl) + Sum(wt)
  {
    var n := |trailing|;
    KeyNotEarlier(trailing, n - 1);
    IndexOfFirst(KeysOf(trailing), trailing[n - 1].0, n - 1);
    BlockEnds(wt, start + Sum(wl));
  }

  // ---------------------------------------------------- one arch, end to end

  /** The slot of `node` on an arch with registries `first` and `second`:
      the widths are the arch's `angle` shared in proportion to the amounts
      of `first` followed by those of `second` (`GetOrder` in that order);
      the leading block is `first` when `leadingIsFirst`, `second` otherwise,
      and `inTrailing` says whether to look in the trailing block. */
  function ArchSlot<K(==)>(first: seq<(K, real)>, second: seq<(K, real)>, leadingIsFirst: bool,
                           angle: real, start: real, node: K, inTrailing: bool): (r: Result<Span>)
    ensures GetOrder(ValuesOf(first), ValuesOf(second), angle).Err? ==> r == Err(ZeroDivisionError)
    ensures GetOrder(ValuesOf(first), ValuesOf(second), angle).Ok? ==>
      (r == Err(AttributeError) <==> node !in KeysOf(if inTrailing == leadingIsFirst then second else first))
  {
    match GetOrder(ValuesOf(first), ValuesOf(second), angle)
    case Err(e) => Err(e)
    case Ok((w1, w2)) =>
      if leadingIsFirst then BlockSlot(first, second, w1, w2, start, node, inTrailing)
      else BlockSlot(second, first, w2, w1, start, node, inTrailing)
  }

  /** `get_angle`: the widths first, then a cursor that starts at `start`,
      or after the whole leading block for a trailing ribbon, and walks one
      registry. */
  method FindSlot<K(==)>(first: seq<(K, real)>, second: seq<(K, real)>, leadingIsFirst: bool,
                         angle: real, start: real, node: K, inTrailing: bool) returns (r: Result<Span>)
    ensures r == ArchSlot(first, second, leadingIsFirst, angle, start, node, inTrailing)
  {
    var order := GetOrder(ValuesOf(first), ValuesOf(second), angle);
    if order.Err? {
      return Err(order.error);
    }
    var (w1, w2) := order.value;
    if leadingIsFirst {
      r := WalkBlocks(first, second, w1, w2, start, node, inTrailing);
    } else {
      r := WalkBlocks(second, first, w2, w1, start, node, inTrailing);
    }
  }

  /** The cursor walk of `get_angle` once the widths are known: from
      `start`, or after the whole leading block for a trailing ribbon. */
  method WalkBlocks<K(==)>(leading: seq<(K, real)>, trailing: seq<(K, real)>,
                           wl: seq<real>, wt: seq<real>, start: real, node: K, inTrailing: bool)
    returns (r: Result<Span>)
    requires |wl| == |leading| && |wt| == |trailing|
    ensures r == BlockSlot(leading, trailing, wl, wt, start, node, inTrailing)
  {
    var current := start;
    if inTrailing {
      SumAppend(wl, [0.0]);
      assert [0.0][..0] == [];
      current := current + Sum(wl + [0.0]);
      r := Walk(KeysOf(trailing), wt, current, node);
    } else {
      r := Walk(KeysOf(leading), wl, current, node);
    }
  }

  /** Once the widths are known, `ArchSlot` is the slot in the blocks. */
  lemma ArchSlotBlocks<K>(first: seq<(K, real)>, second: seq<(K, real)>, leadingIsFirst: bool,
                          angle: real, start: real, node: K, inTrailing: bool)
    requires GetOrder(ValuesOf(first), ValuesOf(second), angle).Ok?
    ensures var (w1, w2) := GetOrder(ValuesOf(first), ValuesOf(second), angle).value;
      ArchSlot(first, second, leadingIsFirst, angle, start, node, inTrailing) ==
        if leadingIsFirst then BlockSlot(first, second, w1, w2, start, node, inTrailing)
        else BlockSlot(second, first, w2, w1, start, node, inTrailing)
  {
  }

  /** With no negative amount and a non-negative angle, a slot lies on the
      arch, between `start` and `start + angle`. */
  lemma ArchSlotWithin<K>(first: seq<(K, real)>, second: seq<(K, real)>, leadingIsFirst: bool,
                          angle: real, start: real, node: K, inTrailing: bool)
    requires forall i :: 0 <= i < |first| ==> first[i].1 >= 0.0
    requires forall i :: 0 <= i < |second| ==> second[i].1 >= 0.0
    requires angle >= 0.0
    requires ArchSlot(first, second, leadingIsFirst, angle, start, node, inTrailing).Ok?
    ensures var s := ArchSlot(first, second, leadingIsFirst, angle, start, node, inTrailing).value;
      start <= s.start && s.end <= start + angle
  {
    var v1, v2 := ValuesOf(first), ValuesOf(second);
    var (w1, w2) := GetOrder(v1, v2, angle).value;
    assert first + second != [];
    assert v1 + v2 != [];
    OrderFillsAngle(v1, v2, angle);
    OrderNonNegative(v1, v2, angle);
    SumNonNegative(w1);
    SumNonNegative(w2);
    if leadingIsFirst {
      BlockSlotWithin(first, second, w1, w2, start, node, inTrailing);
    } else {
      BlockSlotWithin(second, first, w2, w1, start, node, inTrailing);
    }
  }

  /** Every leading slot ends before any trailing slot starts: in
      particular a ribbon that both leaves and enters one arch gets two
      slots there that do not overlap. */
  lemma LeadingBeforeTrailing<K>(first: seq<(K, real)>, second: seq<(K, real)>, leadingIsFirst: bool,
                                 angle: real, start: real, lead: K, trail: K)
    requires forall i :: 0 <= i < |first| ==> first[i].1 >= 0.0
    requires forall i :: 0 <= i < |second| ==> second[i].1 >= 0.0
    requires angle >= 0.0
    requires ArchSlot(first, second, leadingIsFirst, angle, start, lead, false).Ok?
    requires ArchSlot(first, second, leadingIsFirst, angle, start, trail, true).Ok?
    ensures ArchSlot(first, second, leadingIsFirst, angle, start, lead, false).value.end
      <= ArchSlot(first, second, leadingIsFirst, angle, start, trail, true).value.start
  {
    var v1, v2 := ValuesOf(first), ValuesOf(second);
    var order := GetOrder(v1, v2, angle);
    assert order.Ok?;
    var w1, w2 := order.value.0, order.value.1;
    assert forall i :: 0 <= i < |v1| ==> v1[i] >= 0.0;
    assert forall i :: 0 <= i < |v2| ==> v2[i] >= 0.0;
    OrderNonNegative(v1, v2, angle);
    ArchSlotBlocks(first, second, leadingIsFirst, angle, start, lead, false);
    ArchSlotBlocks(first, second, leadingIsFirst, angle, start, trail, true);
    if leadingIsFirst {
      BlocksInOrder(first, second, w1, w2, start, lead, trail);
    } else {
      BlocksInOrder(second, first, w2, w1, start, lead, trail);
    }
  }

  /** The first leading ribbon's slot starts where the arch starts. */
  lemma FirstSlotAtStart<K>(first: seq<(K, real)>, second: seq<(K, real)>, leadingIsFirst: bool,
                            angle: real, start: real)
    requires GetOrder(ValuesOf(first), ValuesOf(second), angle).Ok?
    requires (if leadingIsFirst then first else second) != []
    ensures var lead := (if leadingIsFirst then first else second)[0].0;
      ArchSlot(first, second, leadingIsFirst, angle, start, lead, false).Ok? &&
      ArchSlot(first, second, leadingIsFirst, angle, start, lead, false).value.start == start
  {
    var (w1, w2) := GetOrder(ValuesOf(first), ValuesOf(second), angle).value;
    if leadingIsFirst {
      FirstLeadingSlot(first, second, w1, w2, start);
    } else {
      FirstLeadingSlot(second, first, w2, w1, start);
    }
  }

  /** The last trailing ribbon's slot ends where the arch ends: together
      the slots fill the arch. */
  lemma LastSlotAtEnd<K>(first: seq<(K, real)>, second: seq<(K, real)>, leadingIsFirst: bool,
                         angle: real, start: real)
    requires GetOrder(ValuesOf(first), ValuesOf(second), angle).Ok?
    requires DistinctKeys(first) && DistinctKeys(second)
    requires (if leadingIsFirst then second else first) != []
    ensures var trail := (if leadingIsFirst then second else first);
      var last := trail[|trail| - 1].0;
      ArchSlot(first, second, leadingIsFirst, angle, start, last, true).Ok? &&
      ArchSlot(first, second, leadingIsFirst, angle, start, last, true).value.end == start + angle
  {
    var v1, v2 := ValuesOf(first), ValuesOf(second);
    var (w1, w2) := GetOrder(v1, v2, angle).value;
    assert v1 + v2 != [];
    OrderFillsAngle(v1, v2, angle);
    if leadingIsFirst {
      LastTrailingSlot(first, second, w1, w2, start);
    } else {
      LastTrailingSlot(second, first, w2, w1, start);
    }
  }
}
