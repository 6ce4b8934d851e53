/** The objects of the first chord diagram: arches whose cursor moves on as
    flows take slots of them, the ribbons those flows draw, and the diagram
    that fills its totals, angles, arches and flows lazily, once each. */
module ChordObjects {
  import opened Common
  import opened Layout
  import opened Paths
  import Elements
  import Scheduler
  import opened Chord

  /** A `Wedge(center, r, theta1, theta2, width, **kwargs)` patch. */
  datatype WedgePatch = WedgePatch(arc: WedgeArc, options: Options)

  // --------------------------------------------------------------- arch

  /** An arch of the circle, from `start` to `end` degrees. `current` is
      the share of it the flows drawn so far have used, gaps included. */
  class Arch {
    const start: real
    const end: real
    const kwargs: Options
    const ribbonGap: real
    var radiusSetting: Option<real>
    var widthSetting: Option<real>
    var current: real
    var wedge: Option<WedgePatch>

    constructor(start: real, end: real, kwargs: Options)
      ensures this.start == start && this.end == end && this.kwargs == kwargs
      ensures ribbonGap == RibbonGap && current == 0.0
      ensures radiusSetting == None && widthSetting == None && wedge == None
    {
      this.start := start;
      this.end := end;
      this.kwargs := kwargs;
      ribbonGap := RibbonGap;
      radiusSetting := None;
      widthSetting := None;
      current := 0.0;
      wedge := None;
    }

    /** `radius`: 2 unless set. */
    function Radius(): (r: real)
      reads this
      ensures radiusSetting.None? ==> r == DefaultRadius
      ensures radiusSetting.Some? ==> r == radiusSetting.value
    {
      ValueOr(radiusSetting, DefaultRadius)
    }

    /** `width`: 0.3 unless set. */
    function Width(): (w: real)
      reads this
      ensures widthSetting.None? ==> w == DefaultWidth
      ensures widthSetting.Some? ==> w == widthSetting.value
    {
      ValueOr(widthSetting, DefaultWidth)
    }

    /** `available_angle`: the degrees from the start of the arch to its end. */
    function AvailableAngle(): (a: real)
      ensures start + a == end
    {
      end - start
    }

    /** `angle(fraction)`: the degrees `fraction` of the arch spans, so that
        the point that far along divides the arch in that proportion. */
    function Angle(fraction: real): (a: real)
      ensures start + a == (1.0 - fraction) * start + fraction * end
    {
      AvailableAngle() * fraction
    }

    /** `wedge`: the drawn wedge, an AttributeError before `draw`. */
    function WedgeOf(): (r: Result<WedgePatch>)
      reads this
      ensures r.Err? <==> wedge.None?
      ensures r.Err? ==> r.error == AttributeError
      ensures r.Ok? ==> wedge == Some(r.value)
    {
      match wedge
      case None => Err(AttributeError)
      case Some(w) => Ok(w)
    }

    /** `update(used)`: a flow took `used` of the arch; the next one starts
        a ribbon gap further on. */
    method Update(used: real)
      modifies this`current
      ensures current == old(current) + used + ribbonGap
    {
      current := current + used + ribbonGap;
    }

    /** `draw`: the wedge of the whole arch, as wide as the arch's band. */
    method Draw()
      modifies this`wedge
      ensures wedge == Some(WedgePatch(WedgeArc(Origin, Radius(), start, end, Some(Width())), kwargs))
      ensures WedgeOf().Ok?
    {
      wedge := Some(WedgePatch(WedgeArc(Origin, Radius(), start, end, Some(Width())), kwargs));
    }
  }

  // ------------------------------------------------------------- ribbon

  /** A ribbon from the slot `start1`..`start2` of one arch to the slot
      `end1`..`end2` of another; `gapStart` and `gapEnd` are the bands of
      those arches, which the ribbon stays inside of. */
  class Ribbon {
    const start1: real
    const start2: real
    const end1: real
    const end2: real
    const gapStart: real
    const gapEnd: real
    const kwargs: Options
    var radiusSetting: Option<real>
    var bandSetting: Option<real>
    var path: Option<Elements.PathPatch>

    constructor(start1: real, start2: real, end1: real, end2: real, gapStart: real, gapEnd: real, kwargs: Options)
      ensures this.start1 == start1 && this.start2 == start2 && this.end1 == end1 && this.end2 == end2
      ensures this.gapStart == gapStart && this.gapEnd == gapEnd && this.kwargs == kwargs
      ensures radiusSetting == None && bandSetting == None && path == None
    {
      this.start1 := start1;
      this.start2 := start2;
      this.end1 := end1;
      this.end2 := end2;
      this.gapStart := gapStart;
      this.gapEnd := gapEnd;
      this.kwargs := kwargs;
      radiusSetting := None;
      bandSetting := None;
      path := None;
    }

    /** `radius`: 2 unless set. */
    function Radius(): (r: real)
      reads this
      ensures radiusSetting.None? ==> r == DefaultRadius
      ensures radiusSetting.Some? ==> r == radiusSetting.value
    {
      ValueOr(radiusSetting, DefaultRadius)
    }

    /** `gap`: the width of the band the ribbon's ends are sampled in, 0.2
        unless set. */
    function Band(): (b: real)
      reads this
      ensures bandSetting.None? ==> b == DefaultRibbonBand
      ensures bandSetting.Some? ==> b == bandSetting.value
    {
      ValueOr(bandSetting, DefaultRibbonBand)
    }

    /** The wedge `get_points(start, end, gap)` samples: from `start` to
        `end` degrees, its outer edge `gap` plus the band inside the ribbon's
        radius, as wide as the band. */
    function PointsArc(start: real, end: real, gap: real): (w: WedgeArc)
      reads this
      ensures w.center == Origin && w.theta1 == start && w.theta2 == end
      ensures w.radius + gap + Band() == Radius() && w.width == Some(Band())
    {
      WedgeArc(Origin, EffectiveRadius(Radius(), gap, Band()), start, end, Some(Band()))
    }

    /** `path`: the drawn outline, an AttributeError before `draw`. */
    function PathOf(): (r: Result<Elements.PathPatch>)
      reads this
      ensures r.Err? <==> path.None?
      ensures r.Err? ==> r.error == AttributeError
      ensures r.Ok? ==> path == Some(r.value)
    {
      match path
      case None => Err(AttributeError)
      case Some(p) => Ok(p)
    }

    /** `draw`: the start slot's points, the bend point (0, 0) twice, the
        end slot's points, the bend point twice and the first point again,
        with MOVETO for the first vertex and CURVE4 for the others. When the
        start slot yields no point there is no first vertex (IndexError) and
        nothing is drawn. */
    method Draw(sampler: WedgeArc -> seq<Point>) returns (r: Result<()>)
      modifies this`path
      ensures var s := sampler(PointsArc(start1, start2, gapStart));
        s == [] ==> r == Err(IndexError) && path == old(path)
      ensures var s, e := sampler(PointsArc(start1, start2, gapStart)), sampler(PointsArc(end1, end2, gapEnd));
        s != [] ==> r == Ok(()) && path == Some(Elements.PathPatch(ClosedRibbon(s, e, Origin), kwargs))
    {
      var startLoc := sampler(PointsArc(start1, start2, gapStart));
      var endLoc := sampler(PointsArc(end1, end2, gapEnd));
      var pt := BuildPath(startLoc, endLoc, Origin);
      if pt.Err? {
        return Err(pt.error);
      }
      path := Some(Elements.PathPatch(pt.value, kwargs));
      return Ok(());
    }
  }

  // --------------------------------------------------------------- flow

  /** A flow between two arches, taking `startFraction` of the first and
      `endFraction` of the second when it is drawn. */
  class Flow {
    const a1: Arch
    const a2: Arch
    const radius: Option<real>
    const startFraction: real
    const endFraction: real
    const kwargs: Options

    constructor(a1: Arch, a2: Arch, startFraction: real, endFraction: real, radius: Option<real>, kwargs: Options)
      ensures this.a1 == a1 && this.a2 == a2 && this.radius == radius
      ensures this.startFraction == startFraction && this.endFraction == endFraction && this.kwargs == kwargs
    {
      this.a1 := a1;
      this.a2 := a2;
      this.radius := radius;
      this.startFraction := startFraction;
      this.endFraction := endFraction;
      this.kwargs := kwargs;
    }

    /** `get_angles(a, used)`: the next slot of `a`, `used` of it wide,
        starting where the arch's cursor stands; the cursor then moves past
        the slot and one ribbon gap. */
    static method GetAngles(a: Arch, used: real) returns (s1: real, s2: real)
      modifies a`current
      ensures Scheduler.Span(s1, s2) == Slot(a.start, a.AvailableAngle(), old(a.current), used)
      ensures a.current == old(a.current) + used + a.ribbonGap
    {
      s1 := a.start + a.AvailableAngle() * a.current;
      s2 := s1 + a.Angle(used);
      a.Update(used);
    }

    /** `draw`: the slot on the first arch, then the slot on the second (on
        the same arch, the second slot follows the first), and a ribbon
        between them, its radius that of the flow and its ends inside the
        bands of the two arches. */
    method Draw(sampler: WedgeArc -> seq<Point>) returns (rb: Ribbon, r: Result<()>)
      modifies a1`current, a2`current
      ensures fresh(rb)
      ensures Scheduler.Span(rb.start1, rb.start2) == Slot(a1.start, a1.AvailableAngle(), old(a1.current), startFraction)
      ensures var used2 := if a1 == a2 then old(a1.current) + startFraction + a1.ribbonGap else old(a2.current);
        Scheduler.Span(rb.end1, rb.end2) == Slot(a2.start, a2.AvailableAngle(), used2, endFraction) &&
        a2.current == used2 + endFraction + a2.ribbonGap
      ensures a1 != a2 ==> a1.current == old(a1.current) + startFraction + a1.ribbonGap
      ensures rb.gapStart == a1.Width() && rb.gapEnd == a2.Width() && rb.kwargs == kwargs
      ensures rb.radiusSetting == radius && rb.bandSetting == None
      ensures var s := sampler(rb.PointsArc(rb.start1, rb.start2, rb.gapStart));
        s == [] ==> r == Err(IndexError) && rb.path == None
      ensures var s, e := sampler(rb.PointsArc(rb.start1, rb.start2, rb.gapStart)), sampler(rb.PointsArc(rb.end1, rb.end2, rb.gapEnd));
        s != [] ==> r == Ok(()) && rb.path == Some(Elements.PathPatch(ClosedRibbon(s, e, Origin), kwargs))
    {
      var s1, s2 := GetAngles(a1, startFraction);
      var e1, e2 := GetAngles(a2, endFraction);
      rb := new Ribbon(s1, s2, e1, e2, a1.Width(), a2.Width(), kwargs);
      rb.radiusSetting := radius;
      r := rb.Draw(sampler);
    }
  }

  // ------------------------------------------------------------ diagram

  /** `d[k]` read as a lookup agrees with `Get`. */
  lemma LookupGet<K, V>(d: seq<(K, V)>, k: K)
    ensures Lookup(d, k).Ok? <==> Get(d, k).Some?
    ensures Lookup(d, k).Ok? ==> Lookup(d, k).value == Get(d, k).value
  {
  }

  /** In a dictionary without repeated keys, the key of an entry finds
      that entry. */
  lemma LookupAt<K, V>(d: seq<(K, V)>, i: nat)
    requires DistinctKeys(d) && i < |d|
    ensures Lookup(d, d[i].0) == Ok(d[i].1)
  {
    GetEntry(d, d[i]);
    LookupGet(d, d[i].0);
  }

  /** A dictionary with the keys of `amount`, in the same order, finds at
      the key of the `i`-th entity its own `i`-th entry. */
  lemma SameKeysLookup<V>(d: seq<(string, V)>, amount: seq<(string, real)>, i: nat)
    requires DistinctKeys(amount) && KeysOf(d) == KeysOf(amount) && i < |amount|
    ensures Lookup(d, amount[i].0) == Ok(d[i].1)
  {
    assert forall j :: 0 <= j < |d| ==> d[j].0 == KeysOf(d)[j] == KeysOf(amount)[j] == amount[j].0;
    LookupAt(d, i);
  }

  /** The first `n` arches as `arch` builds them: one per amount, in its
      order, each from the start to the end laid out for its key. */
  ghost predicate ArchesPlaced(arches: seq<(string, Arch)>, amount: seq<(string, real)>,
                               starts: seq<(string, real)>, ends: seq<(string, real)>, n: nat)
  {
    n <= |amount| == |starts| == |ends| && |arches| == n &&
    forall i :: 0 <= i < n ==>
      arches[i].0 == amount[i].0 && arches[i].1.start == starts[i].1 && arches[i].1.end == ends[i].1 &&
      arches[i].1.ribbonGap == RibbonGap
  }

  /** One more arch placed. */
  lemma ArchPlaced(arches: seq<(string, Arch)>, amount: seq<(string, real)>,
                   starts: seq<(string, real)>, ends: seq<(string, real)>, i: nat, a: Arch)
    requires ArchesPlaced(arches, amount, starts, ends, i) && i < |amount|
    requires a.start == starts[i].1 && a.end == ends[i].1 && a.ribbonGap == RibbonGap
    ensures ArchesPlaced(arches + [(amount[i].0, a)], amount, starts, ends, i + 1)
  {
  }

  /** The flow `ribbons` stores for the `i`-th record: under the record and
      its position, between the arches of the record's two ends, taking of
      each the corrected share of its amount. */
  ghost predicate FlowPlaced(data: seq<FlowRecord>, arches: seq<(string, Arch)>, radius: Option<real>, i: nat,
                            entry: (RibbonKey, Flow))
    requires i < |data|
  {
    var d := data[i];
    entry.0 == RibbonKey(d, i) && entry.1.radius == radius &&
    Get(arches, d.source) == Some(entry.1.a1) && Get(arches, d.destination) == Some(entry.1.a2) &&
    Fraction(d.amount, TotalAmount(data, d.source), GapShare(Occurrences(data, d.source), RibbonGap)) == Ok(entry.1.startFraction) &&
    Fraction(d.amount, TotalAmount(data, d.destination), GapShare(Occurrences(data, d.destination), RibbonGap)) == Ok(entry.1.endFraction)
  }

  ghost predicate FlowsPlaced(data: seq<FlowRecord>, arches: seq<(string, Arch)>, radius: Option<real>,
                              flows: seq<(RibbonKey, Flow)>)
  {
    |flows| <= |data| && forall i :: 0 <= i < |flows| ==> FlowPlaced(data, arches, radius, i, flows[i])
  }

  /** What the loop of `ribbons` looks up for the `i`-th record: both ends
      have an arch, with the ribbon gap of every arch, a total and a count. */
  lemma FlowEnds(data: seq<FlowRecord>, arches: seq<(string, Arch)>, starts: seq<(string, real)>,
                 ends: seq<(string, real)>, i: nat)
    requires ArchesPlaced(arches, Amounts(data), starts, ends, |Amounts(data)|) && i < |data|
    ensures forall k :: k in {data[i].source, data[i].destination} ==>
      Lookup(arches, k).Ok? && Get(arches, k) == Some(Lookup(arches, k).value) &&
      Lookup(arches, k).value.ribbonGap == RibbonGap &&
      Lookup(Amounts(data), k) == Ok(TotalAmount(data, k)) &&
      Lookup(Counts(data), k) == Ok(Occurrences(data, k))
  {
    var amount := Amounts(data);
    AmountsKeys(data, i);
    forall k | k in {data[i].source, data[i].destination}
      ensures Lookup(arches, k).Ok? && Get(arches, k) == Some(Lookup(arches, k).value)
      ensures Lookup(arches, k).value.ribbonGap == RibbonGap
      ensures Lookup(amount, k) == Ok(TotalAmount(data, k)) && Lookup(Counts(data), k) == Ok(Occurrences(data, k))
    {
      MentionsEnds(data, i);
      AmountsAgree(data, k);
      LookupGet(arches, k);
      LookupGet(amount, k);
      LookupGet(Counts(data), k);
    }
  }

  /** One more flow placed. */
  lemma FlowPlacedAt(data: seq<FlowRecord>, arches: seq<(string, Arch)>, radius: Option<real>,
                     flows: seq<(RibbonKey, Flow)>, flow: Flow)
    requires FlowsPlaced(data, arches, radius, flows) && |flows| < |data|
    requires FlowPlaced(data, arches, radius, |flows|, (RibbonKey(data[|flows|], |flows|), flow))
    ensures FlowsPlaced(data, arches, radius, flows + [(RibbonKey(data[|flows|], |flows|), flow)])
  {
  }

  /** Once every flow is placed, no end has a zero total: each fraction
      divided by it. */
  lemma PlacedNoZeroEnd(data: seq<FlowRecord>, arches: seq<(string, Arch)>, radius: Option<real>,
                        flows: seq<(RibbonKey, Flow)>)
    requires FlowsPlaced(data, arches, radius, flows) && |flows| == |data|
    ensures !ZeroEnd(data)
  {
    forall i | 0 <= i < |data|
      ensures !ZeroEndAt(data, i)
    {
      assert FlowPlaced(data, arches, radius, i, flows[i]);
    }
  }

  /** The fractions each flow takes of its source and of its destination. */
  function FractionsOf(flows: seq<(RibbonKey, Flow)>): (fr: seq<(real, real)>)
    ensures |fr| == |flows|
    ensures forall i :: 0 <= i < |flows| ==> fr[i] == (flows[i].1.startFraction, flows[i].1.endFraction)
  {
    seq(|flows|, i requires 0 <= i < |flows| => (flows[i].1.startFraction, flows[i].1.endFraction))
  }

  /** Drawing the flows `ribbons` builds fills every arch with a nonzero
      total exactly: the slot of the last flow end at `k` ends where the
      arch ends. */
  lemma FlowsFillArch(data: seq<FlowRecord>, arches: seq<(string, Arch)>, radius: Option<real>,
                      flows: seq<(RibbonKey, Flow)>, k: string)
    requires FlowsPlaced(data, arches, radius, flows) && |flows| == |data| && TotalAmount(data, k) != 0.0
    ensures Consumed(data, FractionsOf(flows), k) != []
    ensures PartOf(Consumed(data, FractionsOf(flows), k), RibbonGap, |Consumed(data, FractionsOf(flows), k)| - 1).end == 1.0
  {
    var fr := FractionsOf(flows);
    var t := TotalAmount(data, k);
    var g := GapShare(Occurrences(data, k), RibbonGap);
    forall i | 0 <= i < |data| && data[i].source == k
      ensures fr[i].0 == Share(data[i].amount, t, g)
    {
      assert FlowPlaced(data, arches, radius, i, flows[i]);
    }
    forall i | 0 <= i < |data| && data[i].destination == k
      ensures fr[i].1 == Share(data[i].amount, t, g)
    {
      assert FlowPlaced(data, arches, radius, i, flows[i]);
    }
    ArchFilled(data, fr, k);
  }

  /** Some flow has an end whose total is zero, so its share divides by
      zero. */
  ghost predicate ZeroEnd(data: seq<FlowRecord>)
  {
    exists i :: 0 <= i < |data| && ZeroEndAt(data, i)
  }

  /** The `i`-th flow has an end whose total is zero. */
  ghost predicate ZeroEndAt(data: seq<FlowRecord>, i: nat)
    requires i < |data|
  {
    TotalAmount(data, data[i].source) == 0.0 || TotalAmount(data, data[i].destination) == 0.0
  }

  /** The totals kept are every entity's sum and count, or neither. The
      equalities are stated for any `d` equal to `data`, so that the totals
      are unfolded only where a proof mentions them. */
  ghost predicate TotalsCached(data: seq<FlowRecord>, amount: Option<seq<(string, real)>>, counts: Option<seq<(string, nat)>>)
  {
    (amount.Some? <==> counts.Some?) &&
    (amount.Some? ==>
      (forall d {:trigger Amounts(d)} :: d == data ==> amount.value == Amounts(d)) &&
      (forall d {:trigger Counts(d)} :: d == data ==> counts.value == Counts(d)))
  }

  /** The angles kept are those laid out from the totals kept with the gap
      `gap` from the angle `start`. */
  ghost predicate AnglesCached(amount: Option<seq<(string, real)>>, starts: Option<seq<(string, real)>>,
                               ends: Option<seq<(string, real)>>, gap: real, start: real)
  {
    (starts.Some? <==> ends.Some?) &&
    (starts.Some? ==>
      amount.Some? && AngleTotal(amount.value, gap) != 0.0 &&
      starts.value == ArchStarts(amount.value, gap, start) &&
      ends.value == ArchEnds(amount.value, gap, start))
  }

  /** The arches kept span the angles kept; with no totals there is no
      arch, and no angle is needed. */
  ghost predicate ArchesCached(amount: Option<seq<(string, real)>>, starts: Option<seq<(string, real)>>,
                               ends: Option<seq<(string, real)>>, arches: Option<seq<(string, Arch)>>)
  {
    arches.Some? ==>
      amount.Some? &&
      if amount.value == [] then arches.value == []
      else (starts.Some? && ends.Some? &&
            ArchesPlaced(arches.value, amount.value, starts.value, ends.value, |amount.value|))
  }

  /** The flows kept are one per record, each placed on the arches kept. */
  ghost predicate RibbonsCached(data: seq<FlowRecord>, arches: Option<seq<(string, Arch)>>, radius: Option<real>,
                                flows: Option<seq<(RibbonKey, Flow)>>)
  {
    flows.Some? ==>
      |flows.value| == |data| &&
      (data != [] ==> arches.Some? && FlowsPlaced(data, arches.value, radius, flows.value))
  }

  /** A chord diagram of the flows `data`. Totals, angles, arches and flows
      are each computed on first use and kept. */
  class ChordDiagram {
    const data: seq<FlowRecord>
    var gapSetting: Option<real>
    var amountCache: Option<seq<(string, real)>>
    var countCache: Option<seq<(string, nat)>>
    var startCache: Option<seq<(string, real)>>
    var endCache: Option<seq<(string, real)>>
    var archCache: Option<seq<(string, Arch)>>
    var radius: Option<real>
    var ribbonsCache: Option<seq<(RibbonKey, Flow)>>
    var startingAngle: real
    /** The gap and the starting angle the cached angles were laid out with:
        changing either later leaves the cache as it was. */
    ghost var angleGap: real
    ghost var angleStart: real

    /** Every cache that is filled holds what its computation yields. */
    ghost predicate Valid()
      reads this
    {
      TotalsCached(data, amountCache, countCache) &&
      AnglesCached(amountCache, startCache, endCache, angleGap, angleStart) &&
      ArchesCached(amountCache, startCache, endCache, archCache) &&
      RibbonsCached(data, archCache, radius, ribbonsCache)
    }

    constructor(data: seq<FlowRecord>)
      ensures this.data == data && Valid()
      ensures gapSetting == None && radius == None && startingAngle == 0.0
      ensures amountCache == None && countCache == None && startCache == None && endCache == None
      ensures archCache == None && ribbonsCache == None
    {
      this.data := data;
      gapSetting := None;
      amountCache := None;
      countCache := None;
      startCache := None;
      endCache := None;
      archCache := None;
      radius := None;
      ribbonsCache := None;
      startingAngle := 0.0;
    }

    /** `gap`: the gap between two arches, in the units of the amounts;
        0.1 unless set. */
    function Gap(): (g: real)
      reads this
      ensures gapSetting.None? ==> g == DefaultGap
      ensures gapSetting.Some? ==> g == gapSetting.value
    {
      ValueOr(gapSetting, DefaultGap)
    }

    /** Setting `gap` leaves angles already laid out as they are. */
    method SetGap(value: real)
      requires Valid()
      modifies this`gapSetting
      ensures Valid() && gapSetting == Some(value)
    {
      gapSetting := Some(value);
    }

    /** `_generate_amount`. */
    method GenerateAmount()
      requires Valid()
      modifies this`amountCache, this`countCache
      ensures Valid()
      ensures amountCache == Some(Amounts(data)) && countCache == Some(Counts(data))
    {
      var amount, counts := Chord.GenerateAmount(data);
      countCache := Some(counts);
      amountCache := Some(amount);
    }

    /** `amount`: every entity's total. */
    method Amount() returns (amount: seq<(string, real)>)
      requires Valid()
      modifies this`amountCache, this`countCache
      ensures Valid()
      ensures amount == Amounts(data)
      ensures amountCache == Some(amount) && countCache == Some(Counts(data))
    {
      if amountCache.None? {
        GenerateAmount();
      }
      amount := amountCache.value;
    }

    /** `no_of_ribbons`: every entity's number of flow ends. */
    method NoOfRibbons() returns (counts: seq<(string, nat)>)
      requires Valid()
      modifies this`amountCache, this`countCache
      ensures Valid()
      ensures counts == Counts(data)
      ensures amountCache == Some(Amounts(data)) && countCache == Some(counts)
    {
      if countCache.None? {
        GenerateAmount();
      }
      counts := countCache.value;
    }

    /** `_generate_angles`: lays out the arches once; a total of zero
        divides by zero and lays out nothing. */
    method GenerateAngles() returns (r: Result<()>)
      requires Valid()
      modifies this`amountCache, this`countCache, this`startCache, this`endCache, this`angleGap, this`angleStart
      ensures Valid()
      ensures old(amountCache).Some? ==> amountCache == old(amountCache)
      ensures old(startCache).Some? ==> r == Ok(()) && unchanged(this)
      ensures old(startCache).None? ==> amountCache == Some(Amounts(data))
      ensures old(startCache).None? ==> (r.Ok? <==> AngleTotal(Amounts(data), Gap()) != 0.0)
      ensures r.Err? ==> r.error == ZeroDivisionError && startCache == None
      ensures old(startCache).None? && r.Ok? ==>
        startCache == Some(ArchStarts(Amounts(data), Gap(), startingAngle)) &&
        endCache == Some(ArchEnds(Amounts(data), Gap(), startingAngle))
    {
      if startCache.None? || endCache.None? {
        var amount := Amount();
        var laid := LayOutAngles(amount, Gap(), startingAngle);
        if laid.Err? {
          return Err(laid.error);
        }
        StoreAngles(laid.value.0, laid.value.1);
      }
      return Ok(());
    }

    /** Keeps the angles laid out with the current gap and starting angle. */
    method StoreAngles(starts: seq<(string, real)>, ends: seq<(string, real)>)
      requires Valid() && amountCache.Some? && startCache.None?
      requires AngleTotal(amountCache.value, Gap()) != 0.0
      requires starts == ArchStarts(amountCache.value, Gap(), startingAngle)
      requires ends == ArchEnds(amountCache.value, Gap(), startingAngle)
      modifies this`startCache, this`endCache, this`angleGap, this`angleStart
      ensures Valid()
      ensures startCache == Some(starts) && endCache == Some(ends)
    {
      angleGap, angleStart := Gap(), startingAngle;
      startCache, endCache := Some(starts), Some(ends);
    }

    /** `arch_start`: where every arch starts. */
    method ArchStart() returns (r: Result<seq<(string, real)>>)
      requires Valid()
      modifies this`amountCache, this`countCache, this`startCache, this`endCache, this`angleGap, this`angleStart
      ensures Valid()
      ensures old(amountCache).Some? ==> amountCache == old(amountCache)
      ensures old(startCache).Some? ==> r == Ok(old(startCache).value) && unchanged(this)
      ensures old(startCache).None? ==> (r.Ok? <==> AngleTotal(Amounts(data), Gap()) != 0.0)
      ensures r.Err? ==> r.error == ZeroDivisionError && startCache == None
      ensures r.Ok? ==> startCache == Some(r.value)
      ensures old(startCache).None? && r.Ok? ==> r.value == ArchStarts(Amounts(data), Gap(), startingAngle)
    {
      if startCache.None? {
        var g := GenerateAngles();
        if g.Err? {
          return Err(g.error);
        }
      }
      return Ok(startCache.value);
    }

    /** `arch_end`: where every arch ends. */
    method ArchEnd() returns (r: Result<seq<(string, real)>>)
      requires Valid()
      modifies this`amountCache, this`countCache, this`startCache, this`endCache, this`angleGap, this`angleStart
      ensures Valid()
      ensures old(amountCache).Some? ==> amountCache == old(amountCache)
      ensures old(endCache).Some? ==> r == Ok(old(endCache).value) && unchanged(this)
      ensures old(endCache).None? ==> (r.Ok? <==> AngleTotal(Amounts(data), Gap()) != 0.0)
      ensures r.Err? ==> r.error == ZeroDivisionError && endCache == None
      ensures r.Ok? ==> endCache == Some(r.value)
      ensures old(endCache).None? && r.Ok? ==> r.value == ArchEnds(Amounts(data), Gap(), startingAngle)
    {
      if endCache.None? {
        var g := GenerateAngles();
        if g.Err? {
          return Err(g.error);
        }
      }
      return Ok(endCache.value);
    }

    /** `arch`: one arch per entity, in the order of the totals, from where
        its angles start to where they end, with the diagram's radius. Built
        once. The first arch asks for the angles, which may divide by zero;
        every later one finds them kept. */
    method Arches() returns (r: Result<seq<(string, Arch)>>)
      requires Valid()
      modifies this`amountCache, this`countCache, this`startCache, this`endCache, this`angleGap, this`angleStart, this`archCache
      ensures Valid()
      ensures old(archCache).Some? ==> r == Ok(old(archCache).value) && unchanged(this)
      ensures r.Ok? ==> archCache == Some(r.value)
      ensures r.Err? ==> r.error == ZeroDivisionError && archCache == None
      ensures old(archCache).None? ==>
        (r.Err? <==> Amounts(data) != [] && old(startCache).None? && AngleTotal(Amounts(data), Gap()) == 0.0)
    {
      if archCache.Some? {
        return Ok(archCache.value);
      }
      var amount := Amount();
      AmountsDistinct(data);
      if amount == [] {
        StoreArches([]);
        return Ok([]);
      }
      var starts := ArchStart();
      if starts.Err? {
        return Err(starts.error);
      }
      var ends := ArchEnd();
      ArchKeys(amount, angleGap, angleStart);
      var tk := BuildArches(amount, starts.value, ends.value, radius);
      StoreArches(tk);
      return Ok(tk);
    }

    /** The loop of `arch` once the angles are laid out: `arch_start[k]`
        and `arch_end[k]` for every entity `k`. */
    static method BuildArches(amount: seq<(string, real)>, starts: seq<(string, real)>, ends: seq<(string, real)>,
                              radius: Option<real>) returns (tk: seq<(string, Arch)>)
      requires DistinctKeys(amount) && |starts| == |ends| == |amount|
      requires KeysOf(starts) == KeysOf(amount) && KeysOf(ends) == KeysOf(amount)
      ensures ArchesPlaced(tk, amount, starts, ends, |amount|)
      ensures forall j :: 0 <= j < |tk| ==> fresh(tk[j].1) && tk[j].1.radiusSetting == radius
    {
      tk := [];
      for i := 0 to |amount|
        invariant ArchesPlaced(tk, amount, starts, ends, i)
        invariant forall j :: 0 <= j < |tk| ==> fresh(tk[j].1) && tk[j].1.radiusSetting == radius
      {
        var k := amount[i].0;
        SameKeysLookup(starts, amount, i);
        SameKeysLookup(ends, amount, i);
        var a := NewArch(Lookup(starts, k).value, Lookup(ends, k).value, radius);
        ArchPlaced(tk, amount, starts, ends, i, a);
        tk := tk + [(k, a)];
      }
    }

    /** `Arch(start, end)` given the radius `radius`. */
    static method NewArch(start: real, end: real, radius: Option<real>) returns (a: Arch)
      ensures fresh(a) && a.start == start && a.end == end && a.kwargs == map[] && a.ribbonGap == RibbonGap
      ensures a.radiusSetting == radius && a.widthSetting == None && a.current == 0.0 && a.wedge == None
    {
      a := new Arch(start, end, map[]);
      a.radiusSetting := radius;
    }

    /** Keeps the arches built. */
    method StoreArches(arches: seq<(string, Arch)>)
      requires Valid() && archCache.None? && amountCache.Some?
      requires amountCache.value == [] ==> arches == []
      requires amountCache.value != [] ==>
        (startCache.Some? && endCache.Some? &&
         ArchesPlaced(arches, amountCache.value, startCache.value, endCache.value, |amountCache.value|))
      modifies this`archCache
      ensures Valid() && archCache == Some(arches)
    {
      archCache := Some(arches);
    }

    /** `get_key`: the key of a record, at the position where the record
        first occurs; a record not among the flows is a ValueError. */
    function GetKey(entry: FlowRecord): (r: Result<RibbonKey>)
      ensures r.Err? <==> entry !in data
      ensures r.Err? ==> r.error == ValueError
      ensures r.Ok? ==>
        r.value.entry == entry && r.value.index < |data| && data[r.value.index] == entry &&
        entry !in data[..r.value.index]
    {
      match IndexOf(data, entry)
      case None => Err(ValueError)
      case Some(i) => Ok(RibbonKey(entry, i))
    }

    /** `get_key` of record `i` is the key `ribbons` stores its flow under
        exactly when no earlier record is the same triple. */
    lemma GetKeyOfRibbon(i: nat)
      requires i < |data|
      ensures GetKey(data[i]) == Ok(RibbonKey(data[i], i)) <==> data[i] !in data[..i]
    {
    }

    /** `ribbons`: one flow per record, keyed by the record and its
        position, between the arches of its two ends and taking of each the
        share of its amount. Built once; with no record no arch is asked for.
        Building the arches, or an end whose total is zero, divides by
        zero. */
    method Ribbons() returns (r: Result<seq<(RibbonKey, Flow)>>)
      requires Valid()
      modifies this`amountCache, this`countCache, this`startCache, this`endCache, this`angleGap, this`angleStart
      modifies this`archCache, this`ribbonsCache
      ensures Valid()
      ensures old(ribbonsCache).Some? ==> r == Ok(old(ribbonsCache).value) && unchanged(this)
      ensures r.Ok? ==> ribbonsCache == Some(r.value)
      ensures r.Err? ==> r.error == ZeroDivisionError && ribbonsCache == None
      ensures old(ribbonsCache).None? ==>
        (r.Err? <==> data != [] &&
                     ((old(archCache).None? && old(startCache).None? && AngleTotal(Amounts(data), Gap()) == 0.0) ||
                      ZeroEnd(data)))
    {
      if ribbonsCache.Some? {
        return Ok(ribbonsCache.value);
      }
      if data == [] {
        StoreRibbons([]);
        return Ok([]);
      }
      r := PlaceRibbons();
    }

    /** `ribbons` on first use, when there are flows: the arches, then one
        flow per record. */
    method PlaceRibbons() returns (r: Result<seq<(RibbonKey, Flow)>>)
      requires Valid() && ribbonsCache.None? && data != []
      modifies this`amountCache, this`countCache, this`startCache, this`endCache, this`angleGap, this`angleStart
      modifies this`archCache, this`ribbonsCache
      ensures Valid()
      ensures r.Ok? ==> ribbonsCache == Some(r.value)
      ensures r.Err? ==> r.error == ZeroDivisionError && ribbonsCache == None
      ensures r.Err? <==>
        (old(archCache).None? && old(startCache).None? && AngleTotal(Amounts(data), Gap()) == 0.0) || ZeroEnd(data)
    {
      AmountsDistinct(data);
      var arches := Arches();
      if arches.Err? {
        return Err(arches.error);
      }
      // the totals are kept once the arches are built
      var rb := BuildFlows(data, arches.value, countCache.value, amountCache.value, startCache.value, endCache.value, radius);
      if rb.Err? {
        return Err(rb.error);
      }
      StoreRibbons(rb.value);
      return Ok(rb.value);
    }

    /** The loop of `ribbons` once the arches are built. */
    static method BuildFlows(data: seq<FlowRecord>, arches: seq<(string, Arch)>, counts: seq<(string, nat)>,
                             amount: seq<(string, real)>, ghost starts: seq<(string, real)>,
                             ghost ends: seq<(string, real)>, radius: Option<real>)
      returns (r: Result<seq<(RibbonKey, Flow)>>)
      requires amount == Amounts(data) && counts == Counts(data)
      requires ArchesPlaced(arches, amount, starts, ends, |amount|)
      ensures r.Err? <==> ZeroEnd(data)
      ensures r.Err? ==> r.error == ZeroDivisionError
      ensures r.Ok? ==> |r.value| == |data| && FlowsPlaced(data, arches, radius, r.value)
    {
      var rb: seq<(RibbonKey, Flow)> := [];
      for i := 0 to |data|
        invariant |rb| == i && FlowsPlaced(data, arches, radius, rb)
      {
        var flow := PlaceFlow(data, arches, counts, amount, starts, ends, i, radius);
        if flow.Err? {
          return Err(ZeroDivisionError);
        }
        FlowPlacedAt(data, arches, radius, rb, flow.value);
        rb := rb + [(RibbonKey(data[i], i), flow.value)];
      }
      PlacedNoZeroEnd(data, arches, radius, rb);
      return Ok(rb);
    }

    /** One turn of the loop of `ribbons`: the flow of the `i`-th record,
        or the division by zero when one of its ends has no amount. */
    static method PlaceFlow(data: seq<FlowRecord>, arches: seq<(string, Arch)>, counts: seq<(string, nat)>,
                            amount: seq<(string, real)>, ghost starts: seq<(string, real)>,
                            ghost ends: seq<(string, real)>, i: nat, radius: Option<real>)
      returns (r: Result<Flow>)
      requires amount == Amounts(data) && counts == Counts(data)
      requires ArchesPlaced(arches, amount, starts, ends, |amount|) && i < |data|
      ensures r.Err? <==> ZeroEndAt(data, i)
      ensures r.Ok? ==> FlowPlaced(data, arches, radius, i, (RibbonKey(data[i], i), r.value))
      ensures r.Ok? ==> fresh(r.value)
    {
      var d := data[i];
      FlowEnds(data, arches, starts, ends, i);
      var start := Lookup(arches, d.source).value;
      var end := Lookup(arches, d.destination).value;
      var sn := Lookup(counts, d.source).value;
      var en := Lookup(counts, d.destination).value;
      var startFraction := Fraction(d.amount, Lookup(amount, d.source).value, GapShare(sn, start.ribbonGap));
      var endFraction := Fraction(d.amount, Lookup(amount, d.destination).value, GapShare(en, end.ribbonGap));
      if startFraction.Err? || endFraction.Err? {
        return Err(ZeroDivisionError);
      }
      var flow := new Flow(start, end, startFraction.value, endFraction.value, radius, map[]);
      return Ok(flow);
    }

    /** Keeps the flows built. */
    method StoreRibbons(flows: seq<(RibbonKey, Flow)>)
      requires Valid() && ribbonsCache.None?
      requires |flows| == |data|
      requires data != [] ==> archCache.Some? && FlowsPlaced(data, archCache.value, radius, flows)
      modifies this`ribbonsCache
      ensures Valid() && ribbonsCache == Some(flows)
    {
      ribbonsCache := Some(flows);
    }
  }
}
