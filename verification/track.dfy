/** The track of `_base.py`: the same flows, totals and entity order as the
    other track, laid out over `max_angle` degrees around a centre, with
    labels that keep a gap to their arch, wrap their words and take their
    text from a mapping. Its arches and ribbons are the ones with the
    registration interface (`add_input_ribbon` / `add_output_ribbon`); its
    labels are the `_elements.py` labels, which keep the geometry of their
    arch. */
module TrackBase {
  import opened Common
  import opened Layout
  import TestElements
  import Elements

  /** The settings of a `_base.py` track that the caller may reassign
      before the elements are generated. `archLabelWrapWords` is None for
      the default `np.inf`. */
  datatype BaseSettings = BaseSettings(
    archGapAngle: real, archHeight: real, archAlpha: real, archKwargs: Options,
    rotation: real, radius: real, center: Point, maxAngle: real,
    hideRibbons: bool, hideArchLabels: bool,
    ribbonStartMargin: real, ribbonEndMargin: real, ribbonColorFromSource: bool,
    ribbonAlpha: real, ribbonKwargs: Options,
    archLabelArrows: bool, archLabelRotate: bool, archLabelColored: bool,
    archLabelGap: real, archLabelWrapWords: Option<real>, archLabelKwargs: Options)

  /** The settings a new track starts with. */
  const BaseDefaults := BaseSettings(5.0, 0.1, 1.0, map[], 0.0, 1.0, Origin, 360.0, false, false,
                                     0.05, 0.05, true, 0.6, map[], false, true, false, 0.02, None, map[])

  /** The options a generated arch is created with: the arch alpha, then
      the track's arch options over it. */
  function BaseArchOptions(s: BaseSettings): Options
  {
    MergeOptions(map["alpha" := Number(s.archAlpha)], s.archKwargs)
  }

  /** The options a generated ribbon is created with. */
  function BaseRibbonOptions(s: BaseSettings): Options
  {
    MergeOptions(map["alpha" := Number(s.ribbonAlpha)], s.ribbonKwargs)
  }

  /** This track's arches: its height and arch options, centred on the
      track's centre. */
  function BaseStyle(s: BaseSettings): TestElements.ArchStyle
  {
    TestElements.ArchStyle(s.archHeight, BaseArchOptions(s), Some(s.center))
  }

  /** The arch geometry a label keeps. */
  function LabelGeometry(l: Elements.ArchLabel): ArchGeometry
  {
    l.arch
  }

  /** The text `map_arch_labels` gives an entity's label, if any. */
  function MappedText(mapping: map<string, string>, key: string): (t: Option<string>)
    ensures t.Some? <==> key in mapping
    ensures t.Some? ==> t.value == mapping[key]
  {
    if key in mapping then Some(mapping[key]) else None
  }

  /** A label as the arch loop leaves it: for entity `key`, with the
      track's arrow, rotation, wrapping, gap, centre and label options, and
      the mapped text when the entity is mapped. */
  ghost predicate LabelReady(l: Elements.ArchLabel, key: string, s: BaseSettings, mapping: map<string, string>)
    reads l
  {
    l.archKey == key && l.addArrow == s.archLabelArrows && l.rotate == s.archLabelRotate &&
    l.wrapWords == s.archLabelWrapWords && l.labelGap == s.archLabelGap &&
    l.centerSetting == Some(s.center) && l.textSetting == MappedText(mapping, key) &&
    l.kwargs == MergeOptions(map[], s.archLabelKwargs)
  }

  // -------------------------------------------------------- arch loop

  /** One round of the arch loop: the arch from `start` over `width`,
      centred, and its label. */
  method NewArchAndLabel(key: string, start: real, width: real, s: BaseSettings, mapping: map<string, string>)
    returns (a: TestElements.Arch, arl: Elements.ArchLabel)
    ensures fresh(a) && fresh(arl)
    ensures TestElements.Geometry(a) == ArchGeometry(s.radius, start, start + width)
    ensures TestElements.Unregistered(a, BaseStyle(s))
    ensures arl.arch == TestElements.Geometry(a) && LabelReady(arl, key, s, mapping)
  {
    a := new TestElements.Arch(s.radius, start, start + width, s.archHeight, BaseArchOptions(s));
    a.SetCenter(s.center);
    arl := new Elements.ArchLabel(key, TestElements.Geometry(a));
    arl.addArrow := s.archLabelArrows;
    arl.rotate := s.archLabelRotate;
    arl.wrapWords := s.archLabelWrapWords;
    arl.labelGap := s.archLabelGap;
    arl.centerSetting := Some(s.center);
    if key in mapping {
      arl.textSetting := Some(mapping[key]);
    }
    arl.Update(s.archLabelKwargs);
  }

  /** Storing label `i` under its entity extends the laid-out label
      geometry by one round, as for the arches. */
  lemma LabelsLaidOutStep(allLabels: seq<(string, Elements.ArchLabel)>, keys: seq<string>, widths: seq<real>,
                          gap: real, rotation: real, radius: real, i: nat, arl: Elements.ArchLabel)
    requires i < |keys| == |widths|
    requires MapValues(allLabels, LabelGeometry) == ArchLayout(keys, widths, gap, rotation, radius, i)
    requires arl.arch == ArchGeometry(radius, CursorAt(widths, gap, rotation, i),
                                      CursorAt(widths, gap, rotation, i) + widths[i])
    ensures MapValues(Put(allLabels, keys[i], arl), LabelGeometry) == ArchLayout(keys, widths, gap, rotation, radius, i + 1)
  {
    MapValuesPut(allLabels, keys[i], arl, LabelGeometry);
    ArchLayoutNext(keys, widths, gap, rotation, radius, i);
  }

  /** What the arch loop has built after `i` rounds, apart from the state
      of the new objects: the cursor of arch `i`, the geometry of the first
      `i` rounds for the arches and for their labels alike, one entry per
      entity and one entity per arch. */
  ghost predicate ArchesBuilt(keys: seq<string>, widths: seq<real>, s: BaseSettings, i: nat, current: real,
                              allArc: seq<(string, TestElements.Arch)>, allLabels: seq<(string, Elements.ArchLabel)>)
  {
    i <= |keys| == |widths| &&
    current == CursorAt(widths, s.archGapAngle, s.rotation, i) &&
    MapValues(allArc, TestElements.Geometry) == ArchLayout(keys, widths, s.archGapAngle, s.rotation, s.radius, i) &&
    MapValues(allLabels, LabelGeometry) == ArchLayout(keys, widths, s.archGapAngle, s.rotation, s.radius, i) &&
    DistinctKeys(allArc) && TestElements.OneKeyEach(allArc)
  }

  /** The state the arch loop leaves its new objects in: every arch
      unregistered, every label ready for its entity. */
  ghost predicate ArchesFresh(allArc: seq<(string, TestElements.Arch)>, allLabels: seq<(string, Elements.ArchLabel)>,
                              s: BaseSettings, mapping: map<string, string>)
    reads set p | p in allArc :: p.1, set p | p in allLabels :: p.1
  {
    (forall p :: p in allArc ==> TestElements.Unregistered(p.1, BaseStyle(s))) &&
    (forall p :: p in allLabels ==> LabelReady(p.1, p.0, s, mapping))
  }

  /** Storing a new unregistered arch and its ready label keeps the new
      objects in the state the arch loop leaves them in. */
  lemma FreshStep(allArc: seq<(string, TestElements.Arch)>, allLabels: seq<(string, Elements.ArchLabel)>, key: string,
                  a: TestElements.Arch, arl: Elements.ArchLabel, s: BaseSettings, mapping: map<string, string>)
    requires ArchesFresh(allArc, allLabels, s, mapping)
    requires TestElements.Unregistered(a, BaseStyle(s)) && LabelReady(arl, key, s, mapping)
    ensures ArchesFresh(Put(allArc, key, a), Put(allLabels, key, arl), s, mapping)
  {
    PutEntries(allArc, key, a);
    PutEntries(allLabels, key, arl);
  }

  /** Storing the arch over the slot at the cursor and its label under
      entity `i`, with the cursor moved on, is round `i + 1` built. */
  lemma BuiltStep(keys: seq<string>, widths: seq<real>, s: BaseSettings, i: nat, current: real, next: real,
                  allArc: seq<(string, TestElements.Arch)>, allLabels: seq<(string, Elements.ArchLabel)>,
                  a: TestElements.Arch, arl: Elements.ArchLabel)
    requires i < |keys| && ArchesBuilt(keys, widths, s, i, current, allArc, allLabels)
    requires next == CursorAt(widths, s.archGapAngle, s.rotation, i + 1)
    requires TestElements.Geometry(a) == ArchGeometry(s.radius, current, current + widths[i])
    requires arl.arch == TestElements.Geometry(a) && forall p :: p in allArc ==> p.1 != a
    ensures ArchesBuilt(keys, widths, s, i + 1, next, Put(allArc, keys[i], a), Put(allLabels, keys[i], arl))
  {
    TestElements.LaidOutStep(allArc, keys, widths, s.archGapAngle, s.rotation, s.radius, i, a);
    LabelsLaidOutStep(allLabels, keys, widths, s.archGapAngle, s.rotation, s.radius, i, arl);
    TestElements.PutNewValue(allArc, keys[i], a);
    PutDistinct(allArc, keys[i], a);
  }

  /** Round `i` of the arch loop: the arch for entity `i` and its label,
      stored under the entity, and the cursor moved on. */
  method ArchRound(keys: seq<string>, widths: seq<real>, s: BaseSettings, mapping: map<string, string>, i: nat,
                   current: real, allArc: seq<(string, TestElements.Arch)>, allLabels: seq<(string, Elements.ArchLabel)>)
    returns (next: real, arcs: seq<(string, TestElements.Arch)>, labels: seq<(string, Elements.ArchLabel)>)
    requires i < |keys| && ArchesBuilt(keys, widths, s, i, current, allArc, allLabels)
    requires ArchesFresh(allArc, allLabels, s, mapping)
    ensures ArchesBuilt(keys, widths, s, i + 1, next, arcs, labels)
    ensures ArchesFresh(arcs, labels, s, mapping)
    ensures forall p :: p in arcs ==> p in allArc || fresh(p.1)
    ensures forall p :: p in labels ==> p in allLabels || fresh(p.1)
  {
    next := TestElements.Advance(widths, s.archGapAngle, s.rotation, i, current);
    var a, arl := NewArchAndLabel(keys[i], current, widths[i], s, mapping);
    assert ArchesFresh(allArc, allLabels, s, mapping);
    FreshStep(allArc, allLabels, keys[i], a, arl, s, mapping);
    BuiltStep(keys, widths, s, i, current, next, allArc, allLabels, a, arl);
    arcs := Put(allArc, keys[i], a);
    labels := Put(allLabels, keys[i], arl);
  }

  /** Before the first round nothing is laid out and the cursor is at the
      rotation. */
  lemma NoArchesYet(keys: seq<string>, widths: seq<real>, s: BaseSettings, mapping: map<string, string>)
    requires |keys| == |widths|
    ensures ArchesBuilt(keys, widths, s, 0, s.rotation, [], [])
    ensures ArchesFresh([], [], s, mapping)
  {
    var noArches: seq<(string, TestElements.Arch)> := [];
    var noLabels: seq<(string, Elements.ArchLabel)> := [];
    assert MapValues(noArches, TestElements.Geometry) == [];
    assert MapValues(noLabels, LabelGeometry) == [];
  }

  /** The arch loop of `generate_elements`: for each entity in turn a
      centred arch from the cursor over its width and a label for it, the
      cursor then moving on by the width and the gap and brought back below
      360 once past it. */
  method BuildArches(keys: seq<string>, widths: seq<real>, s: BaseSettings, mapping: map<string, string>)
    returns (allArc: seq<(string, TestElements.Arch)>, allLabels: seq<(string, Elements.ArchLabel)>)
    requires |keys| == |widths|
    ensures ArchesBuilt(keys, widths, s, |keys|, CursorAt(widths, s.archGapAngle, s.rotation, |keys|),
                        allArc, allLabels)
    ensures ArchesFresh(allArc, allLabels, s, mapping)
    ensures forall p :: p in allArc ==> fresh(p.1)
    ensures forall p :: p in allLabels ==> fresh(p.1)
  {
    var current := s.rotation;
    allArc := [];
    allLabels := [];
    NoArchesYet(keys, widths, s, mapping);
    var i := 0;
    while i < |keys|
      invariant 0 <= i <= |keys|
      invariant ArchesBuilt(keys, widths, s, i, current, allArc, allLabels)
      invariant ArchesFresh(allArc, allLabels, s, mapping)
      invariant forall p :: p in allArc ==> fresh(p.1)
      invariant forall p :: p in allLabels ==> fresh(p.1)
    {
      current, allArc, allLabels := ArchRound(keys, widths, s, mapping, i, current, allArc, allLabels);
      i := i + 1;
    }
  }

  /** With every entity once in the layout order, after the arch loop
      label `j` is the label of entity `j`, on the arch of round `j`, with
      the track's wrapping and gap, and it carries the mapped text when its
      entity is mapped and no text otherwise. */
  lemma LabelOfRound(keys: seq<string>, widths: seq<real>, s: BaseSettings, mapping: map<string, string>,
                     allArc: seq<(string, TestElements.Arch)>, allLabels: seq<(string, Elements.ArchLabel)>, j: nat)
    requires |keys| == |widths|
    requires ArchesBuilt(keys, widths, s, |keys|, CursorAt(widths, s.archGapAngle, s.rotation, |keys|),
                         allArc, allLabels)
    requires ArchesFresh(allArc, allLabels, s, mapping)
    requires Distinct(keys) && j < |keys|
    ensures |allLabels| == |keys| && allLabels[j].0 == keys[j] && allLabels[j].1.archKey == keys[j]
    ensures allLabels[j].1.arch == ArchAt(widths, s.archGapAngle, s.rotation, s.radius, j)
    ensures allLabels[j].1.wrapWords == s.archLabelWrapWords && allLabels[j].1.labelGap == s.archLabelGap
    ensures keys[j] in mapping ==> allLabels[j].1.textSetting == Some(mapping[keys[j]])
    ensures keys[j] !in mapping ==> allLabels[j].1.textSetting == None
  {
    ArchLayoutDistinct(keys, widths, s.archGapAngle, s.rotation, s.radius, |keys|);
    assert MapValues(allLabels, LabelGeometry)[j] == (keys[j], ArchAt(widths, s.archGapAngle, s.rotation, s.radius, j));
    assert allLabels[j] in allLabels;
  }

  // ------------------------------------------------------ ribbon loop

  /** The ribbon of one flow: between the two arches, with the track's
      margins and ribbon options, centred on the track's centre. */
  method NewRibbon(a1: TestElements.Arch, a2: TestElements.Arch, s: BaseSettings) returns (rb: TestElements.Ribbon)
    ensures fresh(rb) && rb.startArch == a1 && rb.endArch == a2
    ensures rb.startRadiusSetting == None && rb.endRadiusSetting == None
    ensures rb.startMargin == s.ribbonStartMargin && rb.endMargin == s.ribbonEndMargin
    ensures rb.kwargs == BaseRibbonOptions(s) && rb.centerSetting == Some(s.center) && rb.visible
  {
    rb := new TestElements.Ribbon(a1, a2, None, None, s.ribbonStartMargin, s.ribbonEndMargin, BaseRibbonOptions(s));
    rb.SetCenter(s.center);
  }

  /** Round `j` of the ribbon loop: the ribbon of flow `j` between the
      arches of its ends, centred, registered as an output of the
      destination arch and an input of the source arch, and stored under
      its key. */
  method RibbonRound(data: seq<FlowRecord>, allArc: seq<(string, TestElements.Arch)>, s: BaseSettings, j: nat,
                     allRibbons: seq<(RibbonKey, TestElements.Ribbon)>)
    returns (ribbons: seq<(RibbonKey, TestElements.Ribbon)>, rb: TestElements.Ribbon)
    requires j < |data| && TestElements.RibbonsBuilt(data, allArc, j, allRibbons)
    requires TestElements.Registered(data[..j], allArc, ValuesOf(allRibbons), BaseStyle(s))
    modifies set p | p in allArc :: p.1
    ensures fresh(rb) && ribbons == allRibbons + [(RibbonKey(data[j], j), rb)]
    ensures TestElements.RibbonsBuilt(data, allArc, j + 1, ribbons)
    ensures TestElements.Registered(data[..j + 1], allArc, ValuesOf(ribbons), BaseStyle(s))
  {
    var d := data[j];
    var a1 := Get(allArc, d.source).value;
    var a2 := Get(allArc, d.destination).value;
    rb := NewRibbon(a1, a2, s);
    ribbons := TestElements.StoreRibbon(data, allArc, BaseStyle(s), j, allRibbons, rb);
  }

  /** The ribbon loop of `generate_elements`: one ribbon per flow, in flow
      order, registered with the arches of its ends. */
  method RegisterRibbons(data: seq<FlowRecord>, allArc: seq<(string, TestElements.Arch)>, s: BaseSettings)
    returns (allRibbons: seq<(RibbonKey, TestElements.Ribbon)>)
    requires TestElements.RibbonsBuilt(data, allArc, 0, [])
    requires TestElements.Registered(data[..0], allArc, [], BaseStyle(s))
    modifies set p | p in allArc :: p.1
    ensures TestElements.RibbonsBuilt(data, allArc, |data|, allRibbons)
    ensures TestElements.Registered(data[..|data|], allArc, ValuesOf(allRibbons), BaseStyle(s))
    ensures forall p :: p in allRibbons ==> fresh(p.1)
  {
    allRibbons := [];
    var j := 0;
    while j < |data|
      invariant 0 <= j <= |data|
      invariant TestElements.RibbonsBuilt(data, allArc, j, allRibbons)
      invariant TestElements.Registered(data[..j], allArc, ValuesOf(allRibbons), BaseStyle(s))
      invariant forall p :: p in allRibbons ==> fresh(p.1)
    {
      var rb;
      allRibbons, rb := RibbonRound(data, allArc, s, j, allRibbons);
      j := j + 1;
    }
  }

  // ------------------------------------------------------- generation

  /** The arches, ribbons and labels of one generation. */
  datatype BaseElements = BaseElements(arches: seq<(string, TestElements.Arch)>, ribbons: seq<(RibbonKey, TestElements.Ribbon)>,
                                       labels: seq<(string, Elements.ArchLabel)>)

  /** What `generate_elements` leaves behind: the arches and ribbons laid
      out with this track's style, and next to each arch the label of its
      entity, which keeps the arch's geometry and is ready for its entity
      under the label mapping `mapping`. */
  ghost predicate Generated(data: seq<FlowRecord>, keys: seq<string>, widths: seq<real>, s: BaseSettings,
                            mapping: map<string, string>, e: BaseElements)
    reads set p | p in e.arches :: p.1, set p | p in e.labels :: p.1
  {
    TestElements.LaidOut(data, keys, widths, s.archGapAngle, s.rotation, s.radius, BaseStyle(s), e.arches, e.ribbons) &&
    |e.labels| == |e.arches| &&
    (forall i :: 0 <= i < |e.labels| ==> e.labels[i].0 == e.arches[i].0 && e.labels[i].1.arch == TestElements.Geometry(e.arches[i].1)) &&
    (forall p :: p in e.labels ==> LabelReady(p.1, p.0, s, mapping))
  }

  /** The arch loop and the ribbon loop together give the elements
      `generate_elements` promises. */
  lemma GeneratedIntro(data: seq<FlowRecord>, keys: seq<string>, widths: seq<real>, s: BaseSettings,
                       mapping: map<string, string>, e: BaseElements)
    requires |keys| == |widths|
    requires ArchesBuilt(keys, widths, s, |keys|, CursorAt(widths, s.archGapAngle, s.rotation, |keys|), e.arches, e.labels)
    requires TestElements.RibbonsBuilt(data, e.arches, |data|, e.ribbons)
    requires TestElements.Registered(data[..|data|], e.arches, ValuesOf(e.ribbons), BaseStyle(s))
    requires forall p :: p in e.labels ==> LabelReady(p.1, p.0, s, mapping)
    ensures Generated(data, keys, widths, s, mapping, e)
  {
    assert data[..|data|] == data;
    forall i | 0 <= i < |e.labels|
      ensures e.labels[i].0 == e.arches[i].0 && e.labels[i].1.arch == TestElements.Geometry(e.arches[i].1)
    {
      assert MapValues(e.labels, LabelGeometry)[i] == MapValues(e.arches, TestElements.Geometry)[i];
    }
  }

  /** `generate_elements` on the flows `data`, their totals `amounts`, the
      order `order` and the label mapping: the layout order, the total of
      each entity in it, the widths over `max_angle` (a ValueError when the
      gaps take all of it, a ZeroDivisionError when the totals add up to
      zero), then the arch loop and the ribbon loop. */
  method Generate(data: seq<FlowRecord>, amounts: Tally, order: seq<string>, s: BaseSettings,
                  mapping: map<string, string>)
    returns (r: Result<BaseElements>)
    requires amounts == Totals(data)
    ensures var keys := LayoutOrder(order, amounts.keys);
            var widths := ArcWidths(AmountsOf(amounts, keys), s.archGapAngle, |amounts.keys|, s.maxAngle);
            (r.Err? <==> widths.Err?) && (r.Err? ==> r.error == widths.error) &&
            (r.Ok? ==> Generated(data, keys, widths.value, s, mapping, r.value))
    ensures r.Ok? ==> forall p :: p in r.value.arches ==> fresh(p.1)
    ensures r.Ok? ==> forall p :: p in r.value.ribbons ==> fresh(p.1)
    ensures r.Ok? ==> forall p :: p in r.value.labels ==> fresh(p.1)
  {
    var keys := BuildOrder(order, amounts.keys);
    var amount := GatherAmounts(amounts, keys);
    var widths := ArcWidths(amount, s.archGapAngle, |amounts.keys|, s.maxAngle);
    if widths.Err? {
      return Err(widths.error);
    }
    var allArc, allLabels := BuildArches(keys, widths.value, s, mapping);
    TestElements.ReadyForRibbons(data, order, widths.value, s.archGapAngle, s.rotation, s.radius, allArc);
    TestElements.NothingRegistered(data, allArc, BaseStyle(s));
    var allRibbons := RegisterRibbons(data, allArc, s);
    r := Ok(BaseElements(allArc, allRibbons, allLabels));
    GeneratedIntro(data, keys, widths.value, s, mapping, r.value);
  }

  /** With every entity once in the layout order, label `j` of a
      generation is the label of entity `j`, keeps the geometry of the arch
      of round `j`, and carries the mapped text when its entity is mapped
      and no text otherwise. */
  lemma GeneratedLabel(data: seq<FlowRecord>, keys: seq<string>, widths: seq<real>, s: BaseSettings,
                       mapping: map<string, string>, e: BaseElements, j: nat)
    requires Generated(data, keys, widths, s, mapping, e)
    requires Distinct(keys) && j < |keys|
    ensures |e.labels| == |keys| && e.labels[j].0 == keys[j]
    ensures e.labels[j].1.arch == ArchAt(widths, s.archGapAngle, s.rotation, s.radius, j)
    ensures keys[j] in mapping ==> e.labels[j].1.textSetting == Some(mapping[keys[j]])
    ensures keys[j] !in mapping ==> e.labels[j].1.textSetting == None
  {
    TestElements.LaidOutGeometry(data, keys, widths, s.archGapAngle, s.rotation, s.radius, BaseStyle(s),
                                 e.arches, e.ribbons, j);
    assert e.labels[j] in e.labels;
  }

  // ------------------------------------------------------------ track

  /** A `_base.py` track: the flows added so far, the total of every
      entity, the entity order, the settings, the label mapping, and the
      arches, ribbons and labels of the last `generate_elements` (None
      before it). */
  class Track {
    var data: seq<FlowRecord>
    var amounts: Tally
    var order: seq<string>
    /** `_arch`, `_ribbons` and `_arch_labels`, which are only ever set
        together. */
    var elements: Option<BaseElements>
    var settings: BaseSettings
    /** `_arch_label_mapping`. */
    var labelMapping: map<string, string>

    /** The totals are those of the flows added so far. */
    ghost predicate Valid()
      reads this
    {
      amounts == Totals(data)
    }

    constructor()
      ensures data == [] && order == [] && Valid()
      ensures elements == None
      ensures settings == BaseDefaults && labelMapping == map[]
    {
      data := [];
      amounts := Tally([], map[]);
      order := [];
      elements := None;
      settings := BaseDefaults;
      labelMapping := map[];
    }

    /** The `radius` setter. */
    method SetRadius(value: real)
      modifies this`settings
      ensures settings == old(settings).(radius := value)
    {
      settings := settings.(radius := value);
    }

    /** `add_flow`: the flow is appended, its amount added to the totals of
        both ends, and each end not yet in the order appended to it. The
        elements of an earlier generation are kept as they are. */
    method AddFlow(d: FlowRecord)
      requires Valid()
      modifies this`data, this`amounts, this`order
      ensures data == old(data) + [d] && Valid()
      ensures amounts == AddFlowTotals(old(amounts), d)
      ensures order == Discovered(old(order), d)
    {
      AppendFlow(order, data, d);
      var newOrder := order;
      if d.source !in newOrder {
        newOrder := newOrder + [d.source];
      }
      if d.destination !in newOrder {
        newOrder := newOrder + [d.destination];
      }
      data := data + [d];
      amounts := AddAmount(AddAmount(amounts, d.source, d.amount), d.destination, d.amount);
      order := newOrder;
    }

    /** `add_data`: `add_flow` of every flow, in order. */
    method AddData(ds: seq<FlowRecord>)
      requires Valid()
      modifies this`data, this`amounts, this`order
      ensures data == old(data) + ds && Valid()
      ensures order == DiscoverFrom(old(order), ds)
    {
      var i := 0;
      while i < |ds|
        invariant 0 <= i <= |ds|
        invariant data == old(data) + ds[..i] && Valid()
        invariant order == DiscoverFrom(old(order), ds[..i])
      {
        PrefixStep(ds, i);
        AppendFlow(old(order), ds[..i], ds[i]);
        AddFlow(ds[i]);
        i := i + 1;
      }
      assert ds[..i] == ds;
    }

    /** The `order` property: every entity with a total, each once if the
        order has no repeats. */
    method Order() returns (r: seq<string>)
      requires Valid()
      ensures r == LayoutOrder(order, amounts.keys)
      ensures forall x :: x in r <==> x in amounts.amount
      ensures Distinct(order) ==> Distinct(r)
    {
      r := BuildOrder(order, amounts.keys);
      TotalsKeys(data);
      forall x
        ensures x in r <==> x in amounts.amount
      {
        OrderCovers(order, amounts.keys, x);
      }
      if Distinct(order) {
        OrderDistinct(order, amounts.keys);
      }
    }

    /** The `order` setter. */
    method SetOrder(value: seq<string>)
      modifies this`order
      ensures order == value
    {
      order := value;
    }

    /** The `arch` property: a ValueError before the first generation. */
    function ArchDict(): (r: Result<seq<(string, TestElements.Arch)>>)
      reads this
      ensures r.Err? <==> elements.None?
      ensures r.Err? ==> r.error == ValueError
      ensures r.Ok? ==> r.value == elements.value.arches
    {
      if elements.None? then Err(ValueError) else Ok(elements.value.arches)
    }

    /** The `ribbons` property, in the same way. */
    function RibbonDict(): (r: Result<seq<(RibbonKey, TestElements.Ribbon)>>)
      reads this
      ensures r.Err? <==> elements.None?
      ensures r.Err? ==> r.error == ValueError
      ensures r.Ok? ==> r.value == elements.value.ribbons
    {
      if elements.None? then Err(ValueError) else Ok(elements.value.ribbons)
    }

    /** The `arch_labels` property, in the same way. */
    function LabelDict(): (r: Result<seq<(string, Elements.ArchLabel)>>)
      reads this
      ensures r.Err? <==> elements.None?
      ensures r.Err? ==> r.error == ValueError
      ensures r.Ok? ==> r.value == elements.value.labels
    {
      if elements.None? then Err(ValueError) else Ok(elements.value.labels)
    }

    /** `generate_elements`: on success the three dictionaries are replaced
        by the elements laid out from the current flows, order, settings and
        label mapping; on an error nothing changes. */
    method GenerateElements() returns (r: Result<()>)
      requires Valid()
      modifies this
      ensures unchanged(this`data, this`amounts, this`order, this`settings, this`labelMapping)
      ensures var keys := LayoutOrder(order, amounts.keys);
              var widths := ArcWidths(AmountsOf(amounts, keys), settings.archGapAngle, |amounts.keys|,
                                      settings.maxAngle);
              (r.Err? <==> widths.Err?) && (r.Err? ==> r.error == widths.error) &&
              (r.Ok? ==> elements.Some? && Generated(data, keys, widths.value, settings, labelMapping, elements.value))
      ensures r.Err? ==> elements == old(elements)
    {
      var g := Generate(data, amounts, order, settings, labelMapping);
      if g.Err? {
        return Err(g.error);
      }
      elements := Some(g.value);
      r := Ok(());
    }

    /** `get_arch`: generate first if nothing was generated yet, then look
        the entity up (a KeyError when it has no arch). */
    method GetArch(key: string) returns (r: Result<TestElements.Arch>)
      requires Valid()
      modifies this
      ensures unchanged(this`data, this`amounts, this`order, this`settings, this`labelMapping)
      ensures old(elements).Some? ==> elements == old(elements)
      ensures elements.Some? ==> r == Lookup(elements.value.arches, key)
      ensures elements.None? ==> r.Err? && (r.error == ValueError || r.error == ZeroDivisionError)
      ensures old(elements).None? ==>
                var keys := LayoutOrder(order, amounts.keys);
                var widths := ArcWidths(AmountsOf(amounts, keys), settings.archGapAngle, |amounts.keys|,
                                        settings.maxAngle);
                (elements.None? <==> widths.Err?) && (widths.Err? ==> r == Err(widths.error)) &&
                (elements.Some? ==> Generated(data, keys, widths.value, settings, labelMapping, elements.value))
    {
      if elements.None? {
        var g := GenerateElements();
        if g.Err? {
          return Err(g.error);
        }
      }
      r := Lookup(elements.value.arches, key);
    }

    /** `get_ribbon`: the same for the ribbon stored under
        `f"{entry}-{index}"`. */
    method GetRibbon(entry: FlowRecord, index: nat) returns (r: Result<TestElements.Ribbon>)
      requires Valid()
      modifies this
      ensures unchanged(this`data, this`amounts, this`order, this`settings, this`labelMapping)
      ensures old(elements).Some? ==> elements == old(elements)
      ensures elements.Some? ==> r == Lookup(elements.value.ribbons, RibbonKey(entry, index))
      ensures elements.None? ==> r.Err? && (r.error == ValueError || r.error == ZeroDivisionError)
      ensures old(elements).None? ==>
                var keys := LayoutOrder(order, amounts.keys);
                var widths := ArcWidths(AmountsOf(amounts, keys), settings.archGapAngle, |amounts.keys|,
                                        settings.maxAngle);
                (elements.None? <==> widths.Err?) && (widths.Err? ==> r == Err(widths.error)) &&
                (elements.Some? ==> Generated(data, keys, widths.value, settings, labelMapping, elements.value))
    {
      if elements.None? {
        var g := GenerateElements();
        if g.Err? {
          return Err(g.error);
        }
      }
      r := Lookup(elements.value.ribbons, RibbonKey(entry, index));
    }

    /** `get_arch_label`: the same for the label of an entity. */
    method GetArchLabel(key: string) returns (r: Result<Elements.ArchLabel>)
      requires Valid()
      modifies this
      ensures unchanged(this`data, this`amounts, this`order, this`settings, this`labelMapping)
      ensures old(elements).Some? ==> elements == old(elements)
      ensures elements.Some? ==> r == Lookup(elements.value.labels, key)
      ensures elements.None? ==> r.Err? && (r.error == ValueError || r.error == ZeroDivisionError)
      ensures old(elements).None? ==>
                var keys := LayoutOrder(order, amounts.keys);
                var widths := ArcWidths(AmountsOf(amounts, keys), settings.archGapAngle, |amounts.keys|,
                                        settings.maxAngle);
                (elements.None? <==> widths.Err?) && (widths.Err? ==> r == Err(widths.error)) &&
                (elements.Some? ==> Generated(data, keys, widths.value, settings, labelMapping, elements.value))
    {
      if elements.None? {
        var g := GenerateElements();
        if g.Err? {
          return Err(g.error);
        }
      }
      r := Lookup(elements.value.labels, key);
    }

    /** `update_arch`: the options given override the arch options of the
        next generation; the arches already generated are not touched. */
    method UpdateArch(extra: Options)
      modifies this`settings
      ensures settings == old(settings).(archKwargs := MergeOptions(old(settings).archKwargs, extra))
    {
      settings := settings.(archKwargs := MergeOptions(settings.archKwargs, extra));
    }

    /** `update_ribbons`, in the same way for the ribbon options. */
    method UpdateRibbons(extra: Options)
      modifies this`settings
      ensures settings == old(settings).(ribbonKwargs := MergeOptions(old(settings).ribbonKwargs, extra))
    {
      settings := settings.(ribbonKwargs := MergeOptions(settings.ribbonKwargs, extra));
    }

    /** `update_arch_labels`, in the same way for the label options. */
    method UpdateArchLabels(extra: Options)
      modifies this`settings
      ensures settings == old(settings).(archLabelKwargs := MergeOptions(old(settings).archLabelKwargs, extra))
    {
      settings := settings.(archLabelKwargs := MergeOptions(settings.archLabelKwargs, extra));
    }

    /** `map_arch_labels`: the mapping replaces the previous one and is read
        by the next generation. */
    method MapArchLabels(mapping: map<string, string>)
      modifies this`labelMapping
      ensures labelMapping == mapping
    {
      labelMapping := mapping;
    }
  }
}
