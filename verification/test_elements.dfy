/** The second generation of the drawing elements and their track: arches
    whose ribbons register as inputs (ribbons starting there) and outputs
    (ribbons ending there), ribbons that bend through the origin, labels,
    and the track that lays everything out from a list of flows. */
module TestElements {
  import opened Common
  import opened Scheduler
  import opened Paths
  import opened Layout
  import Elements

  /** An arch: a band of the rim between `startAngle` and `endAngle`, with
      the ribbons leaving it (`inputs`) and arriving at it (`outputs`), each
      an insertion-ordered dictionary from ribbon to amount. */
  class Arch {
    const radius: real
    const startAngle: real
    const endAngle: real
    const height: real
    var kwargs: Options
    var centerSetting: Option<Point>
    var visible: bool
    var inputs: seq<(Ribbon, real)>
    var outputs: seq<(Ribbon, real)>

    /** Each registry is a dictionary: no ribbon twice in one of them. */
    ghost predicate Valid()
      reads this
    {
      DistinctKeys(inputs) && DistinctKeys(outputs)
    }

    /** No registered amount is negative. */
    ghost predicate NonNegativeAmounts()
      reads this
    {
      (forall i :: 0 <= i < |inputs| ==> inputs[i].1 >= 0.0) &&
      (forall i :: 0 <= i < |outputs| ==> outputs[i].1 >= 0.0)
    }

    constructor(radius: real, startAngle: real, endAngle: real, height: real, kwargs: Options)
      ensures this.radius == radius && this.startAngle == startAngle
      ensures this.endAngle == endAngle && this.height == height
      ensures this.kwargs == kwargs && centerSetting == None && visible
      ensures inputs == [] && outputs == []
      ensures Valid()
    {
      this.radius := radius;
      this.startAngle := startAngle;
      this.endAngle := endAngle;
      this.height := height;
      this.kwargs := kwargs;
      centerSetting := None;
      visible := true;
      inputs := [];
      outputs := [];
    }

    /** The angle the arch covers: from `startAngle` over `a` degrees to
        `endAngle`. */
    function Angle(): (a: real)
      ensures startAngle + a == endAngle
    {
      endAngle - startAngle
    }

    /** The centre, (0, 0) until one is set. */
    function Center(): (c: Point)
      reads this
      ensures centerSetting.None? ==> c == Origin
      ensures centerSetting.Some? ==> c == centerSetting.value
    {
      CenterOr(centerSetting)
    }

    /** `arch.center = c`, as the other track assigns it. */
    method SetCenter(c: Point)
      modifies this`centerSetting
      ensures centerSetting == Some(c) && Center() == c
      ensures kwargs == old(kwargs) && visible == old(visible)
      ensures inputs == old(inputs) && outputs == old(outputs)
    {
      centerSetting := Some(c);
    }

    /** `update(**extra)`: the new options win, the others stay. */
    method Update(extra: Options)
      modifies this`kwargs
      ensures kwargs == MergeOptions(old(kwargs), extra)
      ensures centerSetting == old(centerSetting) && visible == old(visible)
      ensures inputs == old(inputs) && outputs == old(outputs)
    {
      kwargs := MergeOptions(kwargs, extra);
    }

    method Hide()
      modifies this`visible
      ensures !visible
      ensures kwargs == old(kwargs) && centerSetting == old(centerSetting)
      ensures inputs == old(inputs) && outputs == old(outputs)
    {
      visible := false;
    }

    method Show()
      modifies this`visible
      ensures visible
      ensures kwargs == old(kwargs) && centerSetting == old(centerSetting)
      ensures inputs == old(inputs) && outputs == old(outputs)
    {
      visible := true;
    }

    /** Register `ribbon` as leaving this arch: a new ribbon is appended, a
        registered one keeps its place and takes the new amount. */
    method AddInputRibbon(ribbon: Ribbon, amount: real)
      modifies this
      requires Valid()
      ensures inputs == Put(old(inputs), ribbon, amount)
      ensures Get(inputs, ribbon) == Some(amount)
      ensures outputs == old(outputs) && kwargs == old(kwargs)
      ensures centerSetting == old(centerSetting) && visible == old(visible)
      ensures Valid()
    {
      GetPut(inputs, ribbon, amount, ribbon);
      inputs := Put(inputs, ribbon, amount);
    }

    /** Register `ribbon` as arriving at this arch, with the same rules. */
    method AddOutputRibbon(ribbon: Ribbon, amount: real)
      modifies this
      requires Valid()
      ensures outputs == Put(old(outputs), ribbon, amount)
      ensures Get(outputs, ribbon) == Some(amount)
      ensures inputs == old(inputs) && kwargs == old(kwargs)
      ensures centerSetting == old(centerSetting) && visible == old(visible)
      ensures Valid()
    {
      GetPut(outputs, ribbon, amount, ribbon);
      outputs := Put(outputs, ribbon, amount);
    }

    /** `get_order`: the share of the arch's angle of every input and of
        every output, in registration order. */
    function GetOrder(): (r: Result<(seq<real>, seq<real>)>)
      reads this
      ensures r.Err? <==> (inputs + outputs != [] &&
                           Sum(ValuesOf(inputs) + ValuesOf(outputs)) == 0.0)
      ensures r.Ok? ==> |r.value.0| == |inputs| && |r.value.1| == |outputs|
    {
      Scheduler.GetOrder(ValuesOf(inputs), ValuesOf(outputs), Angle())
    }

    /** Where `node` meets this arch: inputs are packed from `startAngle`,
        outputs after the whole input block. A ribbon not registered in the
        asked direction is an AttributeError. */
    function AngleOf(node: Ribbon, isOutput: bool): (r: Result<Span>)
      reads this
      ensures GetOrder().Err? ==> r == Err(ZeroDivisionError)
      ensures GetOrder().Ok? ==>
        (r == Err(AttributeError) <==> node !in KeysOf(if isOutput then outputs else inputs))
    {
      ArchSlot(inputs, outputs, true, Angle(), startAngle, node, isOutput)
    }

    /** `get_angle`: the widths first, then the cursor walk over one
        registry. */
    method GetAngle(node: Ribbon, isOutput: bool) returns (r: Result<Span>)
      ensures r == AngleOf(node, isOutput)
    {
      r := FindSlot(inputs, outputs, true, Angle(), startAngle, node, isOutput);
    }
  }

  /** The fixed geometry of an arch. */
  function Geometry(a: Arch): ArchGeometry
  {
    ArchGeometry(a.radius, a.startAngle, a.endAngle)
  }

  /** With non-negative amounts over a non-negative angle, every ribbon's
      slot lies on the arch. */
  lemma ArchSlotsOnArch(a: Arch, node: Ribbon, isOutput: bool)
    requires a.NonNegativeAmounts() && a.Angle() >= 0.0
    requires a.AngleOf(node, isOutput).Ok?
    ensures a.startAngle <= a.AngleOf(node, isOutput).value.start
    ensures a.AngleOf(node, isOutput).value.end <= a.endAngle
  {
    ArchSlotWithin(a.inputs, a.outputs, true, a.Angle(), a.startAngle, node, isOutput);
  }

  /** Every input slot ends before any output slot starts. */
  lemma InputsBeforeOutputs(a: Arch, input: Ribbon, output: Ribbon)
    requires a.NonNegativeAmounts() && a.Angle() >= 0.0
    requires a.AngleOf(input, false).Ok? && a.AngleOf(output, true).Ok?
    ensures a.AngleOf(input, false).value.end <= a.AngleOf(output, true).value.start
  {
    LeadingBeforeTrailing(a.inputs, a.outputs, true, a.Angle(), a.startAngle, input, output);
  }

  /** The first input's slot starts at `startAngle`. */
  lemma FirstInputAtStart(a: Arch)
    requires a.GetOrder().Ok? && a.inputs != []
    ensures a.AngleOf(a.inputs[0].0, false).Ok?
    ensures a.AngleOf(a.inputs[0].0, false).value.start == a.startAngle
  {
    FirstSlotAtStart(a.inputs, a.outputs, true, a.Angle(), a.startAngle);
  }

  /** The last output's slot ends at `endAngle`: together the slots fill
      the arch. */
  lemma LastOutputAtEnd(a: Arch)
    requires a.Valid() && a.GetOrder().Ok? && a.outputs != []
    ensures a.AngleOf(a.outputs[|a.outputs| - 1].0, true).Ok?
    ensures a.AngleOf(a.outputs[|a.outputs| - 1].0, true).value.end == a.endAngle
  {
    LastSlotAtEnd(a.inputs, a.outputs, true, a.Angle(), a.startAngle);
  }

  /** A ribbon from its start arch, where it is an input, through the
      origin (0, 0), to its end arch, where it is an output. */
  class Ribbon {
    const startArch: Arch
    const endArch: Arch
    var startMargin: real
    var endMargin: real
    var startRadiusSetting: Option<real>
    var endRadiusSetting: Option<real>
    var kwargs: Options
    var patch: Option<Elements.PathPatch>
    var centerSetting: Option<Point>
    var visible: bool

    constructor(startArch: Arch, endArch: Arch, startRadius: Option<real>, endRadius: Option<real>,
                startMargin: real, endMargin: real, kwargs: Options)
      ensures this.startArch == startArch && this.endArch == endArch
      ensures startRadiusSetting == startRadius && endRadiusSetting == endRadius
      ensures this.startMargin == startMargin && this.endMargin == endMargin
      ensures this.kwargs == kwargs && patch == None && centerSetting == None && visible
    {
      this.startArch := startArch;
      this.endArch := endArch;
      this.startMargin := startMargin;
      this.endMargin := endMargin;
      startRadiusSetting := startRadius;
      endRadiusSetting := endRadius;
      this.kwargs := kwargs;
      patch := None;
      centerSetting := None;
      visible := true;
    }

    /** The radius at the start end: the start arch's own unless given. */
    function StartRadius(): (r: real)
      reads this
      ensures startRadiusSetting.None? ==> r == startArch.radius
      ensures startRadiusSetting.Some? ==> r == startRadiusSetting.value
    {
      ValueOr(startRadiusSetting, startArch.radius)
    }

    /** The same for the end. */
    function EndRadius(): (r: real)
      reads this
      ensures endRadiusSetting.None? ==> r == endArch.radius
      ensures endRadiusSetting.Some? ==> r == endRadiusSetting.value
    {
      ValueOr(endRadiusSetting, endArch.radius)
    }

    function Center(): (c: Point)
      reads this
      ensures centerSetting.None? ==> c == Origin
      ensures centerSetting.Some? ==> c == centerSetting.value
    {
      CenterOr(centerSetting)
    }

    /** `ribbon.center = c`, as the other track assigns it. */
    method SetCenter(c: Point)
      modifies this`centerSetting
      ensures centerSetting == Some(c)
      ensures kwargs == old(kwargs) && patch == old(patch) && visible == old(visible)
      ensures startRadiusSetting == old(startRadiusSetting) && endRadiusSetting == old(endRadiusSetting)
      ensures startMargin == old(startMargin) && endMargin == old(endMargin)
    {
      centerSetting := Some(c);
    }

    method Update(extra: Options)
      modifies this`kwargs
      ensures kwargs == MergeOptions(old(kwargs), extra)
      ensures centerSetting == old(centerSetting) && patch == old(patch) && visible == old(visible)
      ensures startRadiusSetting == old(startRadiusSetting) && endRadiusSetting == old(endRadiusSetting)
      ensures startMargin == old(startMargin) && endMargin == old(endMargin)
    {
      kwargs := MergeOptions(kwargs, extra);
    }

    /** `get_points`: the points the drawing library samples along the arc
        from `start` to `end` at the effective radius, around the ribbon's
        own centre. */
    function GetPoints(start: real, end: real, radius: real, margin: real, archHeight: real,
                       sampler: WedgeArc -> seq<Point>): seq<Point>
      reads this
    {
      sampler(WedgeArc(Center(), EffectiveRadius(radius, margin, archHeight), start, end, None))
    }

    /** The static `get_path`: the closed outline with both bend points at
        the origin. */
    static method GetPath(startLoc: seq<Point>, endLoc: seq<Point>) returns (r: Result<RibbonPath>)
      ensures startLoc == [] ==> r == Err(IndexError)
      ensures startLoc != [] ==> r == Ok(ClosedRibbon(startLoc, endLoc, Origin))
    {
      r := BuildPath(startLoc, endLoc, Origin);
    }

    /** The outline `patch` draws: its input slot on the start arch and its
        output slot on the end arch, sampled and joined through the origin.
        Either lookup failing fails the whole. */
    function PatchPath(sampler: WedgeArc -> seq<Point>): (r: Result<RibbonPath>)
      reads this, startArch, endArch
      ensures startArch.AngleOf(this, false).Err? ==> r == Err(startArch.AngleOf(this, false).error)
      ensures startArch.AngleOf(this, false).Ok? && endArch.AngleOf(this, true).Err? ==>
        r == Err(endArch.AngleOf(this, true).error)
      ensures r.Ok? ==> startArch.AngleOf(this, false).Ok? && endArch.AngleOf(this, true).Ok?
    {
      match startArch.AngleOf(this, false)
      case Err(e) => Err(e)
      case Ok(sp) =>
        match endArch.AngleOf(this, true)
        case Err(e) => Err(e)
        case Ok(ep) =>
          var s := GetPoints(sp.start, sp.end, StartRadius(), startMargin, startArch.height, sampler);
          var e := GetPoints(ep.start, ep.end, EndRadius(), endMargin, endArch.height, sampler);
          if s == [] then Err(IndexError) else Ok(ClosedRibbon(s, e, Origin))
    }

    /** The `patch` property: built once, then the same outline every time. */
    method Patch(sampler: WedgeArc -> seq<Point>) returns (r: Result<Elements.PathPatch>)
      modifies this
      ensures old(patch).Some? ==> r == Ok(old(patch).value) && patch == old(patch)
      ensures old(patch).None? ==>
        r == (match old(PatchPath(sampler))
              case Err(e) => Err(e)
              case Ok(p) => Ok(Elements.PathPatch(p, kwargs)))
      ensures r.Ok? ==> patch == Some(r.value)
      ensures r.Err? ==> patch == None
      ensures kwargs == old(kwargs) && centerSetting == old(centerSetting) && visible == old(visible)
      ensures startRadiusSetting == old(startRadiusSetting) && endRadiusSetting == old(endRadiusSetting)
      ensures startMargin == old(startMargin) && endMargin == old(endMargin)
    {
      if patch.Some? {
        return Ok(patch.value);
      }
      var startSpan := startArch.GetAngle(this, false);
      if startSpan.Err? {
        return Err(startSpan.error);
      }
      var endSpan := endArch.GetAngle(this, true);
      if endSpan.Err? {
        return Err(endSpan.error);
      }
      var sp := GetPoints(startSpan.value.start, startSpan.value.end, StartRadius(), startMargin,
                          startArch.height, sampler);
      var ep := GetPoints(endSpan.value.start, endSpan.value.end, EndRadius(), endMargin,
                          endArch.height, sampler);
      var pt := GetPath(sp, ep);
      if pt.Err? {
        return Err(pt.error);
      }
      r := Ok(Elements.PathPatch(pt.value, kwargs));
      patch := Some(r.value);
    }
  }

  /** A ribbon registered where its patch looks for it (an input of its
      start arch, an output of its end arch) never meets the "wrong
      direction" error. */
  lemma RegisteredNoDirectionError(rb: Ribbon, sampler: WedgeArc -> seq<Point>)
    requires rb in KeysOf(rb.startArch.inputs) && rb in KeysOf(rb.endArch.outputs)
    ensures rb.PatchPath(sampler) != Err(AttributeError)
  {
  }

  /** The rotation of a label at angle `a`: from 90 up to (not including)
      270 degrees the text is turned half a turn so it does not read upside
      down. */
  function HalfTurn(a: real): (r: real)
    ensures 90.0 <= a < 270.0 ==> r == a - 180.0
    ensures !(90.0 <= a < 270.0) ==> r == a
  {
    if 180.0 > a >= 90.0 then -Elements.Abs(180.0 - a)
    else if 270.0 > a >= 180.0 then Elements.Abs(180.0 - a)
    else a
  }

  /** For a label angle on the circle, the turned rotation points into the
      right half: within 90 degrees of upright reading direction. */
  lemma HalfTurnUpright(a: real)
    requires 0.0 <= a < 360.0
    ensures var r := HalfTurn(a);
      (-90.0 <= r < 90.0) || (270.0 <= r < 360.0)
  {
  }

  /** A label next to its arch. */
  class ArchLabel {
    const archKey: string
    const arch: Arch
    var rotate: bool
    var textSetting: Option<string>
    var radiusSetting: Option<real>
    var angleSetting: Option<real>
    var haSetting: Option<string>
    var vaSetting: Option<string>
    var addArrow: bool
    var arrowStyle: string
    var arrowLabelXFactor: real
    var arrowLabelYFactor: real
    var rotationMode: string
    var kwargs: Options
    var visible: bool

    constructor(archKey: string, arch: Arch)
      ensures this.archKey == archKey && this.arch == arch
      ensures rotate && textSetting == None && radiusSetting == None && angleSetting == None
      ensures haSetting == None && vaSetting == None
      ensures !addArrow && arrowStyle == "->" && rotationMode == "anchor"
      ensures arrowLabelXFactor == 1.2 && arrowLabelYFactor == 1.2
      ensures kwargs == map[] && visible
    {
      this.archKey := archKey;
      this.arch := arch;
      rotate := true;
      textSetting := None;
      radiusSetting := None;
      angleSetting := None;
      haSetting := None;
      vaSetting := None;
      addArrow := false;
      arrowStyle := "->";
      arrowLabelXFactor := 1.2;
      arrowLabelYFactor := 1.2;
      rotationMode := "anchor";
      kwargs := map[];
      visible := true;
    }

    /** Distance of the label from the centre: 2% beyond the arch's radius
        unless set. */
    function Radius(): (r: real)
      reads this
      ensures radiusSetting.None? ==> r == arch.radius * 1.02
      ensures radiusSetting.Some? ==> r == radiusSetting.value
    {
      ValueOr(radiusSetting, arch.radius * 1.02)
    }

    /** The label's angle: the middle of the arch unless set. */
    function Angle(): (a: real)
      reads this
      ensures angleSetting.None? ==> a - arch.startAngle == arch.endAngle - a
      ensures angleSetting.Some? ==> a == angleSetting.value
    {
      ValueOr(angleSetting, arch.startAngle + (arch.endAngle - arch.startAngle) / 2.0)
    }

    /** The text shown: the arch's key unless set. */
    function Text(): (t: string)
      reads this
      ensures textSetting.None? ==> t == archKey
      ensures textSetting.Some? ==> t == textSetting.value
    {
      ValueOr(textSetting, archKey)
    }

    /** Horizontal alignment at abscissa `x`, by its sign: right of the
        vertical axis aligned left, left of it aligned right. */
    function Ha(x: real): (h: string)
      reads this
      ensures haSetting.Some? ==> h == haSetting.value
      ensures haSetting.None? ==>
        (h == "right" <==> x < 0.0) && (h == "left" <==> x > 0.0) && (h == "center" <==> x == 0.0)
    {
      if haSetting.Some? then haSetting.value
      else if x < 0.0 then "right" else if x > 0.0 then "left" else "center"
    }

    /** Vertical alignment: centred unless set. */
    function Va(): (v: string)
      reads this
      ensures vaSetting.None? ==> v == "center"
      ensures vaSetting.Some? ==> v == vaSetting.value
    {
      ValueOr(vaSetting, "center")
    }

    /** The rotation handed to the annotation: none when rotation is off,
        the set angle when there is one, else the turned default angle. */
    function Rotation(): (r: Option<real>)
      reads this
      ensures !rotate <==> r.None?
      ensures rotate && angleSetting.Some? ==> r == angleSetting
      ensures rotate && angleSetting.None? ==> r == Some(HalfTurn(Angle()))
    {
      if !rotate then None
      else if angleSetting.Some? then angleSetting
      else Some(HalfTurn(Angle()))
    }

    method Update(extra: Options)
      modifies this`kwargs
      ensures kwargs == MergeOptions(old(kwargs), extra)
      ensures rotate == old(rotate) && textSetting == old(textSetting)
      ensures radiusSetting == old(radiusSetting) && angleSetting == old(angleSetting)
      ensures addArrow == old(addArrow) && visible == old(visible)
    {
      kwargs := MergeOptions(kwargs, extra);
    }

    /** The connection style of the arrow: always the angled one, bent to
        `angle`. */
    static function GetConnectionStyle(angle: real): (s: Elements.ConnectionStyle)
      ensures s.AngleArc? && s.angleB == angle
    {
      Elements.AngleArc(angle)
    }
  }

  // --------------------------------------------------------------- track

  /** The settings of a track that the caller may reassign before the
      elements are generated. */
  datatype TrackSettings = TrackSettings(
    archGapAngle: real, archHeight: real, archAlpha: real, archKwargs: Options,
    rotation: real, radius: real, hideRibbons: bool, hideArchLabels: bool,
    ribbonStartMargin: real, ribbonEndMargin: real, ribbonColorFromSource: bool,
    ribbonAlpha: real, ribbonKwargs: Options,
    archLabelArrows: bool, archLabelRotate: bool, archLabelKwargs: Options)

  /** The settings a new track starts with. */
  const DefaultSettings := TrackSettings(10.0, 0.1, 1.0, map[], 0.0, 1.0, false, false,
                                         0.1, 0.1, true, 0.6, map[], false, true, map[])

  /** The options a generated arch is created with: the arch alpha, then the
      track's arch options over it. */
  function ArchOptions(s: TrackSettings): Options
  {
    MergeOptions(map["alpha" := Number(s.archAlpha)], s.archKwargs)
  }

  /** The options a generated ribbon is created with. */
  function RibbonOptions(s: TrackSettings): Options
  {
    MergeOptions(map["alpha" := Number(s.ribbonAlpha)], s.ribbonKwargs)
  }

  /** The arch a label is attached to. */
  function LabelArch(l: ArchLabel): Arch
  {
    l.arch
  }

  /** No value is stored twice: no arch serves two entities. */
  ghost predicate OneKeyEach<K, V>(d: seq<(K, V)>)
  {
    forall i, j :: 0 <= i < j < |d| ==> d[i].1 != d[j].1
  }

  /** Storing a value that is not stored yet keeps every value under one key. */
  lemma PutNewValue<K, V>(d: seq<(K, V)>, k: K, v: V)
    requires OneKeyEach(d) && forall p :: p in d ==> p.1 != v
    ensures OneKeyEach(Put(d, k, v))
  {
    var r := Put(d, k, v);
    forall i, j | 0 <= i < j < |r|
      ensures r[i].1 != r[j].1
    {
      assert r[i] in r && r[j] in r;
      PutEntries(d, k, v);
      if r[i].1 == v {
        assert r[i] == (k, v);
      }
    }
  }

  /** What a generation sets on every arch besides its geometry and its
      registries: the height, the options and the centre. */
  datatype ArchStyle = ArchStyle(height: real, kwargs: Options, center: Option<Point>)

  /** This track's arches: its height and arch options, no centre of
      their own. */
  function StyleOf(s: TrackSettings): ArchStyle
  {
    ArchStyle(s.archHeight, ArchOptions(s), None)
  }

  /** An arch with the style of its generation, shown. */
  ghost predicate ArchSettled(a: Arch, style: ArchStyle)
    reads a
  {
    a.height == style.height && a.kwargs == style.kwargs && a.centerSetting == style.center && a.visible
  }

  /** An arch as the arch loop leaves it: settled, with no ribbon
      registered. */
  ghost predicate Unregistered(a: Arch, style: ArchStyle)
    reads a
  {
    ArchSettled(a, style) && a.inputs == [] && a.outputs == []
  }

  /** A label as the arch loop leaves it: for entity `key`, with the
      track's arrow, rotation and label options. */
  ghost predicate LabelSet(l: ArchLabel, key: string, s: TrackSettings)
    reads l
  {
    l.archKey == key && l.addArrow == s.archLabelArrows &&
    l.rotate == s.archLabelRotate && l.kwargs == MergeOptions(map[], s.archLabelKwargs)
  }

  /** One round of the arch loop: the arch from `start` over `width`, and
      its label. */
  method NewArchAndLabel(key: string, start: real, width: real, s: TrackSettings)
    returns (a: Arch, arl: ArchLabel)
    ensures fresh(a) && fresh(arl)
    ensures Geometry(a) == ArchGeometry(s.radius, start, start + width)
    ensures Unregistered(a, StyleOf(s))
    ensures arl.arch == a && LabelSet(arl, key, s)
  {
    a := new Arch(s.radius, start, start + width, s.archHeight, ArchOptions(s));
    arl := new ArchLabel(key, a);
    arl.addArrow := s.archLabelArrows;
    arl.rotate := s.archLabelRotate;
    arl.Update(s.archLabelKwargs);
  }

  /** Storing arch `i` under its entity extends the laid-out geometry by
      one round. */
  lemma LaidOutStep(allArc: seq<(string, Arch)>, keys: seq<string>, widths: seq<real>, gap: real,
                    rotation: real, radius: real, i: nat, a: Arch)
    requires i < |keys| == |widths|
    requires MapValues(allArc, Geometry) == ArchLayout(keys, widths, gap, rotation, radius, i)
    requires Geometry(a) == ArchGeometry(radius, CursorAt(widths, gap, rotation, i),
                                         CursorAt(widths, gap, rotation, i) + widths[i])
    ensures MapValues(Put(allArc, keys[i], a), Geometry) == ArchLayout(keys, widths, gap, rotation, radius, i + 1)
  {
    MapValuesPut(allArc, keys[i], a, Geometry);
    ArchLayoutNext(keys, widths, gap, rotation, radius, i);
  }

  /** Storing a new arch and its label under the same entity keeps the
      dictionaries in step: one entry per entity, no arch under two
      entities, the label of each entity attached to its arch. */
  lemma StoreStep(allArc: seq<(string, Arch)>, allLabels: seq<(string, ArchLabel)>, key: string,
                  a: Arch, arl: ArchLabel)
    requires DistinctKeys(allArc) && OneKeyEach(allArc) && MapValues(allLabels, LabelArch) == allArc
    requires (forall p :: p in allArc ==> p.1 != a) && arl.arch == a
    ensures DistinctKeys(Put(allArc, key, a)) && OneKeyEach(Put(allArc, key, a))
    ensures MapValues(Put(allLabels, key, arl), LabelArch) == Put(allArc, key, a)
    ensures forall p :: p in Put(allArc, key, a) ==> p in allArc || p == (key, a)
    ensures forall p :: p in Put(allLabels, key, arl) ==> p in allLabels || p == (key, arl)
  {
    MapValuesPut(allLabels, key, arl, LabelArch);
    PutEntries(allArc, key, a);
    PutEntries(allLabels, key, arl);
    PutNewValue(allArc, key, a);
  }

  /** `current += widths[i] + gap`, then `current %= 360` once past 360:
      from the cursor of arch `i` to that of arch `i + 1`. */
  method Advance(widths: seq<real>, gap: real, rotation: real, i: nat, current: real) returns (next: real)
    requires i < |widths| && current == CursorAt(widths, gap, rotation, i)
    ensures next == CursorAt(widths, gap, rotation, i + 1)
  {
    next := current + (widths[i] + gap);
    if next >= 360.0 {
      next := RealMod(next, 360.0);
    }
  }

  /** What the arch loop has built after `i` rounds, apart from the state
      of the new objects: the cursor of arch `i`, the geometry of the first
      `i` rounds, one entry per entity and one entity per arch, and each
      label attached to its entity's arch. */
  ghost predicate ArchesBuilt(keys: seq<string>, widths: seq<real>, s: TrackSettings, i: nat, current: real,
                              allArc: seq<(string, Arch)>, allLabels: seq<(string, ArchLabel)>)
  {
    i <= |keys| == |widths| &&
    current == CursorAt(widths, s.archGapAngle, s.rotation, i) &&
    MapValues(allArc, Geometry) == ArchLayout(keys, widths, s.archGapAngle, s.rotation, s.radius, i) &&
    DistinctKeys(allArc) && OneKeyEach(allArc) &&
    MapValues(allLabels, LabelArch) == allArc
  }

  /** The state the arch loop leaves its new objects in: every arch
      unregistered, every label set up for its entity. */
  ghost predicate ArchesFresh(allArc: seq<(string, Arch)>, allLabels: seq<(string, ArchLabel)>, s: TrackSettings)
    reads set p | p in allArc :: p.1, set p | p in allLabels :: p.1
  {
    (forall p :: p in allArc ==> Unregistered(p.1, StyleOf(s))) &&
    (forall p :: p in allLabels ==> LabelSet(p.1, p.0, s))
  }

  /** Storing a new unregistered arch and its label keeps the new objects
      in the state the arch loop leaves them in. */
  lemma FreshStep(allArc: seq<(string, Arch)>, allLabels: seq<(string, ArchLabel)>, key: string,
                  a: Arch, arl: ArchLabel, s: TrackSettings)
    requires ArchesFresh(allArc, allLabels, s) && Unregistered(a, StyleOf(s)) && LabelSet(arl, key, s)
    ensures ArchesFresh(Put(allArc, key, a), Put(allLabels, key, arl), s)
  {
    PutEntries(allArc, key, a);
    PutEntries(allLabels, key, arl);
  }

  /** Round `i` of the arch loop: the arch for entity `i` and its label,
      stored under the entity, and the cursor moved on. */
  method ArchRound(keys: seq<string>, widths: seq<real>, s: TrackSettings, i: nat, current: real,
                   allArc: seq<(string, Arch)>, allLabels: seq<(string, ArchLabel)>)
    returns (next: real, arcs: seq<(string, Arch)>, labels: seq<(string, ArchLabel)>)
    requires i < |keys| && ArchesBuilt(keys, widths, s, i, current, allArc, allLabels)
    requires ArchesFresh(allArc, allLabels, s)
    ensures ArchesBuilt(keys, widths, s, i + 1, next, arcs, labels)
    ensures ArchesFresh(arcs, labels, s)
    ensures forall p :: p in arcs ==> p in allArc || fresh(p.1)
    ensures forall p :: p in labels ==> p in allLabels || fresh(p.1)
  {
    next := Advance(widths, s.archGapAngle, s.rotation, i, current);
    var a, arl := NewArchAndLabel(keys[i], current, widths[i], s);
    assert ArchesFresh(allArc, allLabels, s);
    FreshStep(allArc, allLabels, keys[i], a, arl, s);
    LaidOutStep(allArc, keys, widths, s.archGapAngle, s.rotation, s.radius, i, a);
    StoreStep(allArc, allLabels, keys[i], a, arl);
    arcs := Put(allArc, keys[i], a);
    labels := Put(allLabels, keys[i], arl);
  }

  /** Before the first round nothing is laid out and the cursor is at the
      rotation. */
  lemma NoArchesYet(keys: seq<string>, widths: seq<real>, s: TrackSettings)
    requires |keys| == |widths|
    ensures ArchesBuilt(keys, widths, s, 0, s.rotation, [], [])
    ensures ArchesFresh([], [], s)
  {
    var noArches: seq<(string, Arch)> := [];
    var noLabels: seq<(string, ArchLabel)> := [];
    assert MapValues(noArches, Geometry) == [];
    assert MapValues(noLabels, LabelArch) == [];
  }

  /** The arch loop of `generate_elements`: for each entity in turn an arch
      from the cursor over its width and a label for it, the cursor then
      moving on by the width and the gap and brought back into the circle
      once past 360. A repeated entity keeps its first place and takes the
      later arch. */
  method BuildArches(keys: seq<string>, widths: seq<real>, s: TrackSettings)
    returns (allArc: seq<(string, Arch)>, allLabels: seq<(string, ArchLabel)>)
    requires |keys| == |widths|
    ensures ArchesBuilt(keys, widths, s, |keys|, CursorAt(widths, s.archGapAngle, s.rotation, |keys|),
                        allArc, allLabels)
    ensures ArchesFresh(allArc, allLabels, s)
    ensures forall p :: p in allArc ==> fresh(p.1)
    ensures forall p :: p in allLabels ==> fresh(p.1)
  {
    var current := s.rotation;
    allArc := [];
    allLabels := [];
    NoArchesYet(keys, widths, s);
    var i := 0;
    while i < |keys|
      invariant 0 <= i <= |keys|
      invariant ArchesBuilt(keys, widths, s, i, current, allArc, allLabels)
      invariant ArchesFresh(allArc, allLabels, s)
      invariant forall p :: p in allArc ==> fresh(p.1)
      invariant forall p :: p in allLabels ==> fresh(p.1)
    {
      current, allArc, allLabels := ArchRound(keys, widths, s, i, current, allArc, allLabels);
      i := i + 1;
    }
  }

  /** The keys `f"{d}-{i}"` of the ribbons of `data`, in flow order. */
  function FlowKeys(data: seq<FlowRecord>): seq<RibbonKey>
  {
    seq(|data|, n requires 0 <= n < |data| => RibbonKey(data[n], n))
  }

  /** What the ribbon loop has built after `j` flows, apart from the
      registries: every flow end has an arch, one ribbon per flow so far
      under the flow's key, joining the arches of the flow's ends. */
  ghost predicate RibbonsBuilt(data: seq<FlowRecord>, allArc: seq<(string, Arch)>, j: nat,
                               allRibbons: seq<(RibbonKey, Ribbon)>)
  {
    j <= |data| && DistinctKeys(allArc) && OneKeyEach(allArc) &&
    (forall n :: 0 <= n < |data| ==> data[n].source in KeysOf(allArc) && data[n].destination in KeysOf(allArc)) &&
    KeysOf(allRibbons) == FlowKeys(data[..j]) &&
    forall n :: 0 <= n < j ==>
      Get(allArc, data[n].source) == Some(allRibbons[n].1.startArch) &&
      Get(allArc, data[n].destination) == Some(allRibbons[n].1.endArch)
  }

  /** The registries of the arches after the ribbons `rbsIn` of `dataIn`
      are registered as inputs and the ribbons `rbsOut` of `dataOut` as
      outputs: the arch of each entity holds, in flow order, the ribbons of
      the flows leaving it as inputs and those arriving at it as outputs,
      each with its flow's amount; every arch is still settled. */
  ghost predicate RegisteredSplit(dataIn: seq<FlowRecord>, rbsIn: seq<Ribbon>, dataOut: seq<FlowRecord>,
                                  rbsOut: seq<Ribbon>, allArc: seq<(string, Arch)>, style: ArchStyle)
    requires |rbsIn| == |dataIn| && |rbsOut| == |dataOut|
    reads set p | p in allArc :: p.1
  {
    forall p :: p in allArc ==>
      p.1.Valid() && ArchSettled(p.1, style) &&
      p.1.inputs == Leaving(dataIn, rbsIn, p.0) && p.1.outputs == Arriving(dataOut, rbsOut, p.0)
  }

  /** The registries once the ribbons `rbs` of all of `data` are registered
      at both ends. */
  ghost predicate Registered(data: seq<FlowRecord>, allArc: seq<(string, Arch)>, rbs: seq<Ribbon>, style: ArchStyle)
    requires |rbs| == |data|
    reads set p | p in allArc :: p.1
  {
    RegisteredSplit(data, rbs, data, rbs, allArc, style)
  }

  /** In a dictionary with one key per value, an entry holds a value
      exactly when it is the entry of that value's key. */
  lemma SameArch(allArc: seq<(string, Arch)>, k: string, a: Arch, p: (string, Arch))
    requires DistinctKeys(allArc) && OneKeyEach(allArc) && Get(allArc, k) == Some(a) && p in allArc
    ensures p.1 == a <==> p.0 == k
  {
    GetEntry(allArc, p);
    var i := IndexOf(KeysOf(allArc), k).value;
    assert allArc[i] == (k, a);
  }

  /** Storing the ribbon of flow `j`, between the arches of the flow's
      ends, under its key appends it: no earlier ribbon has that key. */
  lemma RibbonsBuiltStep(data: seq<FlowRecord>, allArc: seq<(string, Arch)>, j: nat,
                         allRibbons: seq<(RibbonKey, Ribbon)>, rb: Ribbon)
    requires j < |data| && RibbonsBuilt(data, allArc, j, allRibbons)
    requires Get(allArc, data[j].source) == Some(rb.startArch)
    requires Get(allArc, data[j].destination) == Some(rb.endArch)
    ensures |allRibbons| == j && data[..j + 1] == data[..j] + [data[j]]
    ensures Put(allRibbons, RibbonKey(data[j], j), rb) == allRibbons + [(RibbonKey(data[j], j), rb)]
    ensures ValuesOf(Put(allRibbons, RibbonKey(data[j], j), rb)) == ValuesOf(allRibbons) + [rb]
    ensures RibbonsBuilt(data, allArc, j + 1, Put(allRibbons, RibbonKey(data[j], j), rb))
  {
    var key := RibbonKey(data[j], j);
    assert |KeysOf(allRibbons)| == |FlowKeys(data[..j])|;
    assert key !in KeysOf(allRibbons);
    var ribbons := allRibbons + [(key, rb)];
    assert KeysOf(ribbons) == KeysOf(allRibbons) + [key];
    assert ValuesOf(ribbons) == ValuesOf(allRibbons) + [rb];
    assert data[..j + 1] == data[..j] + [data[j]];
    assert FlowKeys(data[..j + 1]) == FlowKeys(data[..j]) + [key];
  }

  /** `a2.add_output_ribbon(rb, d.amount)`, `a2` being the arch of the
      destination of `d`: the outputs take one more flow. */
  method RegisterOutput(allArc: seq<(string, Arch)>, style: ArchStyle, ghost dataIn: seq<FlowRecord>, ghost rbsIn: seq<Ribbon>,
                        ghost dataOut: seq<FlowRecord>, ghost rbsOut: seq<Ribbon>, d: FlowRecord, rb: Ribbon, a2: Arch)
    requires |rbsIn| == |dataIn| && |rbsOut| == |dataOut|
    requires DistinctKeys(allArc) && OneKeyEach(allArc) && Get(allArc, d.destination) == Some(a2)
    requires rb !in rbsOut && RegisteredSplit(dataIn, rbsIn, dataOut, rbsOut, allArc, style)
    modifies set p | p in allArc :: p.1
    ensures RegisteredSplit(dataIn, rbsIn, dataOut + [d], rbsOut + [rb], allArc, style)
  {
    RegisteredAreDrawn(dataOut, rbsOut, d.destination, rb);
    a2.AddOutputRibbon(rb, d.amount);
    forall p | p in allArc
      ensures p.1.Valid() && ArchSettled(p.1, style) && p.1.inputs == Leaving(dataIn, rbsIn, p.0)
      ensures p.1.outputs == Arriving(dataOut + [d], rbsOut + [rb], p.0)
    {
      RegistriesStep(dataOut, rbsOut, d, rb, p.0);
      SameArch(allArc, d.destination, a2, p);
    }
  }

  /** `a1.add_input_ribbon(rb, d.amount)`, `a1` being the arch of the
      source of `d`: the inputs take one more flow. */
  method RegisterInput(allArc: seq<(string, Arch)>, style: ArchStyle, ghost dataIn: seq<FlowRecord>, ghost rbsIn: seq<Ribbon>,
                       ghost dataOut: seq<FlowRecord>, ghost rbsOut: seq<Ribbon>, d: FlowRecord, rb: Ribbon, a1: Arch)
    requires |rbsIn| == |dataIn| && |rbsOut| == |dataOut|
    requires DistinctKeys(allArc) && OneKeyEach(allArc) && Get(allArc, d.source) == Some(a1)
    requires rb !in rbsIn && RegisteredSplit(dataIn, rbsIn, dataOut, rbsOut, allArc, style)
    modifies set p | p in allArc :: p.1
    ensures RegisteredSplit(dataIn + [d], rbsIn + [rb], dataOut, rbsOut, allArc, style)
  {
    RegisteredAreDrawn(dataIn, rbsIn, d.source, rb);
    a1.AddInputRibbon(rb, d.amount);
    forall p | p in allArc
      ensures p.1.Valid() && ArchSettled(p.1, style) && p.1.outputs == Arriving(dataOut, rbsOut, p.0)
      ensures p.1.inputs == Leaving(dataIn + [d], rbsIn + [rb], p.0)
    {
      RegistriesStep(dataIn, rbsIn, d, rb, p.0);
      SameArch(allArc, d.source, a1, p);
    }
  }

  /** `a2.add_output_ribbon(rb, d[2])` then `a1.add_input_ribbon(rb, d[2])`:
      both arches of the ends of `d` take its ribbon, the registries of
      every other arch stay as they were. */
  method RegisterFlow(allArc: seq<(string, Arch)>, style: ArchStyle, ghost done: seq<FlowRecord>,
                      ghost rbs: seq<Ribbon>, d: FlowRecord, rb: Ribbon)
    requires |rbs| == |done| && rb !in rbs
    requires DistinctKeys(allArc) && OneKeyEach(allArc)
    requires Get(allArc, d.source) == Some(rb.startArch) && Get(allArc, d.destination) == Some(rb.endArch)
    requires Registered(done, allArc, rbs, style)
    modifies set p | p in allArc :: p.1
    ensures Registered(done + [d], allArc, rbs + [rb], style)
  {
    RegisterOutput(allArc, style, done, rbs, done, rbs, d, rb, rb.endArch);
    RegisterInput(allArc, style, done, rbs, done + [d], rbs + [rb], d, rb, rb.startArch);
  }

  /** Storing the new ribbon `rb` of flow `j` under its key and
      registering it with the arches of the flow's ends. */
  method StoreRibbon(data: seq<FlowRecord>, allArc: seq<(string, Arch)>, style: ArchStyle, j: nat,
                     allRibbons: seq<(RibbonKey, Ribbon)>, rb: Ribbon)
    returns (ribbons: seq<(RibbonKey, Ribbon)>)
    requires j < |data| && RibbonsBuilt(data, allArc, j, allRibbons)
    requires Registered(data[..j], allArc, ValuesOf(allRibbons), style)
    requires rb !in ValuesOf(allRibbons)
    requires Get(allArc, data[j].source) == Some(rb.startArch)
    requires Get(allArc, data[j].destination) == Some(rb.endArch)
    modifies set p | p in allArc :: p.1
    ensures ribbons == allRibbons + [(RibbonKey(data[j], j), rb)]
    ensures RibbonsBuilt(data, allArc, j + 1, ribbons)
    ensures Registered(data[..j + 1], allArc, ValuesOf(ribbons), style)
  {
    RibbonsBuiltStep(data, allArc, j, allRibbons, rb);
    ribbons := allRibbons + [(RibbonKey(data[j], j), rb)];
    RegisterFlow(allArc, style, data[..j], ValuesOf(allRibbons), data[j], rb);
  }

  /** Round `j` of the ribbon loop: the ribbon of flow `j` between the
      arches of its ends, registered as an output of the destination arch
      and an input of the source arch, and stored under its key. */
  method RibbonRound(data: seq<FlowRecord>, allArc: seq<(string, Arch)>, s: TrackSettings, j: nat,
                     allRibbons: seq<(RibbonKey, Ribbon)>)
    returns (ribbons: seq<(RibbonKey, Ribbon)>, rb: Ribbon)
    requires j < |data| && RibbonsBuilt(data, allArc, j, allRibbons)
    requires Registered(data[..j], allArc, ValuesOf(allRibbons), StyleOf(s))
    modifies set p | p in allArc :: p.1
    ensures fresh(rb) && ribbons == allRibbons + [(RibbonKey(data[j], j), rb)]
    ensures RibbonsBuilt(data, allArc, j + 1, ribbons)
    ensures Registered(data[..j + 1], allArc, ValuesOf(ribbons), StyleOf(s))
  {
    var d := data[j];
    var a1 := Get(allArc, d.source).value;
    var a2 := Get(allArc, d.destination).value;
    rb := new Ribbon(a1, a2, None, None, s.ribbonStartMargin, s.ribbonEndMargin, RibbonOptions(s));
    ribbons := StoreRibbon(data, allArc, StyleOf(s), j, allRibbons, rb);
  }

  /** The ribbon loop of `generate_elements`: one ribbon per flow, in flow
      order, registered with the arches of its ends. */
  method RegisterRibbons(data: seq<FlowRecord>, allArc: seq<(string, Arch)>, s: TrackSettings)
    returns (allRibbons: seq<(RibbonKey, Ribbon)>)
    requires RibbonsBuilt(data, allArc, 0, [])
    requires Registered(data[..0], allArc, [], StyleOf(s))
    modifies set p | p in allArc :: p.1
    ensures RibbonsBuilt(data, allArc, |data|, allRibbons)
    ensures Registered(data[..|data|], allArc, ValuesOf(allRibbons), StyleOf(s))
    ensures forall p :: p in allRibbons ==> fresh(p.1)
  {
    allRibbons := [];
    var j := 0;
    while j < |data|
      invariant 0 <= j <= |data|
      invariant RibbonsBuilt(data, allArc, j, allRibbons)
      invariant Registered(data[..j], allArc, ValuesOf(allRibbons), StyleOf(s))
      invariant forall p :: p in allRibbons ==> fresh(p.1)
    {
      var rb;
      allRibbons, rb := RibbonRound(data, allArc, s, j, allRibbons);
      j := j + 1;
    }
  }

  // ----------------------------------------------------- generation

  /** The dictionaries `generate_elements` fills. */
  datatype TrackElements = TrackElements(arches: seq<(string, Arch)>, ribbons: seq<(RibbonKey, Ribbon)>,
                                         labels: seq<(string, ArchLabel)>)

  /** The arches and ribbons a generation leaves behind for the flows
      `data`, the layout order `keys` and the arch widths `widths`: one arch
      per entity laid out by the cursor, one ribbon per flow between the
      arches of its ends, and every ribbon registered at both ends. */
  ghost predicate LaidOut(data: seq<FlowRecord>, keys: seq<string>, widths: seq<real>, gap: real, rotation: real,
                          radius: real, style: ArchStyle, arches: seq<(string, Arch)>,
                          ribbons: seq<(RibbonKey, Ribbon)>)
    reads set p | p in arches :: p.1
  {
    |keys| == |widths| &&
    MapValues(arches, Geometry) == ArchLayout(keys, widths, gap, rotation, radius, |keys|) &&
    RibbonsBuilt(data, arches, |data|, ribbons) &&
    |ribbons| == |data| &&
    Registered(data, arches, ValuesOf(ribbons), style)
  }

  /** What `generate_elements` leaves behind: the arches and ribbons laid
      out, and next to each arch the label of its entity, with the track's
      arrow, rotation and label options. */
  ghost predicate Generated(data: seq<FlowRecord>, keys: seq<string>, widths: seq<real>, s: TrackSettings,
                            e: TrackElements)
    reads set p | p in e.arches :: p.1, set p | p in e.labels :: p.1
  {
    LaidOut(data, keys, widths, s.archGapAngle, s.rotation, s.radius, StyleOf(s), e.arches, e.ribbons) &&
    |e.labels| == |e.arches| &&
    (forall i :: 0 <= i < |e.labels| ==> e.labels[i].0 == e.arches[i].0 && e.labels[i].1.arch == e.arches[i].1) &&
    (forall p :: p in e.labels ==> LabelSet(p.1, p.0, s))
  }

  /** The arch loop and the ribbon loop together give the elements
      `generate_elements` promises. */
  lemma GeneratedIntro(data: seq<FlowRecord>, keys: seq<string>, widths: seq<real>, s: TrackSettings,
                       e: TrackElements)
    requires |keys| == |widths|
    requires ArchesBuilt(keys, widths, s, |keys|, CursorAt(widths, s.archGapAngle, s.rotation, |keys|), e.arches, e.labels)
    requires RibbonsBuilt(data, e.arches, |data|, e.ribbons)
    requires Registered(data[..|data|], e.arches, ValuesOf(e.ribbons), StyleOf(s))
    requires forall p :: p in e.labels ==> LabelSet(p.1, p.0, s)
    ensures Generated(data, keys, widths, s, e)
  {
    assert data[..|data|] == data;
  }

  /** The arches the arch loop builds have an entry for every flow end,
      so the ribbon loop finds both arches of every flow. */
  lemma ReadyForRibbons(data: seq<FlowRecord>, order: seq<string>, widths: seq<real>, gap: real, rotation: real,
                        radius: real, allArc: seq<(string, Arch)>)
    requires |LayoutOrder(order, Totals(data).keys)| == |widths|
    requires MapValues(allArc, Geometry) == ArchLayout(LayoutOrder(order, Totals(data).keys), widths, gap, rotation,
                                                       radius, |widths|)
    requires DistinctKeys(allArc) && OneKeyEach(allArc)
    ensures RibbonsBuilt(data, allArc, 0, [])
  {
    var keys := LayoutOrder(order, Totals(data).keys);
    var layout := ArchLayout(keys, widths, gap, rotation, radius, |keys|);
    MapValuesKeys(allArc, Geometry);
    assert KeysOf(allArc) == KeysOf(layout);
    assert keys[..|keys|] == keys;
    forall n | 0 <= n < |data|
      ensures data[n].source in KeysOf(allArc) && data[n].destination in KeysOf(allArc)
    {
      FlowEndsLaidOut(order, data, n);
      ArchLayoutKeys(keys, widths, gap, rotation, radius, |keys|, data[n].source);
      ArchLayoutKeys(keys, widths, gap, rotation, radius, |keys|, data[n].destination);
    }
    assert KeysOf<RibbonKey, Ribbon>([]) == FlowKeys(data[..0]);
  }

  /** Fresh arches have empty registries: nothing is registered before the
      ribbon loop. */
  lemma NothingRegistered(data: seq<FlowRecord>, allArc: seq<(string, Arch)>, style: ArchStyle)
    requires forall p :: p in allArc ==> Unregistered(p.1, style)
    ensures Registered(data[..0], allArc, [], style)
  {
    forall p | p in allArc
      ensures p.1.Valid() && ArchSettled(p.1, style)
      ensures p.1.inputs == Leaving(data[..0], [], p.0) && p.1.outputs == Arriving(data[..0], [], p.0)
    {
      assert Unregistered(p.1, style);
    }
  }

  /** `generate_elements` on the flows `data`, their totals `amounts` and
      the order `order`: the layout order, the total of each entity in it,
      the widths (a ValueError when the gaps take the whole circle, a
      ZeroDivisionError when the totals add up to zero), then the arch loop
      and the ribbon loop. */
  method Generate(data: seq<FlowRecord>, amounts: Tally, order: seq<string>, s: TrackSettings)
    returns (r: Result<TrackElements>)
    requires amounts == Totals(data)
    ensures var keys := LayoutOrder(order, amounts.keys);
            var widths := ArcWidths(AmountsOf(amounts, keys), s.archGapAngle, |amounts.keys|, 360.0);
            (r.Err? <==> widths.Err?) && (r.Err? ==> r.error == widths.error) &&
            (r.Ok? ==> Generated(data, keys, widths.value, s, r.value))
    ensures r.Ok? ==> forall p :: p in r.value.arches ==> fresh(p.1)
    ensures r.Ok? ==> forall p :: p in r.value.ribbons ==> fresh(p.1)
    ensures r.Ok? ==> forall p :: p in r.value.labels ==> fresh(p.1)
  {
    var keys := BuildOrder(order, amounts.keys);
    var amount := GatherAmounts(amounts, keys);
    var widths := ArcWidths(amount, s.archGapAngle, |amounts.keys|, 360.0);
    if widths.Err? {
      return Err(widths.error);
    }
    var allArc, allLabels := BuildArches(keys, widths.value, s);
    ReadyForRibbons(data, order, widths.value, s.archGapAngle, s.rotation, s.radius, allArc);
    NothingRegistered(data, allArc, StyleOf(s));
    var allRibbons := RegisterRibbons(data, allArc, s);
    r := Ok(TrackElements(allArc, allRibbons, allLabels));
    GeneratedIntro(data, keys, widths.value, s, r.value);
  }

  /** Every entity the arch loop gives an arch has a total. */
  lemma LaidOutKeyHasTotal(data: seq<FlowRecord>, order: seq<string>, widths: seq<real>, gap: real, rotation: real,
                           radius: real, allArc: seq<(string, Arch)>, k: string)
    requires |LayoutOrder(order, Totals(data).keys)| == |widths|
    requires MapValues(allArc, Geometry) == ArchLayout(LayoutOrder(order, Totals(data).keys), widths, gap,
                                                       rotation, radius, |widths|)
    requires k in KeysOf(allArc)
    ensures k in Totals(data).amount
  {
    var keys := LayoutOrder(order, Totals(data).keys);
    MapValuesKeys(allArc, Geometry);
    ArchLayoutKeys(keys, widths, gap, rotation, radius, |keys|, k);
    assert keys[..|keys|] == keys;
    OrderCovers(order, Totals(data).keys, k);
    TotalsKeys(data);
  }

  /** Each arch's ribbons share out exactly its entity's total: the amounts
      registered as inputs and as outputs add up to the total `add_flow`
      kept for the entity. */
  lemma LaidOutArchTotals(data: seq<FlowRecord>, order: seq<string>, widths: seq<real>, gap: real, rotation: real,
                          radius: real, style: ArchStyle, arches: seq<(string, Arch)>,
                          ribbons: seq<(RibbonKey, Ribbon)>, p: (string, Arch))
    requires LaidOut(data, LayoutOrder(order, Totals(data).keys), widths, gap, rotation, radius, style, arches, ribbons)
    requires p in arches
    ensures p.0 in Totals(data).amount
    ensures Sum(ValuesOf(p.1.inputs)) + Sum(ValuesOf(p.1.outputs)) == Totals(data).amount[p.0]
  {
    var i :| 0 <= i < |arches| && arches[i] == p;
    assert KeysOf(arches)[i] == p.0;
    LaidOutKeyHasTotal(data, order, widths, gap, rotation, radius, arches, p.0);
    RegisteredTotal(data, ValuesOf(ribbons), p.0);
    TotalsAgree(data, p.0);
  }

  /** The ribbon of flow `n` is stored under the flow's key, joins the
      arches of the flow's ends, and is registered with the flow's amount
      as an input of the first and an output of the second, so drawing it
      never meets the "wrong direction" error. */
  lemma LaidOutRibbon(data: seq<FlowRecord>, keys: seq<string>, widths: seq<real>, gap: real, rotation: real,
                      radius: real, style: ArchStyle, arches: seq<(string, Arch)>,
                      ribbons: seq<(RibbonKey, Ribbon)>, n: nat, sampler: WedgeArc -> seq<Point>)
    requires LaidOut(data, keys, widths, gap, rotation, radius, style, arches, ribbons) && n < |data|
    ensures |ribbons| == |data| && ribbons[n].0 == RibbonKey(data[n], n)
    ensures Get(arches, data[n].source) == Some(ribbons[n].1.startArch)
    ensures Get(arches, data[n].destination) == Some(ribbons[n].1.endArch)
    ensures Get(ribbons[n].1.startArch.inputs, ribbons[n].1) == Some(data[n].amount)
    ensures Get(ribbons[n].1.endArch.outputs, ribbons[n].1) == Some(data[n].amount)
    ensures ribbons[n].1.PatchPath(sampler) != Err(AttributeError)
  {
    var rbs := ValuesOf(ribbons);
    assert KeysOf(ribbons)[n] == FlowKeys(data[..|data|])[n];
    var rb := rbs[n];
    var d := data[n];
    assert (d.source, rb.startArch) in arches && (d.destination, rb.endArch) in arches;
    DrawnAreRegistered(data, rbs, n);
    GetEntry(rb.startArch.inputs, (rb, d.amount));
    GetEntry(rb.endArch.outputs, (rb, d.amount));
    RegisteredNoDirectionError(rb, sampler);
  }

  /** With every entity once in the layout order, arch `j` is the arch of
      entity `j`, from the cursor of round `j` over its width. */
  lemma LaidOutGeometry(data: seq<FlowRecord>, keys: seq<string>, widths: seq<real>, gap: real, rotation: real,
                        radius: real, style: ArchStyle, arches: seq<(string, Arch)>,
                        ribbons: seq<(RibbonKey, Ribbon)>, j: nat)
    requires LaidOut(data, keys, widths, gap, rotation, radius, style, arches, ribbons)
    requires Distinct(keys) && j < |keys|
    ensures |arches| == |keys| && arches[j].0 == keys[j]
    ensures Geometry(arches[j].1) == ArchAt(widths, gap, rotation, radius, j)
  {
    ArchLayoutDistinct(keys, widths, gap, rotation, radius, |keys|);
    assert MapValues(arches, Geometry)[j] == (keys[j], ArchAt(widths, gap, rotation, radius, j));
  }

  /** With an order without repeats, arch `j` belongs to entity `j` of the
      layout order, covers width `j` and is the arch of the total that
      width was scaled from: what `ArcWidths` promises of the widths holds
      of the arches. */
  lemma LaidOutAngles(data: seq<FlowRecord>, order: seq<string>, widths: seq<real>, gap: real, rotation: real,
                      radius: real, style: ArchStyle, arches: seq<(string, Arch)>,
                      ribbons: seq<(RibbonKey, Ribbon)>, j: nat)
    requires Distinct(order)
    requires LaidOut(data, LayoutOrder(order, Totals(data).keys), widths, gap, rotation, radius, style, arches, ribbons)
    requires j < |widths|
    ensures |arches| == |widths| && arches[j].0 == LayoutOrder(order, Totals(data).keys)[j]
    ensures arches[j].0 in Totals(data).amount
    ensures AmountsOf(Totals(data), LayoutOrder(order, Totals(data).keys))[j] == Totals(data).amount[arches[j].0]
    ensures arches[j].1.Angle() == widths[j]
  {
    var t := Totals(data);
    var keys := LayoutOrder(order, t.keys);
    OrderDistinct(order, t.keys);
    LaidOutGeometry(data, keys, widths, gap, rotation, radius, style, arches, ribbons, j);
    OrderCovers(order, t.keys, keys[j]);
    TotalsKeys(data);
  }

  /** A track that only ever had flows added lays its arches out in the
      order the flows first mention the entities, each once. */
  lemma AddedOrder(ds: seq<FlowRecord>)
    ensures LayoutOrder(DiscoverFrom([], ds), Totals(ds).keys) == DiscoveryOrder(ds)
    ensures Distinct(DiscoverFrom([], ds))
  {
    DiscoverFromEmpty(ds);
    DiscoveredLayoutOrder(ds);
    TotalsKeys(ds);
  }

  // ------------------------------------------------------------ track

  /** A track: the flows added so far, the total of every entity, the
      entity order, the settings, and the arches, ribbons and labels of the
      last `generate_elements` (None before it). */
  class Track {
    var data: seq<FlowRecord>
    var amounts: Tally
    var order: seq<string>
    /** `_arch`, `_ribbons` and `_arch_labels`, which are only ever set
        together. */
    var elements: Option<TrackElements>
    var settings: TrackSettings

    /** The totals are those of the flows added so far. */
    ghost predicate Valid()
      reads this
    {
      amounts == Totals(data)
    }

    constructor()
      ensures data == [] && order == [] && Valid()
      ensures elements == None
      ensures settings == DefaultSettings
    {
      data := [];
      amounts := Tally([], map[]);
      order := [];
      elements := None;
      settings := DefaultSettings;
    }

    /** `add_flow`: the flow is appended, its amount added to the totals of
        both ends, and each end not yet in the order appended to it. The
        elements of an earlier generation are kept as they are. */
    method AddFlow(d: FlowRecord)
      requires Valid()
      modifies this`data, this`amounts, this`order
      ensures data == old(data) + [d] && Valid()
      ensures amounts == AddFlowTotals(old(amounts), d)
      ensures order == Discovered(old(order), d)
    {
      AppendFlow(order, data, d);
      data := data + [d];
      amounts := AddAmount(amounts, d.source, d.amount);
      amounts := AddAmount(amounts, d.destination, d.amount);
      if d.source !in order {
        order := order + [d.source];
      }
      if d.destination !in order {
        order := order + [d.destination];
      }
    }

    /** `add_data`: `add_flow` of every flow, in order. */
    method AddData(ds: seq<FlowRecord>)
      requires Valid()
      modifies this`data, this`amounts, this`order
      ensures data == old(data) + ds && Valid()
      ensures order == DiscoverFrom(old(order), ds)
    {
      var i := 0;
      while i < |ds|
        invariant 0 <= i <= |ds|
        invariant data == old(data) + ds[..i] && Valid()
        invariant order == DiscoverFrom(old(order), ds[..i])
      {
        PrefixStep(ds, i);
        AppendFlow(old(order), ds[..i], ds[i]);
        AddFlow(ds[i]);
        i := i + 1;
      }
      assert ds[..i] == ds;
    }

    /** The `order` property: every entity with a total, each once if the
        order has no repeats. */
    method Order() returns (r: seq<string>)
      requires Valid()
      ensures r == LayoutOrder(order, amounts.keys)
      ensures forall x :: x in r <==> x in amounts.amount
      ensures Distinct(order) ==> Distinct(r)
    {
      r := BuildOrder(order, amounts.keys);
      TotalsKeys(data);
      forall x
        ensures x in r <==> x in amounts.amount
      {
        OrderCovers(order, amounts.keys, x);
      }
      if Distinct(order) {
        OrderDistinct(order, amounts.keys);
      }
    }

    /** The `order` setter. */
    method SetOrder(value: seq<string>)
      modifies this`order
      ensures order == value
    {
      order := value;
    }

    /** The `arch` property: a ValueError before the first generation. */
    function ArchDict(): (r: Result<seq<(string, Arch)>>)
      reads this
      ensures r.Err? <==> elements.None?
      ensures r.Err? ==> r.error == ValueError
      ensures r.Ok? ==> r.value == elements.value.arches
    {
      if elements.None? then Err(ValueError) else Ok(elements.value.arches)
    }

    /** The `ribbons` property, in the same way. */
    function RibbonDict(): (r: Result<seq<(RibbonKey, Ribbon)>>)
      reads this
      ensures r.Err? <==> elements.None?
      ensures r.Err? ==> r.error == ValueError
      ensures r.Ok? ==> r.value == elements.value.ribbons
    {
      if elements.None? then Err(ValueError) else Ok(elements.value.ribbons)
    }

    /** The `arch_labels` property, in the same way. */
    function LabelDict(): (r: Result<seq<(string, ArchLabel)>>)
      reads this
      ensures r.Err? <==> elements.None?
      ensures r.Err? ==> r.error == ValueError
      ensures r.Ok? ==> r.value == elements.value.labels
    {
      if elements.None? then Err(ValueError) else Ok(elements.value.labels)
    }

    /** `generate_elements`: on success the three dictionaries are replaced
        by the elements laid out from the current flows, order and
        settings; on an error nothing changes. */
    method GenerateElements() returns (r: Result<()>)
      requires Valid()
      modifies this
      ensures unchanged(this`data, this`amounts, this`order, this`settings)
      ensures var keys := LayoutOrder(order, amounts.keys);
              var widths := ArcWidths(AmountsOf(amounts, keys), settings.archGapAngle, |amounts.keys|, 360.0);
              (r.Err? <==> widths.Err?) && (r.Err? ==> r.error == widths.error) &&
              (r.Ok? ==> elements.Some? && Generated(data, keys, widths.value, settings, elements.value))
      ensures r.Err? ==> elements == old(elements)
    {
      var g := Generate(data, amounts, order, settings);
      if g.Err? {
        return Err(g.error);
      }
      elements := Some(g.value);
      r := Ok(());
    }

    /** `get_arch`: generate first if nothing was generated yet, then look
        the entity up (a KeyError when it has no arch). */
    method GetArch(key: string) returns (r: Result<Arch>)
      requires Valid()
      modifies this
      ensures unchanged(this`data, this`amounts, this`order, this`settings)
      ensures old(elements).Some? ==> elements == old(elements)
      ensures elements.Some? ==> r == Lookup(elements.value.arches, key)
      ensures elements.None? ==> r.Err? && (r.error == ValueError || r.error == ZeroDivisionError)
      ensures old(elements).None? ==>
                var keys := LayoutOrder(order, amounts.keys);
                var widths := ArcWidths(AmountsOf(amounts, keys), settings.archGapAngle, |amounts.keys|, 360.0);
                (elements.None? <==> widths.Err?) && (widths.Err? ==> r == Err(widths.error)) &&
                (elements.Some? ==> Generated(data, keys, widths.value, settings, elements.value))
    {
      if elements.None? {
        var g := GenerateElements();
        if g.Err? {
          return Err(g.error);
        }
      }
      r := Lookup(elements.value.arches, key);
    }

    /** `get_ribbon`: the same for the ribbon stored under
        `f"{entry}-{index}"`. */
    method GetRibbon(entry: FlowRecord, index: nat) returns (r: Result<Ribbon>)
      requires Valid()
      modifies this
      ensures unchanged(this`data, this`amounts, this`order, this`settings)
      ensures old(elements).Some? ==> elements == old(elements)
      ensures elements.Some? ==> r == Lookup(elements.value.ribbons, RibbonKey(entry, index))
      ensures elements.None? ==> r.Err? && (r.error == ValueError || r.error == ZeroDivisionError)
      ensures old(elements).None? ==>
                var keys := LayoutOrder(order, amounts.keys);
                var widths := ArcWidths(AmountsOf(amounts, keys), settings.archGapAngle, |amounts.keys|, 360.0);
                (elements.None? <==> widths.Err?) && (widths.Err? ==> r == Err(widths.error)) &&
                (elements.Some? ==> Generated(data, keys, widths.value, settings, elements.value))
    {
      if elements.None? {
        var g := GenerateElements();
        if g.Err? {
          return Err(g.error);
        }
      }
      r := Lookup(elements.value.ribbons, RibbonKey(entry, index));
    }

    /** `get_arch_label`: the same for the label of an entity. */
    method GetArchLabel(key: string) returns (r: Result<ArchLabel>)
      requires Valid()
      modifies this
      ensures unchanged(this`data, this`amounts, this`order, this`settings)
      ensures old(elements).Some? ==> elements == old(elements)
      ensures elements.Some? ==> r == Lookup(elements.value.labels, key)
      ensures elements.None? ==> r.Err? && (r.error == ValueError || r.error == ZeroDivisionError)
      ensures old(elements).None? ==>
                var keys := LayoutOrder(order, amounts.keys);
                var widths := ArcWidths(AmountsOf(amounts, keys), settings.archGapAngle, |amounts.keys|, 360.0);
                (elements.None? <==> widths.Err?) && (widths.Err? ==> r == Err(widths.error)) &&
                (elements.Some? ==> Generated(data, keys, widths.value, settings, elements.value))
    {
      if elements.None? {
        var g := GenerateElements();
        if g.Err? {
          return Err(g.error);
        }
      }
      r := Lookup(elements.value.labels, key);
    }

    /** `update_arch`: the options given override the arch options of the
        next generation; the arches already generated are not touched. */
    method UpdateArch(extra: Options)
      modifies this`settings
      ensures settings == old(settings).(archKwargs := MergeOptions(old(settings).archKwargs, extra))
    {
      settings := settings.(archKwargs := MergeOptions(settings.archKwargs, extra));
    }

    /** `update_ribbons`, in the same way for the ribbon options. */
    method UpdateRibbons(extra: Options)
      modifies this`settings
      ensures settings == old(settings).(ribbonKwargs := MergeOptions(old(settings).ribbonKwargs, extra))
    {
      settings := settings.(ribbonKwargs := MergeOptions(settings.ribbonKwargs, extra));
    }

    /** `update_arch_labels`, in the same way for the label options. */
    method UpdateArchLabels(extra: Options)
      modifies this`settings
      ensures settings == old(settings).(archLabelKwargs := MergeOptions(old(settings).archLabelKwargs, extra))
    {
      settings := settings.(archLabelKwargs := MergeOptions(settings.archLabelKwargs, extra));
    }
  }
}
