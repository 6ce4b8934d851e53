/** The drawing elements of the chord layout: arches on the rim, ribbons
    between them, and labels next to the arches. */
module Elements {
  import opened Common
  import opened Scheduler
  import opened Paths
  import opened Text

  /** A ribbon outline ready to be drawn: its path and the options handed to
      the drawing library with it (`PathPatch(path, **kwargs)`). */
  datatype PathPatch = PathPatch(path: RibbonPath, options: Options)

  /** An annotation's connection style: `"angle3"` or
      `"angle,angleA=0,angleB=<angle>"`. */
  datatype ConnectionStyle = Angle3 | AngleArc(angleB: real)

  /** An arch: a band of the rim between `startAngle` and `endAngle`. Ribbons
      register on it as origins or destinations, each with its amount, in an
      insertion-ordered dictionary. */
  class Arch {
    const radius: real
    const startAngle: real
    const endAngle: real
    const height: real
    var kwargs: Options
    var centerSetting: Option<Point>
    var visible: bool
    var origins: seq<(Ribbon, real)>
    var destinations: seq<(Ribbon, real)>

    /** Each registry is a dictionary: no ribbon twice in one of them. */
    ghost predicate Valid()
      reads this
    {
      DistinctKeys(origins) && DistinctKeys(destinations)
    }

    /** No registered amount is negative. */
    ghost predicate NonNegativeAmounts()
      reads this
    {
      (forall i :: 0 <= i < |origins| ==> origins[i].1 >= 0.0) &&
      (forall i :: 0 <= i < |destinations| ==> destinations[i].1 >= 0.0)
    }

    constructor(radius: real, startAngle: real, endAngle: real, height: real, kwargs: Options)
      ensures this.radius == radius && this.startAngle == startAngle
      ensures this.endAngle == endAngle && this.height == height
      ensures this.kwargs == kwargs && centerSetting == None && visible
      ensures origins == [] && destinations == []
      ensures Valid()
    {
      this.radius := radius;
      this.startAngle := startAngle;
      this.endAngle := endAngle;
      this.height := height;
      this.kwargs := kwargs;
      centerSetting := None;
      visible := true;
      origins := [];
      destinations := [];
    }

    /** The angle the arch covers: it spans from `startAngle` over `a`
        degrees to `endAngle`. */
    function Angle(): (a: real)
      ensures startAngle + a == endAngle
    {
      endAngle - startAngle
    }

    /** The centre, (0, 0) until one is set. */
    function Center(): (c: Point)
      reads this
      ensures centerSetting.None? ==> c == Origin
      ensures centerSetting.Some? ==> c == centerSetting.value
    {
      CenterOr(centerSetting)
    }

    method SetCenter(c: Point)
      modifies this`centerSetting
      ensures centerSetting == Some(c) && Center() == c
      ensures kwargs == old(kwargs) && visible == old(visible)
      ensures origins == old(origins) && destinations == old(destinations)
    {
      centerSetting := Some(c);
    }

    /** `update(**extra)`: the new options win, the others stay. */
    method Update(extra: Options)
      modifies this`kwargs
      ensures kwargs == MergeOptions(old(kwargs), extra)
      ensures centerSetting == old(centerSetting) && visible == old(visible)
      ensures origins == old(origins) && destinations == old(destinations)
    {
      kwargs := MergeOptions(kwargs, extra);
    }

    method Hide()
      modifies this`visible
      ensures !visible
      ensures kwargs == old(kwargs) && centerSetting == old(centerSetting)
      ensures origins == old(origins) && destinations == old(destinations)
    {
      visible := false;
    }

    method Show()
      modifies this`visible
      ensures visible
      ensures kwargs == old(kwargs) && centerSetting == old(centerSetting)
      ensures origins == old(origins) && destinations == old(destinations)
    {
      visible := true;
    }

    /** Register `ribbon` as ending here: a new ribbon is appended, a
        registered one keeps its place and takes the new amount. */
    method AddAsDestination(ribbon: Ribbon, amount: real)
      modifies this
      requires Valid()
      ensures destinations == Put(old(destinations), ribbon, amount)
      ensures Get(destinations, ribbon) == Some(amount)
      ensures origins == old(origins) && kwargs == old(kwargs)
      ensures centerSetting == old(centerSetting) && visible == old(visible)
      ensures Valid()
    {
      GetPut(destinations, ribbon, amount, ribbon);
      destinations := Put(destinations, ribbon, amount);
    }

    /** Register `ribbon` as starting here, with the same dictionary rules. */
    method AddAsOrigin(ribbon: Ribbon, amount: real)
      modifies this
      requires Valid()
      ensures origins == Put(old(origins), ribbon, amount)
      ensures Get(origins, ribbon) == Some(amount)
      ensures destinations == old(destinations) && kwargs == old(kwargs)
      ensures centerSetting == old(centerSetting) && visible == old(visible)
      ensures Valid()
    {
      GetPut(origins, ribbon, amount, ribbon);
      origins := Put(origins, ribbon, amount);
    }

    /** `get_order`: the share of the arch's angle of every origin and of
        every destination, in registration order. */
    function GetOrder(): (r: Result<(seq<real>, seq<real>)>)
      reads this
      ensures r.Err? <==> (origins + destinations != [] &&
                           Sum(ValuesOf(origins) + ValuesOf(destinations)) == 0.0)
      ensures r.Ok? ==> |r.value.0| == |origins| && |r.value.1| == |destinations|
    {
      Scheduler.GetOrder(ValuesOf(origins), ValuesOf(destinations), Angle())
    }

    /** Where `node` meets this arch: destinations are packed from
        `startAngle`, origins after the whole destination block. A ribbon not
        registered in the asked direction is an AttributeError. */
    function AngleOf(node: Ribbon, isOrigin: bool): (r: Result<Span>)
      reads this
      ensures GetOrder().Err? ==> r == Err(ZeroDivisionError)
      ensures GetOrder().Ok? ==>
        (r == Err(AttributeError) <==> node !in KeysOf(if isOrigin then origins else destinations))
    {
      ArchSlot(origins, destinations, false, Angle(), startAngle, node, isOrigin)
    }

    /** `get_angle`: the widths first, then the cursor walk over one
        registry. */
    method GetAngle(node: Ribbon, isOrigin: bool) returns (r: Result<Span>)
      ensures r == AngleOf(node, isOrigin)
    {
      r := FindSlot(origins, destinations, false, Angle(), startAngle, node, isOrigin);
    }
  }

  /** With non-negative amounts over a non-negative angle, every ribbon's
      slot lies on the arch. */
  lemma ArchSlotsOnArch(a: Arch, node: Ribbon, isOrigin: bool)
    requires a.NonNegativeAmounts() && a.Angle() >= 0.0
    requires a.AngleOf(node, isOrigin).Ok?
    ensures a.startAngle <= a.AngleOf(node, isOrigin).value.start
    ensures a.AngleOf(node, isOrigin).value.end <= a.endAngle
  {
    ArchSlotWithin(a.origins, a.destinations, false, a.Angle(), a.startAngle, node, isOrigin);
  }

  /** Every destination slot ends before any origin slot starts; in
      particular a ribbon from an arch to itself gets two slots there that
      do not overlap. */
  lemma DestinationsBeforeOrigins(a: Arch, dest: Ribbon, orig: Ribbon)
    requires a.NonNegativeAmounts() && a.Angle() >= 0.0
    requires a.AngleOf(dest, false).Ok? && a.AngleOf(orig, true).Ok?
    ensures a.AngleOf(dest, false).value.end <= a.AngleOf(orig, true).value.start
  {
    LeadingBeforeTrailing(a.origins, a.destinations, false, a.Angle(), a.startAngle, dest, orig);
  }

  /** The first destination's slot starts at `startAngle`. */
  lemma FirstDestinationAtStart(a: Arch)
    requires a.GetOrder().Ok? && a.destinations != []
    ensures a.AngleOf(a.destinations[0].0, false).Ok?
    ensures a.AngleOf(a.destinations[0].0, false).value.start == a.startAngle
  {
    FirstSlotAtStart(a.origins, a.destinations, false, a.Angle(), a.startAngle);
  }

  /** The last origin's slot ends at `endAngle`: together the slots fill
      the arch. */
  lemma LastOriginAtEnd(a: Arch)
    requires a.Valid() && a.GetOrder().Ok? && a.origins != []
    ensures a.AngleOf(a.origins[|a.origins| - 1].0, true).Ok?
    ensures a.AngleOf(a.origins[|a.origins| - 1].0, true).value.end == a.endAngle
  {
    LastSlotAtEnd(a.origins, a.destinations, false, a.Angle(), a.startAngle);
  }

  /** A ribbon: from a slot on its origin arch, bent through its bend point,
      to a slot on its destination arch. */
  class Ribbon {
    const originArch: Arch
    const destinationArch: Arch
    var originMargin: real
    var destinationMargin: real
    var originRadiusSetting: Option<real>
    var destinationRadiusSetting: Option<real>
    var kwargs: Options
    var patch: Option<PathPatch>
    var bendCenter: Option<Point>
    var centerSetting: Option<Point>
    var visible: bool

    constructor(originArch: Arch, destinationArch: Arch,
                originRadius: Option<real>, destinationRadius: Option<real>,
                originMargin: real, destinationMargin: real, kwargs: Options)
      ensures this.originArch == originArch && this.destinationArch == destinationArch
      ensures originRadiusSetting == originRadius && destinationRadiusSetting == destinationRadius
      ensures this.originMargin == originMargin && this.destinationMargin == destinationMargin
      ensures this.kwargs == kwargs && patch == None && bendCenter == None
      ensures centerSetting == None && visible
    {
      this.originArch := originArch;
      this.destinationArch := destinationArch;
      this.originMargin := originMargin;
      this.destinationMargin := destinationMargin;
      originRadiusSetting := originRadius;
      destinationRadiusSetting := destinationRadius;
      this.kwargs := kwargs;
      patch := None;
      bendCenter := None;
      centerSetting := None;
      visible := true;
    }

    /** The length of the ribbon from the origin arch's centre: the arch's
        own radius unless one was given. */
    function OriginRadius(): (r: real)
      reads this
      ensures originRadiusSetting.None? ==> r == originArch.radius
      ensures originRadiusSetting.Some? ==> r == originRadiusSetting.value
    {
      ValueOr(originRadiusSetting, originArch.radius)
    }

    /** The same for the destination end. */
    function DestinationRadius(): (r: real)
      reads this
      ensures destinationRadiusSetting.None? ==> r == destinationArch.radius
      ensures destinationRadiusSetting.Some? ==> r == destinationRadiusSetting.value
    {
      ValueOr(destinationRadiusSetting, destinationArch.radius)
    }

    function Center(): (c: Point)
      reads this
      ensures centerSetting.None? ==> c == Origin
      ensures centerSetting.Some? ==> c == centerSetting.value
    {
      CenterOr(centerSetting)
    }

    /** The point the ribbon bends through: `bend_center`, else the centre. */
    function Bend(): (b: Point)
      reads this
      ensures bendCenter.Some? ==> b == bendCenter.value
      ensures bendCenter.None? ==> b == Center()
    {
      ValueOr(bendCenter, Center())
    }

    method SetCenter(c: Point)
      modifies this`centerSetting
      ensures centerSetting == Some(c)
      ensures kwargs == old(kwargs) && patch == old(patch) && bendCenter == old(bendCenter)
      ensures originRadiusSetting == old(originRadiusSetting)
      ensures destinationRadiusSetting == old(destinationRadiusSetting)
      ensures originMargin == old(originMargin) && destinationMargin == old(destinationMargin)
      ensures visible == old(visible)
    {
      centerSetting := Some(c);
    }

    method Update(extra: Options)
      modifies this`kwargs
      ensures kwargs == MergeOptions(old(kwargs), extra)
      ensures centerSetting == old(centerSetting) && patch == old(patch) && bendCenter == old(bendCenter)
      ensures originRadiusSetting == old(originRadiusSetting)
      ensures destinationRadiusSetting == old(destinationRadiusSetting)
      ensures originMargin == old(originMargin) && destinationMargin == old(destinationMargin)
      ensures visible == old(visible)
    {
      kwargs := MergeOptions(kwargs, extra);
    }

    /** `get_path`: the closed outline through the bend point. */
    method GetPath(startLoc: seq<Point>, endLoc: seq<Point>) returns (r: Result<RibbonPath>)
      ensures startLoc == [] ==> r == Err(IndexError)
      ensures startLoc != [] ==> r == Ok(ClosedRibbon(startLoc, endLoc, Bend()))
    {
      r := BuildPath(startLoc, endLoc, Bend());
    }

    /** The outline `patch` draws: the origin slot sampled at the origin end,
        the destination slot at the other, joined by `get_path`. */
    function PatchPath(sampler: WedgeArc -> seq<Point>): (r: Result<RibbonPath>)
      reads this, originArch, destinationArch
      ensures originArch.AngleOf(this, true).Err? ==> r == Err(originArch.AngleOf(this, true).error)
      ensures originArch.AngleOf(this, true).Ok? && destinationArch.AngleOf(this, false).Err? ==>
        r == Err(destinationArch.AngleOf(this, false).error)
      ensures r.Ok? ==> originArch.AngleOf(this, true).Ok? && destinationArch.AngleOf(this, false).Ok?
    {
      match originArch.AngleOf(this, true)
      case Err(e) => Err(e)
      case Ok(sp) =>
        match destinationArch.AngleOf(this, false)
        case Err(e) => Err(e)
        case Ok(ep) =>
          var s := ArchPoints(sp, OriginRadius(), originMargin, originArch, sampler);
          var e := ArchPoints(ep, DestinationRadius(), destinationMargin, destinationArch, sampler);
          if s == [] then Err(IndexError) else Ok(ClosedRibbon(s, e, Bend()))
    }

    /** The `patch` property: built once, then the same outline every time. */
    method Patch(sampler: WedgeArc -> seq<Point>) returns (r: Result<PathPatch>)
      modifies this
      ensures old(patch).Some? ==> r == Ok(old(patch).value) && patch == old(patch)
      ensures old(patch).None? ==>
        r == (match old(PatchPath(sampler))
              case Err(e) => Err(e)
              case Ok(p) => Ok(PathPatch(p, kwargs)))
      ensures r.Ok? ==> patch == Some(r.value)
      ensures r.Err? ==> patch == None
      ensures kwargs == old(kwargs) && bendCenter == old(bendCenter) && centerSetting == old(centerSetting)
      ensures originRadiusSetting == old(originRadiusSetting)
      ensures destinationRadiusSetting == old(destinationRadiusSetting)
      ensures originMargin == old(originMargin) && destinationMargin == old(destinationMargin)
      ensures visible == old(visible)
    {
      if patch.Some? {
        return Ok(patch.value);
      }
      var startSpan := originArch.GetAngle(this, true);
      if startSpan.Err? {
        return Err(startSpan.error);
      }
      var endSpan := destinationArch.GetAngle(this, false);
      if endSpan.Err? {
        return Err(endSpan.error);
      }
      var sp := ArchPoints(startSpan.value, OriginRadius(), originMargin, originArch, sampler);
      var ep := ArchPoints(endSpan.value, DestinationRadius(), destinationMargin, destinationArch, sampler);
      var pt := GetPath(sp, ep);
      if pt.Err? {
        return Err(pt.error);
      }
      r := Ok(PathPatch(pt.value, kwargs));
      patch := Some(r.value);
    }
  }

  /** `get_points`: the points the drawing library samples along the arc of
      `span` at the effective radius, around the arch's centre. */
  function ArchPoints(span: Span, radius: real, margin: real, arch: Arch,
                      sampler: WedgeArc -> seq<Point>): seq<Point>
    reads arch
  {
    sampler(WedgeArc(arch.Center(), EffectiveRadius(radius, margin, arch.height), span.start, span.end, None))
  }

  /** The rotation of a label at angle `a`: text on the left half of the
      circle (more than 90 and at most 270 degrees) is turned half a turn so
      that it does not read upside down. */
  function FoldRotation(a: real): (r: real)
    ensures 90.0 < a <= 270.0 ==> r == a - 180.0
    ensures !(90.0 < a <= 270.0) ==> r == a
  {
    if 180.0 > a > 90.0 then -Abs(180.0 - a)
    else if 270.0 >= a >= 180.0 then Abs(180.0 - a)
    else a
  }

  function Abs(x: real): (r: real)
    ensures r >= 0.0 && (r == x || r == -x)
  {
    if x < 0.0 then -x else x
  }

  /** For a label angle on the circle, the folded rotation points into the
      right half: within 90 degrees of upright reading direction. */
  lemma RotationUpright(a: real)
    requires 0.0 <= a < 360.0
    ensures var r := FoldRotation(a);
      (-90.0 < r <= 90.0) || (270.0 < r < 360.0)
  {
  }

  /** The label rotation: none when rotation is off, the explicitly set
      angle when there is one, else the folded default angle. */
  function LabelRotation(rotate: bool, angleSetting: Option<real>, angle: real): (r: Option<real>)
    ensures !rotate <==> r.None?
    ensures rotate && angleSetting.Some? ==> r == angleSetting
    ensures rotate && angleSetting.None? ==> r == Some(FoldRotation(angle))
  {
    if !rotate then None
    else if angleSetting.Some? then angleSetting
    else Some(FoldRotation(angle))
  }

  /** A label placed next to its arch. */
  class ArchLabel {
    const archKey: string
    const arch: ArchGeometry
    var rotate: bool
    var textSetting: Option<string>
    var radiusSetting: Option<real>
    var angleSetting: Option<real>
    var haSetting: Option<string>
    var vaSetting: Option<string>
    var addArrow: bool
    var arrowStyle: string
    var arrowLabelXFactor: real
    var arrowLabelYFactor: real
    var rotationMode: string
    var wrapWords: Option<real>
    var labelGap: real
    var kwargs: Options
    var centerSetting: Option<Point>
    var visible: bool

    constructor(archKey: string, arch: ArchGeometry)
      ensures this.archKey == archKey && this.arch == arch
      ensures rotate && textSetting == None && radiusSetting == None && angleSetting == None
      ensures haSetting == None && vaSetting == None
      ensures !addArrow && arrowStyle == "->" && rotationMode == "anchor"
      ensures arrowLabelXFactor == 1.2 && arrowLabelYFactor == 1.2
      ensures wrapWords == None && labelGap == 0.02
      ensures kwargs == map[] && centerSetting == None && visible
    {
      this.archKey := archKey;
      this.arch := arch;
      rotate := true;
      textSetting := None;
      radiusSetting := None;
      angleSetting := None;
      haSetting := None;
      vaSetting := None;
      addArrow := false;
      arrowStyle := "->";
      arrowLabelXFactor := 1.2;
      arrowLabelYFactor := 1.2;
      rotationMode := "anchor";
      wrapWords := None;
      labelGap := 0.02;
      kwargs := map[];
      centerSetting := None;
      visible := true;
    }

    /** Distance of the label from the arch centre: just outside the arch,
        `label_gap` beyond its radius, unless set. */
    function Radius(): (r: real)
      reads this
      ensures radiusSetting.None? ==> r - labelGap == arch.radius
      ensures radiusSetting.Some? ==> r == radiusSetting.value
    {
      ValueOr(radiusSetting, arch.radius + labelGap)
    }

    /** The label's angle: the middle of the arch unless set. */
    function Angle(): (a: real)
      reads this
      ensures angleSetting.None? ==> a - arch.startAngle == arch.endAngle - a
      ensures angleSetting.Some? ==> a == angleSetting.value
    {
      ValueOr(angleSetting, arch.startAngle + (arch.endAngle - arch.startAngle) / 2.0)
    }

    /** The text shown: the arch's key unless set. */
    function Text(): (t: string)
      reads this
      ensures textSetting.None? ==> t == archKey
      ensures textSetting.Some? ==> t == textSetting.value
    {
      ValueOr(textSetting, archKey)
    }

    function Center(): (c: Point)
      reads this
      ensures centerSetting.None? ==> c == Origin
      ensures centerSetting.Some? ==> c == centerSetting.value
    {
      CenterOr(centerSetting)
    }

    /** Horizontal alignment for a label at abscissa `x`: text right of the
        centre is aligned on its left edge, text left of it on its right
        edge, text above or below it centred. */
    function Ha(x: real): (h: string)
      reads this
      ensures haSetting.Some? ==> h == haSetting.value
      ensures haSetting.None? ==>
        (h == "right" <==> x < Center().x) &&
        (h == "left" <==> x > Center().x) &&
        (h == "center" <==> x == Center().x)
    {
      if haSetting.Some? then haSetting.value
      else
        var d := x - Center().x;
        if d < 0.0 then "right" else if d > 0.0 then "left" else "center"
    }

    /** Vertical alignment: centred unless set. */
    function Va(): (v: string)
      reads this
      ensures vaSetting.None? ==> v == "center"
      ensures vaSetting.Some? ==> v == vaSetting.value
    {
      ValueOr(vaSetting, "center")
    }

    /** The rotation handed to the annotation. */
    function Rotation(): (r: Option<real>)
      reads this
      ensures !rotate ==> r.None?
      ensures rotate && angleSetting.Some? ==> r == angleSetting
      ensures rotate && angleSetting.None? ==> r == Some(FoldRotation(Angle()))
    {
      LabelRotation(rotate, angleSetting, Angle())
    }

    /** `wrapped_text`. */
    method WrappedText() returns (r: string)
      ensures r == Wrapped(Text(), wrapWords)
    {
      r := WrapText(Text(), wrapWords);
    }

    method Update(extra: Options)
      modifies this`kwargs
      ensures kwargs == MergeOptions(old(kwargs), extra)
      ensures rotate == old(rotate) && textSetting == old(textSetting)
      ensures radiusSetting == old(radiusSetting) && angleSetting == old(angleSetting)
      ensures addArrow == old(addArrow) && wrapWords == old(wrapWords)
      ensures labelGap == old(labelGap) && centerSetting == old(centerSetting)
    {
      kwargs := MergeOptions(kwargs, extra);
    }

    /** The connection style of the arrow to a label at `angle`: a plain
        quadratic connection at 0 and 180 degrees, an angled one elsewhere. */
    static function GetConnectionStyle(angle: real): (s: ConnectionStyle)
      ensures s == Angle3 <==> angle == 180.0 || angle == 0.0
      ensures s.AngleArc? ==> s.angleB == angle
    {
      if angle == 180.0 || angle == 0.0 then Angle3 else AngleArc(angle)
    }
  }
}
