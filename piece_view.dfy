/** A game piece: two faces with CSS classes derived from the piece's
    options, a reflector that turns between them in one of four directions,
    and the state modifier that anchors the reflection on the matching edge. */
module PieceView {
  import opened Js

  /** `PieceView.DEFAULT_OPTIONS` */
  const PieceDefaults: map<string, Value> :=
    map["width" := Num(100), "height" := Num(100), "frontBgColor" := Str("blue"),
        "backBgColor" := Str("red"), "direction" := Str("left"), "obstacle" := Bool(false),
        "level" := Num(1), "stage" := Num(1)]

  /** The `Reflector.DIRECTION_*` constants. */
  datatype Direction = DirRight | DirLeft | DirUp | DirDown

  /** An origin or align pair; every coordinate used is 0, 0.5 or 1. */
  datatype Point = Point(x: real, y: real)

  datatype Placement = Placement(origin: Point, align: Point)

  /** Calls made on the reflector, in order. `Reset` records the piece's
      options at the moment of the call. */
  datatype ReflectorCall = Create(direction: Option<Direction>) | Reset(options: map<string, Value>)
                         | UpdateDirection(direction: Option<Direction>) | SetFront | SetBack

  /** `DIRECTIONS[v]`: a property read, so the key is `v` coerced to a string. */
  function ReflectorDirection(v: Value): (d: Option<Direction>)
    ensures d.Some? <==> ToJsString(v) in {"right", "left", "up", "down"}
  {
    match ToJsString(v)
    case "right" => Some(DirRight)
    case "left" => Some(DirLeft)
    case "up" => Some(DirUp)
    case "down" => Some(DirDown)
    case _ => None
  }

  /** The origin/align chosen by `_initReflectionModifier`: the edge the
      reflection turns about. A direction other than the four known strings
      (compared with `===`) leaves both unset. */
  function ReflectionPlacement(direction: Value): (r: Option<Placement>)
    ensures r.Some? <==> direction in {Str("up"), Str("down"), Str("left"), Str("right")}
    ensures r.Some? ==> r.value.origin == r.value.align
    ensures direction == Str("up") ==> r == Some(Placement(Point(0.5, 0.0), Point(0.5, 0.0)))
    ensures direction == Str("down") ==> r == Some(Placement(Point(0.5, 1.0), Point(0.5, 1.0)))
    ensures direction == Str("left") ==> r == Some(Placement(Point(0.0, 0.5), Point(0.0, 0.5)))
    ensures direction == Str("right") ==> r == Some(Placement(Point(1.0, 0.5), Point(1.0, 0.5)))
  {
    if direction == Str("up") then Some(Placement(Point(0.5, 0.0), Point(0.5, 0.0)))
    else if direction == Str("down") then Some(Placement(Point(0.5, 1.0), Point(0.5, 1.0)))
    else if direction == Str("left") then Some(Placement(Point(0.0, 0.5), Point(0.0, 0.5)))
    else if direction == Str("right") then Some(Placement(Point(1.0, 0.5), Point(1.0, 0.5)))
    else None
  }

  function OriginOf(p: Option<Placement>): Option<Point>
  {
    if p.Some? then Some(p.value.origin) else None
  }

  function AlignOf(p: Option<Placement>): Option<Point>
  {
    if p.Some? then Some(p.value.align) else None
  }

  /** `_getBackClasses`: the two fixed back classes, then the back colour,
      the stage class and the level class. */
  function BackClasses(options: map<string, Value>): (r: seq<string>)
    ensures |r| == 5 && r[..2] == ["piece", "piece-back"]
    ensures r[2] == ToJsString(Prop(options, "backBgColor"))
    ensures r[3] == "stage-" + ToJsString(Prop(options, "stage"))
    ensures r[4] == "level-" + ToJsString(Prop(options, "level"))
  {
    ["piece", "piece-back"] + [ToJsString(Prop(options, "backBgColor")),
      "stage-" + ToJsString(Prop(options, "stage")), "level-" + ToJsString(Prop(options, "level"))]
  }

  /** `_getFrontClasses`: as the back classes, with the front side and colour. */
  function FrontClasses(options: map<string, Value>): (r: seq<string>)
    ensures |r| == 5 && r[..2] == ["piece", "piece-front"]
    ensures r[2] == ToJsString(Prop(options, "frontBgColor"))
    ensures r[3] == "stage-" + ToJsString(Prop(options, "stage"))
    ensures r[4] == "level-" + ToJsString(Prop(options, "level"))
  {
    ["piece", "piece-front"] + [ToJsString(Prop(options, "frontBgColor")),
      "stage-" + ToJsString(Prop(options, "stage")), "level-" + ToJsString(Prop(options, "level"))]
  }

  /** The famo.us `StateModifier` that holds the reflection's origin and align. */
  class StateModifier {
    var origin: Option<Point>
    var align: Option<Point>

    constructor (origin: Option<Point>, align: Option<Point>)
      ensures this.origin == origin && this.align == align
    {
      this.origin := origin;
      this.align := align;
    }

    method SetOrigin(origin: Option<Point>)
      modifies this
      ensures this.origin == origin && align == old(align)
    {
      this.origin := origin;
    }

    method SetAlign(align: Option<Point>)
      modifies this
      ensures this.align == align && origin == old(origin)
    {
      this.align := align;
    }
  }

  class Piece {
    var options: map<string, Value>
    /** The class lists last passed to `setClasses` on the back and front
        surfaces. */
    var backClasses: seq<string>
    var frontClasses: seq<string>
    var reflectionMod: StateModifier?
    var reflectorCalls: seq<ReflectorCall>

    /** The faces and the modifier always follow the current options. */
    ghost predicate Valid()
      reads this, reflectionMod
    {
      && backClasses == BackClasses(options)
      && frontClasses == FrontClasses(options)
      && reflectionMod != null
      && reflectionMod.origin == OriginOf(ReflectionPlacement(Prop(options, "direction")))
      && reflectionMod.align == AlignOf(ReflectionPlacement(Prop(options, "direction")))
    }

    /** `new PieceView(arg)`: options are the defaults patched with `arg`. */
    constructor (arg: map<string, Value>)
      ensures Valid() && fresh(reflectionMod)
      ensures options == Patch(PieceDefaults, arg)
      ensures reflectorCalls ==
                [Create(ReflectorDirection(Prop(options, "direction"))), SetFront, SetBack]
    {
      options := Patch(PieceDefaults, arg);
      backClasses := BackClasses(Patch(PieceDefaults, arg));
      frontClasses := FrontClasses(Patch(PieceDefaults, arg));
      reflectionMod := null;
      reflectorCalls := [Create(ReflectorDirection(Prop(Patch(PieceDefaults, arg), "direction"))),
                         SetFront, SetBack];
      new;
      InitReflectionModifier();
    }

    /** `getOption(key)` */
    function GetOption(key: string): (v: Value)
      reads this
      ensures key in options ==> v == options[key]
      ensures key !in options ==> v == Undefined
    {
      Prop(options, key)
    }

    /** `_initReflectionModifier`: the modifier is created on the first call;
        later calls set origin and align on that same modifier. */
    method InitReflectionModifier()
      modifies this, reflectionMod
      ensures reflectionMod != null
      ensures old(reflectionMod) == null ==> fresh(reflectionMod)
      ensures old(reflectionMod) != null ==> reflectionMod == old(reflectionMod)
      ensures reflectionMod.origin == OriginOf(ReflectionPlacement(Prop(options, "direction")))
      ensures reflectionMod.align == AlignOf(ReflectionPlacement(Prop(options, "direction")))
      ensures options == old(options) && reflectorCalls == old(reflectorCalls)
      ensures backClasses == old(backClasses) && frontClasses == old(frontClasses)
    {
      var placement := ReflectionPlacement(Prop(options, "direction"));
      if reflectionMod == null {
        reflectionMod := new StateModifier(OriginOf(placement), AlignOf(placement));
      } else {
        reflectionMod.SetOrigin(OriginOf(placement));
        reflectionMod.SetAlign(AlignOf(placement));
      }
    }

    /** `updateOptions(p)`: reset the reflector, patch the options, then
        rebuild both class lists, the modifier and the reflector from them. */
    method UpdateOptions(p: map<string, Value>)
      requires Valid()
      modifies this, reflectionMod
      ensures Valid()
      ensures options == Patch(old(options), p)
      ensures reflectionMod == old(reflectionMod)
      ensures reflectorCalls == old(reflectorCalls) +
                [Reset(old(options)), UpdateDirection(ReflectorDirection(Prop(options, "direction"))),
                 SetFront, SetBack]
    {
      reflectorCalls := reflectorCalls + [Reset(options)];
      options := Patch(options, p);
      backClasses := BackClasses(options);
      frontClasses := FrontClasses(options);
      InitReflectionModifier();
      reflectorCalls := reflectorCalls +
        [UpdateDirection(ReflectorDirection(Prop(options, "direction"))), SetFront, SetBack];
    }
  }

  // ----- Properties of the piece -----

  /** The reflector is given a direction exactly when the modifier is given a
      placement: both read the same option, one by `===`, one by a string key. */
  lemma DirectionAndPlacementAgree(v: Value)
    ensures ReflectorDirection(v).Some? <==> ReflectionPlacement(v).Some?
  {
    if ReflectorDirection(v).Some? {
      var s := ToJsString(v);
      assert |s| > 0 && s[0] in {'r', 'l', 'd'} + {'u'};
      if s[0] == 'u' {
        match v
        case Num(n) =>
          assert false;
        case Undefined =>
          assert false;
        case _ =>
      } else {
        CoercedLetterMeansString(v, s[0]);
      }
    }
  }

  /** Front and back class lists differ only in the side and colour entries. */
  lemma FacesShareStageAndLevel(options: map<string, Value>)
    ensures BackClasses(options)[3..] == FrontClasses(options)[3..]
    ensures BackClasses(options)[0] == FrontClasses(options)[0] == "piece"
  {
  }

  /** With the default options, the back is red, stage 1, level 1, and the
      piece reflects to the left about its left edge. */
  lemma DefaultPiece()
    ensures BackClasses(PieceDefaults) == ["piece", "piece-back", "red", "stage-1", "level-1"]
    ensures FrontClasses(PieceDefaults) == ["piece", "piece-front", "blue", "stage-1", "level-1"]
    ensures ReflectorDirection(Prop(PieceDefaults, "direction")) == Some(DirLeft)
    ensures ReflectionPlacement(Prop(PieceDefaults, "direction"))
            == Some(Placement(Point(0.0, 0.5), Point(0.0, 0.5)))
  {
    assert Prop(PieceDefaults, "stage") == Num(1) && Prop(PieceDefaults, "level") == Num(1);
    assert ToJsString(Num(1)) == "1";
    assert "stage-" + "1" == "stage-1" && "level-" + "1" == "level-1";
  }
}
