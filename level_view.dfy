/** A level card on the level-selection screen: locked or unlocked, open
    (showing its back) or closed, with a front and a back backing whose CSS
    classes follow the lock, and the `level:*` events it emits. */
module LevelView {
  import opened Js
  import opened UserModel

  datatype EventName = LevelSelect | LevelPlay | LevelClose

  /** The payload of `level:select`, `level:play` and `level:close` (the DOM
      event and the emitting node are left out). */
  datatype LevelEvent = LevelEvent(name: EventName, index: int, stage: int, level: int)

  /** JavaScript `a % b`: the remainder takes the sign of the dividend. */
  function JsRem(a: int, b: int): (r: int)
    requires b != 0
    ensures a >= 0 ==> 0 <= r < (if b < 0 then -b else b)
    ensures a < 0 ==> -(if b < 0 then -b else b) < r <= 0
    ensures var m := if b < 0 then -b else b;
            a == (if a >= 0 then a / m else -((-a) / m)) * m + r
  {
    var m := if b < 0 then -b else b;
    if a >= 0 then a % m else -((-a) % m)
  }

  /** The colour index `(index % colors) + 1`; `colors == 0` gives `NaN`,
      modelled as `None`. */
  function ColorIndex(index: int, colors: int): (c: Option<int>)
    ensures c.Some? <==> colors != 0
    ensures index >= 0 && colors >= 1 ==> c.Some? && 1 <= c.value <= colors
  {
    if colors == 0 then None else Some(JsRem(index, colors) + 1)
  }

  /** `'stage-level--color' + color` */
  function ColorClass(color: Option<int>): string
  {
    "stage-level--color" + (if color.Some? then IntToString(color.value) else "NaN")
  }

  function StageClass(stage: int): string
  {
    "stage-" + IntToString(stage)
  }

  /** The four classes a backing is created with; `front` picks the side. */
  function BaseClasses(front: bool, stage: int, color: Option<int>): (r: set<string>)
    ensures (if front then "stage-level-front" else "stage-level-back") in r
    ensures "stage-level-backing" in r && StageClass(stage) in r && ColorClass(color) in r
    ensures forall c :: c in r ==>
              c == (if front then "stage-level-front" else "stage-level-back")
              || c == "stage-level-backing" || c == StageClass(stage) || c == ColorClass(color)
    ensures "locked" !in r && "unlocked" !in r && "current" !in r
  {
    assert StageClass(stage)[0] == 's' && ColorClass(color)[0] == 's';
    {if front then "stage-level-front" else "stage-level-back", "stage-level-backing",
     StageClass(stage), ColorClass(color)}
  }

  /** Classes of the front backing as `_createLFVBacking` sets them. */
  function FrontBackingClasses(stage: int, color: Option<int>, current: bool, locked: bool): (r: set<string>)
    ensures ("locked" in r) == locked && ("unlocked" in r) == !locked
    ensures ("current" in r) == current
    ensures "stage-level-front" in r && StageClass(stage) in r && ColorClass(color) in r
    ensures r - {"locked", "unlocked", "current"} == BaseClasses(true, stage, color)
  {
    BaseClasses(true, stage, color)
      + (if current then {"current"} else {})
      + (if locked then {"locked"} else {"unlocked"})
  }

  /** Classes of the back backing as `_createLFBBacking` sets them: no
      `unlocked` class in either state. */
  function BackBackingClasses(stage: int, color: Option<int>, current: bool, locked: bool): (r: set<string>)
    ensures ("locked" in r) == locked && "unlocked" !in r
    ensures ("current" in r) == current
    ensures "stage-level-back" in r && StageClass(stage) in r && ColorClass(color) in r
    ensures r - {"locked", "unlocked", "current"} == BaseClasses(false, stage, color)
  {
    BaseClasses(false, stage, color)
      + (if current then {"current"} else {})
      + (if locked then {"locked"} else {})
  }

  /** The front face (`LevelFrontView`): its `locked` option and the classes
      of its backing surface. */
  class FrontView {
    const stage: int
    const level: int
    const color: Option<int>
    var locked: bool
    var classes: set<string>

    constructor (stage: int, level: int, color: Option<int>, locked: bool, current: bool)
      ensures this.stage == stage && this.level == level && this.color == color
      ensures this.locked == locked
      ensures classes == FrontBackingClasses(stage, color, current, locked)
    {
      this.stage, this.level, this.color := stage, level, color;
      this.locked := locked;
      classes := FrontBackingClasses(stage, color, current, locked);
    }

    /** `LevelFrontView.unlock`: swap `locked` for `unlocked`. */
    method Unlock()
      modifies this
      ensures !locked
      ensures classes == old(classes) - {"locked"} + {"unlocked"}
    {
      locked := false;
      classes := classes - {"locked"};
      classes := classes + {"unlocked"};
    }
  }

  /** The back face (`LevelBackView`). */
  class BackView {
    const stage: int
    const level: int
    const color: Option<int>
    var locked: bool
    var classes: set<string>

    constructor (stage: int, level: int, color: Option<int>, locked: bool, current: bool)
      ensures this.stage == stage && this.level == level && this.color == color
      ensures this.locked == locked
      ensures classes == BackBackingClasses(stage, color, current, locked)
    {
      this.stage, this.level, this.color := stage, level, color;
      this.locked := locked;
      classes := BackBackingClasses(stage, color, current, locked);
    }

    /** `LevelBackView.unlock`: drop `locked`, add nothing. */
    method Unlock()
      modifies this
      ensures !locked
      ensures classes == old(classes) - {"locked"}
    {
      locked := false;
      classes := classes - {"locked"};
    }
  }

  /** `isOpen` after `n` flips. */
  function FlipTimes(open: bool, n: nat): bool
  {
    if n == 0 then open else !FlipTimes(open, n - 1)
  }

  /** `n` copies of one event, as `n` registered handlers emit it. */
  function Repeat(e: LevelEvent, n: nat): (r: seq<LevelEvent>)
    ensures |r| == n
    ensures forall i :: 0 <= i < n ==> r[i] == e
  {
    if n == 0 then [] else Repeat(e, n - 1) + [e]
  }

  class LevelView {
    const stage: int
    const level: int
    const index: int
    const colors: int
    /** `_color` */
    const color: Option<int>
    const front: FrontView
    const back: BackView
    /** The module-level profile every card shares. */
    const user: User

    var isOpen: bool
    /** `_locked` */
    var locked: bool
    /** How many times `select`/`play`/`close` handlers have been registered. */
    var handlers: nat
    /** Events emitted on `_eventOutput`, oldest first. */
    var emitted: seq<LevelEvent>

    ghost predicate Valid()
      reads this, front, back
    {
      && (locked ==> handlers == 0)
      && front.locked == locked && back.locked == locked
      && ("locked" in front.classes) == locked && ("unlocked" in front.classes) == !locked
      && ("locked" in back.classes) == locked && "unlocked" !in back.classes
      && front.stage == stage && front.level == level && front.color == color
      && back.stage == stage && back.level == level && back.color == color
      && forall i :: 0 <= i < |emitted| ==> emitted[i].index == level - 1
                                              && emitted[i].stage == stage && emitted[i].level == level
    }

    /** The payload a handler emits: `index` is `level - 1`. */
    function EventFor(name: EventName): (e: LevelEvent)
      ensures e.name == name && e.index == level - 1 && e.stage == stage && e.level == level
    {
      LevelEvent(name, level - 1, stage, level)
    }

    /** `new LevelView(...)`: closed; locked unless `hasUnlockedLevel` says
        otherwise; faces built with the lock and colour; handlers registered
        only when unlocked. The faces are not given `current`. */
    constructor (stage: int, level: int, index: int, colors: int,
                 hasUnlockedLevel: (int, int) -> bool, user: User)
      ensures Valid()
      ensures this.stage == stage && this.level == level && this.user == user
      ensures !isOpen
      ensures locked == !hasUnlockedLevel(stage, level)
      ensures color == ColorIndex(index, colors)
      ensures handlers == (if locked then 0 else 1)
      ensures emitted == []
      ensures fresh(front) && fresh(back)
      ensures front.classes == FrontBackingClasses(stage, ColorIndex(index, colors), false, locked)
      ensures back.classes == BackBackingClasses(stage, ColorIndex(index, colors), false, locked)
    {
      this.stage, this.level, this.index, this.colors := stage, level, index, colors;
      this.user := user;
      isOpen := false;
      var isLocked := !hasUnlockedLevel(stage, level);
      locked := isLocked;
      color := ColorIndex(index, colors);
      front := new FrontView(stage, level, ColorIndex(index, colors), isLocked, false);
      back := new BackView(stage, level, ColorIndex(index, colors), isLocked, false);
      handlers := 0;
      emitted := [];
      new;
      CreateListeners();
    }

    /** `_createListeners`: registers one more set of handlers, unless locked. */
    method CreateListeners()
      modifies this
      ensures handlers == old(handlers) + (if locked then 0 else 1)
      ensures isOpen == old(isOpen) && locked == old(locked) && emitted == old(emitted)
    {
      if !locked {
        handlers := handlers + 1;
      }
    }

    /** `flip`: turn the card over (the flipper animation is left out). */
    method Flip()
      modifies this
      ensures isOpen == !old(isOpen)
      ensures locked == old(locked) && handlers == old(handlers) && emitted == old(emitted)
    {
      isOpen := !isOpen;
    }

    /** The `select` handler: flip, then emit `level:select`. */
    method Select()
      modifies this
      ensures isOpen == !old(isOpen)
      ensures emitted == old(emitted) + [EventFor(LevelSelect)]
      ensures locked == old(locked) && handlers == old(handlers)
    {
      Flip();
      emitted := emitted + [EventFor(LevelSelect)];
    }

    /** The `close` handler: flip, then emit `level:close`. */
    method Close()
      modifies this
      ensures isOpen == !old(isOpen)
      ensures emitted == old(emitted) + [EventFor(LevelClose)]
      ensures locked == old(locked) && handlers == old(handlers)
    {
      Flip();
      emitted := emitted + [EventFor(LevelClose)];
    }

    /** The `play` handler: emit `level:play`, never flip. */
    method Play()
      modifies this
      ensures isOpen == old(isOpen)
      ensures emitted == old(emitted) + [EventFor(LevelPlay)]
      ensures locked == old(locked) && handlers == old(handlers)
    {
      emitted := emitted + [EventFor(LevelPlay)];
    }

    /** A click on the front runs every registered `select` handler. */
    method ClickFront()
      requires Valid()
      modifies this
      ensures Valid()
      ensures isOpen == FlipTimes(old(isOpen), handlers)
      ensures emitted == old(emitted) + Repeat(EventFor(LevelSelect), handlers)
      ensures locked == old(locked) && handlers == old(handlers)
      ensures locked ==> isOpen == old(isOpen) && emitted == old(emitted)
    {
      var i := 0;
      while i < handlers
        invariant 0 <= i <= handlers
        invariant isOpen == FlipTimes(old(isOpen), i)
        invariant emitted == old(emitted) + Repeat(EventFor(LevelSelect), i)
        invariant locked == old(locked) && handlers == old(handlers)
        invariant Valid()
      {
        Select();
        i := i + 1;
      }
    }

    /** A click on the back backing runs every registered `close` handler. */
    method ClickBack()
      requires Valid()
      modifies this
      ensures Valid()
      ensures isOpen == FlipTimes(old(isOpen), handlers)
      ensures emitted == old(emitted) + Repeat(EventFor(LevelClose), handlers)
      ensures locked == old(locked) && handlers == old(handlers)
      ensures locked ==> isOpen == old(isOpen) && emitted == old(emitted)
    {
      var i := 0;
      while i < handlers
        invariant 0 <= i <= handlers
        invariant isOpen == FlipTimes(old(isOpen), i)
        invariant emitted == old(emitted) + Repeat(EventFor(LevelClose), i)
        invariant locked == old(locked) && handlers == old(handlers)
        invariant Valid()
      {
        Close();
        i := i + 1;
      }
    }

    /** A click on the play button runs every registered `play` handler. */
    method ClickPlay()
      requires Valid()
      modifies this
      ensures Valid()
      ensures isOpen == old(isOpen)
      ensures emitted == old(emitted) + Repeat(EventFor(LevelPlay), handlers)
      ensures locked == old(locked) && handlers == old(handlers)
      ensures locked ==> emitted == old(emitted)
    {
      var i := 0;
      while i < handlers
        invariant 0 <= i <= handlers
        invariant isOpen == old(isOpen)
        invariant emitted == old(emitted) + Repeat(EventFor(LevelPlay), i)
        invariant locked == old(locked) && handlers == old(handlers)
        invariant Valid()
      {
        Play();
        i := i + 1;
      }
    }

    /** `unlock`: record this card's stage and level as the latest reached
        (unconditionally), clear the lock on the card and both faces, and
        register the handlers once more. Not guarded against repeat calls. */
    method Unlock()
      requires Valid() && user.Valid()
      modifies this, front, back, user, user.db
      ensures Valid() && user.Valid()
      ensures !locked && !front.locked && !back.locked
      ensures front.classes == old(front.classes) - {"locked"} + {"unlocked"}
      ensures back.classes == old(back.classes) - {"locked"}
      ensures handlers == old(handlers) + 1
      ensures isOpen == old(isOpen) && emitted == old(emitted)
      ensures user.options == Patch(old(user.options), LatestPatch(Num(stage), Num(level)))
      ensures user.GetLatestLevel() == LatestLevel(Num(stage), Num(level))
      ensures user.db.data == old(user.db.data) + LatestPatch(Num(stage), Num(level))
      ensures user.db.readLog == old(user.db.readLog)
      ensures user.db.writeLog == old(user.db.writeLog)
                + multiset{("latestStage", Num(stage)), ("latestLevel", Num(level))}
    {
      user.SetLatestLevel(Num(stage), Num(level));
      locked := false;
      front.Unlock();
      back.Unlock();
      CreateListeners();
    }

    /** `unlock` as the source writes it: the progress it records is read
        from `this.stage` and `this.level`, which no code assigns, so both
        are `undefined`. Everything else is as in `Unlock`. */
    method UnlockAsWritten()
      requires Valid() && user.Valid()
      modifies this, front, back, user, user.db
      ensures Valid() && user.Valid()
      ensures !locked && !front.locked && !back.locked
      ensures front.classes == old(front.classes) - {"locked"} + {"unlocked"}
      ensures back.classes == old(back.classes) - {"locked"}
      ensures handlers == old(handlers) + 1
      ensures isOpen == old(isOpen) && emitted == old(emitted)
      ensures user.options == Patch(old(user.options), LatestPatch(Undefined, Undefined))
      ensures user.GetLatestLevel() == LatestLevel(Undefined, Undefined)
      ensures user.GetLatestLevel() != LatestLevel(Num(stage), Num(level))
      ensures user.db.data == old(user.db.data) + LatestPatch(Undefined, Undefined)
      ensures user.db.readLog == old(user.db.readLog)
      ensures user.db.writeLog == old(user.db.writeLog)
                + multiset{("latestStage", Undefined), ("latestLevel", Undefined)}
    {
      user.SetLatestLevel(Undefined, Undefined);
      locked := false;
      front.Unlock();
      back.Unlock();
      CreateListeners();
    }
  }

  // ----- Properties of the level card -----

  /** Flipping `n` times leaves the card as it was exactly when `n` is even. */
  lemma {:induction false} FlipTimesParity(open: bool, n: nat)
    ensures FlipTimes(open, n) == (if n % 2 == 0 then open else !open)
  {
    if n > 0 {
      FlipTimesParity(open, n - 1);
    }
  }

  /** Two flips restore the card; so a card whose handlers were registered
      twice (unlocked at construction, then `unlock`ed) does not turn over on
      a click, although it emits two `level:select` events. */
  lemma FlipTwiceRestores(open: bool)
    ensures FlipTimes(open, 2) == open
    ensures FlipTimes(open, 1) == !open
  {
    FlipTimesParity(open, 2);
    FlipTimesParity(open, 1);
  }

  /** An unlocked face's classes are exactly those of a face built unlocked. */
  lemma UnlockedFacesMatchFreshlyUnlocked(stage: int, color: Option<int>, current: bool, locked: bool)
    ensures FrontBackingClasses(stage, color, current, locked) - {"locked"} + {"unlocked"}
            == FrontBackingClasses(stage, color, current, false)
    ensures BackBackingClasses(stage, color, current, locked) - {"locked"}
            == BackBackingClasses(stage, color, current, false)
  {
    var cur: set<string> := if current then {"current"} else {};
    var front := BaseClasses(true, stage, color) + cur;
    var back := BaseClasses(false, stage, color) + cur;
    assert "locked" !in front && "locked" !in back;
    assert front + (if locked then {"locked"} else {"unlocked"}) - {"locked"} + {"unlocked"}
           == front + {"unlocked"};
    assert back + (if locked then {"locked"} else {}) - {"locked"} == back;
  }
}
