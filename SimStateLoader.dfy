/**
 * The stand-alone save/restore helpers of the art-fluid page: a loader that
 * copies a saved simulation state onto any component-like target, field by
 * field and only where the saved value has the right type, and the
 * serializer that produces such a state from a target.
 *
 * The target is untyped in the program, so every field of it is a
 * JavaScript value here.
 */
module SimStateLoader {
  import opened Js

  /** `Math.max(a, Math.min(b, n))`. */
  function Clamp(n: real, a: real, b: real): (r: real)
    ensures a <= b ==> a <= r <= b
    ensures a <= n <= b ==> r == n
    ensures a <= b && n < a ==> r == a
    ensures a <= b && b < n ==> r == b
  {
    var m := if b < n then b else n;
    if a < m then m else a
  }

  /** A colour triple as the target holds it: three separate fields. */
  datatype Triple = Triple(r: Value, g: Value, b: Value)

  /** The four display toggles of the target's scene. */
  datatype Flags = Flags(showParticles: Value, showGrid: Value, compensateDrift: Value, separateParticles: Value)

  /** The scene's gravity and flip ratio, and the target's threshold. */
  datatype Numbers = Numbers(gravity: Value, flipRatio: Value, threshold: Value)

  /** The clear colour and the low, high and ball colour triples. */
  datatype Palette = Palette(clearColor: Value, low: Triple, high: Triple, ball: Triple)

  /** Everything of a target the loader reads or writes. */
  datatype TargetState = TargetState(flags: Flags, numbers: Numbers, palette: Palette, particles: Value)

  // ---------------- what applying a saved state does ----------------

  /** A field that is taken only when the saved value is a boolean. */
  function IfBool(v: Value, d: Value): Value
  {
    if v.Bool? then v else d
  }

  /** A field that is taken only when the saved value is a number. */
  function IfNum(v: Value, d: Value): Value
  {
    if v.Num? then v else d
  }

  function AppliedFlags(f: Flags, sim: Value): (r: Flags)
  {
    Flags(IfBool(Get(sim, "showParticles"), f.showParticles),
          IfBool(Get(sim, "showGrid"), f.showGrid),
          IfBool(Get(sim, "compensateDrift"), f.compensateDrift),
          IfBool(Get(sim, "separateParticles"), f.separateParticles))
  }

  /** The raw saved numbers are stored; clamping only concerns the sliders. */
  function AppliedNumbers(n: Numbers, sim: Value): (r: Numbers)
  {
    Numbers(IfNum(Get(sim, "gravity"), n.gravity),
            IfNum(Get(sim, "flipRatio"), n.flipRatio),
            IfNum(Get(sim, "threshold"), n.threshold))
  }

  /** The clear colour becomes the first three entries of a saved array of at least three. */
  function ClearColourFrom(cc: Value, v: Value): Value
  {
    if v.Arr? && |v.items| >= 3 then Arr(v.items[..3]) else cc
  }

  /** A truthy saved colour replaces all three fields by its `r`, `g` and `b` members. */
  function TripleFrom(c: Triple, v: Value): Triple
  {
    if Truthy(v) then Triple(Get(v, "r"), Get(v, "g"), Get(v, "b")) else c
  }

  function AppliedPalette(p: Palette, sim: Value): (r: Palette)
  {
    Palette(ClearColourFrom(p.clearColor, Get(sim, "clearColor")),
            TripleFrom(p.low, Get(sim, "low")),
            TripleFrom(p.high, Get(sim, "high")),
            TripleFrom(p.ball, Get(sim, "ball")))
  }

  /**
   * A non-empty saved particle list is handed on, copied particle by
   * particle, but only to a target that can rebuild its particle buffers.
   */
  function ParticlesFrom(ps: Value, v: Value, canReinitialize: bool): Value
  {
    if v.Arr? && |v.items| > 0 && canReinitialize then Arr(SpreadAll(v.items)) else ps
  }

  /** The target's state after the loader: nothing for a falsy state, otherwise the four sections. */
  function Applied(t: TargetState, sim: Value, canReinitialize: bool): (r: TargetState)
  {
    if !Truthy(sim) then t
    else TargetState(AppliedFlags(t.flags, sim), AppliedNumbers(t.numbers, sim),
                     AppliedPalette(t.palette, sim),
                     ParticlesFrom(t.particles, Get(sim, "particles"), canReinitialize))
  }

  // ---------------- the serializer ----------------

  function TripleObject(c: Triple): Value
  {
    Obj(map["r" := c.r, "g" := Coalesce(c.g, Num(0.0)), "b" := Coalesce(c.b, Num(0.0))])
  }

  /** Adds `key := v` to an object when `present` holds. */
  function WithField(payload: map<string, Value>, present: bool, key: string, v: Value): map<string, Value>
  {
    if present then payload[key := v] else payload
  }

  /**
   * The saved state of a target: the three numbers and four toggles always
   * (as they are), the clear colour only when it is an array of at least
   * three, a colour triple only when its red component is a number, and the
   * particles only when they are a non-empty list.
   */
  function SerializeSimState(t: TargetState): (payload: Value)
  {
    var cc := t.palette.clearColor;
    var ps := t.particles;
    var always := map[
      "gravity" := t.numbers.gravity,
      "flipRatio" := t.numbers.flipRatio,
      "threshold" := t.numbers.threshold,
      "showParticles" := t.flags.showParticles,
      "showGrid" := t.flags.showGrid,
      "compensateDrift" := t.flags.compensateDrift,
      "separateParticles" := t.flags.separateParticles];
    var withClear := WithField(always, cc.Arr? && |cc.items| >= 3, "clearColor",
                               if cc.Arr? && |cc.items| >= 3 then Arr(cc.items[..3]) else Undefined);
    var withLow := WithField(withClear, t.palette.low.r.Num?, "low", TripleObject(t.palette.low));
    var withHigh := WithField(withLow, t.palette.high.r.Num?, "high", TripleObject(t.palette.high));
    var withBall := WithField(withHigh, t.palette.ball.r.Num?, "ball", TripleObject(t.palette.ball));
    var withParticles := WithField(withBall, ps.Arr? && |ps.items| > 0, "particles",
                                   if ps.Arr? then Arr(SpreadAll(ps.items)) else Undefined);
    Obj(withParticles)
  }

  // ---------------- properties ----------------

  /** The saved numbers are the target's, as they are. */
  lemma SavedNumbers(t: TargetState)
    ensures var p := SerializeSimState(t);
            && p.Obj? && Truthy(p)
            && Get(p, "gravity") == t.numbers.gravity
            && Get(p, "flipRatio") == t.numbers.flipRatio
            && Get(p, "threshold") == t.numbers.threshold
  {
  }

  /** The saved toggles are the target's, as they are. */
  lemma SavedFlags(t: TargetState)
    ensures var p := SerializeSimState(t);
            && Get(p, "showParticles") == t.flags.showParticles
            && Get(p, "showGrid") == t.flags.showGrid
            && Get(p, "compensateDrift") == t.flags.compensateDrift
            && Get(p, "separateParticles") == t.flags.separateParticles
  {
  }

  /** The clear colour is saved exactly when it is an array of at least three, as its first three entries. */
  lemma SavedClearColour(t: TargetState)
    ensures var p := SerializeSimState(t);
            var cc := t.palette.clearColor;
            && ("clearColor" in p.fields <==> cc.Arr? && |cc.items| >= 3)
            && Get(p, "clearColor") == (if cc.Arr? && |cc.items| >= 3 then Arr(cc.items[..3]) else Undefined)
  {
  }

  /** A colour triple is saved exactly when its red component is a number, with a missing green or blue as 0. */
  lemma SavedColours(t: TargetState)
    ensures var p := SerializeSimState(t);
            && ("low" in p.fields <==> t.palette.low.r.Num?)
            && Get(p, "low") == (if t.palette.low.r.Num? then TripleObject(t.palette.low) else Undefined)
            && ("high" in p.fields <==> t.palette.high.r.Num?)
            && Get(p, "high") == (if t.palette.high.r.Num? then TripleObject(t.palette.high) else Undefined)
            && ("ball" in p.fields <==> t.palette.ball.r.Num?)
            && Get(p, "ball") == (if t.palette.ball.r.Num? then TripleObject(t.palette.ball) else Undefined)
  {
  }

  /** The particles are saved exactly when they are a non-empty list, each one copied. */
  lemma SavedParticles(t: TargetState)
    ensures var p := SerializeSimState(t);
            var ps := t.particles;
            && ("particles" in p.fields <==> ps.Arr? && |ps.items| > 0)
            && Get(p, "particles") == (if ps.Arr? && |ps.items| > 0 then Arr(SpreadAll(ps.items)) else Undefined)
  {
  }

  /** A falsy saved state changes nothing. */
  lemma FalsyStateIsNoOp(t: TargetState, sim: Value, canReinitialize: bool)
    requires !Truthy(sim)
    ensures Applied(t, sim, canReinitialize) == t
  {
  }

  /** Each toggle follows the saved value exactly when that value is a boolean, and is kept otherwise. */
  lemma FlagsTakenOnlyFromBooleans(t: TargetState, sim: Value, canReinitialize: bool)
    requires Truthy(sim)
    ensures var r := Applied(t, sim, canReinitialize).flags;
            && r.showParticles == (if Get(sim, "showParticles").Bool? then Get(sim, "showParticles") else t.flags.showParticles)
            && r.showGrid == (if Get(sim, "showGrid").Bool? then Get(sim, "showGrid") else t.flags.showGrid)
            && r.compensateDrift == (if Get(sim, "compensateDrift").Bool? then Get(sim, "compensateDrift") else t.flags.compensateDrift)
            && r.separateParticles == (if Get(sim, "separateParticles").Bool? then Get(sim, "separateParticles") else t.flags.separateParticles)
  {
  }

  /** Applying the same saved state twice is the same as applying it once. */
  lemma ApplyIdempotent(t: TargetState, sim: Value, canReinitialize: bool)
    ensures Applied(Applied(t, sim, canReinitialize), sim, canReinitialize) == Applied(t, sim, canReinitialize)
  {
  }

  /**
   * What a target `t2` holds after loading the saved state of a target `t`:
   * each field of `t` that the serializer writes with a type the loader takes.
   */
  function Reloaded(t2: TargetState, t: TargetState, canReinitialize: bool): (r: TargetState)
  {
    var cc := t.palette.clearColor;
    var ps := t.particles;
    TargetState(
      Flags(IfBool(t.flags.showParticles, t2.flags.showParticles),
            IfBool(t.flags.showGrid, t2.flags.showGrid),
            IfBool(t.flags.compensateDrift, t2.flags.compensateDrift),
            IfBool(t.flags.separateParticles, t2.flags.separateParticles)),
      Numbers(IfNum(t.numbers.gravity, t2.numbers.gravity),
              IfNum(t.numbers.flipRatio, t2.numbers.flipRatio),
              IfNum(t.numbers.threshold, t2.numbers.threshold)),
      Palette(if cc.Arr? && |cc.items| >= 3 then Arr(cc.items[..3]) else t2.palette.clearColor,
              ReloadedTriple(t2.palette.low, t.palette.low),
              ReloadedTriple(t2.palette.high, t.palette.high),
              ReloadedTriple(t2.palette.ball, t.palette.ball)),
      if ps.Arr? && |ps.items| > 0 && canReinitialize then Arr(SpreadAll(ps.items)) else t2.particles)
  }

  /** A saved triple comes back with its missing green and blue as 0, when its red is a number. */
  function ReloadedTriple(c2: Triple, c: Triple): Triple
  {
    if c.r.Num? then Triple(c.r, Coalesce(c.g, Num(0.0)), Coalesce(c.b, Num(0.0))) else c2
  }

  /** Save then load: the loaded target holds exactly what `Reloaded` says. */
  lemma {:induction false} SaveLoadRoundTrip(t: TargetState, t2: TargetState, canReinitialize: bool)
    ensures Applied(t2, SerializeSimState(t), canReinitialize) == Reloaded(t2, t, canReinitialize)
  {
    SavedNumbers(t);
    SavedFlags(t);
    SavedClearColour(t);
    SavedColours(t);
    SavedParticles(t);
    LoadSaved(t, t2, canReinitialize, SerializeSimState(t));
  }

  /** Loading any object that holds what `t` saves. */
  lemma {:induction false} LoadSaved(t: TargetState, t2: TargetState, canReinitialize: bool, p: Value)
    requires p.Obj?
    requires Get(p, "gravity") == t.numbers.gravity && Get(p, "flipRatio") == t.numbers.flipRatio
    requires Get(p, "threshold") == t.numbers.threshold
    requires Get(p, "showParticles") == t.flags.showParticles && Get(p, "showGrid") == t.flags.showGrid
    requires Get(p, "compensateDrift") == t.flags.compensateDrift
    requires Get(p, "separateParticles") == t.flags.separateParticles
    requires var cc := t.palette.clearColor;
             Get(p, "clearColor") == if cc.Arr? && |cc.items| >= 3 then Arr(cc.items[..3]) else Undefined
    requires Get(p, "low") == if t.palette.low.r.Num? then TripleObject(t.palette.low) else Undefined
    requires Get(p, "high") == if t.palette.high.r.Num? then TripleObject(t.palette.high) else Undefined
    requires Get(p, "ball") == if t.palette.ball.r.Num? then TripleObject(t.palette.ball) else Undefined
    requires var ps := t.particles;
             Get(p, "particles") == if ps.Arr? && |ps.items| > 0 then Arr(SpreadAll(ps.items)) else Undefined
    ensures Applied(t2, p, canReinitialize) == Reloaded(t2, t, canReinitialize)
  {
    SavedTriple(t2.palette.low, t.palette.low, Get(p, "low"));
    SavedTriple(t2.palette.high, t.palette.high, Get(p, "high"));
    SavedTriple(t2.palette.ball, t.palette.ball, Get(p, "ball"));
    var ps := t.particles;
    if ps.Arr? && |ps.items| > 0 {
      SpreadAllIdempotent(ps.items);
    }
  }

  /** One colour triple through the serializer and back. */
  lemma SavedTriple(c2: Triple, c: Triple, v: Value)
    requires v == if c.r.Num? then TripleObject(c) else Undefined
    ensures TripleFrom(c2, v) == ReloadedTriple(c2, c)
  {
    if c.r.Num? {
      assert Get(v, "r") == c.r;
    }
  }

  /**
   * The toggles and numbers of a target whose toggles are booleans and whose
   * numbers are numbers come back unchanged, whatever the target loading them held.
   */
  lemma {:induction false} TypedFieldsRoundTrip(t: TargetState, t2: TargetState, canReinitialize: bool)
    requires t.flags.showParticles.Bool? && t.flags.showGrid.Bool?
    requires t.flags.compensateDrift.Bool? && t.flags.separateParticles.Bool?
    requires t.numbers.gravity.Num? && t.numbers.flipRatio.Num? && t.numbers.threshold.Num?
    ensures Applied(t2, SerializeSimState(t), canReinitialize).flags == t.flags
    ensures Applied(t2, SerializeSimState(t), canReinitialize).numbers == t.numbers
  {
    SaveLoadRoundTrip(t, t2, canReinitialize);
  }

  /** A target whose every field is of the type the loader takes survives save then load. */
  ghost predicate Canonical(t: TargetState)
  {
    && t.flags.showParticles.Bool? && t.flags.showGrid.Bool?
    && t.flags.compensateDrift.Bool? && t.flags.separateParticles.Bool?
    && t.numbers.gravity.Num? && t.numbers.flipRatio.Num? && t.numbers.threshold.Num?
    && t.palette.clearColor.Arr? && |t.palette.clearColor.items| == 3
    && CanonicalTriple(t.palette.low) && CanonicalTriple(t.palette.high) && CanonicalTriple(t.palette.ball)
    && t.particles.Arr? && |t.particles.items| > 0
    && forall k :: 0 <= k < |t.particles.items| ==> t.particles.items[k].Obj?
  }

  ghost predicate CanonicalTriple(c: Triple)
  {
    c.r.Num? && c.g.Num? && c.b.Num?
  }

  /** Save then load restores a canonical target completely on a target that can rebuild its particles. */
  lemma {:induction false} CanonicalRoundTrip(t: TargetState, t2: TargetState)
    requires Canonical(t)
    ensures Applied(t2, SerializeSimState(t), true) == t
  {
    SaveLoadRoundTrip(t, t2, true);
    SpreadAllObjects(t.particles.items);
    assert t.palette.clearColor.items[..3] == t.palette.clearColor.items;
  }

  // ---------------- the target ----------------

  /** The scene of a target: its toggles and two of its numbers. */
  class LoaderScene {
    var showParticles: Value
    var showGrid: Value
    var compensateDrift: Value
    var separateParticles: Value
    var flipRatio: Value
    var gravity: Value

    constructor (flags: Flags, gravity: Value, flipRatio: Value)
      ensures showParticles == flags.showParticles && showGrid == flags.showGrid
      ensures compensateDrift == flags.compensateDrift && separateParticles == flags.separateParticles
      ensures this.gravity == gravity && this.flipRatio == flipRatio
    {
      showParticles := flags.showParticles;
      showGrid := flags.showGrid;
      compensateDrift := flags.compensateDrift;
      separateParticles := flags.separateParticles;
      this.gravity := gravity;
      this.flipRatio := flipRatio;
    }
  }

  /** A component-like target of the loader. */
  class Target {
    const scene: LoaderScene
    /** Whether the target offers a particle-buffer reinitializer. */
    const canReinitialize: bool
    var threshold: Value
    var clearColor: Value
    var lowr: Value
    var lowg: Value
    var lowb: Value
    var highr: Value
    var highg: Value
    var highb: Value
    var ballr: Value
    var ballg: Value
    var ballb: Value
    var particles: Value
    /**
     * The target's `__isLoadingState` property, raised while the loader writes.
     * It is a property of its own, not the component's `isLoadingState`, so
     * the component's slider handlers do not see it.
     */
    var loaderActive: bool

    constructor (scene: LoaderScene, canReinitialize: bool)
      ensures this.scene == scene && this.canReinitialize == canReinitialize && !loaderActive
      ensures threshold == Undefined && clearColor == Undefined && particles == Undefined
      ensures lowr == lowg == lowb == highr == highg == highb == ballr == ballg == ballb == Undefined
    {
      this.scene := scene;
      this.canReinitialize := canReinitialize;
      threshold := Undefined;
      clearColor := Undefined;
      lowr, lowg, lowb := Undefined, Undefined, Undefined;
      highr, highg, highb := Undefined, Undefined, Undefined;
      ballr, ballg, ballb := Undefined, Undefined, Undefined;
      particles := Undefined;
      loaderActive := false;
    }

    function FlagsNow(): Flags
      reads scene`showParticles, scene`showGrid, scene`compensateDrift, scene`separateParticles
    {
      Flags(scene.showParticles, scene.showGrid, scene.compensateDrift, scene.separateParticles)
    }

    function NumbersNow(): Numbers
      reads scene`gravity, scene`flipRatio, this`threshold
    {
      Numbers(scene.gravity, scene.flipRatio, threshold)
    }

    function LowNow(): Triple
      reads this`lowr, this`lowg, this`lowb
    {
      Triple(lowr, lowg, lowb)
    }

    function HighNow(): Triple
      reads this`highr, this`highg, this`highb
    {
      Triple(highr, highg, highb)
    }

    function BallNow(): Triple
      reads this`ballr, this`ballg, this`ballb
    {
      Triple(ballr, ballg, ballb)
    }

    function PaletteNow(): Palette
      reads this`clearColor, this`lowr, this`lowg, this`lowb, this`highr, this`highg, this`highb,
            this`ballr, this`ballg, this`ballb
    {
      Palette(clearColor, LowNow(), HighNow(), BallNow())
    }

    function State(): TargetState
      reads scene`showParticles, scene`showGrid, scene`compensateDrift, scene`separateParticles,
            scene`gravity, scene`flipRatio, this`threshold, this`particles,
            this`clearColor, this`lowr, this`lowg, this`lowb, this`highr, this`highg, this`highb,
            this`ballr, this`ballg, this`ballb
    {
      TargetState(FlagsNow(), NumbersNow(), PaletteNow(), particles)
    }

    /** applySimState on this target. */
    method Apply(sim: Value)
      modifies this`loaderActive, scene`showParticles, scene`showGrid, scene`compensateDrift,
               scene`separateParticles, scene`gravity, scene`flipRatio, this`threshold, this`particles,
               this`clearColor, this`lowr, this`lowg, this`lowb, this`highr, this`highg, this`highb,
               this`ballr, this`ballg, this`ballb
      ensures State() == Applied(old(State()), sim, canReinitialize)
      ensures !Truthy(sim) ==> loaderActive == old(loaderActive)
      ensures Truthy(sim) ==> !loaderActive
    {
      if !Truthy(sim) {
        return;
      }
      loaderActive := true;
      ApplySections(sim);
      loaderActive := false;
    }

    /** The four sections of the loader, in order. */
    method ApplySections(sim: Value)
      requires loaderActive
      modifies scene`showParticles, scene`showGrid, scene`compensateDrift,
               scene`separateParticles, scene`gravity, scene`flipRatio, this`threshold, this`particles,
               this`clearColor, this`lowr, this`lowg, this`lowb, this`highr, this`highg, this`highb,
               this`ballr, this`ballg, this`ballb
      ensures State() == TargetState(AppliedFlags(old(FlagsNow()), sim), AppliedNumbers(old(NumbersNow()), sim),
                                     AppliedPalette(old(PaletteNow()), sim),
                                     ParticlesFrom(old(particles), Get(sim, "particles"), canReinitialize))
    {
      ApplyFlags(sim);
      ApplyNumbers(sim);
      ApplyPalette(sim);
      ApplyParticles(sim);
    }

    method ApplyFlags(sim: Value)
      requires loaderActive
      modifies scene`showParticles, scene`showGrid, scene`compensateDrift, scene`separateParticles
      ensures FlagsNow() == AppliedFlags(old(FlagsNow()), sim)
    {
      var v := Get(sim, "showParticles");
      if v.Bool? {
        scene.showParticles := v;
      }
      v := Get(sim, "showGrid");
      if v.Bool? {
        scene.showGrid := v;
      }
      v := Get(sim, "compensateDrift");
      if v.Bool? {
        scene.compensateDrift := v;
      }
      v := Get(sim, "separateParticles");
      if v.Bool? {
        scene.separateParticles := v;
      }
    }

    method ApplyNumbers(sim: Value)
      requires loaderActive
      modifies scene`gravity, scene`flipRatio, this`threshold
      ensures NumbersNow() == AppliedNumbers(old(NumbersNow()), sim)
    {
      var v := Get(sim, "flipRatio");
      if v.Num? {
        scene.flipRatio := v;
      }
      v := Get(sim, "threshold");
      if v.Num? {
        threshold := v;
      }
      v := Get(sim, "gravity");
      if v.Num? {
        scene.gravity := v;
      }
    }

    method ApplyPalette(sim: Value)
      requires loaderActive
      modifies this`clearColor, this`lowr, this`lowg, this`lowb, this`highr, this`highg, this`highb,
               this`ballr, this`ballg, this`ballb
      ensures PaletteNow() == AppliedPalette(old(PaletteNow()), sim)
    {
      ApplyClearColour(sim);
      ApplyLow(sim);
      ApplyHigh(sim);
      ApplyBall(sim);
    }

    method ApplyClearColour(sim: Value)
      modifies this`clearColor
      ensures clearColor == ClearColourFrom(old(clearColor), Get(sim, "clearColor"))
    {
      var v := Get(sim, "clearColor");
      if v.Arr? && |v.items| >= 3 {
        clearColor := Arr([v.items[0], v.items[1], v.items[2]]);
        assert [v.items[0], v.items[1], v.items[2]] == v.items[..3];
      }
    }

    method ApplyLow(sim: Value)
      modifies this`lowr, this`lowg, this`lowb
      ensures LowNow() == TripleFrom(old(LowNow()), Get(sim, "low"))
    {
      var v := Get(sim, "low");
      if Truthy(v) {
        lowr, lowg, lowb := Get(v, "r"), Get(v, "g"), Get(v, "b");
      }
    }

    method ApplyHigh(sim: Value)
      modifies this`highr, this`highg, this`highb
      ensures HighNow() == TripleFrom(old(HighNow()), Get(sim, "high"))
    {
      var v := Get(sim, "high");
      if Truthy(v) {
        highr, highg, highb := Get(v, "r"), Get(v, "g"), Get(v, "b");
      }
    }

    method ApplyBall(sim: Value)
      modifies this`ballr, this`ballg, this`ballb
      ensures BallNow() == TripleFrom(old(BallNow()), Get(sim, "ball"))
    {
      var v := Get(sim, "ball");
      if Truthy(v) {
        ballr, ballg, ballb := Get(v, "r"), Get(v, "g"), Get(v, "b");
      }
    }

    method ApplyParticles(sim: Value)
      requires loaderActive
      modifies this`particles
      ensures particles == ParticlesFrom(old(particles), Get(sim, "particles"), canReinitialize)
    {
      var v := Get(sim, "particles");
      if v.Arr? && |v.items| > 0 && canReinitialize {
        var copied := SpreadAll(v.items);
        particles := Arr(copied);
      }
    }
  }

  /** applySimState: a missing target or a falsy saved state leaves everything as it was. */
  method ApplySimState(target: Target?, sim: Value)
    modifies if target == null then {} else {target, target.scene}
    ensures target != null ==> target.State() == Applied(old(target.State()), sim, target.canReinitialize)
    ensures target != null && Truthy(sim) ==> !target.loaderActive
    ensures target != null && !Truthy(sim) ==> target.loaderActive == old(target.loaderActive)
  {
    if target == null {
      return;
    }
    target.Apply(sim);
  }
}
