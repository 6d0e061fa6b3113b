/**
 * The art-fluid component: the scene it drives, the scene setup that builds
 * the fluid grid, the obstacle, the keyboard and pointer handlers, the frame
 * step and the save/restore of the view state.
 */
module ArtFluid {
  import opened Js
  import opened JsStrings
  import opened Grid

  /** The time step; the component only ever sets it to `1 / 60`. */
  const Dt: real := 1.0 / 60.0

  /** Cell size of the tank: the 3.0 high simulation domain split into 120 rows. */
  const CellSize: real := 3.0 / 120.0

  /** Particle radius relative to the cell size, and the horizontal particle spacing. */
  const ParticleRadius: real := 0.4 * CellSize
  const ParticleSpacing: real := 2.0 * ParticleRadius

  /** Radius the scene setup gives the obstacle. */
  const ObstacleRadius: real := 0.1

  // ---------------- the controls the handlers change ----------------

  /** The part of the scene that the keyboard, pointer and frame handlers change. */
  datatype Controls = Controls(paused: bool, frameNr: int,
                               obstacleX: real, obstacleY: real,
                               obstacleVelX: real, obstacleVelY: real,
                               showObstacle: bool)

  /**
   * Moving the obstacle to (x, y): a reset puts it there at rest, otherwise
   * its velocity is the displacement over one time step.
   */
  function ObstacleMoved(c: Controls, x: real, y: real, reset: bool): (r: Controls)
  {
    var vx := if reset then 0.0 else (x - c.obstacleX) / Dt;
    var vy := if reset then 0.0 else (y - c.obstacleY) / Dt;
    c.(obstacleX := x, obstacleY := y, obstacleVelX := vx, obstacleVelY := vy, showObstacle := true)
  }

  /** A reset leaves the obstacle at rest at (x, y) and shown. */
  lemma ResetObstacleAtRest(c: Controls, x: real, y: real)
    ensures var r := ObstacleMoved(c, x, y, true);
            r.obstacleX == x && r.obstacleY == y && r.obstacleVelX == 0.0 && r.obstacleVelY == 0.0 && r.showObstacle
    ensures ObstacleMoved(c, x, y, true).(showObstacle := c.showObstacle, obstacleX := c.obstacleX,
              obstacleY := c.obstacleY, obstacleVelX := c.obstacleVelX, obstacleVelY := c.obstacleVelY) == c
  {
  }

  /** Without a reset, one time step at the recorded velocity leads from the old position to the new one. */
  lemma {:induction false} DragVelocityRecoversMove(c: Controls, x: real, y: real)
    ensures var r := ObstacleMoved(c, x, y, false);
            c.obstacleX + r.obstacleVelX * Dt == x && c.obstacleY + r.obstacleVelY * Dt == y
  {
    var r := ObstacleMoved(c, x, y, false);
    assert r.obstacleVelX == (x - c.obstacleX) * 60.0;
    assert r.obstacleVelY == (y - c.obstacleY) * 60.0;
  }

  /** Dragging to the place the obstacle already has brings it to rest. */
  lemma DragInPlaceStops(c: Controls, x: real, y: real)
    ensures var r := ObstacleMoved(ObstacleMoved(c, x, y, false), x, y, false);
            r.obstacleVelX == 0.0 && r.obstacleVelY == 0.0 && r.obstacleX == x && r.obstacleY == y
  {
  }

  /**
   * The effect of a lower-cased key on the controls.  `m` unpauses, runs one
   * frame and pauses again; `f` only asks for full screen.
   */
  function KeyControls(key: string, c: Controls): (r: Controls)
  {
    if key == "p" then c.(paused := !c.paused)
    else if key == "m" then c.(paused := true, frameNr := c.frameNr + 1)
    else if key == "e" then c.(obstacleVelY := 3.0)
    else if key == "r" then c.(obstacleVelY := -3.0)
    else if key == "t" then c.(obstacleVelX := 3.0)
    else if key == "y" then c.(obstacleVelX := -3.0)
    else if key == "w" then c.(obstacleY := c.obstacleY + 0.1)
    else if key == "a" then c.(obstacleX := c.obstacleX - 0.1)
    else if key == "s" then c.(obstacleY := c.obstacleY - 0.1)
    else if key == "d" then c.(obstacleX := c.obstacleX + 0.1)
    else c
  }

  /** The keys the handler reacts to by changing a control. */
  predicate ControlKey(key: string)
  {
    key in {"p", "m", "e", "r", "t", "y", "w", "a", "s", "d"}
  }

  /**
   * The key handler's promises: keys are matched case-insensitively, `p`
   * toggles pause (twice is no change), `m` leaves the scene paused one
   * frame later, `e`/`r` set the vertical jet velocity to 3 or -3 and `t`/`y`
   * the horizontal one, `w`/`s` move the obstacle up or down by 0.1 and
   * `a`/`d` left or right, each touching only that control, and any other
   * key leaves the controls as they were.
   */
  lemma {:induction false} KeyEffects(key: string, c: Controls)
    ensures KeyControls(ToLower(ToLower(key)), c) == KeyControls(ToLower(key), c)
    ensures ToLower(key) == "p" ==> KeyControls(ToLower(key), c) == c.(paused := !c.paused)
    ensures KeyControls("p", KeyControls("p", c)) == c
    ensures ToLower(key) == "m" ==> KeyControls(ToLower(key), c).paused
    ensures ToLower(key) == "m" ==> KeyControls(ToLower(key), c).frameNr == c.frameNr + 1
    ensures ToLower(key) == "e" ==> KeyControls(ToLower(key), c) == c.(obstacleVelY := 3.0)
    ensures ToLower(key) == "r" ==> KeyControls(ToLower(key), c) == c.(obstacleVelY := -3.0)
    ensures ToLower(key) == "t" ==> KeyControls(ToLower(key), c) == c.(obstacleVelX := 3.0)
    ensures ToLower(key) == "y" ==> KeyControls(ToLower(key), c) == c.(obstacleVelX := -3.0)
    ensures ToLower(key) == "w" ==> KeyControls(ToLower(key), c) == c.(obstacleY := c.obstacleY + 0.1)
    ensures ToLower(key) == "s" ==> KeyControls(ToLower(key), c) == c.(obstacleY := c.obstacleY - 0.1)
    ensures ToLower(key) == "a" ==> KeyControls(ToLower(key), c) == c.(obstacleX := c.obstacleX - 0.1)
    ensures ToLower(key) == "d" ==> KeyControls(ToLower(key), c) == c.(obstacleX := c.obstacleX + 0.1)
    ensures !ControlKey(ToLower(key)) ==> KeyControls(ToLower(key), c) == c
  {
    ToLowerIdempotent(key);
  }

  /** The handler ignores case: any key and its upper-case form have the same effect. */
  lemma UpperCaseKeys(key: string, c: Controls)
    ensures KeyControls(ToLower(ToUpper(key)), c) == KeyControls(ToLower(key), c)
  {
    ToLowerIgnoresCase(key);
  }

  /** Ending a drag stops the obstacle and nothing else. */
  function DragEnded(c: Controls): (r: Controls)
  {
    c.(obstacleVelX := 0.0, obstacleVelY := 0.0)
  }

  // ---------------- the view state that is saved ----------------

  /** A colour triple as the component stores it; its components are untyped. */
  datatype Rgb = Rgb(r: Value, g: Value, b: Value)

  /** The four display toggles. */
  datatype Toggles = Toggles(showParticles: bool, showGrid: bool, compensateDrift: bool, separateParticles: bool)

  /** The three slider values. */
  datatype Sliders = Sliders(gravity: real, flipRatio: real, threshold: real)

  /** The render colours: the clear colour (four components, alpha last) and three colour triples. */
  datatype Colours = Colours(clearColor: seq<Value>, low: Rgb, high: Rgb, ball: Rgb)

  /** The part of the component that `serializeState` saves and `applyStatePayload` restores. */
  datatype ViewState = ViewState(toggles: Toggles, sliders: Sliders, colours: Colours)

  function RgbObject(c: Rgb): Value
  {
    Obj(map["r" := c.r, "g" := c.g, "b" := c.b])
  }

  /** JavaScript `xs[k]`: `undefined` past the end. */
  function At(xs: seq<Value>, k: nat): Value
  {
    if k < |xs| then xs[k] else Undefined
  }

  /** The saved payload: every field is written, the clear colour as its first three components. */
  function SerializeState(w: ViewState): (payload: Value)
  {
    Obj(map[
      "gravity" := Num(w.sliders.gravity),
      "flipRatio" := Num(w.sliders.flipRatio),
      "threshold" := Num(w.sliders.threshold),
      "clearColor" := Arr([At(w.colours.clearColor, 0), At(w.colours.clearColor, 1), At(w.colours.clearColor, 2)]),
      "low" := RgbObject(w.colours.low),
      "high" := RgbObject(w.colours.high),
      "ball" := RgbObject(w.colours.ball),
      "showParticles" := Bool(w.toggles.showParticles),
      "showGrid" := Bool(w.toggles.showGrid),
      "compensateDrift" := Bool(w.toggles.compensateDrift),
      "separateParticles" := Bool(w.toggles.separateParticles)])
  }

  /** `payload.c.r`, `.g`, `.b`. */
  function RgbOf(c: Value): Rgb
  {
    Rgb(Get(c, "r"), Get(c, "g"), Get(c, "b"))
  }

  function BoolOr(v: Value, d: bool): bool
  {
    if v.Bool? then v.b else d
  }

  function NumOr(v: Value, d: real): real
  {
    if v.Num? then v.n else d
  }

  /** The boolean section: each toggle is taken only when the payload holds a boolean for it. */
  function ToggledState(t: Toggles, payload: Value): (r: Toggles)
  {
    Toggles(BoolOr(Get(payload, "showParticles"), t.showParticles),
            BoolOr(Get(payload, "showGrid"), t.showGrid),
            BoolOr(Get(payload, "compensateDrift"), t.compensateDrift),
            BoolOr(Get(payload, "separateParticles"), t.separateParticles))
  }

  /** The slider section: flip ratio, threshold and gravity are taken raw, only when they are numbers. */
  function SlidState(s: Sliders, payload: Value): (r: Sliders)
  {
    Sliders(NumOr(Get(payload, "gravity"), s.gravity),
            NumOr(Get(payload, "flipRatio"), s.flipRatio),
            NumOr(Get(payload, "threshold"), s.threshold))
  }

  /** The clear colour after the colour section: its first three components come only from an array of at least three. */
  function ClearColourFrom(cc: seq<Value>, v: Value): (r: seq<Value>)
    requires |cc| == 4
    ensures |r| == 4
  {
    if v.Arr? && |v.items| >= 3 then v.items[..3] + cc[3..] else cc
  }

  /** A colour triple is replaced by any truthy entry, whatever its components are. */
  function RgbFrom(c: Rgb, v: Value): Rgb
  {
    if Truthy(v) then RgbOf(v) else c
  }

  /** The colour section. */
  function ColouredState(c: Colours, payload: Value): (r: Colours)
    requires |c.clearColor| == 4
    ensures |r.clearColor| == 4
  {
    Colours(ClearColourFrom(c.clearColor, Get(payload, "clearColor")),
            RgbFrom(c.low, Get(payload, "low")),
            RgbFrom(c.high, Get(payload, "high")),
            RgbFrom(c.ball, Get(payload, "ball")))
  }

  /** What applying a payload does to the view state: nothing for a falsy payload, otherwise the three sections. */
  function AppliedState(w: ViewState, payload: Value): (r: ViewState)
    requires |w.colours.clearColor| == 4
    ensures |r.colours.clearColor| == 4
  {
    if !Truthy(payload) then w
    else ViewState(ToggledState(w.toggles, payload), SlidState(w.sliders, payload),
                   ColouredState(w.colours, payload))
  }

  /** `w` with the saved fields of `w0`: everything except the clear-colour alpha. */
  function WithSaved(w: ViewState, w0: ViewState): ViewState
    requires |w.colours.clearColor| == 4 && |w0.colours.clearColor| == 4
  {
    w0.(colours := w0.colours.(clearColor := w0.colours.clearColor[..3] + w.colours.clearColor[3..]))
  }

  /**
   * Save then restore: applying a saved payload to any component restores
   * every saved field; only the alpha component of the clear colour, which
   * is not saved, stays that of the component it is applied to.
   */
  lemma {:induction false} SaveRestoreRoundTrip(w: ViewState, w2: ViewState)
    requires |w.colours.clearColor| == 4 && |w2.colours.clearColor| == 4
    ensures AppliedState(w2, SerializeState(w)) == WithSaved(w2, w)
  {
    assert Truthy(SerializeState(w));
    SerializedToggles(w, w2.toggles);
    SerializedSliders(w, w2.sliders);
    SerializedClearColour(w);
    SerializedRgbs(w);
  }

  /** The saved toggles come back. */
  lemma SerializedToggles(w: ViewState, t: Toggles)
    ensures ToggledState(t, SerializeState(w)) == w.toggles
  {
    var p := SerializeState(w);
    assert Get(p, "showParticles") == Bool(w.toggles.showParticles);
    assert Get(p, "showGrid") == Bool(w.toggles.showGrid);
    assert Get(p, "compensateDrift") == Bool(w.toggles.compensateDrift);
    assert Get(p, "separateParticles") == Bool(w.toggles.separateParticles);
  }

  /** The saved slider values come back. */
  lemma SerializedSliders(w: ViewState, s: Sliders)
    ensures SlidState(s, SerializeState(w)) == w.sliders
  {
    var p := SerializeState(w);
    assert Get(p, "flipRatio") == Num(w.sliders.flipRatio);
    assert Get(p, "threshold") == Num(w.sliders.threshold);
    assert Get(p, "gravity") == Num(w.sliders.gravity);
  }

  /** The first three clear-colour components are saved. */
  lemma SerializedClearColour(w: ViewState)
    requires |w.colours.clearColor| == 4
    ensures Get(SerializeState(w), "clearColor") == Arr(w.colours.clearColor[..3])
  {
  }

  /** The three colour triples come back, whatever they held before. */
  lemma SerializedRgbs(w: ViewState)
    ensures forall c :: RgbFrom(c, Get(SerializeState(w), "low")) == w.colours.low
    ensures forall c :: RgbFrom(c, Get(SerializeState(w), "high")) == w.colours.high
    ensures forall c :: RgbFrom(c, Get(SerializeState(w), "ball")) == w.colours.ball
  {
    var p := SerializeState(w);
    assert Get(p, "low") == RgbObject(w.colours.low);
    assert Get(p, "high") == RgbObject(w.colours.high);
    assert Get(p, "ball") == RgbObject(w.colours.ball);
    RgbRoundTrip(w.colours.low);
    RgbRoundTrip(w.colours.high);
    RgbRoundTrip(w.colours.ball);
  }

  /** A colour triple read back from the object it is saved as. */
  lemma RgbRoundTrip(c: Rgb)
    ensures RgbOf(RgbObject(c)) == c && Truthy(RgbObject(c))
  {
  }

  /** Applying the same payload twice is the same as applying it once. */
  lemma ApplyIdempotent(w: ViewState, payload: Value)
    requires |w.colours.clearColor| == 4
    ensures AppliedState(AppliedState(w, payload), payload) == AppliedState(w, payload)
  {
  }

  /** A payload without any of the recognised fields leaves the view state unchanged. */
  lemma ApplyIgnoresOtherKeys(w: ViewState, fields: map<string, Value>)
    requires |w.colours.clearColor| == 4
    requires forall k :: k in fields ==> k !in {"gravity", "flipRatio", "threshold", "clearColor", "low", "high",
                                                "ball", "showParticles", "showGrid", "compensateDrift",
                                                "separateParticles"}
    ensures AppliedState(w, Obj(fields)) == w
  {
  }

  // ---------------- the scene ----------------

  /** The part of the scene outside the controls and the saved view state. */
  datatype Settings = Settings(numPressureIters: int, numParticleIters: int,
                               overRelaxation: real, obstacleRadius: real, fluid: FluidGrid?)

  /** The component's `scene` record. */
  class Scene {
    var gravity: real
    var flipRatio: real
    var numPressureIters: int
    var numParticleIters: int
    var frameNr: int
    var overRelaxation: real
    var compensateDrift: bool
    var separateParticles: bool
    var obstacleX: real
    var obstacleY: real
    var obstacleRadius: real
    var paused: bool
    var showObstacle: bool
    var obstacleVelX: real
    var obstacleVelY: real
    var showParticles: bool
    var showGrid: bool
    var fluid: FluidGrid?

    /** The initial scene: paused, no fluid yet. */
    constructor ()
      ensures gravity == -0.3 && flipRatio == 0.7 && numPressureIters == 50 && numParticleIters == 2
      ensures frameNr == 0 && overRelaxation == 1.2 && compensateDrift && separateParticles
      ensures obstacleX == 0.0 && obstacleY == 0.0 && obstacleRadius == 0.1
      ensures paused && showObstacle && obstacleVelX == 0.0 && obstacleVelY == 0.0
      ensures showParticles && !showGrid && fluid == null
    {
      gravity, flipRatio, numPressureIters, numParticleIters := -0.3, 0.7, 50, 2;
      frameNr, overRelaxation, compensateDrift, separateParticles := 0, 1.2, true, true;
      obstacleX, obstacleY, obstacleRadius := 0.0, 0.0, 0.1;
      paused, showObstacle, obstacleVelX, obstacleVelY := true, true, 0.0, 0.0;
      showParticles, showGrid, fluid := true, false, null;
    }

    function GetControls(): Controls
      reads this`paused, this`frameNr, this`obstacleX, this`obstacleY,
            this`obstacleVelX, this`obstacleVelY, this`showObstacle
    {
      Controls(paused, frameNr, obstacleX, obstacleY, obstacleVelX, obstacleVelY, showObstacle)
    }

    function GetSettings(): Settings
      reads this`numPressureIters, this`numParticleIters, this`overRelaxation, this`obstacleRadius, this`fluid
    {
      Settings(numPressureIters, numParticleIters, overRelaxation, obstacleRadius, fluid)
    }

    /** The solver arguments of one frame, taken from the scene. */
    function StepArgsNow(): StepArgs
      reads this
    {
      StepArgs(Dt, gravity, flipRatio, numPressureIters, numParticleIters, overRelaxation,
               compensateDrift, separateParticles, obstacleX, obstacleY, obstacleRadius)
    }
  }

  /** The three grid arrays the obstacle stamp writes, none without a grid. */
  function GridArrays(g: FluidGrid?): set<object>
  {
    if g == null then {} else {g.s, g.u, g.v}
  }

  /**
   * The grid the scene setup leaves behind: the sizes and solver settings,
   * the seeded particles with every later slot still zero, the wall markers
   * with the obstacle at (x0, y0) stamped into the interior, and no velocity
   * anywhere, since the obstacle starts at rest.
   */
  ghost predicate SetUpTank(f: FluidGrid, numX: int, numY: int, fNumX: nat, fNumY: nat, dy: real,
                            x0: real, y0: real, config: ColorConfig)
    reads f, f.s, f.u, f.v, f.particlePos
  {
    && f.Valid()
    && f.fNumX == fNumX && f.fNumY == fNumY && f.h == CellSize
    && f.maxParticles == Max(1, numX * numY) && f.numParticles == Max(0, numX * numY)
    && f.config == config && f.stepLog == []
    && (forall a, b :: 0 <= a < numX && 0 <= b < numY ==>
          && 0 <= 2 * Idx(a, b, numY) < 2 * Idx(a, b, numY) + 1 < f.particlePos.Length
          && f.particlePos[2 * Idx(a, b, numY)] == SeedX(a, b, CellSize, ParticleRadius, ParticleSpacing)
          && f.particlePos[2 * Idx(a, b, numY) + 1] == SeedY(b, CellSize, ParticleRadius, dy))
    && (forall k :: f.SeededSlots(numX, numY) <= k < f.particlePos.Length ==> f.particlePos[k] == 0.0)
    && (forall a, b :: 0 <= a < fNumX && 0 <= b < fNumY ==>
          f.s[Idx(a, b, fNumY)] ==
            if f.InStampRange(a, b) then (if f.InsideObstacle(a, b, x0, y0, ObstacleRadius) then 0.0 else 1.0)
            else f.TankMarker(a, b))
    && (forall a, b :: 0 <= a < fNumX && 0 <= b < fNumY ==>
          f.u[Idx(a, b, fNumY)] == 0.0 && f.v[Idx(a, b, fNumY)] == 0.0)
  }

  /**
   * The grid part of the scene setup: a fresh grid with `Max(1, numX * numY)`
   * particle slots, the particle block seeded and the tank walls marked.
   */
  method NewTank(numX: int, numY: int, fNumX: nat, fNumY: nat, dy: real, config: ColorConfig)
    returns (f: FluidGrid)
    ensures fresh(f) && fresh(f.s) && fresh(f.u) && fresh(f.v) && fresh(f.particlePos) && f.Valid()
    ensures f.fNumX == fNumX && f.fNumY == fNumY && f.h == CellSize
    ensures f.maxParticles == Max(1, numX * numY) && f.numParticles == Max(0, numX * numY)
    ensures f.config == config && f.stepLog == []
    ensures forall a, b :: 0 <= a < numX && 0 <= b < numY ==>
              && 0 <= 2 * Idx(a, b, numY) < 2 * Idx(a, b, numY) + 1 < f.particlePos.Length
              && f.particlePos[2 * Idx(a, b, numY)] == SeedX(a, b, CellSize, ParticleRadius, ParticleSpacing)
              && f.particlePos[2 * Idx(a, b, numY) + 1] == SeedY(b, CellSize, ParticleRadius, dy)
    ensures forall k :: f.SeededSlots(numX, numY) <= k < f.particlePos.Length ==> f.particlePos[k] == 0.0
    ensures forall a, b :: 0 <= a < fNumX && 0 <= b < fNumY ==> f.s[Idx(a, b, fNumY)] == f.TankMarker(a, b)
    ensures forall k :: 0 <= k < f.u.Length ==> f.u[k] == 0.0
    ensures forall k :: 0 <= k < f.v.Length ==> f.v[k] == 0.0
  {
    f := new FluidGrid(fNumX, fNumY, CellSize, Max(1, numX * numY), config);
    f.SeedParticles(numX, numY, CellSize, ParticleRadius, ParticleSpacing, dy);
    f.MarkTankWalls();
  }

  // ---------------- the component ----------------

  class ArtFluidComponent {
    const scene: Scene
    const clearColor: array<Value>
    var threshold: real
    var lowr: Value
    var lowg: Value
    var lowb: Value
    var highr: Value
    var highg: Value
    var highb: Value
    var ballr: Value
    var ballg: Value
    var ballb: Value
    var pointerDown: bool
    var isLoadingState: bool

    ghost predicate Valid()
      reads scene`fluid, scene.fluid
    {
      clearColor.Length == 4 && (scene.fluid != null ==> scene.fluid.Valid())
    }

    constructor ()
      ensures Valid() && fresh(scene) && fresh(clearColor)
      ensures clearColor[..] == [Num(0.6), Num(0.1), Num(0.3), Num(1.0)]
      ensures threshold == 0.8 && lowr == Num(1.0) && lowg == Num(0.5) && lowb == Num(0.0)
      ensures highr == Num(0.4) && highg == Num(0.0) && highb == Num(0.3)
      ensures ballr == Num(1.0) && ballg == Num(0.5) && ballb == Num(0.0)
      ensures !pointerDown && !isLoadingState
      ensures scene.paused && scene.fluid == null && scene.frameNr == 0
    {
      scene := new Scene();
      clearColor := new Value[4] [Num(0.6), Num(0.1), Num(0.3), Num(1.0)];
      threshold := 0.8;
      lowr, lowg, lowb := Num(1.0), Num(0.5), Num(0.0);
      highr, highg, highb := Num(0.4), Num(0.0), Num(0.3);
      ballr, ballg, ballb := Num(1.0), Num(0.5), Num(0.0);
      pointerDown, isLoadingState := false, false;
    }

    /** The colour configuration the component hands to the solver. */
    function Config(): ColorConfig
      reads this`threshold, this`lowr, this`lowg, this`lowb, this`highr, this`highg, this`highb
    {
      ColorConfig(threshold, lowr, lowg, lowb, highr, highg, highb)
    }

    function TogglesNow(): Toggles
      reads scene`showParticles, scene`showGrid, scene`compensateDrift, scene`separateParticles
    {
      Toggles(scene.showParticles, scene.showGrid, scene.compensateDrift, scene.separateParticles)
    }

    function SlidersNow(): Sliders
      reads scene`gravity, scene`flipRatio, this`threshold
    {
      Sliders(scene.gravity, scene.flipRatio, threshold)
    }

    function LowNow(): Rgb
      reads this`lowr, this`lowg, this`lowb
    {
      Rgb(lowr, lowg, lowb)
    }

    function HighNow(): Rgb
      reads this`highr, this`highg, this`highb
    {
      Rgb(highr, highg, highb)
    }

    function BallNow(): Rgb
      reads this`ballr, this`ballg, this`ballb
    {
      Rgb(ballr, ballg, ballb)
    }

    function ColoursNow(): Colours
      reads clearColor, this`lowr, this`lowg, this`lowb, this`highr, this`highg, this`highb,
            this`ballr, this`ballg, this`ballb
    {
      Colours(clearColor[..], LowNow(), HighNow(), BallNow())
    }

    /** The saved part of the component. */
    function View(): ViewState
      reads scene`showParticles, scene`showGrid, scene`compensateDrift, scene`separateParticles,
            scene`gravity, scene`flipRatio, this`threshold,
            clearColor, this`lowr, this`lowg, this`lowb, this`highr, this`highg, this`highb,
            this`ballr, this`ballg, this`ballb
    {
      ViewState(TogglesNow(), SlidersNow(), ColoursNow())
    }

    /** The grid `setObstacle` works on: the given one, otherwise the scene's. */
    function Target(fParam: FluidGrid?): FluidGrid?
      reads scene`fluid
    {
      if fParam != null then fParam else scene.fluid
    }

    // ---------------- obstacle ----------------

    /**
     * Moves the obstacle to (x, y) and stamps it into the grid with its new
     * velocity.  Without a grid nothing changes.
     */
    method SetObstacle(x: real, y: real, reset: bool, fParam: FluidGrid?)
      requires Valid() && (fParam != null ==> fParam.Valid())
      modifies scene`obstacleX, scene`obstacleY, scene`showObstacle, scene`obstacleVelX, scene`obstacleVelY,
               GridArrays(Target(fParam))
      ensures Valid()
      ensures Target(fParam) == null ==> scene.GetControls() == old(scene.GetControls())
      ensures Target(fParam) != null ==> scene.GetControls() == ObstacleMoved(old(scene.GetControls()), x, y, reset)
      ensures var g := Target(fParam);
              g != null ==> g.ObstacleStamped(x, y, scene.obstacleRadius, scene.obstacleVelX, scene.obstacleVelY,
                                              old(g.s[..]), old(g.u[..]), old(g.v[..]),
                                              g.s[..], g.u[..], g.v[..])
    {
      var fluid := if fParam != null then fParam else scene.fluid;
      if fluid == null {
        return;
      }
      var vx := 0.0;
      var vy := 0.0;
      if !reset {
        vx := (x - scene.obstacleX) / Dt;
        vy := (y - scene.obstacleY) / Dt;
      }
      scene.obstacleX := x;
      scene.obstacleY := y;
      var r := scene.obstacleRadius;
      fluid.StampObstacle(x, y, r, vx, vy);
      scene.showObstacle := true;
      scene.obstacleVelX := vx;
      scene.obstacleVelY := vy;
    }

    // ---------------- pointer ----------------

    /** Pointer press at simulation coordinates (x, y): the obstacle jumps there at rest and the scene runs. */
    method StartDrag(x: real, y: real)
      requires Valid()
      modifies this`pointerDown, scene`paused, scene`obstacleX, scene`obstacleY, scene`showObstacle, scene`obstacleVelX, scene`obstacleVelY,
               GridArrays(scene.fluid)
      ensures Valid() && pointerDown
      ensures scene.GetControls() ==
                (if scene.fluid == null then old(scene.GetControls()) else ObstacleMoved(old(scene.GetControls()), x, y, true))
                .(paused := false)
      ensures var g := scene.fluid;
              g != null ==> g.ObstacleStamped(x, y, scene.obstacleRadius, 0.0, 0.0,
                                              old(g.s[..]), old(g.u[..]), old(g.v[..]),
                                              g.s[..], g.u[..], g.v[..])
    {
      pointerDown := true;
      SetObstacle(x, y, true, null);
      scene.paused := false;
    }

    /** Pointer move: while the pointer is down the obstacle follows with the drag velocity. */
    method Drag(x: real, y: real)
      requires Valid()
      modifies scene`obstacleX, scene`obstacleY, scene`showObstacle, scene`obstacleVelX, scene`obstacleVelY,
               GridArrays(scene.fluid)
      ensures Valid()
      ensures !pointerDown ==> scene.GetControls() == old(scene.GetControls())
      ensures scene.fluid == null ==> scene.GetControls() == old(scene.GetControls())
      ensures pointerDown && scene.fluid != null ==>
                scene.GetControls() == ObstacleMoved(old(scene.GetControls()), x, y, false)
      ensures var g := scene.fluid;
              g != null && !pointerDown ==> g.s[..] == old(g.s[..]) && g.u[..] == old(g.u[..]) && g.v[..] == old(g.v[..])
      ensures var g := scene.fluid;
              g != null && pointerDown ==> g.ObstacleStamped(x, y, scene.obstacleRadius, scene.obstacleVelX, scene.obstacleVelY,
                                                             old(g.s[..]), old(g.u[..]), old(g.v[..]),
                                                             g.s[..], g.u[..], g.v[..])
    {
      if !pointerDown {
        return;
      }
      SetObstacle(x, y, false, null);
    }

    /** Pointer release: the pointer is up and the obstacle stops. */
    method EndDrag()
      modifies this`pointerDown, scene`obstacleVelX, scene`obstacleVelY
      ensures !pointerDown
      ensures scene.GetControls() == DragEnded(old(scene.GetControls()))
    {
      pointerDown := false;
      scene.obstacleVelX := 0.0;
      scene.obstacleVelY := 0.0;
    }

    // ---------------- frame step ----------------

    /**
     * One animation frame: when running and with a grid, the colour
     * configuration is pushed and the solver takes one step; the frame
     * counter always advances by one.
     */
    method Simulate()
      requires Valid()
      modifies scene`frameNr, scene.fluid
      ensures Valid() && scene.fluid == old(scene.fluid)
      ensures scene.frameNr == old(scene.frameNr) + 1
      ensures var g := scene.fluid;
              g != null && !scene.paused ==> g.config == Config() && g.stepLog == old(g.stepLog) + [scene.StepArgsNow()]
      ensures var g := scene.fluid;
              g != null && scene.paused ==> g.config == old(g.config) && g.stepLog == old(g.stepLog)
      ensures var g := scene.fluid;
              g != null ==> g.numParticles == old(g.numParticles)
    {
      if !scene.paused && scene.fluid != null {
        scene.fluid.config := Config();
        scene.fluid.Simulate(scene.StepArgsNow());
      }
      scene.frameNr := scene.frameNr + 1;
    }

    // ---------------- keyboard ----------------

    /**
     * The keyboard handler.  The controls change as `KeyControls` of the
     * lower-cased key says; `m` runs one frame, which steps the solver exactly
     * when there is a grid.
     */
    method OnKey(key: string)
      requires Valid()
      modifies scene`paused, scene`frameNr, scene`obstacleX, scene`obstacleY,
               scene`obstacleVelX, scene`obstacleVelY, scene.fluid
      ensures Valid() && scene.fluid == old(scene.fluid)
      ensures scene.GetControls() == KeyControls(ToLower(key), old(scene.GetControls()))
      ensures var g := scene.fluid;
              g != null && ToLower(key) == "m" ==>
                g.config == Config() && g.stepLog == old(g.stepLog) + [scene.StepArgsNow()]
      ensures var g := scene.fluid;
              g != null && ToLower(key) != "m" ==> g.config == old(g.config) && g.stepLog == old(g.stepLog)
      ensures var g := scene.fluid;
              g != null ==> g.numParticles == old(g.numParticles)
    {
      var k := ToLower(key);
      if k == "p" {
        scene.paused := !scene.paused;
      } else if k == "m" {
        scene.paused := false;
        Simulate();
        scene.paused := true;
      } else if k == "e" {
        scene.obstacleVelY := 3.0;
      } else if k == "r" {
        scene.obstacleVelY := -3.0;
      } else if k == "t" {
        scene.obstacleVelX := 3.0;
      } else if k == "y" {
        scene.obstacleVelX := -3.0;
      } else if k == "w" {
        scene.obstacleY := scene.obstacleY + 0.1;
      } else if k == "a" {
        scene.obstacleX := scene.obstacleX - 0.1;
      } else if k == "s" {
        scene.obstacleY := scene.obstacleY - 0.1;
      } else if k == "d" {
        scene.obstacleX := scene.obstacleX + 0.1;
      }
    }

    // ---------------- slider handlers ----------------

    /** The flip-ratio slider handler; ignored while a saved state is being applied. */
    method OnFlipRatioChange(value: real)
      modifies scene`flipRatio
      ensures scene.flipRatio == if isLoadingState then old(scene.flipRatio) else value
    {
      if isLoadingState {
        return;
      }
      scene.flipRatio := value;
    }

    /** The threshold slider handler; ignored while a saved state is being applied. */
    method OnThresholdChange(value: real)
      modifies this`threshold
      ensures threshold == if isLoadingState then old(threshold) else value
    {
      if isLoadingState {
        return;
      }
      threshold := value;
    }

    // ---------------- save / restore ----------------

    /** Pushes the current colour configuration into the grid, if there is one. */
    method RecalculateDerivedState()
      requires Valid()
      modifies scene.fluid
      ensures Valid()
      ensures scene.fluid != null ==> scene.fluid.config == Config()
      ensures scene.fluid != null ==> scene.fluid.stepLog == old(scene.fluid.stepLog)
      ensures scene.fluid != null ==> scene.fluid.numParticles == old(scene.fluid.numParticles)
    {
      if scene.fluid != null {
        scene.fluid.config := Config();
      }
    }

    /**
     * Restores a saved payload.  A falsy payload changes nothing; otherwise
     * the view state becomes `AppliedState` of the old one, the loading flag
     * is raised for the duration (so the slider handlers called on the way
     * change nothing) and lowered at the end, and the grid receives the new
     * colour configuration.
     */
    method ApplyStatePayload(payload: Value)
      requires Valid()
      modifies this`threshold, this`lowr, this`lowg, this`lowb, this`highr, this`highg, this`highb,
               this`ballr, this`ballg, this`ballb, this`isLoadingState, clearColor,
               scene`showParticles, scene`showGrid, scene`compensateDrift, scene`separateParticles,
               scene`flipRatio, scene`gravity, scene.fluid
      ensures Valid()
      ensures View() == AppliedState(old(View()), payload)
      ensures !Truthy(payload) ==> isLoadingState == old(isLoadingState) && Config() == old(Config())
      ensures Truthy(payload) ==> !isLoadingState
      ensures var g := scene.fluid;
              g != null ==> g.stepLog == old(g.stepLog) && g.numParticles == old(g.numParticles)
      ensures var g := scene.fluid;
              g != null ==> g.config == if Truthy(payload) then Config() else old(g.config)
    {
      if !Truthy(payload) {
        return;
      }
      isLoadingState := true;
      ApplySections(payload);
      RecalculateDerivedState();
      isLoadingState := false;
    }

    /** The three sections of `ApplyStatePayload`, run with the loading flag up. */
    method ApplySections(payload: Value)
      requires isLoadingState && clearColor.Length == 4
      modifies this`threshold, this`lowr, this`lowg, this`lowb, this`highr, this`highg, this`highb,
               this`ballr, this`ballg, this`ballb, clearColor,
               scene`showParticles, scene`showGrid, scene`compensateDrift, scene`separateParticles,
               scene`flipRatio, scene`gravity
      ensures View() == ViewState(ToggledState(old(TogglesNow()), payload), SlidState(old(SlidersNow()), payload),
                                  ColouredState(old(ColoursNow()), payload))
    {
      ApplyToggles(payload);
      ApplySliders(payload);
      ApplyColours(payload);
    }

    /** The boolean section of `ApplyStatePayload`. */
    method ApplyToggles(payload: Value)
      modifies scene`showParticles, scene`showGrid, scene`compensateDrift, scene`separateParticles
      ensures TogglesNow() == ToggledState(old(TogglesNow()), payload)
    {
      var sp := Get(payload, "showParticles");
      if sp.Bool? {
        scene.showParticles := sp.b;
      }
      var sg := Get(payload, "showGrid");
      if sg.Bool? {
        scene.showGrid := sg.b;
      }
      var cd := Get(payload, "compensateDrift");
      if cd.Bool? {
        scene.compensateDrift := cd.b;
      }
      var sep := Get(payload, "separateParticles");
      if sep.Bool? {
        scene.separateParticles := sep.b;
      }
    }

    /** The slider section of `ApplyStatePayload`; run with the loading flag up, the handlers it calls do nothing. */
    method ApplySliders(payload: Value)
      requires isLoadingState
      modifies this`threshold, scene`flipRatio, scene`gravity
      ensures SlidersNow() == SlidState(old(SlidersNow()), payload)
    {
      var fr := Get(payload, "flipRatio");
      if fr.Num? {
        OnFlipRatioChange(fr.n);
        scene.flipRatio := fr.n;
      }
      var th := Get(payload, "threshold");
      if th.Num? {
        OnThresholdChange(th.n);
        threshold := th.n;
      }
      var gr := Get(payload, "gravity");
      if gr.Num? {
        scene.gravity := gr.n;
      }
    }

    /** The colour section of `ApplyStatePayload`. */
    method ApplyColours(payload: Value)
      requires clearColor.Length == 4
      modifies clearColor, this`lowr, this`lowg, this`lowb, this`highr, this`highg, this`highb,
               this`ballr, this`ballg, this`ballb
      ensures ColoursNow() == ColouredState(old(ColoursNow()), payload)
    {
      ApplyClearColour(payload);
      ApplyLow(payload);
      ApplyHigh(payload);
      ApplyBall(payload);
    }

    method ApplyLow(payload: Value)
      modifies this`lowr, this`lowg, this`lowb
      ensures LowNow() == RgbFrom(old(LowNow()), Get(payload, "low"))
    {
      var low := Get(payload, "low");
      if Truthy(low) {
        lowr, lowg, lowb := Get(low, "r"), Get(low, "g"), Get(low, "b");
      }
    }

    method ApplyHigh(payload: Value)
      modifies this`highr, this`highg, this`highb
      ensures HighNow() == RgbFrom(old(HighNow()), Get(payload, "high"))
    {
      var high := Get(payload, "high");
      if Truthy(high) {
        highr, highg, highb := Get(high, "r"), Get(high, "g"), Get(high, "b");
      }
    }

    method ApplyBall(payload: Value)
      modifies this`ballr, this`ballg, this`ballb
      ensures BallNow() == RgbFrom(old(BallNow()), Get(payload, "ball"))
    {
      var ball := Get(payload, "ball");
      if Truthy(ball) {
        ballr, ballg, ballb := Get(ball, "r"), Get(ball, "g"), Get(ball, "b");
      }
    }

    /** The clear colour is overwritten in place, component by component. */
    method ApplyClearColour(payload: Value)
      requires clearColor.Length == 4
      modifies clearColor
      ensures clearColor[..] == ClearColourFrom(old(clearColor[..]), Get(payload, "clearColor"))
    {
      var cc := Get(payload, "clearColor");
      if cc.Arr? && |cc.items| >= 3 {
        clearColor[0] := cc.items[0];
        clearColor[1] := cc.items[1];
        clearColor[2] := cc.items[2];
        assert clearColor[..] == cc.items[..3] + old(clearColor[..])[3..];
      }
    }

    /** serializeState of the current component: restoring it into the component changes nothing. */
    function SerializeNow(): (payload: Value)
      requires clearColor.Length == 4
      reads this`threshold, this`lowr, this`lowg, this`lowb, this`highr, this`highg, this`highb,
            this`ballr, this`ballg, this`ballb, clearColor,
            scene`gravity, scene`flipRatio, scene`showParticles, scene`showGrid,
            scene`compensateDrift, scene`separateParticles
      ensures AppliedState(View(), payload) == View()
    {
      var w := View();
      SaveRestoreRoundTrip(w, w);
      assert w.colours.clearColor[..3] + w.colours.clearColor[3..] == w.colours.clearColor;
      SerializeState(w)
    }

    // ---------------- scene setup ----------------

    /** The tank of setupScene: a fresh grid with its particles seeded, its walls marked and the obstacle stamped at rest. */
    method BuildTank(numX: int, numY: int, fNumX: nat, fNumY: nat, dy: real, x0: real, y0: real)
      returns (f: FluidGrid)
      requires Valid() && scene.obstacleRadius == ObstacleRadius
      modifies scene`obstacleX, scene`obstacleY, scene`showObstacle, scene`obstacleVelX, scene`obstacleVelY
      ensures scene.GetControls() == ObstacleMoved(old(scene.GetControls()), x0, y0, true)
      ensures fresh(f) && SetUpTank(f, numX, numY, fNumX, fNumY, dy, x0, y0, Config())
    {
      f := NewTank(numX, numY, fNumX, fNumY, dy, Config());
      ghost var sT, u0, v0 := f.s[..], f.u[..], f.v[..];
      SetObstacle(x0, y0, true, f);
      ResetObstacleAtRest(old(scene.GetControls()), x0, y0);
      f.StampedTank(x0, y0, ObstacleRadius, sT, u0, v0, f.s[..], f.u[..], f.v[..]);
    }

    /**
     * setupScene: the solver constants, then a fresh `fNumX` by `fNumY` grid
     * with the tank walls marked, a `numX` by `numY` block of particles seeded
     * with vertical spacing `dy`, and the obstacle placed at rest at (x0, y0).
     */
    method SetupScene(numX: int, numY: int, fNumX: nat, fNumY: nat, dy: real, x0: real, y0: real)
      requires Valid()
      modifies scene`obstacleRadius, scene`overRelaxation, scene`numPressureIters, scene`numParticleIters,
               scene`fluid, scene`obstacleX, scene`obstacleY, scene`showObstacle, scene`obstacleVelX, scene`obstacleVelY
      ensures Valid()
      ensures scene.obstacleRadius == ObstacleRadius && scene.overRelaxation == 1.2
      ensures scene.numPressureIters == 50 && scene.numParticleIters == 2
      ensures scene.GetControls() == ObstacleMoved(old(scene.GetControls()), x0, y0, true)
      ensures scene.fluid != null && fresh(scene.fluid)
      ensures SetUpTank(scene.fluid, numX, numY, fNumX, fNumY, dy, x0, y0, Config())
    {
      scene.obstacleRadius := ObstacleRadius;
      scene.overRelaxation := 1.2;
      scene.numPressureIters := 50;
      scene.numParticleIters := 2;
      var f := BuildTank(numX, numY, fNumX, fNumY, dy, x0, y0);
      scene.fluid := f;
    }
  }
}
