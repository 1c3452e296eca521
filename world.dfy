/**
 * The rain simulation: a world that owns the landscape, the current water
 * surface, the rain budget still to fall and the last frame time it saw.
 * Each frame the host delivers a timestamp; the world turns the elapsed
 * milliseconds into rain-hours (one real second is one simulated hour),
 * hands them to the water solver, charges them to the budget, redraws,
 * and then either asks for another frame or finishes.
 *
 * The host's frame scheduler is replaced by the `Outcome` a step returns,
 * the canvas by the list of fills a step issues, and the water-levelling
 * solver by a function parameter.
 */
module Simulation {
  import opened Wrappers
  import opened Render
  import opened LandscapeInput

  /** The water-levelling solver: the new surface after `hours` of rain on `surface`. */
  type Solver = (seq<real>, real) -> seq<real>

  /** What the world relies on: the solver returns one height per segment it was given. */
  ghost predicate PreservesLength(solve: Solver) {
    forall surface, hours :: |solve(surface, hours)| == |surface|
  }

  /** Rain never lowers the water: no segment's height drops over a non-negative time. */
  ghost predicate NeverLowers(solve: Solver) {
    forall surface, hours, i ::
      0.0 <= hours && 0 <= i < |surface| && i < |solve(surface, hours)| ==> surface[i] <= solve(surface, hours)[i]
  }

  /** Water stands on every segment, never below its land. */
  ghost predicate AboveLand(landscape: seq<real>, surface: seq<real>) {
    |surface| == |landscape| && forall i :: 0 <= i < |landscape| ==> landscape[i] <= surface[i]
  }

  /** What a world asks of the host after a step: another frame, or nothing more. */
  datatype Outcome = Continue | Finished

  /** The part of a world that changes from frame to frame. */
  datatype WorldState = WorldState(surface: seq<real>, remainingRainHours: real, lastTimestamp: Option<real>)

  /** A new world: water level with the land, the whole budget ahead, no frame seen yet. */
  function InitialState(landscape: seq<real>, rainHours: real): WorldState {
    WorldState(landscape, rainHours, None)
  }

  /** Rain-hours that passed since the previous frame; none before the first frame. */
  function ElapsedHours(lastTimestamp: Option<real>, timestamp: real): real {
    var elapsedMs := match lastTimestamp
      case Some(last) => timestamp - last
      case None => 0.0;
    elapsedMs / 1000.0
  }

  /** The state after one step at `timestamp` (the transition of `World.Step`). */
  function Next(s: WorldState, timestamp: real, solve: Solver): (r: WorldState)
    ensures r.lastTimestamp == Some(timestamp)
    ensures s.lastTimestamp.None? ==> r.remainingRainHours == s.remainingRainHours
    ensures r.remainingRainHours <= s.remainingRainHours <==>
      (s.lastTimestamp.None? || s.lastTimestamp.value <= timestamp)
  {
    var hours := ElapsedHours(s.lastTimestamp, timestamp);
    WorldState(solve(s.surface, hours), s.remainingRainHours - hours, Some(timestamp))
  }

  /** Whether the world asks for another frame after reaching this budget. */
  function OutcomeFor(remainingRainHours: real): Outcome {
    if remainingRainHours <= 0.0 then Finished else Continue
  }

  /**
   * Delivering the frames `timestamps` one by one: a world whose budget is
   * spent asks for no further frame, so the frames after that are never
   * delivered to it.
   */
  function RunFrames(s: WorldState, timestamps: seq<real>, solve: Solver): (r: WorldState)
    ensures s.remainingRainHours <= 0.0 ==> r == s
    ensures 0.0 < s.remainingRainHours && timestamps != [] ==> r.lastTimestamp.Some?
    ensures r.lastTimestamp == s.lastTimestamp || (r.lastTimestamp.Some? && r.lastTimestamp.value in timestamps)
    decreases |timestamps|
  {
    if timestamps == [] || s.remainingRainHours <= 0.0 then s
    else RunFrames(Next(s, timestamps[0], solve), timestamps[1..], solve)
  }

  /** The frames arrive in non-decreasing time, none earlier than the last one seen. */
  predicate Monotone(lastTimestamp: Option<real>, timestamps: seq<real>) {
    (forall i, j :: 0 <= i < j < |timestamps| ==> timestamps[i] <= timestamps[j]) &&
    (lastTimestamp.Some? ==> forall i :: 0 <= i < |timestamps| ==> lastTimestamp.value <= timestamps[i])
  }

  /** What a step draws: land and sky only on the step that ends the rain, then the water. */
  function FrameCommands(landscape: seq<real>, s: WorldState, canvasWidth: real, canvasHeight: real): seq<FillRect> {
    (if s.remainingRainHours <= 0.0
     then LandSkyCommands(landscape, s.remainingRainHours, canvasWidth, canvasHeight)
     else [])
    + WaterCommands(landscape, s.surface, canvasHeight)
  }

  // ---------------------------------------------------------------------------
  // Canvas geometry, fixed when the world is created.

  /** The tallest segment, folding `max` from 0 (so never below 0). */
  function MaxHeight(landscape: seq<real>): (m: real)
    ensures 0.0 <= m
    ensures forall i :: 0 <= i < |landscape| ==> landscape[i] <= m
    ensures m == 0.0 || m in landscape
  {
    if landscape == [] then 0.0
    else
      var m := MaxHeight(landscape[..|landscape| - 1]);
      var last := landscape[|landscape| - 1];
      assert landscape == landscape[..|landscape| - 1] + [last];
      if m < last then last else m
  }

  /** The least whole number at or above `x` (`f64::ceil`). */
  function Ceil(x: real): (c: int)
    ensures c as real - 1.0 < x <= c as real
  {
    if x.Floor as real == x then x.Floor else x.Floor + 1
  }

  function CanvasWidth(landscape: seq<real>): real {
    |landscape| as real * BlockPixels
  }

  /**
   * The canvas is a whole number of blocks tall: the least such height that
   * holds the tallest segment with the whole rain budget stacked on top.
   */
  function CanvasHeight(landscape: seq<real>, rainHours: real): (h: real)
    ensures (MaxHeight(landscape) + rainHours) * BlockPixels <= h
    ensures h < (MaxHeight(landscape) + rainHours) * BlockPixels + BlockPixels
    ensures (h / BlockPixels).Floor as real * BlockPixels == h
  {
    Ceil(MaxHeight(landscape) + rainHours) as real * BlockPixels
  }

  /**
   * With a non-negative rain budget every land column lies within the
   * canvas's width, its top edge is at or below the canvas's top, and its
   * bottom edge is the canvas's bottom edge; a column of non-negative height
   * therefore lies wholly inside the canvas (a negative height gives a
   * column that extends below the canvas).
   */
  lemma LandFitsCanvas(landscape: seq<real>, rainHours: real, i: nat)
    requires 0.0 <= rainHours && i < |landscape|
    ensures var h := CanvasHeight(landscape, rainHours);
      var land := LandRect(landscape, h, i);
      0.0 <= land.x && land.x + land.width <= CanvasWidth(landscape) &&
      0.0 <= land.y && land.y + land.height == h &&
      (0.0 <= landscape[i] ==> land.y <= h)
  {
    assert (i + 1) as real * BlockPixels <= |landscape| as real * BlockPixels;
  }

  // ---------------------------------------------------------------------------
  // Properties of one step.

  /**
   * The first frame a world sees is a warm-up: no time has passed, the
   * solver is asked for zero hours, the budget stays as it was, and the
   * frame's time is remembered.
   */
  lemma FirstStepIsWarmUp(s: WorldState, timestamp: real, solve: Solver)
    requires s.lastTimestamp.None?
    ensures Next(s, timestamp, solve) ==
      WorldState(solve(s.surface, 0.0), s.remainingRainHours, Some(timestamp))
  {
  }

  /**
   * A later step charges the budget exactly the seconds since the previous
   * frame, remembers the new frame time, and never raises the budget when
   * time has not run backwards.
   */
  lemma StepChargesElapsedSeconds(s: WorldState, timestamp: real, solve: Solver)
    requires s.lastTimestamp.Some?
    ensures var r := Next(s, timestamp, solve);
      r.lastTimestamp == Some(timestamp) &&
      r.surface == solve(s.surface, (timestamp - s.lastTimestamp.value) / 1000.0) &&
      r.remainingRainHours == s.remainingRainHours - (timestamp - s.lastTimestamp.value) / 1000.0 &&
      (s.lastTimestamp.value <= timestamp ==> r.remainingRainHours <= s.remainingRainHours)
  {
  }

  /** A step keeps one water height per segment, each on or above its land. */
  lemma StepKeepsWaterAboveLand(landscape: seq<real>, s: WorldState, timestamp: real, solve: Solver)
    requires PreservesLength(solve) && NeverLowers(solve)
    requires AboveLand(landscape, s.surface)
    requires s.lastTimestamp.Some? ==> s.lastTimestamp.value <= timestamp
    ensures AboveLand(landscape, Next(s, timestamp, solve).surface)
  {
    var hours := ElapsedHours(s.lastTimestamp, timestamp);
    var after := solve(s.surface, hours);
    assert 0.0 <= hours;
    forall i | 0 <= i < |landscape| ensures landscape[i] <= after[i] {
      assert s.surface[i] <= after[i];
    }
  }

  /**
   * The step that ends the rain erases the canvas with clear sky and repaints
   * the land before the water; every other step paints only water.
   */
  lemma FrameDrawing(landscape: seq<real>, s: WorldState, canvasWidth: real, canvasHeight: real)
    ensures var cmds := FrameCommands(landscape, s, canvasWidth, canvasHeight);
      var water := WaterCommands(landscape, s.surface, canvasHeight);
      (s.remainingRainHours > 0.0 ==> cmds == water) &&
      (s.remainingRainHours <= 0.0 ==>
         |cmds| == |landscape| + 1 + |water| &&
         cmds[0] == FillRect(SkyColor, 0.0, 0.0, canvasWidth, canvasHeight) &&
         (forall i :: 1 <= i <= |landscape| ==> cmds[i] == LandRect(landscape, canvasHeight, i - 1)) &&
         cmds[|landscape| + 1..] == water)
  {
  }

  // ---------------------------------------------------------------------------
  // Properties of a whole run.

  lemma MonotoneTail(lastTimestamp: Option<real>, timestamps: seq<real>)
    requires |timestamps| > 0 && Monotone(lastTimestamp, timestamps)
    ensures Monotone(Some(timestamps[0]), timestamps[1..])
  {
    assert forall i :: 0 <= i < |timestamps[1..]| ==> timestamps[1..][i] == timestamps[i + 1];
  }

  /** Over a run with frames in time order the rain budget never goes up. */
  lemma {:induction false} RunBudgetNeverRises(s: WorldState, timestamps: seq<real>, solve: Solver)
    requires Monotone(s.lastTimestamp, timestamps)
    ensures RunFrames(s, timestamps, solve).remainingRainHours <= s.remainingRainHours
    decreases |timestamps|
  {
    if timestamps != [] && s.remainingRainHours > 0.0 {
      var next := Next(s, timestamps[0], solve);
      assert next.remainingRainHours <= s.remainingRainHours;
      MonotoneTail(s.lastTimestamp, timestamps);
      RunBudgetNeverRises(next, timestamps[1..], solve);
    }
  }

  /** Over a run with frames in time order the water never sinks below the land. */
  lemma {:induction false} RunKeepsWaterAboveLand(landscape: seq<real>, s: WorldState, timestamps: seq<real>, solve: Solver)
    requires PreservesLength(solve) && NeverLowers(solve)
    requires AboveLand(landscape, s.surface)
    requires Monotone(s.lastTimestamp, timestamps)
    ensures AboveLand(landscape, RunFrames(s, timestamps, solve).surface)
    decreases |timestamps|
  {
    if timestamps != [] && s.remainingRainHours > 0.0 {
      StepKeepsWaterAboveLand(landscape, s, timestamps[0], solve);
      MonotoneTail(s.lastTimestamp, timestamps);
      RunKeepsWaterAboveLand(landscape, Next(s, timestamps[0], solve), timestamps[1..], solve);
    }
  }

  /**
   * The budget is charged the whole wall-clock span of the run: from the
   * frame seen before the run to the last frame the run consumed, in
   * seconds.
   */
  lemma {:induction false} RunChargesWholeSpan(s: WorldState, timestamps: seq<real>, solve: Solver)
    requires s.lastTimestamp.Some?
    ensures var r := RunFrames(s, timestamps, solve);
      r.lastTimestamp.Some? &&
      r.remainingRainHours == s.remainingRainHours - (r.lastTimestamp.value - s.lastTimestamp.value) / 1000.0
    decreases |timestamps|
  {
    if timestamps != [] && s.remainingRainHours > 0.0 {
      RunChargesWholeSpan(Next(s, timestamps[0], solve), timestamps[1..], solve);
    }
  }

  /** While rain remains the world consumes every frame it is given. */
  lemma {:induction false} RunConsumesFramesWhileRaining(s: WorldState, timestamps: seq<real>, solve: Solver)
    requires |timestamps| > 0
    requires RunFrames(s, timestamps, solve).remainingRainHours > 0.0
    ensures RunFrames(s, timestamps, solve).lastTimestamp == Some(timestamps[|timestamps| - 1])
    decreases |timestamps|
  {
    var next := Next(s, timestamps[0], solve);
    if |timestamps| > 1 {
      assert timestamps[1..][|timestamps[1..]| - 1] == timestamps[|timestamps| - 1];
      RunConsumesFramesWhileRaining(next, timestamps[1..], solve);
    }
  }

  /**
   * A run finishes once frames spanning the rain duration have been
   * delivered: if the last frame comes at least `rainHours` seconds after
   * the first, the budget is spent.
   */
  lemma RunFinishesAfterRainDuration(landscape: seq<real>, rainHours: real, timestamps: seq<real>, solve: Solver)
    requires |timestamps| > 0
    requires timestamps[|timestamps| - 1] - timestamps[0] >= rainHours * 1000.0
    ensures RunFrames(InitialState(landscape, rainHours), timestamps, solve).remainingRainHours <= 0.0
  {
    var s := InitialState(landscape, rainHours);
    var r := RunFrames(s, timestamps, solve);
    if rainHours > 0.0 && r.remainingRainHours > 0.0 {
      var warm := Next(s, timestamps[0], solve);
      assert r == RunFrames(warm, timestamps[1..], solve);
      RunChargesWholeSpan(warm, timestamps[1..], solve);
      RunConsumesFramesWhileRaining(s, timestamps, solve);
      assert false;
    }
  }

  /** A world created with no rain to fall never steps: every frame leaves it as created. */
  lemma DryWorldNeverSteps(landscape: seq<real>, rainHours: real, timestamps: seq<real>, solve: Solver)
    requires rainHours <= 0.0
    ensures OutcomeFor(rainHours) == Finished
    ensures RunFrames(InitialState(landscape, rainHours), timestamps, solve) == InitialState(landscape, rainHours)
  {
  }

  /**
   * One hour of rain on `[1, 1]`: the first frame warms up, and a frame one
   * second later spends the budget exactly and ends the rain.
   */
  lemma OneHourOfRain(t0: real, solve: Solver)
    ensures var s := InitialState([1.0, 1.0], 1.0);
      var warm := Next(s, t0, solve);
      var last := Next(warm, t0 + 1000.0, solve);
      OutcomeFor(warm.remainingRainHours) == Continue &&
      last.remainingRainHours == 0.0 && OutcomeFor(last.remainingRainHours) == Finished &&
      RunFrames(s, [t0, t0 + 1000.0], solve) == last
  {
    var s := InitialState([1.0, 1.0], 1.0);
    var warm := Next(s, t0, solve);
    assert [t0, t0 + 1000.0][1..] == [t0 + 1000.0];
    assert RunFrames(warm, [t0 + 1000.0], solve) == RunFrames(Next(warm, t0 + 1000.0, solve), [], solve);
  }

  // ---------------------------------------------------------------------------
  // The world object.

  class World {
    const landscape: seq<real>
    var surface: seq<real>
    var remainingRainHours: real
    const canvasWidth: real
    const canvasHeight: real
    var lastTimestamp: Option<real>

    /** The solver has kept one water height per segment. */
    ghost predicate Valid()
      reads this
    {
      |surface| == |landscape|
    }

    ghost function State(): WorldState
      reads this
    {
      WorldState(surface, remainingRainHours, lastTimestamp)
    }

    /** Sizes the canvas for the landscape and the rain, with the water level with the land. */
    constructor (landscape: seq<real>, rainHours: real)
      ensures this.landscape == landscape
      ensures canvasWidth == CanvasWidth(landscape) && canvasHeight == CanvasHeight(landscape, rainHours)
      ensures Valid() && State() == InitialState(landscape, rainHours)
    {
      this.landscape := landscape;
      canvasWidth := |landscape| as real * BlockPixels;
      canvasHeight := Ceil(MaxHeight(landscape) + rainHours) as real * BlockPixels;
      surface := landscape;
      remainingRainHours := rainHours;
      lastTimestamp := None;
    }

    /** `World::new`: creates the world and draws its land under a cloudy or clear sky. */
    static method New(landscape: seq<real>, rainHours: real) returns (world: World, drawn: seq<FillRect>)
      ensures fresh(world) && world.landscape == landscape
      ensures world.canvasWidth == CanvasWidth(landscape)
      ensures world.canvasHeight == CanvasHeight(landscape, rainHours)
      ensures world.Valid() && world.State() == InitialState(landscape, rainHours)
      ensures drawn == LandSkyCommands(landscape, rainHours, world.canvasWidth, world.canvasHeight)
    {
      world := new World(landscape, rainHours);
      drawn := world.DrawLandSky();
    }

    /** Erases the canvas with the backdrop and draws one land column per segment. */
    method DrawLandSky() returns (cmds: seq<FillRect>)
      ensures cmds == LandSkyCommands(landscape, remainingRainHours, canvasWidth, canvasHeight)
    {
      cmds := [FillRect(Backdrop(remainingRainHours), 0.0, 0.0, canvasWidth, canvasHeight)];
      var i := 0;
      while i < |landscape|
        invariant 0 <= i <= |landscape|
        invariant |cmds| == i + 1
        invariant cmds[0] == FillRect(Backdrop(remainingRainHours), 0.0, 0.0, canvasWidth, canvasHeight)
        invariant forall j :: 0 <= j < i ==> cmds[j + 1] == LandRect(landscape, canvasHeight, j)
      {
        var xOffset := i as real * BlockPixels;
        var pixelHeight := landscape[i] * BlockPixels;
        cmds := cmds + [FillRect(LandColor, xOffset, canvasHeight - pixelHeight, BlockPixels, pixelHeight)];
        i := i + 1;
      }
    }

    /** Draws a water column on every segment whose water stands above its land. */
    method DrawWater() returns (cmds: seq<FillRect>)
      ensures cmds == WaterCommands(landscape, surface, canvasHeight)
    {
      cmds := [];
      var i := 0;
      while i < |landscape| && i < |surface|
        invariant 0 <= i <= Segments(landscape, surface)
        invariant cmds == WaterPrefix(landscape, surface, canvasHeight, i)
      {
        var pixelHeight := (surface[i] - landscape[i]) * BlockPixels;
        if pixelHeight > 0.0 {
          var xOffset := i as real * BlockPixels;
          var pixelSurface := surface[i] * BlockPixels;
          cmds := cmds + [FillRect(WaterColor, xOffset, canvasHeight - pixelSurface, BlockPixels, pixelHeight)];
        }
        i := i + 1;
      }
    }

    /** Asks the host for another frame while rain remains, and finishes otherwise. */
    function ScheduleNextOrFinish(): (outcome: Outcome)
      reads this
      ensures outcome == Finished <==> remainingRainHours <= 0.0
    {
      OutcomeFor(remainingRainHours)
    }

    /**
     * One animation frame at `timestamp`: advance the water by the elapsed
     * rain-hours, charge them to the budget, redraw, and say whether another
     * frame is wanted.
     */
    method Step(timestamp: real, solve: Solver) returns (outcome: Outcome, drawn: seq<FillRect>)
      requires Valid() && PreservesLength(solve)
      modifies this
      ensures Valid()
      ensures State() == Next(old(State()), timestamp, solve)
      ensures drawn == FrameCommands(landscape, State(), canvasWidth, canvasHeight)
      ensures outcome == OutcomeFor(remainingRainHours)
    {
      var elapsedMs := match lastTimestamp
        case Some(last) => timestamp - last
        case None => 0.0;
      lastTimestamp := Some(timestamp);
      var rainHours := elapsedMs / 1000.0;
      surface := solve(surface, rainHours);
      remainingRainHours := remainingRainHours - rainHours;
      drawn := [];
      if remainingRainHours <= 0.0 {
        drawn := DrawLandSky();
      }
      var water := DrawWater();
      drawn := drawn + water;
      outcome := ScheduleNextOrFinish();
    }
  }

  // ---------------------------------------------------------------------------
  // The start button.

  /** The start button's caption and whether it can be clicked. */
  datatype Button = Button(caption: string, disabled: bool)

  /** The button while no rain is falling (as `finish_simulation` leaves it). */
  const IdleButton := Button("Start", false)

  /** The button while a run is under way. */
  const RunningButton := Button("Raining...", true)

  /** What a click on the start button leads to. */
  datatype Launch =
    | Alert(message: string)
    | Started(world: World, drawn: seq<FillRect>, outcome: Outcome)

  /**
   * A click on the start button: read the landscape, and on the first bad
   * token show its message and change nothing; otherwise mark the button as
   * running, create the world and either ask for its first frame or, with
   * no rain to fall, finish at once and restore the button.
   */
  method SimulateWorld(input: string, rainHours: real, parse: NumberParser, button: Button)
    returns (launch: Launch, buttonAfter: Button)
    ensures ParseLandscape(input, parse).Err? ==>
      launch == Alert(ParseLandscape(input, parse).error) && buttonAfter == button
    ensures ParseLandscape(input, parse).Ok? ==>
      launch.Started? && fresh(launch.world) &&
      launch.world.landscape == ParseLandscape(input, parse).value &&
      launch.world.canvasWidth == CanvasWidth(ParseLandscape(input, parse).value) &&
      launch.world.canvasHeight == CanvasHeight(ParseLandscape(input, parse).value, rainHours) &&
      launch.world.Valid() &&
      launch.world.State() == InitialState(ParseLandscape(input, parse).value, rainHours) &&
      launch.drawn == LandSkyCommands(launch.world.landscape, rainHours, launch.world.canvasWidth, launch.world.canvasHeight) &&
      launch.outcome == OutcomeFor(rainHours) &&
      buttonAfter == (if rainHours <= 0.0 then IdleButton else RunningButton)
  {
    match ParseLandscape(input, parse)
    case Err(message) =>
      launch, buttonAfter := Alert(message), button;
    case Ok(landscape) =>
      buttonAfter := RunningButton;
      var world, drawn := World.New(landscape, rainHours);
      var outcome := world.ScheduleNextOrFinish();
      if outcome == Finished {
        buttonAfter := IdleButton;
      }
      launch := Started(world, drawn, outcome);
  }
}
