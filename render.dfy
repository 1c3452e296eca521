/**
 * What the world draws, as the list of rectangle fills it issues on the
 * canvas. A canvas fill is `FillRect(color, x, y, width, height)` with the
 * canvas's origin at the top left, so a column standing on the bottom edge
 * of a canvas of height `h` and `p` pixels tall has `y == h - p`.
 */
module Render {

  /** Pixels of one segment horizontally, and of one block of height vertically. */
  const BlockPixels: real := 30.0

  const LandColor: string := "#eed994"
  const WaterColor: string := "#0c60ae"
  const SkyColor: string := "#edf4f4"
  const CloudColor: string := "#b0b8bb"

  /** One `fill_rect` call together with the fill style in effect for it. */
  datatype FillRect = FillRect(color: string, x: real, y: real, width: real, height: real)

  /** Cloudy while rain remains, clear sky once the budget is used up. */
  function Backdrop(remainingRainHours: real): string {
    if remainingRainHours > 0.0 then CloudColor else SkyColor
  }

  /** The land column of segment `i`, standing on the bottom edge. */
  function LandRect(landscape: seq<real>, canvasHeight: real, i: nat): FillRect
    requires i < |landscape|
  {
    var pixelHeight := landscape[i] * BlockPixels;
    FillRect(LandColor, i as real * BlockPixels, canvasHeight - pixelHeight, BlockPixels, pixelHeight)
  }

  /** The fills of `draw_land_sky`: the whole canvas, then one land column per segment. */
  function LandSkyCommands(landscape: seq<real>, remainingRainHours: real, canvasWidth: real, canvasHeight: real)
    : seq<FillRect>
  {
    [FillRect(Backdrop(remainingRainHours), 0.0, 0.0, canvasWidth, canvasHeight)]
    + seq(|landscape|, i requires 0 <= i < |landscape| => LandRect(landscape, canvasHeight, i))
  }

  /**
   * The drawing erases the canvas with one fill covering it, cloudy exactly
   * while rain remains, and then paints the land as columns that sit side by
   * side from the left edge, each one block wide, standing on the bottom
   * edge and as tall as its segment.
   */
  lemma LandSkyLayout(landscape: seq<real>, remainingRainHours: real, canvasWidth: real, canvasHeight: real)
    ensures var cmds := LandSkyCommands(landscape, remainingRainHours, canvasWidth, canvasHeight);
      |cmds| == |landscape| + 1 &&
      cmds[0].x == 0.0 && cmds[0].y == 0.0 && cmds[0].width == canvasWidth && cmds[0].height == canvasHeight &&
      (cmds[0].color == CloudColor <==> remainingRainHours > 0.0) &&
      (cmds[0].color == SkyColor <==> remainingRainHours <= 0.0) &&
      (forall i :: 1 <= i <= |landscape| ==> cmds[i].color == LandColor) &&
      (|landscape| > 0 ==> cmds[1].x == 0.0) &&
      (forall i :: 1 <= i < |landscape| ==> cmds[i + 1].x == cmds[i].x + cmds[i].width) &&
      (forall i :: 1 <= i <= |landscape| ==>
         cmds[i].width == BlockPixels &&
         cmds[i].y + cmds[i].height == canvasHeight &&
         cmds[i].height == landscape[i - 1] * BlockPixels)
  {
  }

  /** The water column of segment `i`: from the land's top up to the water surface. */
  function WaterRect(landscape: seq<real>, surface: seq<real>, canvasHeight: real, i: nat): FillRect
    requires i < |landscape| && i < |surface|
  {
    FillRect(WaterColor, i as real * BlockPixels, canvasHeight - surface[i] * BlockPixels,
             BlockPixels, (surface[i] - landscape[i]) * BlockPixels)
  }

  /** The segments `draw_water` walks: the landscape zipped with the surface. */
  function Segments(landscape: seq<real>, surface: seq<real>): nat {
    if |landscape| <= |surface| then |landscape| else |surface|
  }

  /**
   * The fills `draw_water` issues for the first `n` segments, in the order
   * it visits them: a segment whose water column would be no taller than
   * zero pixels is skipped.
   */
  function WaterPrefix(landscape: seq<real>, surface: seq<real>, canvasHeight: real, n: nat): seq<FillRect>
    requires n <= |landscape| && n <= |surface|
  {
    if n == 0 then []
    else
      var i := n - 1;
      var pixelHeight := (surface[i] - landscape[i]) * BlockPixels;
      WaterPrefix(landscape, surface, canvasHeight, i)
      + (if pixelHeight <= 0.0 then [] else [WaterRect(landscape, surface, canvasHeight, i)])
  }

  /** The fills of `draw_water`. */
  function WaterCommands(landscape: seq<real>, surface: seq<real>, canvasHeight: real): seq<FillRect> {
    WaterPrefix(landscape, surface, canvasHeight, Segments(landscape, surface))
  }

  /** The segments among the first `n` whose water stands above the land, in increasing order. */
  function WetSegments(landscape: seq<real>, surface: seq<real>, n: nat): (wet: seq<nat>)
    requires n <= |landscape| && n <= |surface|
    ensures forall k :: 0 <= k < |wet| ==> wet[k] < n && surface[wet[k]] > landscape[wet[k]]
    ensures forall j :: 0 <= j < n && surface[j] > landscape[j] ==> j in wet
    ensures forall a, b :: 0 <= a < b < |wet| ==> wet[a] < wet[b]
  {
    if n == 0 then []
    else
      WetSegments(landscape, surface, n - 1)
      + (if surface[n - 1] > landscape[n - 1] then [n - 1] else [])
  }

  /**
   * `draw_water` issues exactly one water column per wet segment, in
   * segment order, and nothing for a segment whose water is level with (or
   * below) its land.
   */
  lemma {:induction false} WaterFollowsWetSegments(landscape: seq<real>, surface: seq<real>, canvasHeight: real, n: nat)
    requires n <= |landscape| && n <= |surface|
    ensures var cmds, wet := WaterPrefix(landscape, surface, canvasHeight, n), WetSegments(landscape, surface, n);
      |cmds| == |wet| &&
      forall k :: 0 <= k < |wet| ==> cmds[k] == WaterRect(landscape, surface, canvasHeight, wet[k])
  {
    if n > 0 {
      var i := n - 1;
      WaterFollowsWetSegments(landscape, surface, canvasHeight, i);
      var before, wetBefore := WaterPrefix(landscape, surface, canvasHeight, i), WetSegments(landscape, surface, i);
      if surface[i] > landscape[i] {
        assert (surface[i] - landscape[i]) * BlockPixels > 0.0;
        var cmds, wet := before + [WaterRect(landscape, surface, canvasHeight, i)], wetBefore + [i];
        assert WaterPrefix(landscape, surface, canvasHeight, n) == cmds;
        assert WetSegments(landscape, surface, n) == wet;
        forall k | 0 <= k < |wet| ensures cmds[k] == WaterRect(landscape, surface, canvasHeight, wet[k]) {
          if k < |wetBefore| {
            assert cmds[k] == before[k] && wet[k] == wetBefore[k];
          }
        }
      } else {
        assert (surface[i] - landscape[i]) * BlockPixels <= 0.0;
        assert WaterPrefix(landscape, surface, canvasHeight, n) == before + [];
        assert WetSegments(landscape, surface, n) == wetBefore + [];
      }
    }
  }

  /**
   * A water column sits exactly on top of the land column of its segment:
   * same place and width, its bottom edge at the land's top edge, and it is
   * as many blocks tall as the water is deep.
   */
  lemma WaterRestsOnLand(landscape: seq<real>, surface: seq<real>, canvasHeight: real, i: nat)
    requires i < |landscape| && i < |surface|
    requires surface[i] > landscape[i]
    ensures var water, land := WaterRect(landscape, surface, canvasHeight, i), LandRect(landscape, canvasHeight, i);
      water.x == land.x && water.width == land.width &&
      water.y + water.height == land.y &&
      water.height == (surface[i] - landscape[i]) * BlockPixels > 0.0
  {
  }
}
