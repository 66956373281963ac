/**
  The chart layout as an ordered list of drawing commands, independent of
  any plotting backend. Angles are fractions of a full turn (see Geometry);
  colours, line widths, fonts and opacity are recorded only as Style tags.
 */
module Layout {
  import opened Config
  import opened Geometry
  import opened Results

  /** The visual style of a drawing call, one tag per distinct styled call. */
  datatype Style =
    | GridStyle         // thin dashed line in the grid colour
    | FrameStyle        // solid line in the grid colour
    | SpokeStyle        // thin solid line in the grid colour
    | LevelLabelStyle   // small centred text in the grid colour
    | ProfileStyle      // thick line in the accent colour
    | ProfileFillStyle  // translucent area in the accent colour

  /** One call on the drawing surface. */
  datatype Command =
    | SetTicks(tickAngles: seq<real>, tickLabels: seq<string>)
    | SetRadialLimit(bottom: real, top: real)
    | Plot(angles: seq<real>, radii: seq<real>, style: Style)
    | Fill(angles: seq<real>, radii: seq<real>, style: Style)
    | Text(angle: real, radius: real, text: string, style: Style)

  /** Why no chart was produced: an empty score or axis list (its loop cannot
      be closed, as it has no first element to repeat), or a profile whose
      point count differs from the closed angle count. */
  datatype ChartError = EmptyLoop | ShapeMismatch(angleCount: nat, valueCount: nat)

  /** The radii of a ring at constant radius over n axes, closed into a loop. */
  function RingRadii(radius: real, n: nat): (r: seq<real>)
    ensures |r| == n + 1
    ensures forall t :: 0 <= t < n + 1 ==> r[t] == radius
  {
    Repeat(radius, n) + [radius]
  }

  /** Axis ticks labelled with the dimension names, and the radial view
      limited to [0, FrameLimit]. */
  function Setup(angles: seq<real>, dims: seq<Dimension>): (r: seq<Command>)
    ensures |r| == 2
    ensures r[0].SetTicks? && r[0].tickAngles == angles && |r[0].tickLabels| == |dims|
    ensures forall i :: 0 <= i < |dims| ==> r[0].tickLabels[i] == dims[i].name
    ensures r[1] == SetRadialLimit(0.0, FrameLimit)
  {
    [SetTicks(angles, Names(dims)), SetRadialLimit(0.0, FrameLimit)]
  }

  /** The dashed grid ring at the given level, over the closed axis angles. */
  function GridRing(plotAngles: seq<real>, n: nat, level: nat): (c: Command)
    ensures c.Plot? && c.style == GridStyle && c.angles == plotAngles
    ensures |c.radii| == n + 1 && forall t :: 0 <= t < n + 1 ==> c.radii[t] == level as real
  {
    Plot(plotAngles, RingRadii(level as real, n), GridStyle)
  }

  /** One dashed ring per level 1..MaxLevels, in increasing order; ring k lies
      at the constant radius k+1 over all n+1 closed angle positions. */
  function GridRings(plotAngles: seq<real>, n: nat): (r: seq<Command>)
    ensures |r| == MaxLevels
    ensures forall k :: 0 <= k < MaxLevels ==>
      && r[k].Plot? && r[k].style == GridStyle && r[k].angles == plotAngles
      && |r[k].radii| == n + 1
      && (forall t :: 0 <= t < n + 1 ==> r[k].radii[t] == (k + 1) as real)
  {
    seq(MaxLevels, k requires 0 <= k < MaxLevels => GridRing(plotAngles, n, k + 1))
  }

  /** The solid outer frame: a ring at the constant radius FrameLimit. */
  function FrameRing(plotAngles: seq<real>, n: nat): (c: Command)
    ensures c.Plot? && c.style == FrameStyle && c.angles == plotAngles
    ensures |c.radii| == n + 1 && forall t :: 0 <= t < n + 1 ==> c.radii[t] == FrameLimit
  {
    Plot(plotAngles, RingRadii(FrameLimit, n), FrameStyle)
  }

  /** The radial line along one axis, from the centre out to the frame. */
  function Spoke(angle: real): Command
  {
    Plot([angle, angle], [0.0, FrameLimit], SpokeStyle)
  }

  /** One spoke per axis, in axis order; spoke i stays at angle i and runs
      from radius 0 to FrameLimit. */
  function Spokes(angles: seq<real>): (r: seq<Command>)
    ensures |r| == |angles|
    ensures forall i :: 0 <= i < |angles| ==>
      && r[i].Plot? && r[i].style == SpokeStyle
      && r[i].angles == [angles[i], angles[i]] && r[i].radii == [0.0, FrameLimit]
  {
    seq(|angles|, i requires 0 <= i < |angles| => Spoke(angles[i]))
  }

  /** The level names of one dimension, placed along its axis: level j
      (counting from 0) sits at radius j+1. */
  function DimensionLabels(angle: real, levels: seq<string>): (r: seq<Command>)
    ensures |r| == |levels|
    ensures forall j :: 0 <= j < |levels| ==>
      && r[j].Text? && r[j].angle == angle && r[j].text == levels[j]
      && r[j].radius == (j + 1) as real && r[j].style == LevelLabelStyle
  {
    seq(|levels|, j requires 0 <= j < |levels| => Text(angle, (j + 1) as real, levels[j], LevelLabelStyle))
  }

  /** The level names of every dimension, dimension by dimension; dimension i
      is labelled along angles[i]. Every label is centred text, and when no
      dimension has more than MaxLevels levels every label radius is a whole
      number in [1, MaxLevels], that is, the radius of a grid ring. */
  function LevelLabels(angles: seq<real>, dims: seq<Dimension>): (r: seq<Command>)
    requires |dims| <= |angles|
    ensures forall c :: c in r ==> c.Text? && c.style == LevelLabelStyle
    ensures (forall i :: 0 <= i < |dims| ==> |dims[i].levels| <= MaxLevels) ==>
      forall c :: c in r ==> 1.0 <= c.radius <= MaxLevels as real && c.radius.Floor as real == c.radius
    decreases |dims|
  {
    if |dims| == 0 then []
    else
      var last := |dims| - 1;
      LevelLabels(angles, dims[..last]) + DimensionLabels(angles[last], dims[last].levels)
  }

  /** The outline of the score profile and its translucent fill, over the
      same closed angles and radii. */
  function ProfileCommands(plotAngles: seq<real>, plotValues: seq<real>): (r: seq<Command>)
    ensures |r| == 2
    ensures r[0].Plot? && r[0].style == ProfileStyle && r[0].angles == plotAngles && r[0].radii == plotValues
    ensures r[1].Fill? && r[1].style == ProfileFillStyle && r[1].angles == plotAngles && r[1].radii == plotValues
  {
    [Plot(plotAngles, plotValues, ProfileStyle), Fill(plotAngles, plotValues, ProfileFillStyle)]
  }

  /** All commands of one chart, in drawing order: setup, grid rings, frame,
      spokes, level labels, profile outline, profile fill. */
  function Compose(dims: seq<Dimension>, angles: seq<real>, plotAngles: seq<real>, plotValues: seq<real>): seq<Command>
    requires |dims| <= |angles|
  {
    var n := |dims|;
    Setup(angles, dims) + GridRings(plotAngles, n) + [FrameRing(plotAngles, n)]
      + Spokes(angles) + LevelLabels(angles, dims) + ProfileCommands(plotAngles, plotValues)
  }

  /** The chart of the given dimensions for a list of scores, one per
      dimension. The range of the scores is not checked here; the only
      failures are an empty score or dimension list and a score list whose
      length differs from the number of dimensions. */
  function Chart(dims: seq<Dimension>, scores: seq<real>): (r: Result<seq<Command>, ChartError>)
    ensures r.Ok? <==> 0 < |scores| == |dims|
    ensures |scores| == 0 || |dims| == 0 ==> r == Err(EmptyLoop)
    ensures 0 < |scores| && 0 < |dims| && |scores| != |dims| ==> r == Err(ShapeMismatch(|dims| + 1, |scores| + 1))
  {
    var n := |dims|;
    var angles := AxisTurns(n);
    if |scores| == 0 || n == 0 then Err(EmptyLoop)
    else
      var plotValues := CloseLoop(scores);
      var plotAngles := CloseLoop(angles);
      if |plotAngles| != |plotValues| then Err(ShapeMismatch(|plotAngles|, |plotValues|))
      else Ok(Compose(dims, angles, plotAngles, plotValues))
  }

  /** The chart of the configured dimensions. */
  function RadarChart(scores: seq<real>): (r: Result<seq<Command>, ChartError>)
    ensures r.Ok? <==> |scores| == 5
    ensures |scores| == 0 ==> r == Err(EmptyLoop)
    ensures 0 < |scores| != 5 ==> r == Err(ShapeMismatch(6, |scores| + 1))
  {
    AxesConfigShape();
    Chart(AxesConfig, scores)
  }
}
