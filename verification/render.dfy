/**
  The drawing procedure written loop by loop, the way the chart is built: the
  grid rings one level at a time, the spokes one axis at a time, and the
  level labels one dimension and one level at a time. Each loop produces
  exactly the run of commands Layout describes, so the whole procedure
  produces exactly Layout.Chart.
 */
module Render {
  import opened Config
  import opened Geometry
  import opened Results
  import opened Layout

  /** Draws one dashed ring per level 1..MaxLevels over the closed angles. */
  method DrawGridRings(plotAngles: seq<real>, numVars: nat) returns (cmds: seq<Command>)
    ensures cmds == GridRings(plotAngles, numVars)
  {
    cmds := [];
    var level := 1;
    while level <= MaxLevels
      invariant 1 <= level <= MaxLevels + 1
      invariant cmds == GridRings(plotAngles, numVars)[..level - 1]
    {
      var gridValues := Repeat(level as real, numVars) + [level as real];
      assert GridRings(plotAngles, numVars)[..level]
          == GridRings(plotAngles, numVars)[..level - 1] + [Plot(plotAngles, gridValues, GridStyle)];
      cmds := cmds + [Plot(plotAngles, gridValues, GridStyle)];
      level := level + 1;
    }
    assert GridRings(plotAngles, numVars)[..MaxLevels] == GridRings(plotAngles, numVars);
  }

  /** Draws one spoke per axis angle, from the centre to the frame. */
  method DrawSpokes(angles: seq<real>) returns (cmds: seq<Command>)
    ensures cmds == Spokes(angles)
  {
    cmds := [];
    var i := 0;
    while i < |angles|
      invariant 0 <= i <= |angles|
      invariant cmds == Spokes(angles)[..i]
    {
      var angle := angles[i];
      assert Spokes(angles)[..i + 1] == Spokes(angles)[..i] + [Plot([angle, angle], [0.0, FrameLimit], SpokeStyle)];
      cmds := cmds + [Plot([angle, angle], [0.0, FrameLimit], SpokeStyle)];
      i := i + 1;
    }
    assert Spokes(angles)[..|angles|] == Spokes(angles);
  }

  /** Draws the level names of one dimension along its axis: level j at radius j + 1. */
  method DrawDimensionLabels(angle: real, levels: seq<string>) returns (cmds: seq<Command>)
    ensures cmds == DimensionLabels(angle, levels)
  {
    cmds := [];
    var j := 0;
    while j < |levels|
      invariant 0 <= j <= |levels|
      invariant cmds == DimensionLabels(angle, levels[..j])
    {
      var levelText := Text(angle, (j + 1) as real, levels[j], LevelLabelStyle);
      assert DimensionLabels(angle, levels[..j + 1]) == DimensionLabels(angle, levels[..j]) + [levelText];
      cmds := cmds + [levelText];
      j := j + 1;
    }
    assert levels[..j] == levels;
  }

  /** Draws the level names of every dimension, dimension i along angles[i]. */
  method DrawLevelLabels(angles: seq<real>, dims: seq<Dimension>) returns (cmds: seq<Command>)
    requires |dims| <= |angles|
    ensures cmds == LevelLabels(angles, dims)
  {
    cmds := [];
    var i := 0;
    while i < |dims|
      invariant 0 <= i <= |dims|
      invariant cmds == LevelLabels(angles, dims[..i])
    {
      var dimensionCmds := DrawDimensionLabels(angles[i], dims[i].levels);
      assert dims[..i + 1][..i] == dims[..i];
      assert LevelLabels(angles, dims[..i + 1]) == LevelLabels(angles, dims[..i]) + dimensionCmds;
      cmds := cmds + dimensionCmds;
      i := i + 1;
    }
    assert dims[..i] == dims;
  }

  /** Draws the whole chart of the given dimensions for the given scores. */
  method DrawChart(dims: seq<Dimension>, scores: seq<real>) returns (r: Result<seq<Command>, ChartError>)
    ensures r == Chart(dims, scores)
  {
    var numVars := |dims|;
    var angles := AxisTurns(numVars);
    if |scores| == 0 || numVars == 0 {
      return Err(EmptyLoop);
    }
    var plotValues := scores + [scores[0]];
    var plotAngles := angles + [angles[0]];
    var cmds := [SetTicks(angles, Names(dims)), SetRadialLimit(0.0, FrameLimit)];
    var rings := DrawGridRings(plotAngles, numVars);
    var frameValues := Repeat(FrameLimit, numVars) + [FrameLimit];
    cmds := cmds + rings + [Plot(plotAngles, frameValues, FrameStyle)];
    var spokes := DrawSpokes(angles);
    var labels := DrawLevelLabels(angles, dims);
    cmds := cmds + spokes + labels;
    if |plotAngles| != |plotValues| {
      return Err(ShapeMismatch(|plotAngles|, |plotValues|));
    }
    cmds := cmds + [Plot(plotAngles, plotValues, ProfileStyle), Fill(plotAngles, plotValues, ProfileFillStyle)];
    r := Ok(cmds);
  }
}
