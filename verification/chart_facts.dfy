/**
  Properties of the chart layout: how many rings, spokes and labels are
  drawn, in which order, where each level label sits, and that every radius
  stays inside the chart's radial limit. They are proved for any list of
  well-formed dimensions and then hold of the configured five.
 */
module ChartFacts {
  import opened Config
  import opened Geometry
  import opened Results
  import opened Validation
  import opened Layout

  /** The drawing phases of a chart, in the order the chart performs them.
      StrayPhase holds any line plotted with a style no chart line uses. */
  datatype Phase = TickPhase | LimitPhase | RingPhase | FramePhase | SpokePhase
                 | LabelPhase | OutlinePhase | FillPhase | StrayPhase

  function Rank(p: Phase): nat
  {
    match p
    case TickPhase => 0
    case LimitPhase => 1
    case RingPhase => 2
    case FramePhase => 3
    case SpokePhase => 4
    case LabelPhase => 5
    case OutlinePhase => 6
    case FillPhase => 7
    case StrayPhase => 8
  }

  /** The phase a command belongs to, read off its kind and style tag. */
  function PhaseOf(c: Command): Phase
  {
    match c
    case SetTicks(_, _) => TickPhase
    case SetRadialLimit(_, _) => LimitPhase
    case Fill(_, _, _) => FillPhase
    case Text(_, _, _, _) => LabelPhase
    case Plot(_, _, style) =>
      match style
      case GridStyle => RingPhase
      case FrameStyle => FramePhase
      case SpokeStyle => SpokePhase
      case ProfileStyle => OutlinePhase
      case _ => StrayPhase
  }

  /** Number of commands of phase p. */
  function Count(cmds: seq<Command>, p: Phase): (k: nat)
    ensures k <= |cmds|
  {
    if |cmds| == 0 then 0
    else (if PhaseOf(cmds[0]) == p then 1 else 0) + Count(cmds[1..], p)
  }

  lemma {:induction false} CountAppend(a: seq<Command>, b: seq<Command>, p: Phase)
    ensures Count(a + b, p) == Count(a, p) + Count(b, p)
    decreases |a|
  {
    if |a| == 0 {
      assert a + b == b;
    } else {
      assert (a + b)[1..] == a[1..] + b;
      CountAppend(a[1..], b, p);
    }
  }

  /** Every command of s belongs to phase q. */
  ghost predicate Uniform(s: seq<Command>, q: Phase)
  {
    forall c :: c in s ==> PhaseOf(c) == q
  }

  /** In a run of commands that all belong to phase q, the count of q is the
      run's length and every other phase counts zero. */
  lemma {:induction false} CountUniform(s: seq<Command>, q: Phase, p: Phase)
    requires Uniform(s, q)
    ensures Count(s, p) == if p == q then |s| else 0
    decreases |s|
  {
    if |s| > 0 {
      assert forall c :: c in s[1..] ==> c in s;
      CountUniform(s[1..], q, p);
    }
  }

  /** Phases never go backwards along the command list. */
  ghost predicate InPhaseOrder(cmds: seq<Command>)
  {
    forall i, j :: 0 <= i < j < |cmds| ==> Rank(PhaseOf(cmds[i])) <= Rank(PhaseOf(cmds[j]))
  }

  ghost predicate RanksAtMost(cmds: seq<Command>, r: nat)
  {
    forall c :: c in cmds ==> Rank(PhaseOf(c)) <= r
  }

  /** Appending a run of one phase, no earlier than anything before it, keeps
      the list in phase order. */
  lemma AppendPhase(a: seq<Command>, b: seq<Command>, q: Phase)
    requires InPhaseOrder(a) && RanksAtMost(a, Rank(q))
    requires Uniform(b, q)
    ensures InPhaseOrder(a + b) && RanksAtMost(a + b, Rank(q))
  {
    var s := a + b;
    forall i, j | 0 <= i < j < |s|
      ensures Rank(PhaseOf(s[i])) <= Rank(PhaseOf(s[j]))
    {
      if j < |a| {
        assert s[i] == a[i] && s[j] == a[j];
      } else if i < |a| {
        assert s[i] in a;
        assert s[j] == b[j - |a|];
        assert s[j] in b;
      } else {
        assert s[i] == b[i - |a|] && s[j] == b[j - |a|];
        assert s[i] in b && s[j] in b;
      }
    }
  }

  /** Every radius a command draws at: the radii of a line or filled area,
      the radius of a text; setup commands draw none. */
  function RadiiOf(c: Command): seq<real>
  {
    match c
    case Plot(_, radii, _) => radii
    case Fill(_, radii, _) => radii
    case Text(_, radius, _, _) => [radius]
    case _ => []
  }

  ghost predicate RadiiWithin(cmds: seq<Command>, lo: real, hi: real)
  {
    forall c, x :: c in cmds && x in RadiiOf(c) ==> lo <= x <= hi
  }

  /** The closed axis angles of n axes, over which every ring and the profile
      are drawn. */
  function PlotAngles(n: nat): (r: seq<real>)
    requires n > 0
    ensures |r| == n + 1
  {
    CloseLoop(AxisTurns(n))
  }

  /** Positions of the runs in a chart of n dimensions. */
  const RingsStart: nat := 2
  const FrameIndex: nat := RingsStart + MaxLevels
  const SpokesStart: nat := FrameIndex + 1

  function LabelsStart(n: nat): nat { SpokesStart + n }

  function OutlineIndex(n: nat): nat { LabelsStart(n) + MaxLevels * n }

  function FillIndex(n: nat): nat { OutlineIndex(n) + 1 }

  /** Each run belongs to its own phase, in the chart's drawing order. */
  ghost predicate PhaseRuns(ticks: seq<Command>, limit: seq<Command>, rings: seq<Command>, frame: seq<Command>,
                            spokes: seq<Command>, labels: seq<Command>, outline: seq<Command>, fill: seq<Command>)
  {
    && Uniform(ticks, TickPhase) && Uniform(limit, LimitPhase) && Uniform(rings, RingPhase)
    && Uniform(frame, FramePhase) && Uniform(spokes, SpokePhase) && Uniform(labels, LabelPhase)
    && Uniform(outline, OutlinePhase) && Uniform(fill, FillPhase)
  }

  lemma RingsUniform(plotAngles: seq<real>, n: nat)
    ensures Uniform(GridRings(plotAngles, n), RingPhase)
  {
    var rings := GridRings(plotAngles, n);
    forall c | c in rings
      ensures PhaseOf(c) == RingPhase
    {
      var k :| 0 <= k < |rings| && rings[k] == c;
    }
  }

  lemma SpokesUniform(angles: seq<real>)
    ensures Uniform(Spokes(angles), SpokePhase)
  {
    var spokes := Spokes(angles);
    forall c | c in spokes
      ensures PhaseOf(c) == SpokePhase
    {
      var i :| 0 <= i < |spokes| && spokes[i] == c;
    }
  }

  lemma LabelsUniform(angles: seq<real>, dims: seq<Dimension>)
    requires |dims| <= |angles|
    ensures Uniform(LevelLabels(angles, dims), LabelPhase)
  {
  }

  /** With every dimension carrying MaxLevels levels, there are MaxLevels
      labels per dimension. */
  lemma {:induction false} LevelLabelsCount(angles: seq<real>, dims: seq<Dimension>)
    requires |dims| <= |angles|
    requires forall i :: 0 <= i < |dims| ==> |dims[i].levels| == MaxLevels
    ensures |LevelLabels(angles, dims)| == MaxLevels * |dims|
    decreases |dims|
  {
    if |dims| > 0 {
      LevelLabelsCount(angles, dims[..|dims| - 1]);
    }
  }

  /** A successful chart, cut into its runs of one phase each. */
  ghost predicate SplitsInto(cmds: seq<Command>, dims: seq<Dimension>, scores: seq<real>,
                             ticks: seq<Command>, limit: seq<Command>, rings: seq<Command>, frame: seq<Command>,
                             spokes: seq<Command>, labels: seq<Command>, outline: seq<Command>, fill: seq<Command>)
    requires 0 < |scores| == |dims|
  {
    var n := |dims|;
    var plotValues := CloseLoop(scores);
    && ticks == [SetTicks(AxisTurns(n), Names(dims))]
    && limit == [SetRadialLimit(0.0, FrameLimit)]
    && rings == GridRings(PlotAngles(n), n)
    && frame == [FrameRing(PlotAngles(n), n)]
    && spokes == Spokes(AxisTurns(n))
    && labels == LevelLabels(AxisTurns(n), dims)
    && outline == [Plot(PlotAngles(n), plotValues, ProfileStyle)]
    && fill == [Fill(PlotAngles(n), plotValues, ProfileFillStyle)]
    && cmds == ticks + limit + rings + frame + spokes + labels + outline + fill
  }

  /** A successful chart is the composition of its runs over the axis
      angles, the closed axis angles and the closed scores. */
  lemma ChartIsComposed(dims: seq<Dimension>, scores: seq<real>)
    requires 0 < |scores| == |dims|
    ensures Chart(dims, scores) == Ok(Compose(dims, AxisTurns(|dims|), PlotAngles(|dims|), CloseLoop(scores)))
  {
  }

  /** The runs of a chart that grow with the configuration, the rings, spokes
      and level labels, each belong to their own phase, and there are
      MaxLevels labels per dimension. */
  lemma LongRuns(dims: seq<Dimension>)
    requires WellFormed(dims) && 0 < |dims|
    ensures Uniform(GridRings(PlotAngles(|dims|), |dims|), RingPhase)
    ensures Uniform(Spokes(AxisTurns(|dims|)), SpokePhase)
    ensures Uniform(LevelLabels(AxisTurns(|dims|), dims), LabelPhase)
    ensures |LevelLabels(AxisTurns(|dims|), dims)| == MaxLevels * |dims|
  {
    RingsUniform(PlotAngles(|dims|), |dims|);
    SpokesUniform(AxisTurns(|dims|));
    LabelsUniform(AxisTurns(|dims|), dims);
    LevelLabelsCount(AxisTurns(|dims|), dims);
  }

  /** The runs a chart splits into each belong to their own phase. */
  lemma SplitPhases(cmds: seq<Command>, dims: seq<Dimension>, scores: seq<real>,
                    ticks: seq<Command>, limit: seq<Command>, rings: seq<Command>, frame: seq<Command>,
                    spokes: seq<Command>, labels: seq<Command>, outline: seq<Command>, fill: seq<Command>)
    requires WellFormed(dims) && 0 < |scores| == |dims|
    requires SplitsInto(cmds, dims, scores, ticks, limit, rings, frame, spokes, labels, outline, fill)
    ensures PhaseRuns(ticks, limit, rings, frame, spokes, labels, outline, fill)
  {
    LongRuns(dims);
  }

  /** Exhibits the runs of a successful chart and their lengths. */
  lemma Split(dims: seq<Dimension>, scores: seq<real>)
    returns (ticks: seq<Command>, limit: seq<Command>, rings: seq<Command>, frame: seq<Command>,
             spokes: seq<Command>, labels: seq<Command>, outline: seq<Command>, fill: seq<Command>)
    requires WellFormed(dims) && 0 < |scores| == |dims|
    ensures Chart(dims, scores).Ok?
    ensures SplitsInto(Chart(dims, scores).value, dims, scores, ticks, limit, rings, frame, spokes, labels, outline, fill)
    ensures PhaseRuns(ticks, limit, rings, frame, spokes, labels, outline, fill)
    ensures |ticks| == |limit| == |frame| == |outline| == |fill| == 1
    ensures |rings| == MaxLevels && |spokes| == |dims| && |labels| == MaxLevels * |dims|
    ensures |Chart(dims, scores).value| == FillIndex(|dims|) + 1
  {
    var n := |dims|;
    var angles := AxisTurns(n);
    var plotValues := CloseLoop(scores);
    ticks := [SetTicks(angles, Names(dims))];
    limit := [SetRadialLimit(0.0, FrameLimit)];
    rings := GridRings(PlotAngles(n), n);
    frame := [FrameRing(PlotAngles(n), n)];
    spokes := Spokes(angles);
    labels := LevelLabels(angles, dims);
    outline := [Plot(PlotAngles(n), plotValues, ProfileStyle)];
    fill := [Fill(PlotAngles(n), plotValues, ProfileFillStyle)];
    ChartIsComposed(dims, scores);
    assert Setup(angles, dims) == ticks + limit;
    assert ProfileCommands(PlotAngles(n), plotValues) == outline + fill;
    LongRuns(dims);
    SplitPhases(Chart(dims, scores).value, dims, scores, ticks, limit, rings, frame, spokes, labels, outline, fill);
  }

  /** A chart opens by naming the axes after the dimensions, in order, and
      limiting the radial view to [0, FrameLimit]. */
  lemma ChartSetup(dims: seq<Dimension>, scores: seq<real>)
    requires WellFormed(dims) && 0 < |scores| == |dims|
    ensures Chart(dims, scores).Ok? && |Chart(dims, scores).value| == FillIndex(|dims|) + 1
    ensures Chart(dims, scores).value[0] == SetTicks(AxisTurns(|dims|), Names(dims))
    ensures Chart(dims, scores).value[1] == SetRadialLimit(0.0, FrameLimit)
  {
    var ticks, limit, rings, frame, spokes, labels, outline, fill := Split(dims, scores);
  }

  /** After the setup come MaxLevels dashed rings, the ring of level k lying
      at the constant radius k over all N+1 closed axis angles, then the solid
      frame ring at FrameLimit over the same angles. */
  lemma ChartGrid(dims: seq<Dimension>, scores: seq<real>)
    requires WellFormed(dims) && 0 < |scores| == |dims|
    ensures Chart(dims, scores).Ok? && |Chart(dims, scores).value| == FillIndex(|dims|) + 1
    ensures forall k :: 1 <= k <= MaxLevels ==>
      Chart(dims, scores).value[RingsStart + k - 1] == GridRing(PlotAngles(|dims|), |dims|, k)
    ensures Chart(dims, scores).value[FrameIndex] == FrameRing(PlotAngles(|dims|), |dims|)
  {
    var ticks, limit, rings, frame, spokes, labels, outline, fill := Split(dims, scores);
    var cmds := Chart(dims, scores).value;
    forall k | 1 <= k <= MaxLevels
      ensures cmds[RingsStart + k - 1] == GridRing(PlotAngles(|dims|), |dims|, k)
    {
      assert cmds[RingsStart + k - 1] == rings[k - 1];
    }
    assert cmds[FrameIndex] == frame[0];
  }

  /** After the frame comes one spoke per axis, in axis order, each running
      along its axis angle from radius 0 to FrameLimit. */
  lemma ChartSpokes(dims: seq<Dimension>, scores: seq<real>)
    requires WellFormed(dims) && 0 < |scores| == |dims|
    ensures Chart(dims, scores).Ok? && |Chart(dims, scores).value| == FillIndex(|dims|) + 1
    ensures forall i :: 0 <= i < |dims| ==>
      Chart(dims, scores).value[SpokesStart + i]
        == Plot([AxisTurn(i, |dims|), AxisTurn(i, |dims|)], [0.0, FrameLimit], SpokeStyle)
  {
    var ticks, limit, rings, frame, spokes, labels, outline, fill := Split(dims, scores);
    var cmds := Chart(dims, scores).value;
    forall i | 0 <= i < |dims|
      ensures cmds[SpokesStart + i] == spokes[i]
    {
    }
  }

  /** Level j of dimension i is the label at offset MaxLevels * i + j. */
  lemma {:induction false} LevelLabelAt(angles: seq<real>, dims: seq<Dimension>, i: nat, j: nat)
    requires |dims| <= |angles|
    requires forall d :: 0 <= d < |dims| ==> |dims[d].levels| == MaxLevels
    requires i < |dims| && j < MaxLevels
    ensures |LevelLabels(angles, dims)| == MaxLevels * |dims|
    ensures LevelLabels(angles, dims)[MaxLevels * i + j] == Text(angles[i], (j + 1) as real, dims[i].levels[j], LevelLabelStyle)
    decreases |dims|
  {
    LevelLabelsCount(angles, dims);
    var last := |dims| - 1;
    var prefix := dims[..last];
    LevelLabelsCount(angles, prefix);
    assert LevelLabels(angles, dims) == LevelLabels(angles, prefix) + DimensionLabels(angles[last], dims[last].levels);
    if i < last {
      LevelLabelAt(angles, prefix, i, j);
      assert prefix[i] == dims[i];
    } else {
      assert MaxLevels * i + j == |LevelLabels(angles, prefix)| + j;
    }
  }

  /** Level name j of dimension i is drawn, centred, on axis i at radius j+1. */
  lemma LabelPlacement(dims: seq<Dimension>, scores: seq<real>, i: nat, j: nat)
    requires WellFormed(dims) && 0 < |scores| == |dims|
    requires i < |dims| && j < MaxLevels
    ensures Chart(dims, scores).Ok? && |Chart(dims, scores).value| == FillIndex(|dims|) + 1
    ensures Chart(dims, scores).value[LabelsStart(|dims|) + MaxLevels * i + j]
         == Text(AxisTurn(i, |dims|), (j + 1) as real, dims[i].levels[j], LevelLabelStyle)
  {
    var ticks, limit, rings, frame, spokes, labels, outline, fill := Split(dims, scores);
    LevelLabelAt(AxisTurns(|dims|), dims, i, j);
    var cmds := Chart(dims, scores).value;
    var before := ticks + limit + rings + frame + spokes;
    assert |before| == LabelsStart(|dims|);
    assert cmds == before + labels + outline + fill;
    assert cmds[LabelsStart(|dims|) + MaxLevels * i + j] == labels[MaxLevels * i + j];
  }

  /** When every dimension has MaxLevels levels, every level label sits at a
      whole radius in [1, MaxLevels]. */
  lemma LabelRadii(angles: seq<real>, dims: seq<Dimension>)
    requires |dims| <= |angles| && WellFormed(dims)
    ensures forall c :: c in LevelLabels(angles, dims) ==>
      1.0 <= c.radius <= MaxLevels as real && c.radius.Floor as real == c.radius
  {
    assert forall i :: 0 <= i < |dims| ==> |dims[i].levels| <= MaxLevels;
  }

  /** A text command of a chart comes from its run of level labels. */
  lemma TextIsLabel(cmds: seq<Command>, ticks: seq<Command>, limit: seq<Command>, rings: seq<Command>, frame: seq<Command>,
                    spokes: seq<Command>, labels: seq<Command>, outline: seq<Command>, fill: seq<Command>, c: Command)
    requires PhaseRuns(ticks, limit, rings, frame, spokes, labels, outline, fill)
    requires cmds == ticks + limit + rings + frame + spokes + labels + outline + fill
    requires c in cmds && c.Text?
    ensures c in labels
  {
    assert PhaseOf(c) == LabelPhase;
  }

  /** A text at a whole radius in [1, MaxLevels] lies on the dashed ring of
      that level. */
  lemma LabelOnRing(dims: seq<Dimension>, scores: seq<real>, c: Command)
    requires WellFormed(dims) && 0 < |scores| == |dims|
    requires c.Text? && 1.0 <= c.radius <= MaxLevels as real && c.radius.Floor as real == c.radius
    ensures Chart(dims, scores).Ok?
    ensures var cmds := Chart(dims, scores).value;
      exists k :: (RingsStart <= k < FrameIndex && cmds[k].Plot? && cmds[k].style == GridStyle
        && |cmds[k].radii| == |dims| + 1
        && forall t :: 0 <= t < |cmds[k].radii| ==> cmds[k].radii[t] == c.radius)
  {
    ChartGrid(dims, scores);
    var cmds := Chart(dims, scores).value;
    var level := c.radius.Floor;
    var ring := GridRing(PlotAngles(|dims|), |dims|, level);
    assert cmds[RingsStart + level - 1] == ring;
    assert forall t :: 0 <= t < |ring.radii| ==> ring.radii[t] == c.radius;
  }

  /** Every level label lies exactly on a grid ring: its radius is the radius
      of one of the dashed rings of the same chart. */
  lemma LabelsOnRings(dims: seq<Dimension>, scores: seq<real>)
    requires WellFormed(dims) && 0 < |scores| == |dims|
    ensures Chart(dims, scores).Ok?
    ensures var cmds := Chart(dims, scores).value;
      forall c :: c in cmds && c.Text? ==>
        exists k :: (RingsStart <= k < FrameIndex && cmds[k].Plot? && cmds[k].style == GridStyle
          && |cmds[k].radii| == |dims| + 1
          && forall t :: 0 <= t < |cmds[k].radii| ==> cmds[k].radii[t] == c.radius)
  {
    var ticks, limit, rings, frame, spokes, labels, outline, fill := Split(dims, scores);
    LabelRadii(AxisTurns(|dims|), dims);
    var cmds := Chart(dims, scores).value;
    forall c | c in cmds && c.Text?
      ensures exists k :: (RingsStart <= k < FrameIndex && cmds[k].Plot? && cmds[k].style == GridStyle
          && |cmds[k].radii| == |dims| + 1
          && forall t :: 0 <= t < |cmds[k].radii| ==> cmds[k].radii[t] == c.radius)
    {
      TextIsLabel(cmds, ticks, limit, rings, frame, spokes, labels, outline, fill, c);
      LabelOnRing(dims, scores, c);
    }
  }

  /** The chart ends with the outline of the score profile and its fill, both
      over the closed axis angles and the closed scores: N+1 points whose first
      N radii are the scores in axis order and whose last point repeats the
      first, at angle 0. */
  lemma ChartProfile(dims: seq<Dimension>, scores: seq<real>)
    requires WellFormed(dims) && 0 < |scores| == |dims|
    ensures Chart(dims, scores).Ok? && |Chart(dims, scores).value| == FillIndex(|dims|) + 1
    ensures var cmds := Chart(dims, scores).value; var n := |dims|;
      && cmds[OutlineIndex(n)].Plot? && cmds[OutlineIndex(n)].style == ProfileStyle
      && cmds[FillIndex(n)].Fill? && cmds[FillIndex(n)].style == ProfileFillStyle
      && cmds[OutlineIndex(n)].radii == cmds[FillIndex(n)].radii
      && cmds[OutlineIndex(n)].angles == cmds[FillIndex(n)].angles == PlotAngles(n)
      && |cmds[OutlineIndex(n)].radii| == n + 1
      && cmds[OutlineIndex(n)].radii[..n] == scores
      && cmds[OutlineIndex(n)].radii[n] == cmds[OutlineIndex(n)].radii[0] == scores[0]
      && PlotAngles(n)[..n] == AxisTurns(n) && PlotAngles(n)[n] == PlotAngles(n)[0] == 0.0
  {
    var ticks, limit, rings, frame, spokes, labels, outline, fill := Split(dims, scores);
    var cmds := Chart(dims, scores).value;
    assert cmds[OutlineIndex(|dims|)] == outline[0];
    assert cmds[FillIndex(|dims|)] == fill[0];
  }

  lemma RadiiWithinAppend(a: seq<Command>, b: seq<Command>, lo: real, hi: real)
    requires RadiiWithin(a, lo, hi) && RadiiWithin(b, lo, hi)
    ensures RadiiWithin(a + b, lo, hi)
  {
  }

  /** Runs that each keep their radii inside [lo, hi] keep them there together. */
  lemma RadiiWithinRuns(ticks: seq<Command>, limit: seq<Command>, rings: seq<Command>, frame: seq<Command>,
                        spokes: seq<Command>, labels: seq<Command>, outline: seq<Command>, fill: seq<Command>,
                        lo: real, hi: real)
    requires RadiiWithin(ticks, lo, hi) && RadiiWithin(limit, lo, hi) && RadiiWithin(rings, lo, hi)
    requires RadiiWithin(frame, lo, hi) && RadiiWithin(spokes, lo, hi) && RadiiWithin(labels, lo, hi)
    requires RadiiWithin(outline, lo, hi) && RadiiWithin(fill, lo, hi)
    ensures RadiiWithin(ticks + limit + rings + frame + spokes + labels + outline + fill, lo, hi)
  {
    var acc := ticks;
    RadiiWithinAppend(acc, limit, lo, hi);
    acc := acc + limit;
    RadiiWithinAppend(acc, rings, lo, hi);
    acc := acc + rings;
    RadiiWithinAppend(acc, frame, lo, hi);
    acc := acc + frame;
    RadiiWithinAppend(acc, spokes, lo, hi);
    acc := acc + spokes;
    RadiiWithinAppend(acc, labels, lo, hi);
    acc := acc + labels;
    RadiiWithinAppend(acc, outline, lo, hi);
    acc := acc + outline;
    RadiiWithinAppend(acc, fill, lo, hi);
  }

  /** Grid rings stay inside the radial limit [0, FrameLimit]. */
  lemma RingsWithin(plotAngles: seq<real>, n: nat)
    ensures RadiiWithin(GridRings(plotAngles, n), 0.0, FrameLimit)
  {
    var rings := GridRings(plotAngles, n);
    forall c, x | c in rings && x in RadiiOf(c)
      ensures 0.0 <= x <= FrameLimit
    {
      var k :| 0 <= k < |rings| && rings[k] == c;
      var t :| 0 <= t < |c.radii| && c.radii[t] == x;
    }
  }

  /** Spokes run from the centre to the frame and no further. */
  lemma SpokesWithin(angles: seq<real>)
    ensures RadiiWithin(Spokes(angles), 0.0, FrameLimit)
  {
    var spokes := Spokes(angles);
    forall c, x | c in spokes && x in RadiiOf(c)
      ensures 0.0 <= x <= FrameLimit
    {
      var i :| 0 <= i < |spokes| && spokes[i] == c;
    }
  }

  /** The closed profile of accepted scores stays inside the radial limit
      [0, FrameLimit]. */
  lemma ProfileWithin(scores: seq<real>, plotAngles: seq<real>)
    requires 0 < |scores| && AllAccepted(scores)
    ensures RadiiWithin([Plot(plotAngles, CloseLoop(scores), ProfileStyle)], 0.0, FrameLimit)
    ensures RadiiWithin([Fill(plotAngles, CloseLoop(scores), ProfileFillStyle)], 0.0, FrameLimit)
  {
    var plotValues := CloseLoop(scores);
    forall x | x in plotValues
      ensures 1.0 <= x <= 5.0
    {
      var t :| 0 <= t < |plotValues| && plotValues[t] == x;
      if t < |scores| {
        assert plotValues[t] == scores[t];
        assert ValidateScore(scores[t]).Ok?;
      } else {
        assert ValidateScore(scores[0]).Ok?;
      }
    }
  }

  /** When every score passed validation, every radius the chart draws at,
      rings, frame, spokes, labels and profile alike, lies inside the radial
      limit [0, FrameLimit] the chart sets. */
  lemma RadialBound(dims: seq<Dimension>, scores: seq<real>)
    requires WellFormed(dims) && 0 < |scores| == |dims| && AllAccepted(scores)
    ensures Chart(dims, scores).Ok?
    ensures Chart(dims, scores).value[1] == SetRadialLimit(0.0, FrameLimit)
    ensures RadiiWithin(Chart(dims, scores).value, 0.0, FrameLimit)
  {
    var ticks, limit, rings, frame, spokes, labels, outline, fill := Split(dims, scores);
    RingsWithin(PlotAngles(|dims|), |dims|);
    SpokesWithin(AxisTurns(|dims|));
    ProfileWithin(scores, PlotAngles(|dims|));
    RadiiWithinRuns(ticks, limit, rings, frame, spokes, labels, outline, fill, 0.0, FrameLimit);
  }

  /** Runs of the eight phases, one after the other in rank order, form a
      list in phase order. */
  lemma OrderedRuns(ticks: seq<Command>, limit: seq<Command>, rings: seq<Command>, frame: seq<Command>,
                    spokes: seq<Command>, labels: seq<Command>, outline: seq<Command>, fill: seq<Command>)
    requires PhaseRuns(ticks, limit, rings, frame, spokes, labels, outline, fill)
    ensures InPhaseOrder(ticks + limit + rings + frame + spokes + labels + outline + fill)
  {
    var acc := ticks;
    AppendPhase([], ticks, TickPhase);
    assert [] + ticks == ticks;
    AppendPhase(acc, limit, LimitPhase);
    acc := acc + limit;
    AppendPhase(acc, rings, RingPhase);
    acc := acc + rings;
    AppendPhase(acc, frame, FramePhase);
    acc := acc + frame;
    AppendPhase(acc, spokes, SpokePhase);
    acc := acc + spokes;
    AppendPhase(acc, labels, LabelPhase);
    acc := acc + labels;
    AppendPhase(acc, outline, OutlinePhase);
    acc := acc + outline;
    AppendPhase(acc, fill, FillPhase);
  }

  /** The chart draws in a fixed order: ticks, radial limit, grid rings,
      frame, spokes, level labels, profile outline, profile fill. */
  lemma ChartInPhaseOrder(dims: seq<Dimension>, scores: seq<real>)
    requires WellFormed(dims) && 0 < |scores| == |dims|
    ensures Chart(dims, scores).Ok?
    ensures InPhaseOrder(Chart(dims, scores).value)
  {
    var ticks, limit, rings, frame, spokes, labels, outline, fill := Split(dims, scores);
    OrderedRuns(ticks, limit, rings, frame, spokes, labels, outline, fill);
  }

  /** Counting phase p over runs of one phase each. */
  lemma CountRuns(ticks: seq<Command>, limit: seq<Command>, rings: seq<Command>, frame: seq<Command>,
                  spokes: seq<Command>, labels: seq<Command>, outline: seq<Command>, fill: seq<Command>, p: Phase)
    requires PhaseRuns(ticks, limit, rings, frame, spokes, labels, outline, fill)
    ensures Count(ticks + limit + rings + frame + spokes + labels + outline + fill, p) ==
      match p
      case TickPhase => |ticks|
      case LimitPhase => |limit|
      case RingPhase => |rings|
      case FramePhase => |frame|
      case SpokePhase => |spokes|
      case LabelPhase => |labels|
      case OutlinePhase => |outline|
      case FillPhase => |fill|
      case StrayPhase => 0
  {
    CountUniform(ticks, TickPhase, p);
    CountUniform(limit, LimitPhase, p);
    CountUniform(rings, RingPhase, p);
    CountUniform(frame, FramePhase, p);
    CountUniform(spokes, SpokePhase, p);
    CountUniform(labels, LabelPhase, p);
    CountUniform(outline, OutlinePhase, p);
    CountUniform(fill, FillPhase, p);
    var acc := ticks;
    CountAppend(acc, limit, p);
    acc := acc + limit;
    CountAppend(acc, rings, p);
    acc := acc + rings;
    CountAppend(acc, frame, p);
    acc := acc + frame;
    CountAppend(acc, spokes, p);
    acc := acc + spokes;
    CountAppend(acc, labels, p);
    acc := acc + labels;
    CountAppend(acc, outline, p);
    acc := acc + outline;
    CountAppend(acc, fill, p);
  }

  /** How many commands of each phase a chart of n dimensions holds. */
  function Expected(p: Phase, n: nat): nat
  {
    match p
    case RingPhase => MaxLevels
    case SpokePhase => n
    case LabelPhase => MaxLevels * n
    case StrayPhase => 0
    case _ => 1
  }

  /** A chart holds exactly one tick set, one radial limit, MaxLevels grid
      rings, one frame ring, one spoke per axis, MaxLevels labels per
      dimension, one outline and one fill, whatever the scores are, and no
      line in any other style. */
  lemma ChartCounts(dims: seq<Dimension>, scores: seq<real>, p: Phase)
    requires WellFormed(dims) && 0 < |scores| == |dims|
    ensures Chart(dims, scores).Ok?
    ensures Count(Chart(dims, scores).value, p) == Expected(p, |dims|)
  {
    var ticks, limit, rings, frame, spokes, labels, outline, fill := Split(dims, scores);
    CountRuns(ticks, limit, rings, frame, spokes, labels, outline, fill, p);
  }

  /** The scores change only the profile: two charts of the same dimensions
      agree on every command before the outline. */
  lemma GridIndependentOfScores(dims: seq<Dimension>, scores1: seq<real>, scores2: seq<real>)
    requires WellFormed(dims) && 0 < |scores1| == |dims| && |scores2| == |dims|
    ensures Chart(dims, scores1).Ok? && Chart(dims, scores2).Ok?
    ensures |Chart(dims, scores1).value| == |Chart(dims, scores2).value| == FillIndex(|dims|) + 1
    ensures Chart(dims, scores1).value[..OutlineIndex(|dims|)] == Chart(dims, scores2).value[..OutlineIndex(|dims|)]
  {
    var t1, l1, r1, f1, s1, lab1, o1, fi1 := Split(dims, scores1);
    var t2, l2, r2, f2, s2, lab2, o2, fi2 := Split(dims, scores2);
    var before := t1 + l1 + r1 + f1 + s1 + lab1;
    assert Chart(dims, scores1).value[..OutlineIndex(|dims|)] == before;
    assert Chart(dims, scores2).value[..OutlineIndex(|dims|)] == before;
  }

  /** For the configured dimensions: a validated score list always yields a
      chart of 40 commands, all of whose radii lie in [0, 6]. */
  lemma ValidatedChartInBounds(scores: seq<real>)
    requires ValidScores(scores)
    ensures RadarChart(scores).Ok? && |RadarChart(scores).value| == 40
    ensures RadiiWithin(RadarChart(scores).value, 0.0, 6.0)
  {
    AxesConfigShape();
    RadialBound(AxesConfig, scores);
    var ticks, limit, rings, frame, spokes, labels, outline, fill := Split(AxesConfig, scores);
  }

  /** The worked example: scores 3, 2, 4, 1, 5 pass validation and give a
      chart of 40 commands whose profile has six points with radii
      3, 2, 4, 1, 5, 3. */
  lemma WorkedExampleProfile()
    ensures ValidScores([3.0, 2.0, 4.0, 1.0, 5.0])
    ensures RadarChart([3.0, 2.0, 4.0, 1.0, 5.0]).Ok?
    ensures var cmds := RadarChart([3.0, 2.0, 4.0, 1.0, 5.0]).value;
      && |cmds| == 40 && cmds[38].Plot? && |cmds[38].angles| == 6
      && cmds[38].radii == [3.0, 2.0, 4.0, 1.0, 5.0, 3.0]
  {
    var scores := [3.0, 2.0, 4.0, 1.0, 5.0];
    AxesConfigShape();
    ChartProfile(AxesConfig, scores);
    var radii := RadarChart(scores).value[38].radii;
    assert radii == radii[..5] + [radii[5]];
  }

  /** Any five scores give the configured chart its six rings (five levels
      and the frame), 25 level labels and five dimension names. */
  lemma ConfiguredCounts(scores: seq<real>)
    requires |scores| == 5
    ensures RadarChart(scores).Ok?
    ensures var cmds := RadarChart(scores).value;
      && |cmds| == 40 && cmds[0].SetTicks? && |cmds[0].tickLabels| == 5
      && Count(cmds, RingPhase) + Count(cmds, FramePhase) == 6
      && Count(cmds, LabelPhase) == 25
  {
    AxesConfigShape();
    ChartSetup(AxesConfig, scores);
    ChartCounts(AxesConfig, scores, RingPhase);
    ChartCounts(AxesConfig, scores, FramePhase);
    ChartCounts(AxesConfig, scores, LabelPhase);
  }

  /** In the worked example the chart draws six rings (five levels and the
      frame), 25 level labels and five dimension names. */
  lemma WorkedExampleCounts()
    ensures RadarChart([3.0, 2.0, 4.0, 1.0, 5.0]).Ok?
    ensures var cmds := RadarChart([3.0, 2.0, 4.0, 1.0, 5.0]).value;
      && |cmds| == 40 && cmds[0].SetTicks? && |cmds[0].tickLabels| == 5
      && Count(cmds, RingPhase) + Count(cmds, FramePhase) == 6
      && Count(cmds, LabelPhase) == 25
  {
    ConfiguredCounts([3.0, 2.0, 4.0, 1.0, 5.0]);
  }

  /** A list with a 6 among the scores is refused by validation, so the
      input collection never hands it to the chart. */
  lemma RejectedExample()
    ensures ValidateScore(6.0) == Err(OutOfRange(1.0, 5.0))
    ensures !ValidScores([3.0, 2.0, 4.0, 1.0, 6.0])
  {
    assert ValidateScore([3.0, 2.0, 4.0, 1.0, 6.0][4]).Err?;
  }
}
