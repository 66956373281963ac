# Engineering ladder radar chart: a Dafny model of the layout

The engineering ladder assessment takes one score per competency dimension
(Technology, System, People, Process, Influence). It accepts a score only
inside the inclusive range 1 to 5. It then draws a polar "radar" chart with
these parts:

- five dashed grid rings, one per capability level;
- a solid frame ring one level further out;
- one spoke per axis;
- each level's name on its own ring;
- the closed, filled profile of the scores.

This project models the part of `main.py` that turns scores into chart
geometry. The plotting backend is replaced by an ordered list of drawing
commands. The properties the program promises are proved about that list.

- `Config`: the score range, `MaxLevels` = 5, the frame radius
  `MaxLevels + 1`, and the five dimensions with their ordered level names.
- `Validation`: the range check applied to each score.
- `Geometry`: the axis angles and loop closing. Angles are exact fractions
  `i/N` of a full turn, not floating-point radians.
- `Layout`: the draw commands (`SetTicks`, `SetRadialLimit`, `Plot`, `Fill`,
  `Text`) with opaque style tags, and the chart as a pure function. `Chart`
  builds the chart for any list of dimensions. `RadarChart` is the chart for
  the configured five.
- `Render`: the same chart built loop by loop, as the program draws it. Each
  loop is proved to produce exactly the matching run of `Layout`.
- `ChartFacts`: counts, drawing order, label placement, labels lying on
  rings, the radial bound, the closed profile, and the worked example.

The chart function checks only the shape of the score list, not its range.
The program behaves the same way: range checking happens when scores are
read, before the chart is built. So `Chart` fails only on an empty list,
which has no first element to repeat. It also fails on a list whose closed
length differs from the closed angle list, which the plotting call rejects.
`create_radar_chart` (main.py:103-149) does not check the range of the
scores it is given; only `get_user_input` (main.py:78) does, by calling
`validate_score` on each entry. The model follows the code: `Chart` accepts
any numbers, and the radial bound is stated for scores that passed
validation.

## Model

| member | source | states |
|---|---|---|
| `Config.AxesConfigShape` | main.py:11-21 | There are five uniquely named dimensions in the fixed order Technology, System, People, Process, Influence. Each has exactly `MaxLevels` level names. The frame radius is 6. |
| `Validation.ValidateScore` | main.py:49-55 | A score is accepted exactly when 1 <= score <= 5, and is then returned unchanged. Any other score is refused with an out-of-range error naming the bounds 1 and 5. |
| `Validation.ValidateScoreBoundaries` | main.py:53-55 | The range is inclusive at both ends: 1 and 5 pass, 0.99 and 5.01 fail. Revalidating an accepted score accepts it again. |
| `Geometry.AxisTurnsEvenlySpaced` | main.py:105-106 | The N axis angles start at 0 and are spaced exactly 1/N of a turn apart. They increase strictly and all lie in [0, 1) of a turn, so the endpoint is excluded. |
| `Geometry.CloseLoop` | main.py:109-110 | Closing a non-empty sequence gives N+1 elements. The first N are the input in order, and the last equals the first. |
| `Layout.Setup` | main.py:120-126 | The chart opens with ticks at the axis angles, tick i labelled with the name of dimension i. It then limits the radial view to [0, `FrameLimit`]. |
| `Layout.GridRings` | main.py:129-132 | Exactly `MaxLevels` dashed rings are drawn. Ring k is a closed line over the N+1 closed angles, at constant radius k+1 at every point. |
| `Layout.FrameRing` | main.py:135-136 | The frame is a solid closed ring over the N+1 closed angles, at constant radius `FrameLimit`. |
| `Layout.Spokes` | main.py:138-139 | There is one spoke per axis, in axis order. Spoke i stays at angle i and runs from radius 0 to `FrameLimit`. |
| `Layout.DimensionLabels` | main.py:143-145 | Level name j of a dimension is placed on that dimension's axis at radius j+1, as centred level text. |
| `Layout.LevelLabels` | main.py:142-145 | Every level label is centred level text. When no dimension has more than `MaxLevels` levels, every label radius is a whole number in [1, `MaxLevels`]. |
| `Layout.ProfileCommands` | main.py:148-149 | The profile is drawn as an outline and then a translucent fill, both over the same closed angles and closed scores. |
| `Layout.Chart` | main.py:103-149 | A chart exists exactly when both the scores and the dimensions are non-empty and there is one score per dimension. An empty list fails with `EmptyLoop`. A length mismatch fails with the two closed lengths. |
| `Layout.RadarChart` | main.py:103-149 | For the configured dimensions, a chart exists exactly when there are 5 scores. Otherwise the error is `EmptyLoop` or a mismatch of 6 angles against the closed score count. |
| `Render.DrawGridRings` | main.py:129-132 | The level-by-level ring loop produces exactly the grid rings of the layout. |
| `Render.DrawSpokes` | main.py:138-139 | The axis-by-axis spoke loop produces exactly the spokes of the layout. |
| `Render.DrawDimensionLabels` | main.py:143-145 | The inner level loop produces exactly one dimension's level labels. |
| `Render.DrawLevelLabels` | main.py:142-145 | The nested dimension and level loops produce exactly the level labels of the layout. |
| `Render.DrawChart` | main.py:103-149 | The step-by-step drawing produces exactly `Layout.Chart`: the same commands in the same order, and the same errors. |
| `ChartFacts.ChartSetup` | main.py:120-126 | A chart of N dimensions has 6N + 10 commands (40 for five dimensions). The first sets ticks named after the dimensions, in order. The second sets the radial limit [0, `FrameLimit`]. |
| `ChartFacts.ChartGrid` | main.py:128-136 | Commands 2..6 are the dashed rings of levels 1..5 in increasing order. Command 7 is the frame ring at `FrameLimit`. |
| `ChartFacts.ChartSpokes` | main.py:134-139 | After the frame come N spokes in axis order. Spoke i runs along angle i/N from radius 0 to `FrameLimit`. |
| `ChartFacts.LabelPlacement` | main.py:142-145 | Level name j of dimension i is the label at offset 5i + j of the label run. It sits at angle i/N and radius j+1. |
| `ChartFacts.LabelsOnRings` | main.py:129-145 | Every text in the chart has exactly the radius of one of the dashed grid rings of the same chart. |
| `ChartFacts.ChartProfile` | main.py:147-149 | The last two commands are the outline and the fill. Both use the closed angles, with the final angle 0 again, and the closed scores: N+1 radii, the scores in order followed by the first score. |
| `ChartFacts.RadialBound` | main.py:125-149 | If every score passes validation, every radius drawn by rings, frame, spokes, labels, outline and fill lies in the chart's radial limit [0, `FrameLimit`]. |
| `ChartFacts.ValidatedChartInBounds` | main.py:125-126 | For the configured dimensions, a validated score list always yields a 40-command chart. All of its radii lie in [0, 6]. |
| `ChartFacts.ChartInPhaseOrder` | main.py:120-149 | Drawing order never goes back: ticks, radial limit, grid rings, frame, spokes, level labels, outline, fill. |
| `ChartFacts.ChartCounts` | main.py:129-149 | The chart has exactly one tick set, one radial limit, `MaxLevels` rings, one frame, N spokes, 5N level labels, one outline and one fill, whatever the scores, and no line in any other style. |
| `ChartFacts.GridIndependentOfScores` | main.py:128-145 | Two charts of the same dimensions agree on every command before the profile, whatever their scores. |
| `ChartFacts.WorkedExampleProfile` | main.py:147-149 | Scores 3, 2, 4, 1, 5 pass validation and give a chart whose profile has 6 points with radii 3, 2, 4, 1, 5, 3. |
| `ChartFacts.WorkedExampleCounts` | main.py:129-145 | For scores 3, 2, 4, 1, 5 the chart has 6 rings (5 levels and the frame), 25 level labels and 5 dimension names. |
| `ChartFacts.RejectedExample` | main.py:53-54 | A 6 is refused by validation, so the score list 3, 2, 4, 1, 6 is never handed to the chart by the input collection. |

## Left out

- Rendering: colours, line widths, font sizes, alpha, figure size, the
  background colour, `set_rlabel_position`, hiding the radial grid,
  `tight_layout`, `savefig` and `show` are backend rendering. Each styled
  draw call keeps an opaque `Style` tag instead.
- The theta offset (axis 0 at the top) and the clockwise theta direction
  are the backend's mapping from data angles to screen angles. The model
  stops at data angles.
- Floating point: `np.linspace` radians become exact fractions of a turn.
  Scores are exact reals, so float rounding, NaN and infinity are not
  modelled.
- `Validation.ValidateScore`: parsing the input string as a float,
  stripping whitespace, and rewriting the "could not convert" message are a
  foreign call and error-text matching. The input is an already-numeric
  score, and the unused axis-name argument is dropped.
- The interactive prompt and retry loop that collects the scores, argument
  parsing, and the process exit handling are I/O and process control.
  `Validation.ValidScores` stands for the list that loop hands over: one
  accepted score per dimension.
- Creating the output directory and naming the file with a timestamp are
  filesystem and clock I/O. So are creating, writing and releasing the drawing
  surface, and the failures those steps can raise.
- Determinism of the chart for equal inputs is not stated separately,
  because `Layout.Chart` is a pure function.
- `Geometry.CloseLoop` requires a non-empty sequence. Closing an empty one
  raises an index error in the program. The chart models that case as the
  `EmptyLoop` error instead.
