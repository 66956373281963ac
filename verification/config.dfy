/**
  The fixed configuration of the assessment: the score range, the number of
  capability levels per dimension, and the five dimensions with their ordered
  level names. Dimension order fixes the angular position of each axis; level
  order fixes the radial position of each level name.
 */
module Config {

  /** Lower bound of the inclusive score range. */
  const ScoreMin: real := 1.0

  /** Upper bound of the inclusive score range. */
  const ScoreMax: real := 5.0

  /** Number of capability levels per dimension, and of dashed grid rings. */
  const MaxLevels: nat := 5

  /** Radius of the outer frame ring, one level beyond the last grid ring. */
  const FrameLimit: real := (MaxLevels + 1) as real

  /** One assessment axis: its name and its level names, lowest level first. */
  datatype Dimension = Dimension(name: string, levels: seq<string>)

  /** The five dimensions, in the order they appear around the chart. */
  const AxesConfig: seq<Dimension> := [
    Dimension("Technology", ["Adopts", "Specializes", "Evangelizes", "Masters", "Creates"]),
    Dimension("System", ["Enhances", "Designs", "Owns", "Evolves", "Leads"]),
    Dimension("People", ["Learns", "Supports", "Mentors", "Coordinates", "Manages"]),
    Dimension("Process", ["Follows", "Enforces", "Challenges", "Adjusts", "Defines"]),
    Dimension("Influence", ["Subsystem", "Team", "Multiple Teams", "Company", "Community"])
  ]

  /** The dimension names in axis order (the keys of the configuration). */
  function Names(dims: seq<Dimension>): (r: seq<string>)
    ensures |r| == |dims|
    ensures forall i :: 0 <= i < |dims| ==> r[i] == dims[i].name
  {
    seq(|dims|, i requires 0 <= i < |dims| => dims[i].name)
  }

  /** Every dimension has exactly MaxLevels level names and no two dimensions share a name. */
  ghost predicate WellFormed(dims: seq<Dimension>)
  {
    && (forall i :: 0 <= i < |dims| ==> |dims[i].levels| == MaxLevels)
    && (forall i, j :: 0 <= i < j < |dims| ==> dims[i].name != dims[j].name)
  }

  /** The configuration holds five uniquely named dimensions, in fixed order,
      each with exactly MaxLevels ordered level names. */
  lemma AxesConfigShape()
    ensures |AxesConfig| == 5
    ensures Names(AxesConfig) == ["Technology", "System", "People", "Process", "Influence"]
    ensures WellFormed(AxesConfig)
    ensures FrameLimit == 6.0
  {
    var names := Names(AxesConfig);
    assert names == ["Technology", "System", "People", "Process", "Influence"];
  }
}
