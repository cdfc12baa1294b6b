/** The stage checkpoint store of the driver (peregrine/run.py): one file per
    stage, named after the raw sample file, whose existence is the only
    signal that a stage can be resumed. */
module Checkpoints {
  import opened Selector

  datatype Stage = Acquisition | Tracking | Navigation

  /** The fixed per-stage file suffix. */
  function Suffix(stage: Stage): string {
    match stage
    case Acquisition => ".acq_results"
    case Tracking => ".track_results"
    case Navigation => ".nav_results"
  }

  /** The checkpoint file of `stage` for the sample file at `path`: the path
      followed by the stage's suffix. */
  function CheckpointName(path: string, stage: Stage): string {
    path + Suffix(stage)
  }

  /** A checkpoint name splits back into the sample path and the suffix. */
  lemma CheckpointNameParts(path: string, stage: Stage)
    ensures |CheckpointName(path, stage)| == |path| + |Suffix(stage)|
    ensures CheckpointName(path, stage)[..|path|] == path
    ensures CheckpointName(path, stage)[|path|..] == Suffix(stage)
  {
  }

  /** A checkpoint name is never the sample file itself. */
  lemma CheckpointNameNotInput(path: string, stage: Stage)
    ensures CheckpointName(path, stage) != path
  {
    CheckpointNameParts(path, stage);
  }

  /** The three stages of one run never share a checkpoint file. */
  lemma CheckpointNamesDistinct(path: string, s1: Stage, s2: Stage)
    requires s1 != s2
    ensures CheckpointName(path, s1) != CheckpointName(path, s2)
  {
    var n1, n2 := CheckpointName(path, s1), CheckpointName(path, s2);
    CheckpointNameParts(path, s1);
    CheckpointNameParts(path, s2);
    if |n1| == |n2| {
      assert n1[|path| + 1] == Suffix(s1)[1];
      assert n2[|path| + 1] == Suffix(s2)[1];
    }
  }

  /** Distinct sample files never share a checkpoint file of one stage. */
  lemma CheckpointNameInjective(p: string, q: string, stage: Stage)
    requires CheckpointName(p, stage) == CheckpointName(q, stage)
    ensures p == q
  {
    var n := CheckpointName(p, stage);
    CheckpointNameParts(p, stage);
    CheckpointNameParts(q, stage);
    assert |p| == |q|;
    assert p == n[..|p|] == q;
  }

  /** The files a run can open, by stage. A name absent from its map is a
      file that cannot be opened for reading (missing or unreadable).
      `T` is the opaque tracking result. */
  datatype Disk<T> = Disk(
    acqFiles: map<string, seq<AcqResult>>,
    trackFiles: map<string, T>,
    navFiles: map<string, seq<NavRecord>>)

  type Coord = (real, real, real)

  /** One persisted navigation epoch: time, position (latitude, longitude,
      height) and velocity (north, east, down). */
  datatype NavRecord = NavRecord(t: real, posLlh: Coord, velNed: Coord)
}
