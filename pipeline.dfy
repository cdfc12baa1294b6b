/** The driver of the receiver (peregrine/run.py, `main`): acquisition,
    candidate selection, tracking and navigation run in sequence over one raw
    sample file, each of the first two either resumed from its checkpoint or
    computed and then saved.

    The sample loader and the three numeric engines are not part of this
    model: they are opaque functions in `Env`, and so are the two sample
    counts the driver computes in floating point and the file system's
    willingness to accept a write. Every call the driver makes on them is
    recorded in a trace. */
module Pipeline {
  import opened Wrappers
  import opened Settings
  import opened Selector
  import opened Checkpoints

  /** The command line: the sample file and the three skip flags, plus the
      sample format forwarded to the loader. */
  datatype Args = Args(
    file: string,
    skipAcquisition: bool,
    skipTracking: bool,
    skipNavigation: bool,
    fileFormat: string)

  /** A navigation solution as the navigation engine returns it. */
  datatype NavSolution = NavSolution(posLlh: Coord, velNed: Coord)

  /** The collaborators of the driver. `S` is the sample buffer type and `T`
      the tracking result type, both opaque.
      - samplesPerCode: samples in one code period, which the driver rounds
        from sampling frequency, chipping rate and code length;
      - samplesForMs: the number of samples in a window of that many
        milliseconds, which the driver truncates from a real product;
      - loadSamples(path, count, byteOffset, format);
      - acquire, track(samples, candidates, msToProcess), navigate;
      - writable: whether a checkpoint file of that name can be written. */
  datatype Env<!S, !T> = Env(
    samplesPerCode: nat,
    samplesForMs: nat -> nat,
    loadSamples: (string, nat, nat, string) -> S,
    acquire: S -> seq<AcqResult>,
    track: (S, seq<AcqResult>, nat) -> T,
    navigate: (T, SettingsRecord) -> seq<(NavSolution, real)>,
    writable: string -> bool)

  /** What the driver did, in order. A checkpoint read that found no file
      and a write that raised an I/O error carry `false`. */
  datatype Event =
    | SamplesLoaded(forStage: Stage, path: string, count: nat, offset: nat, format: string)
    | Acquired
    | Tracked(candidates: seq<AcqResult>, msToProcess: nat)
    | Navigated
    | CheckpointRead(stage: Stage, name: string, found: bool)
    | CheckpointWritten(stage: Stage, name: string, written: bool)

  /** The conditions on which the driver calls `sys.exit(1)`. */
  datatype Fatal = AcqCheckpointMissing | NoSatellitesAcquired | TrackCheckpointMissing

  /** How a run ends: normally, through `sys.exit(1)`, or through the I/O
      error of the navigation save, which nothing catches. */
  datatype Outcome = Completed | Exit(reason: Fatal) | UncaughtIOError(file: string)

  function StageOf(e: Event): Stage {
    match e
    case SamplesLoaded(stage, _, _, _, _) => stage
    case Acquired => Acquisition
    case Tracked(_, _) => Tracking
    case Navigated => Navigation
    case CheckpointRead(stage, _, _) => stage
    case CheckpointWritten(stage, _, _) => stage
  }

  /** Some event of the trace belongs to `stage`. */
  predicate Touches(trace: seq<Event>, stage: Stage) {
    exists e :: e in trace && StageOf(e) == stage
  }

  /** The acquisition results of a fresh acquisition: 11 code periods of
      samples, read after the settings' byte offset. */
  function FreshAcquisition<S, T>(args: Args, env: Env<S, T>, settings: SettingsRecord): seq<AcqResult> {
    env.acquire(env.loadSamples(args.file, 11 * env.samplesPerCode,
                                settings.skipNumberOfBytes, args.fileFormat))
  }

  /** The tracking result of a fresh tracking run over `msToProcess + 22`
      milliseconds of samples, read after the same byte offset. */
  function FreshTracking<S, T>(args: Args, env: Env<S, T>, settings: SettingsRecord,
                               candidates: seq<AcqResult>): T {
    env.track(env.loadSamples(args.file, env.samplesForMs(settings.msToProcess + 22),
                              settings.skipNumberOfBytes, args.fileFormat),
              candidates, settings.msToProcess)
  }

  /** Navigation solutions reduced to the persisted (time, position,
      velocity) form, one record per solution. */
  function Reduced(solns: seq<(NavSolution, real)>): seq<NavRecord> {
    seq(|solns|, i requires 0 <= i < |solns| =>
      NavRecord(solns[i].1, solns[i].0.posLlh, solns[i].0.velNed))
  }

  /** What one stage hands on (`None` when the run cannot go on), what it
      did, and the file system after it. */
  datatype Step<X, T> = Step(output: Option<X>, log: seq<Event>, disk: Disk<T>)

  /** The acquisition stage (lines 55-77): with the skip flag, the checkpoint
      or, when it cannot be opened, nothing; otherwise a fresh acquisition,
      saved when the checkpoint file can be written and kept in memory
      either way. */
  function AcquisitionStep<S, T>(args: Args, env: Env<S, T>, disk: Disk<T>,
                                 settings: SettingsRecord): Step<seq<AcqResult>, T> {
    var name := CheckpointName(args.file, Acquisition);
    if args.skipAcquisition then
      if name in disk.acqFiles then Step(Some(disk.acqFiles[name]), [CheckpointRead(Acquisition, name, true)], disk)
      else Step(None, [CheckpointRead(Acquisition, name, false)], disk)
    else
      var acq := FreshAcquisition(args, env, settings);
      Step(Some(acq),
           [SamplesLoaded(Acquisition, args.file, 11 * env.samplesPerCode, settings.skipNumberOfBytes, args.fileFormat),
            Acquired,
            CheckpointWritten(Acquisition, name, env.writable(name))],
           if env.writable(name) then disk.(acqFiles := disk.acqFiles[name := acq]) else disk)
  }

  /** The tracking stage (lines 89-111), the same shape over the tracking
      checkpoint and a fresh tracking run on `candidates`. */
  function TrackingStep<S, T>(args: Args, env: Env<S, T>, disk: Disk<T>, settings: SettingsRecord,
                              candidates: seq<AcqResult>): Step<T, T> {
    var name := CheckpointName(args.file, Tracking);
    if args.skipTracking then
      if name in disk.trackFiles then Step(Some(disk.trackFiles[name]), [CheckpointRead(Tracking, name, true)], disk)
      else Step(None, [CheckpointRead(Tracking, name, false)], disk)
    else
      var tr := FreshTracking(args, env, settings, candidates);
      Step(Some(tr),
           [SamplesLoaded(Tracking, args.file, env.samplesForMs(settings.msToProcess + 22),
                          settings.skipNumberOfBytes, args.fileFormat),
            Tracked(candidates, settings.msToProcess),
            CheckpointWritten(Tracking, name, env.writable(name))],
           if env.writable(name) then disk.(trackFiles := disk.trackFiles[name := tr]) else disk)
  }

  /** The navigation stage (lines 114-122) once it is not skipped: the
      records written, or `None` when the unguarded save fails. */
  function NavigationStep<S, T>(args: Args, env: Env<S, T>, disk: Disk<T>, settings: SettingsRecord,
                                trackResults: T): Step<seq<NavRecord>, T> {
    var name := CheckpointName(args.file, Navigation);
    var records := Reduced(env.navigate(trackResults, settings));
    Step(if env.writable(name) then Some(records) else None,
         [Navigated, CheckpointWritten(Navigation, name, env.writable(name))],
         if env.writable(name) then disk.(navFiles := disk.navFiles[name := records]) else disk)
  }

  /** How a run ended, what it did, and the file system afterwards. */
  datatype RunResult<T> = RunResult(out: Outcome, trace: seq<Event>, disk: Disk<T>)

  /** The whole run of `main` over the file system `disk`, one stage after
      the other. */
  function Run<S, T>(args: Args, defaults: Defaults, env: Env<S, T>, disk: Disk<T>): RunResult<T> {
    AfterAcquisition(args, defaults, env, AcquisitionStep(args, env, disk, RunSettings(defaults, args.file)))
  }

  /** The run once acquisition is done (lines 79-122): exit when its
      checkpoint was missing or no satellite is acquired, otherwise track
      the ranked candidates. */
  function AfterAcquisition<S, T>(args: Args, defaults: Defaults, env: Env<S, T>,
                                  a: Step<seq<AcqResult>, T>): RunResult<T> {
    if a.output.None? then RunResult(Exit(AcqCheckpointMissing), a.log, a.disk)
    else match SelectCandidates(a.output.value)
      case None => RunResult(Exit(NoSatellitesAcquired), a.log, a.disk)
      case Some(candidates) =>
        AfterTracking(args, defaults, env, a.log,
                      TrackingStep(args, env, a.disk, RunSettings(defaults, args.file), candidates))
  }

  /** The run once tracking is done (lines 113-122): exit when its
      checkpoint was missing, stop when navigation is skipped, otherwise
      navigate; `log` is what came before tracking. */
  function AfterTracking<S, T>(args: Args, defaults: Defaults, env: Env<S, T>, log: seq<Event>,
                               t: Step<T, T>): RunResult<T> {
    if t.output.None? then RunResult(Exit(TrackCheckpointMissing), log + t.log, t.disk)
    else if args.skipNavigation then RunResult(Completed, log + t.log, t.disk)
    else
      var n := NavigationStep(args, env, t.disk, RunSettings(defaults, args.file), t.output.value);
      RunResult(if n.output.Some? then Completed else UncaughtIOError(CheckpointName(args.file, Navigation)),
                log + t.log + n.log, n.disk)
  }

  /** The loop that builds `nav_results`: one (time, position, velocity)
      record per solution, in solution order. */
  method ReduceSolutions(solns: seq<(NavSolution, real)>) returns (records: seq<NavRecord>)
    ensures |records| == |solns|
    ensures forall i :: 0 <= i < |solns| ==>
              records[i] == NavRecord(solns[i].1, solns[i].0.posLlh, solns[i].0.velNed)
  {
    records := [];
    for i := 0 to |solns|
      invariant |records| == i
      invariant forall j :: 0 <= j < i ==>
                  records[j] == NavRecord(solns[j].1, solns[j].0.posLlh, solns[j].0.velNed)
    {
      var (s, t) := solns[i];
      records := records + [NavRecord(t, s.posLlh, s.velNed)];
    }
  }

  /** Acquisition (lines 55-77), step by step on the settings object. */
  method AcquisitionStage<S, T>(args: Args, env: Env<S, T>, disk: Disk<T>, settings: InitSettings)
    returns (acq: Option<seq<AcqResult>>, log: seq<Event>, disk': Disk<T>)
    ensures Step(acq, log, disk') == AcquisitionStep(args, env, disk, settings.Snapshot())
  {
    disk' := disk;
    var acqResultsFile := CheckpointName(args.file, Acquisition);
    if args.skipAcquisition {
      if acqResultsFile !in disk.acqFiles {
        acq, log := None, [CheckpointRead(Acquisition, acqResultsFile, false)];
        return;
      }
      acq := Some(disk.acqFiles[acqResultsFile]);
      log := [CheckpointRead(Acquisition, acqResultsFile, true)];
    } else {
      var count := 11 * env.samplesPerCode;
      var acqSamples := env.loadSamples(args.file, count, settings.skipNumberOfBytes, args.fileFormat);
      var acqResults := env.acquire(acqSamples);
      var saved := env.writable(acqResultsFile);
      if saved {
        disk' := disk.(acqFiles := disk.acqFiles[acqResultsFile := acqResults]);
      }
      acq := Some(acqResults);
      log := [SamplesLoaded(Acquisition, args.file, count, settings.skipNumberOfBytes, args.fileFormat),
              Acquired,
              CheckpointWritten(Acquisition, acqResultsFile, saved)];
    }
  }

  /** Tracking (lines 89-111), step by step on the settings object. */
  method TrackingStage<S, T>(args: Args, env: Env<S, T>, disk: Disk<T>, settings: InitSettings,
                             candidates: seq<AcqResult>)
    returns (tracked: Option<T>, log: seq<Event>, disk': Disk<T>)
    ensures Step(tracked, log, disk') == TrackingStep(args, env, disk, settings.Snapshot(), candidates)
  {
    disk' := disk;
    var trackResultsFile := CheckpointName(args.file, Tracking);
    if args.skipTracking {
      if trackResultsFile !in disk.trackFiles {
        tracked, log := None, [CheckpointRead(Tracking, trackResultsFile, false)];
        return;
      }
      tracked := Some(disk.trackFiles[trackResultsFile]);
      log := [CheckpointRead(Tracking, trackResultsFile, true)];
    } else {
      var count := env.samplesForMs(settings.msToProcess + 22);
      var signal := env.loadSamples(args.file, count, settings.skipNumberOfBytes, args.fileFormat);
      var trackResults := env.track(signal, candidates, settings.msToProcess);
      var saved := env.writable(trackResultsFile);
      if saved {
        disk' := disk.(trackFiles := disk.trackFiles[trackResultsFile := trackResults]);
      }
      tracked := Some(trackResults);
      log := [SamplesLoaded(Tracking, args.file, count, settings.skipNumberOfBytes, args.fileFormat),
              Tracked(candidates, settings.msToProcess),
              CheckpointWritten(Tracking, trackResultsFile, saved)];
    }
  }

  /** Navigation (lines 114-122), once it is not skipped. */
  method NavigationStage<S, T>(args: Args, env: Env<S, T>, disk: Disk<T>, settings: InitSettings,
                               trackResults: T)
    returns (written: Option<seq<NavRecord>>, log: seq<Event>, disk': Disk<T>)
    ensures Step(written, log, disk') == NavigationStep(args, env, disk, settings.Snapshot(), trackResults)
  {
    var navResultsFile := CheckpointName(args.file, Navigation);
    var navSolns := env.navigate(trackResults, settings.Snapshot());
    var navResults := ReduceSolutions(navSolns);
    assert navResults == Reduced(navSolns);
    var saved := env.writable(navResultsFile);
    log := [Navigated, CheckpointWritten(Navigation, navResultsFile, saved)];
    if saved {
      written, disk' := Some(navResults), disk.(navFiles := disk.navFiles[navResultsFile := navResults]);
    } else {
      written, disk' := None, disk;
    }
  }

  /** `main`: build the settings, store the file name in them, then run the
      stages in order, stopping at the first fatal condition. */
  method RunPipeline<S, T>(args: Args, defaults: Defaults, env: Env<S, T>, disk: Disk<T>)
    returns (out: Outcome, trace: seq<Event>, disk': Disk<T>)
    ensures RunResult(out, trace, disk') == Run(args, defaults, env, disk)
  {
    var settings := new InitSettings(defaults);
    settings.SetFileName(args.file);
    assert settings.Snapshot() == RunSettings(defaults, args.file);

    var acq, acqLog;
    acq, acqLog, disk' := AcquisitionStage(args, env, disk, settings);
    if acq.None? {
      out, trace := Exit(AcqCheckpointMissing), acqLog;
      return;
    }

    // Keep the acquired satellites; stop when there are none; rank the rest.
    var acqResults := FilterAcquired(acq.value);
    if |acqResults| == 0 {
      out, trace := Exit(NoSatellitesAcquired), acqLog;
      return;
    }
    acqResults := SortBySnr(acqResults);
    assert SelectCandidates(acq.value) == Some(acqResults);

    var tracked, trackLog;
    tracked, trackLog, disk' := TrackingStage(args, env, disk', settings, acqResults);
    if tracked.None? {
      out, trace := Exit(TrackCheckpointMissing), acqLog + trackLog;
      return;
    }

    out, trace := Completed, acqLog + trackLog;
    if !args.skipNavigation {
      var written, navLog;
      written, navLog, disk' := NavigationStage(args, env, disk', settings, tracked.value);
      if written.None? {
        out := UncaughtIOError(CheckpointName(args.file, Navigation));
      }
      trace := trace + navLog;
    }
  }
}
