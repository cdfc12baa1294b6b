/** What a run of the driver (peregrine/run.py, `main`) guarantees, stated
    over the specification `Pipeline.Run` that `Pipeline.RunPipeline`
    implements. */
module PipelineProperties {
  import opened Wrappers
  import opened Settings
  import opened Selector
  import opened Checkpoints
  import opened Pipeline

  /** The ranked candidates of a run, or `None` when it stops before
      tracking. */
  function Ranked<S, T>(args: Args, defaults: Defaults, env: Env<S, T>, disk: Disk<T>): Option<seq<AcqResult>> {
    var a := AcquisitionStep(args, env, disk, RunSettings(defaults, args.file));
    if a.output.None? then None else SelectCandidates(a.output.value)
  }

  /** The tracking result of a run, or `None` when it stops before
      navigation. */
  function TrackResult<S, T>(args: Args, defaults: Defaults, env: Env<S, T>, disk: Disk<T>): Option<T> {
    match Ranked(args, defaults, env, disk)
    case None => None
    case Some(c) =>
      var settings := RunSettings(defaults, args.file);
      TrackingStep(args, env, AcquisitionStep(args, env, disk, settings).disk, settings, c).output
  }

  /** What a single event of a run says about the command line and the
      environment: checkpoint names, sample windows, which flags allow it,
      and that the tracking engine only ever sees `ranked`. */
  predicate Conforms<S, T>(e: Event, args: Args, env: Env<S, T>, ranked: Option<seq<AcqResult>>) {
    match e
    case SamplesLoaded(stage, path, count, offset, format) =>
      && path == args.file && offset == SKIP_NUMBER_OF_BYTES && format == args.fileFormat
      && stage != Navigation
      && (stage == Acquisition ==> !args.skipAcquisition && count == 11 * env.samplesPerCode)
      && (stage == Tracking ==> !args.skipTracking && count == env.samplesForMs(MS_TO_PROCESS + 22))
    case Acquired => !args.skipAcquisition
    case Tracked(candidates, ms) =>
      !args.skipTracking && ranked == Some(candidates) && ms == MS_TO_PROCESS
    case Navigated => !args.skipNavigation
    case CheckpointRead(stage, name, _) =>
      && name == CheckpointName(args.file, stage)
      && stage != Navigation
      && (stage == Acquisition ==> args.skipAcquisition)
      && (stage == Tracking ==> args.skipTracking)
    case CheckpointWritten(stage, name, written) =>
      && name == CheckpointName(args.file, stage)
      && written == env.writable(name)
      && (stage == Acquisition ==> !args.skipAcquisition)
      && (stage == Tracking ==> !args.skipTracking)
      && (stage == Navigation ==> !args.skipNavigation)
  }

  predicate AllConform<S, T>(log: seq<Event>, args: Args, env: Env<S, T>, ranked: Option<seq<AcqResult>>) {
    forall e :: e in log ==> Conforms(e, args, env, ranked)
  }

  predicate OnlyStage(log: seq<Event>, stage: Stage) {
    forall e :: e in log ==> StageOf(e) == stage
  }

  lemma AllConformConcat<S, T>(a: seq<Event>, b: seq<Event>, args: Args, env: Env<S, T>,
                               ranked: Option<seq<AcqResult>>)
    requires AllConform(a, args, env, ranked) && AllConform(b, args, env, ranked)
    ensures AllConform(a + b, args, env, ranked)
  {
  }

  lemma AcquisitionLogConforms<S, T>(args: Args, defaults: Defaults, env: Env<S, T>, disk: Disk<T>, ranked: Option<seq<AcqResult>>)
    ensures AllConform(AcquisitionStep(args, env, disk, RunSettings(defaults, args.file)).log, args, env, ranked)
    ensures OnlyStage(AcquisitionStep(args, env, disk, RunSettings(defaults, args.file)).log, Acquisition)
  {
  }

  lemma TrackingLogConforms<S, T>(args: Args, defaults: Defaults, env: Env<S, T>, disk: Disk<T>, candidates: seq<AcqResult>)
    ensures AllConform(TrackingStep(args, env, disk, RunSettings(defaults, args.file), candidates).log, args, env, Some(candidates))
    ensures OnlyStage(TrackingStep(args, env, disk, RunSettings(defaults, args.file), candidates).log, Tracking)
  {
  }

  lemma AfterTrackingConforms<S, T>(args: Args, defaults: Defaults, env: Env<S, T>, log: seq<Event>,
                                    t: Step<T, T>, ranked: Option<seq<AcqResult>>)
    requires AllConform(log, args, env, ranked) && AllConform(t.log, args, env, ranked)
    ensures AllConform(AfterTracking(args, defaults, env, log, t).trace, args, env, ranked)
  {
    AllConformConcat(log, t.log, args, env, ranked);
    if t.output.Some? && !args.skipNavigation {
      var n := NavigationStep(args, env, t.disk, RunSettings(defaults, args.file), t.output.value);
      assert AllConform(n.log, args, env, ranked);
      AllConformConcat(log + t.log, n.log, args, env, ranked);
    }
  }

  /** Every event of every run conforms: checkpoint files are named after
      the sample file and their stage, sample reads use the fixed offset
      and the stage's window, a stage that is skipped computes nothing, and
      the tracking engine only ever receives the ranked candidates. */
  lemma RunConforms<S, T>(args: Args, defaults: Defaults, env: Env<S, T>, disk: Disk<T>)
    ensures AllConform(Run(args, defaults, env, disk).trace, args, env, Ranked(args, defaults, env, disk))
  {
    var a := AcquisitionStep(args, env, disk, RunSettings(defaults, args.file));
    var ranked := Ranked(args, defaults, env, disk);
    AcquisitionLogConforms(args, defaults, env, disk, ranked);
    if a.output.Some? && ranked.Some? {
      var t := TrackingStep(args, env, a.disk, RunSettings(defaults, args.file), ranked.value);
      TrackingLogConforms(args, defaults, env, a.disk, ranked.value);
      AfterTrackingConforms(args, defaults, env, a.log, t, ranked);
    }
  }

  /** Checkpoint names in a conforming trace. */
  lemma ConformingNames<S, T>(tr: seq<Event>, args: Args, env: Env<S, T>, ranked: Option<seq<AcqResult>>)
    requires AllConform(tr, args, env, ranked)
    ensures forall e :: e in tr && (e.CheckpointRead? || e.CheckpointWritten?) ==>
              e.name == CheckpointName(args.file, e.stage)
    ensures forall e :: e in tr && e.CheckpointRead? ==> e.stage != Navigation
  {
    forall e | e in tr && (e.CheckpointRead? || e.CheckpointWritten?)
      ensures e.name == CheckpointName(args.file, e.stage)
      ensures e.CheckpointRead? ==> e.stage != Navigation
    {
      assert Conforms(e, args, env, ranked);
    }
  }

  /** Every checkpoint file a run opens or writes is the sample file's path
      followed by the stage's suffix, and the navigation checkpoint is
      never opened for reading. */
  lemma RunUsesCheckpointNames<S, T>(args: Args, defaults: Defaults, env: Env<S, T>, disk: Disk<T>)
    ensures forall e :: e in Run(args, defaults, env, disk).trace && (e.CheckpointRead? || e.CheckpointWritten?) ==>
              e.name == CheckpointName(args.file, e.stage)
    ensures forall e :: e in Run(args, defaults, env, disk).trace && e.CheckpointRead? ==>
              e.stage != Navigation
  {
    RunConforms(args, defaults, env, disk);
    ConformingNames(Run(args, defaults, env, disk).trace, args, env, Ranked(args, defaults, env, disk));
  }

  /** Sample reads in a conforming trace. */
  lemma ConformingSampleWindows<S, T>(tr: seq<Event>, args: Args, env: Env<S, T>, ranked: Option<seq<AcqResult>>)
    requires AllConform(tr, args, env, ranked)
    ensures forall e :: e in tr && e.SamplesLoaded? ==>
              && e.path == args.file
              && e.offset == SKIP_NUMBER_OF_BYTES
              && e.format == args.fileFormat
              && e.forStage != Navigation
              && e.count == (if e.forStage == Acquisition then 11 * env.samplesPerCode
                             else env.samplesForMs(MS_TO_PROCESS + 22))
    ensures args.skipAcquisition ==> Acquired !in tr
    ensures args.skipAcquisition ==> forall e :: e in tr && e.SamplesLoaded? ==> e.forStage != Acquisition
    ensures args.skipTracking ==>
              forall e :: e in tr ==> !e.Tracked? && !(e.SamplesLoaded? && e.forStage == Tracking)
  {
    forall e | e in tr
      ensures e.SamplesLoaded? ==>
                && e.path == args.file
                && e.offset == SKIP_NUMBER_OF_BYTES
                && e.format == args.fileFormat
                && e.forStage != Navigation
                && e.count == (if e.forStage == Acquisition then 11 * env.samplesPerCode
                               else env.samplesForMs(MS_TO_PROCESS + 22))
      ensures args.skipAcquisition ==> e != Acquired && !(e.SamplesLoaded? && e.forStage == Acquisition)
      ensures args.skipTracking ==> !e.Tracked? && !(e.SamplesLoaded? && e.forStage == Tracking)
    {
      assert Conforms(e, args, env, ranked);
    }
  }

  /** Both sample reads take the input file, the fixed byte offset and the
      chosen format; acquisition asks for 11 code periods and tracking for
      `msToProcess + 22` milliseconds. */
  lemma RunReadsSampleWindows<S, T>(args: Args, defaults: Defaults, env: Env<S, T>, disk: Disk<T>)
    ensures forall e :: e in Run(args, defaults, env, disk).trace && e.SamplesLoaded? ==>
              && e.path == args.file
              && e.offset == SKIP_NUMBER_OF_BYTES
              && e.format == args.fileFormat
              && e.forStage != Navigation
              && e.count == (if e.forStage == Acquisition then 11 * env.samplesPerCode
                             else env.samplesForMs(MS_TO_PROCESS + 22))
  {
    RunConforms(args, defaults, env, disk);
    ConformingSampleWindows(Run(args, defaults, env, disk).trace, args, env, Ranked(args, defaults, env, disk));
  }

  /** With acquisition skipped, the sample loader is not asked for
      acquisition samples and the acquisition engine is not called. */
  lemma SkippedAcquisitionComputesNothing<S, T>(args: Args, defaults: Defaults, env: Env<S, T>, disk: Disk<T>)
    requires args.skipAcquisition
    ensures Acquired !in Run(args, defaults, env, disk).trace
    ensures forall e :: e in Run(args, defaults, env, disk).trace && e.SamplesLoaded? ==>
              e.forStage != Acquisition
  {
    RunConforms(args, defaults, env, disk);
    ConformingSampleWindows(Run(args, defaults, env, disk).trace, args, env, Ranked(args, defaults, env, disk));
  }

  /** A missing acquisition checkpoint under resume ends the run with
      status 1 at once: the failed open is all that happens. */
  lemma MissingAcquisitionCheckpointExits<S, T>(args: Args, defaults: Defaults, env: Env<S, T>, disk: Disk<T>)
    ensures Run(args, defaults, env, disk).out == Exit(AcqCheckpointMissing) <==>
              args.skipAcquisition && CheckpointName(args.file, Acquisition) !in disk.acqFiles
    ensures Run(args, defaults, env, disk).out == Exit(AcqCheckpointMissing) ==>
              && Run(args, defaults, env, disk).trace ==
                   [CheckpointRead(Acquisition, CheckpointName(args.file, Acquisition), false)]
              && Run(args, defaults, env, disk).disk == disk
  {
  }

  /** What the later stages leave of what came before them: the earlier
      log is a prefix of the trace, and the earlier stages' checkpoints are
      not touched again. */
  lemma AfterTrackingFrame<S, T>(args: Args, defaults: Defaults, env: Env<S, T>, log: seq<Event>, t: Step<T, T>)
    ensures var r := AfterTracking(args, defaults, env, log, t);
            && |r.trace| >= |log| + |t.log|
            && r.trace[..|log| + |t.log|] == log + t.log
            && r.disk.acqFiles == t.disk.acqFiles
            && r.disk.trackFiles == t.disk.trackFiles
  {
    var r := AfterTracking(args, defaults, env, log, t);
    if t.output.Some? && !args.skipNavigation {
      var n := NavigationStep(args, env, t.disk, RunSettings(defaults, args.file), t.output.value);
      assert r.trace == (log + t.log) + n.log;
    }
  }

  lemma AfterAcquisitionFrame<S, T>(args: Args, defaults: Defaults, env: Env<S, T>, a: Step<seq<AcqResult>, T>)
    ensures var r := AfterAcquisition(args, defaults, env, a);
            && |r.trace| >= |a.log|
            && r.trace[..|a.log|] == a.log
            && r.disk.acqFiles == a.disk.acqFiles
  {
    if a.output.Some? && SelectCandidates(a.output.value).Some? {
      var t := TrackingStep(args, env, a.disk, RunSettings(defaults, args.file), SelectCandidates(a.output.value).value);
      AfterTrackingFrame(args, defaults, env, a.log, t);
      var r := AfterAcquisition(args, defaults, env, a);
      assert r.trace[..|a.log|] == r.trace[..|a.log| + |t.log|][..|a.log|];
    }
  }

  /** Without the skip flag, a run starts by reading 11 code periods after
      the fixed offset, acquiring, and trying to save; the checkpoint holds
      the fresh results exactly when the file could be written. */
  lemma FreshAcquisitionStartsRun<S, T>(args: Args, defaults: Defaults, env: Env<S, T>, disk: Disk<T>)
    requires !args.skipAcquisition
    ensures var name := CheckpointName(args.file, Acquisition);
            var r := Run(args, defaults, env, disk);
            && |r.trace| >= 3
            && r.trace[..3] == [SamplesLoaded(Acquisition, args.file, 11 * env.samplesPerCode,
                                              SKIP_NUMBER_OF_BYTES, args.fileFormat),
                                Acquired,
                                CheckpointWritten(Acquisition, name, env.writable(name))]
            && r.disk.acqFiles == if env.writable(name)
                                  then disk.acqFiles[name := FreshAcquisition(args, env, RunSettings(defaults, args.file))]
                                  else disk.acqFiles
  {
    AfterAcquisitionFrame(args, defaults, env, AcquisitionStep(args, env, disk, RunSettings(defaults, args.file)));
  }

  /** When no result is acquired, whether loaded or fresh, the run exits
      with status 1 before anything of tracking or navigation happens. */
  lemma NoCandidatesStopsBeforeTracking<S, T>(args: Args, defaults: Defaults, env: Env<S, T>, disk: Disk<T>)
    ensures var a := AcquisitionStep(args, env, disk, RunSettings(defaults, args.file)).output;
            Run(args, defaults, env, disk).out == Exit(NoSatellitesAcquired) <==>
              a.Some? && forall i :: 0 <= i < |a.value| ==> !IsAcquired(a.value[i])
    ensures Ranked(args, defaults, env, disk).None? ==>
              var r := Run(args, defaults, env, disk);
              && !Touches(r.trace, Tracking)
              && !Touches(r.trace, Navigation)
              && r.disk.trackFiles == disk.trackFiles
              && r.disk.navFiles == disk.navFiles
  {
    AcquisitionLogConforms(args, defaults, env, disk, None);
  }

  /** A run either stops within acquisition or goes on to tracking with
      the ranked candidates. */
  lemma RunShape<S, T>(args: Args, defaults: Defaults, env: Env<S, T>, disk: Disk<T>)
    ensures var a := AcquisitionStep(args, env, disk, RunSettings(defaults, args.file));
            Ranked(args, defaults, env, disk).None? ==>
              Run(args, defaults, env, disk) ==
                RunResult(if a.output.None? then Exit(AcqCheckpointMissing) else Exit(NoSatellitesAcquired),
                          a.log, a.disk)
    ensures var a := AcquisitionStep(args, env, disk, RunSettings(defaults, args.file));
            Ranked(args, defaults, env, disk).Some? ==>
              && a.output.Some?
              && TrackResult(args, defaults, env, disk) ==
                   TrackingStep(args, env, a.disk, RunSettings(defaults, args.file), Ranked(args, defaults, env, disk).value).output
              && Run(args, defaults, env, disk) ==
                   AfterTracking(args, defaults, env, a.log, TrackingStep(args, env, a.disk, RunSettings(defaults, args.file), Ranked(args, defaults, env, disk).value))
  {
  }

  /** Tracking calls in a conforming trace. */
  lemma ConformingTrackingCalls<S, T>(tr: seq<Event>, args: Args, env: Env<S, T>, ranked: Option<seq<AcqResult>>)
    requires AllConform(tr, args, env, ranked)
    ensures forall e :: e in tr && e.Tracked? ==> ranked.Some? && e == Tracked(ranked.value, 37000)
  {
    forall e | e in tr && e.Tracked?
      ensures ranked.Some? && e == Tracked(ranked.value, 37000)
    {
      assert Conforms(e, args, env, ranked);
    }
  }

  /** The tracking engine, when called, gets exactly the acquired results
      ranked by SNR and `msToProcess`. */
  lemma TrackingReceivesRankedCandidates<S, T>(args: Args, defaults: Defaults, env: Env<S, T>, disk: Disk<T>)
    ensures forall e :: e in Run(args, defaults, env, disk).trace && e.Tracked? ==>
              Ranked(args, defaults, env, disk).Some? &&
              e == Tracked(Ranked(args, defaults, env, disk).value, 37000)
  {
    RunConforms(args, defaults, env, disk);
    ConformingTrackingCalls(Run(args, defaults, env, disk).trace, args, env, Ranked(args, defaults, env, disk));
  }

  /** Without the skip flag, a run with candidates reads `msToProcess + 22`
      milliseconds of samples and calls the tracking engine on them. */
  lemma TrackingRunsUnlessSkipped<S, T>(args: Args, defaults: Defaults, env: Env<S, T>, disk: Disk<T>)
    requires Ranked(args, defaults, env, disk).Some? && !args.skipTracking
    ensures SamplesLoaded(Tracking, args.file, env.samplesForMs(37022), SKIP_NUMBER_OF_BYTES,
                          args.fileFormat) in Run(args, defaults, env, disk).trace
    ensures Tracked(Ranked(args, defaults, env, disk).value, 37000) in Run(args, defaults, env, disk).trace
  {
    var ranked := Ranked(args, defaults, env, disk);
    RunShape(args, defaults, env, disk);
    var a := AcquisitionStep(args, env, disk, RunSettings(defaults, args.file));
    var t := TrackingStep(args, env, a.disk, RunSettings(defaults, args.file), ranked.value);
    AfterTrackingFrame(args, defaults, env, a.log, t);
    var r := AfterTracking(args, defaults, env, a.log, t);
    assert r.trace[|a.log|] == t.log[0] && r.trace[|a.log| + 1] == t.log[1];
  }

  /** With tracking skipped, no samples are read for tracking and the
      tracking engine is not called. */
  lemma SkippedTrackingComputesNothing<S, T>(args: Args, defaults: Defaults, env: Env<S, T>, disk: Disk<T>)
    requires args.skipTracking
    ensures forall e :: e in Run(args, defaults, env, disk).trace ==>
              !e.Tracked? && !(e.SamplesLoaded? && e.forStage == Tracking)
  {
    RunConforms(args, defaults, env, disk);
    ConformingSampleWindows(Run(args, defaults, env, disk).trace, args, env, Ranked(args, defaults, env, disk));
  }

  /** What acquisition leaves of the later stages' checkpoints, and when
      tracking has no result. */
  lemma StepFrames<S, T>(args: Args, defaults: Defaults, env: Env<S, T>, disk: Disk<T>, candidates: seq<AcqResult>)
    ensures AcquisitionStep(args, env, disk, RunSettings(defaults, args.file)).disk.trackFiles == disk.trackFiles
    ensures AcquisitionStep(args, env, disk, RunSettings(defaults, args.file)).disk.navFiles == disk.navFiles
    ensures TrackingStep(args, env, disk, RunSettings(defaults, args.file), candidates).disk.navFiles == disk.navFiles
    ensures TrackingStep(args, env, disk, RunSettings(defaults, args.file), candidates).output.None? <==>
              args.skipTracking && CheckpointName(args.file, Tracking) !in disk.trackFiles
  {
  }

  /** A missing tracking checkpoint under resume ends the run with status 1
      before navigation. */
  lemma MissingTrackingCheckpointExits<S, T>(args: Args, defaults: Defaults, env: Env<S, T>, disk: Disk<T>)
    ensures Run(args, defaults, env, disk).out == Exit(TrackCheckpointMissing) <==>
              Ranked(args, defaults, env, disk).Some? && args.skipTracking &&
              CheckpointName(args.file, Tracking) !in disk.trackFiles
    ensures Run(args, defaults, env, disk).out == Exit(TrackCheckpointMissing) ==>
              !Touches(Run(args, defaults, env, disk).trace, Navigation)
  {
    RunShape(args, defaults, env, disk);
    var ranked := Ranked(args, defaults, env, disk);
    if ranked.Some? {
      var a := AcquisitionStep(args, env, disk, RunSettings(defaults, args.file));
      StepFrames(args, defaults, env, disk, ranked.value);
      StepFrames(args, defaults, env, a.disk, ranked.value);
      AcquisitionLogConforms(args, defaults, env, disk, ranked);
      TrackingLogConforms(args, defaults, env, a.disk, ranked.value);
    }
  }

  /** How the navigation stage ends a run that got past tracking. */
  lemma AfterTrackingNavigation<S, T>(args: Args, defaults: Defaults, env: Env<S, T>, log: seq<Event>, t: Step<T, T>)
    requires Navigated !in log && Navigated !in t.log
    ensures var name := CheckpointName(args.file, Navigation);
            var r := AfterTracking(args, defaults, env, log, t);
            && (Navigated in r.trace <==> t.output.Some? && !args.skipNavigation)
            && (r.out == Completed <==> t.output.Some? && (args.skipNavigation || env.writable(name)))
            && (r.out == UncaughtIOError(name) <==> t.output.Some? && !args.skipNavigation && !env.writable(name))
            && r.disk.navFiles ==
                 if t.output.Some? && !args.skipNavigation && env.writable(name)
                 then t.disk.navFiles[name := Reduced(env.navigate(t.output.value, RunSettings(defaults, args.file)))]
                 else t.disk.navFiles
  {
    if t.output.Some? && !args.skipNavigation {
      var n := NavigationStep(args, env, t.disk, RunSettings(defaults, args.file), t.output.value);
      assert AfterTracking(args, defaults, env, log, t).trace[|log| + |t.log|] == n.log[0];
    }
  }

  /** The logs of acquisition and tracking hold no navigation. */
  lemma NoNavigationBeforeTracking<S, T>(args: Args, defaults: Defaults, env: Env<S, T>, disk: Disk<T>, candidates: seq<AcqResult>)
    ensures Navigated !in AcquisitionStep(args, env, disk, RunSettings(defaults, args.file)).log
    ensures Navigated !in TrackingStep(args, env, disk, RunSettings(defaults, args.file), candidates).log
  {
    AcquisitionLogConforms(args, defaults, env, disk, None);
    TrackingLogConforms(args, defaults, env, disk, candidates);
  }

  /** Navigation runs exactly when tracking produced a result and it is
      not skipped, and the navigation checkpoint then holds the reduced
      solutions if it could be written. */
  lemma NavigationRunsUnlessSkipped<S, T>(args: Args, defaults: Defaults, env: Env<S, T>, disk: Disk<T>)
    ensures Navigated in Run(args, defaults, env, disk).trace <==>
              TrackResult(args, defaults, env, disk).Some? && !args.skipNavigation
    ensures var name := CheckpointName(args.file, Navigation);
            Run(args, defaults, env, disk).disk.navFiles ==
              if TrackResult(args, defaults, env, disk).Some? && !args.skipNavigation && env.writable(name)
              then disk.navFiles[name := Reduced(env.navigate(TrackResult(args, defaults, env, disk).value,
                                                              RunSettings(defaults, args.file)))]
              else disk.navFiles
  {
    var ranked := Ranked(args, defaults, env, disk);
    var a := AcquisitionStep(args, env, disk, RunSettings(defaults, args.file));
    RunShape(args, defaults, env, disk);
    NoNavigationBeforeTracking(args, defaults, env, disk, []);
    if ranked.Some? {
      var t := TrackingStep(args, env, a.disk, RunSettings(defaults, args.file), ranked.value);
      NoNavigationBeforeTracking(args, defaults, env, a.disk, ranked.value);
      StepFrames(args, defaults, env, disk, ranked.value);
      StepFrames(args, defaults, env, a.disk, ranked.value);
      AfterTrackingNavigation(args, defaults, env, a.log, t);
    } else {
      StepFrames(args, defaults, env, disk, []);
    }
  }

  /** A run that gets a tracking result completes, unless the navigation
      checkpoint, whose save is not guarded, cannot be written. */
  lemma RunCompletesUnlessNavigationSaveFails<S, T>(args: Args, defaults: Defaults, env: Env<S, T>, disk: Disk<T>)
    ensures var name := CheckpointName(args.file, Navigation);
            Run(args, defaults, env, disk).out == Completed <==>
              TrackResult(args, defaults, env, disk).Some? && (args.skipNavigation || env.writable(name))
    ensures var name := CheckpointName(args.file, Navigation);
            Run(args, defaults, env, disk).out == UncaughtIOError(name) <==>
              TrackResult(args, defaults, env, disk).Some? && !args.skipNavigation && !env.writable(name)
  {
    var ranked := Ranked(args, defaults, env, disk);
    RunShape(args, defaults, env, disk);
    if ranked.Some? {
      var a := AcquisitionStep(args, env, disk, RunSettings(defaults, args.file));
      var t := TrackingStep(args, env, a.disk, RunSettings(defaults, args.file), ranked.value);
      NoNavigationBeforeTracking(args, defaults, env, a.disk, ranked.value);
      NoNavigationBeforeTracking(args, defaults, env, disk, ranked.value);
      AfterTrackingNavigation(args, defaults, env, a.log, t);
    }
  }

  /** Acquisition and tracking do not depend on whether their checkpoints
      could be saved. */
  lemma AcquisitionIgnoresSaves<S, T>(args: Args, defaults: Defaults, env: Env<S, T>, disk: Disk<T>, writable: string -> bool)
    ensures var a1, a2 := AcquisitionStep(args, env, disk, RunSettings(defaults, args.file)), AcquisitionStep(args, env.(writable := writable), disk, RunSettings(defaults, args.file));
            && a2.output == a1.output
            && a2.disk.trackFiles == a1.disk.trackFiles
            && a2.disk.navFiles == a1.disk.navFiles
  {
  }

  lemma TrackingIgnoresSaves<S, T>(args: Args, defaults: Defaults, env: Env<S, T>, disk1: Disk<T>, disk2: Disk<T>,
                                   candidates: seq<AcqResult>, writable: string -> bool)
    requires disk1.trackFiles == disk2.trackFiles
    ensures TrackingStep(args, env.(writable := writable), disk2, RunSettings(defaults, args.file), candidates).output ==
            TrackingStep(args, env, disk1, RunSettings(defaults, args.file), candidates).output
  {
  }

  lemma StagesIgnoreSaves<S, T>(args: Args, defaults: Defaults, env: Env<S, T>, disk: Disk<T>, writable: string -> bool)
    ensures var env2 := env.(writable := writable);
            && Ranked(args, defaults, env2, disk) == Ranked(args, defaults, env, disk)
            && TrackResult(args, defaults, env2, disk) == TrackResult(args, defaults, env, disk)
  {
    var env2 := env.(writable := writable);
    AcquisitionIgnoresSaves(args, defaults, env, disk, writable);
    var a1, a2 := AcquisitionStep(args, env, disk, RunSettings(defaults, args.file)), AcquisitionStep(args, env2, disk, RunSettings(defaults, args.file));
    var ranked := Ranked(args, defaults, env, disk);
    if ranked.Some? {
      TrackingIgnoresSaves(args, defaults, env, a1.disk, a2.disk, ranked.value, writable);
    }
  }

  /** Without the skip flag, a run with candidates tracks them afresh and
      the tracking checkpoint then holds that result exactly when the file
      could be written. */
  lemma FreshTrackingSaves<S, T>(args: Args, defaults: Defaults, env: Env<S, T>, disk: Disk<T>)
    requires Ranked(args, defaults, env, disk).Some? && !args.skipTracking
    ensures var name := CheckpointName(args.file, Tracking);
            var a := AcquisitionStep(args, env, disk, RunSettings(defaults, args.file));
            var tracked := FreshTracking(args, env, RunSettings(defaults, args.file), Ranked(args, defaults, env, disk).value);
            && TrackResult(args, defaults, env, disk) == Some(tracked)
            && Run(args, defaults, env, disk).disk.trackFiles ==
                 if env.writable(name) then a.disk.trackFiles[name := tracked] else a.disk.trackFiles
  {
    RunShape(args, defaults, env, disk);
    var a := AcquisitionStep(args, env, disk, RunSettings(defaults, args.file));
    AfterTrackingFrame(args, defaults, env, a.log,
                       TrackingStep(args, env, a.disk, RunSettings(defaults, args.file), Ranked(args, defaults, env, disk).value));
  }

  /** A failed save of the acquisition or tracking checkpoint is only
      logged: whatever the file system accepts, apart from the navigation
      checkpoint, the tracking engine gets the same candidates, navigation
      the same tracking results, and the run ends the same way with the
      same navigation checkpoints. */
  lemma CheckpointSaveFailureIsNotFatal<S, T>(args: Args, defaults: Defaults, env: Env<S, T>, disk: Disk<T>,
                                              writable: string -> bool)
    requires writable(CheckpointName(args.file, Navigation)) == env.writable(CheckpointName(args.file, Navigation))
    ensures var env2 := env.(writable := writable);
            var r1, r2 := Run(args, defaults, env, disk), Run(args, defaults, env2, disk);
            && Ranked(args, defaults, env2, disk) == Ranked(args, defaults, env, disk)
            && TrackResult(args, defaults, env2, disk) == TrackResult(args, defaults, env, disk)
            && r2.out == r1.out
            && r2.disk.navFiles == r1.disk.navFiles
  {
    var env2 := env.(writable := writable);
    StagesIgnoreSaves(args, defaults, env, disk, writable);
    NavigationRunsUnlessSkipped(args, defaults, env, disk);
    NavigationRunsUnlessSkipped(args, defaults, env2, disk);
    NoCandidatesStopsBeforeTracking(args, defaults, env, disk);
    NoCandidatesStopsBeforeTracking(args, defaults, env2, disk);
    MissingAcquisitionCheckpointExits(args, defaults, env, disk);
    MissingAcquisitionCheckpointExits(args, defaults, env2, disk);
    RunCompletesUnlessNavigationSaveFails(args, defaults, env, disk);
    RunCompletesUnlessNavigationSaveFails(args, defaults, env2, disk);
    MissingTrackingCheckpointExits(args, defaults, env, disk);
    MissingTrackingCheckpointExits(args, defaults, env2, disk);
    var a1, a2 := AcquisitionStep(args, env, disk, RunSettings(defaults, args.file)), AcquisitionStep(args, env2, disk, RunSettings(defaults, args.file));
    assert a1.output == a2.output;
  }

  /** Re-running navigation over the checkpoints it has just written finds
      them as it left them. */
  lemma ResumedNavigationIdempotent<S, T>(args1: Args, args2: Args, defaults: Defaults, env: Env<S, T>,
                                          log1: seq<Event>, log2: seq<Event>, t1: Step<T, T>, t2: Step<T, T>)
    requires args1.file == args2.file && args1.skipNavigation == args2.skipNavigation
    requires t1.output == t2.output
    requires t2.disk == AfterTracking(args1, defaults, env, log1, t1).disk
    ensures AfterTracking(args2, defaults, env, log2, t2).out == AfterTracking(args1, defaults, env, log1, t1).out
    ensures AfterTracking(args2, defaults, env, log2, t2).disk == t2.disk
  {
    if t1.output.Some? && !args1.skipNavigation {
      var settings := RunSettings(defaults, args1.file);
      var n1 := NavigationStep(args1, env, t1.disk, settings, t1.output.value);
      var n2 := NavigationStep(args2, env, t2.disk, settings, t2.output.value);
      var name := CheckpointName(args1.file, Navigation);
      if env.writable(name) {
        assert t2.disk.navFiles[name := n2.output.value] == t2.disk.navFiles;
      }
    }
  }

  /** Resuming both stages from the checkpoints a fresh run has just saved
      changes nothing: the resumed run ends the same way and leaves the file
      system as the fresh run left it. */
  lemma ResumeFromOwnCheckpointsReproducesRun<S, T>(args: Args, defaults: Defaults, env: Env<S, T>, disk: Disk<T>)
    requires !args.skipAcquisition && !args.skipTracking
    requires env.writable(CheckpointName(args.file, Acquisition))
    requires env.writable(CheckpointName(args.file, Tracking))
    ensures var r1 := Run(args, defaults, env, disk);
            var args2 := args.(skipAcquisition := true, skipTracking := true);
            var r2 := Run(args2, defaults, env, r1.disk);
            && Ranked(args2, defaults, env, r1.disk) == Ranked(args, defaults, env, disk)
            && TrackResult(args2, defaults, env, r1.disk) == TrackResult(args, defaults, env, disk)
            && r2.out == r1.out && r2.disk == r1.disk
  {
    var args2 := args.(skipAcquisition := true, skipTracking := true);
    var r1 := Run(args, defaults, env, disk);
    var a1 := AcquisitionStep(args, env, disk, RunSettings(defaults, args.file));
    AfterAcquisitionFrame(args, defaults, env, a1);
    var a2 := AcquisitionStep(args2, env, r1.disk, RunSettings(defaults, args2.file));
    assert a2.output == a1.output && a2.disk == r1.disk;
    var ranked := SelectCandidates(a1.output.value);
    if ranked.Some? {
      var t1 := TrackingStep(args, env, a1.disk, RunSettings(defaults, args.file), ranked.value);
      AfterTrackingFrame(args, defaults, env, a1.log, t1);
      var t2 := TrackingStep(args2, env, a2.disk, RunSettings(defaults, args2.file), ranked.value);
      assert t2.output == t1.output && t2.disk == r1.disk;
      ResumedNavigationIdempotent(args, args2, defaults, env, a1.log, a2.log, t1, t2);
    }
  }
}
