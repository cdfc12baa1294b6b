# Peregrine receiver driver, modelled in Dafny

Peregrine is a software GNSS receiver. Its driver, `main` in
`peregrine/run.py`, processes one recorded raw-sample file in three stages:

1. acquisition;
2. tracking of the acquired satellites;
3. navigation.

Each of the first two stages either resumes from a checkpoint file named
after the sample file (`<file>.acq_results`, `<file>.track_results`) or
computes its result and tries to save it. Before tracking, the driver keeps
only the satellites whose status is `'A'` and ranks them by SNR, highest
first, with a stable sort. It calls `sys.exit(1)` in three cases:

- the acquisition checkpoint is missing under resume;
- no satellite is acquired;
- the tracking checkpoint is missing under resume.

Navigation runs unless it is skipped, and its result is written to
`<file>.nav_results`. That save is not guarded: when the file cannot be
written, the run ends with an uncaught `IOError`. The run parameters come from the settings object
built in `peregrine/initSettings.py`. The driver stores the sample file
name in that object.

The model has these modules:

- `Settings` (settings.dfy): the settings object, a class whose
  constructor fills in the fixed constants and copies the defaults. Its
  `SetFileName` method changes only `fileName`.
- `Selector` (selector.dfy): the candidate selector. It is a filter plus a
  stable, descending insertion sort by SNR. The properties proved are:
  - the filter keeps exactly the acquired entries, in order;
  - the sort returns a permutation, ordered by non-increasing SNR and
    stable;
  - any sort with those three properties gives the same list.
- `Checkpoints` (checkpoints.dfy): the checkpoint file names and the
  checkpoint store. The store is modelled as one map per stage, from file
  name to content. A name missing from its map is a file that cannot be
  opened.
- `Pipeline` (pipeline.dfy): the driver.
  - A specification function `Run` gives, for any command line,
    environment and store: the outcome, the trace of everything the driver
    did, and the store afterwards.
  - The imperative `RunPipeline` follows `main` step by step. It works on
    the settings object and the stage methods, and is proved equal to
    `Run`.
  - The sample loader, the three numeric engines, the two sample counts
    the driver computes in floating point, and whether a file can be
    written are opaque parameters, collected in `Env`.
- `PipelineProperties` (pipeline_properties.dfy): what every run
  guarantees. This covers checkpoint names, sample windows, what a skip
  flag prevents, the three exits, what the tracking engine receives, when
  navigation runs and what it writes, that a failed checkpoint save is
  harmless, and that resuming from freshly saved checkpoints reproduces
  the run.

## Model

| member | source | states |
|---|---|---|
| Settings.InitSettings.constructor | peregrine/initSettings.py:13-20 | msToProcess is 37000 and skipNumberOfBytes is 1000 + 16368 * 87; IF, samplingFreq, codeFreqBasis and codeLength are copied from the defaults; no file name is set yet |
| Settings.InitSettings.SetFileName | peregrine/run.py:49 | the settings now hold the sample file path, and every other field keeps its value |
| Selector.FilterAcquired | peregrine/run.py:80 | the result holds exactly the input entries whose status is 'A', and is no longer than the input; it is empty exactly when no input entry is acquired |
| Selector.FilterCounts | peregrine/run.py:80 | every acquired entry occurs in the result as many times as in the input, and no other entry occurs |
| Selector.FilterIsSubsequence | peregrine/run.py:80 | the kept entries appear in their input order |
| Selector.FilterKeepsAcquiredOnly | peregrine/run.py:80 | filtering leaves the list unchanged exactly when every entry is acquired |
| Selector.InsertBySnr | peregrine/run.py:86 | the insertion holds the entries of the list plus the new entry (same multiset) |
| Selector.SortBySnr | peregrine/run.py:86 | the result is a permutation of the input (same multiset), ordered by non-increasing SNR |
| Selector.InsertKeepsSorted | peregrine/run.py:86 | inserting into a list ordered by non-increasing SNR keeps it ordered |
| Selector.InsertStable | peregrine/run.py:86 | an insertion places the new entry before the existing entries of equal SNR and changes the order of no other SNR group |
| Selector.SortStable | peregrine/run.py:86 | the sort is stable: for every SNR value, the entries with that SNR keep their input order |
| Selector.StableSortUnique | peregrine/run.py:86 | two permutations of the same entries that are both ordered by non-increasing SNR and agree on the order within every SNR group are equal |
| Selector.SortBySnrIsTheStableSort | peregrine/run.py:86 | every stable descending sort by SNR of a list yields exactly SortBySnr of it |
| Selector.SelectCandidates | peregrine/run.py:80-86 | no candidates (the exit case) exactly when no entry is acquired; otherwise a nonempty list holding exactly the acquired entries, each as many times as in the input, ordered by non-increasing SNR, with equal-SNR entries in input order |
| Checkpoints.CheckpointNameParts | peregrine/run.py:55 | a checkpoint name is the sample path followed by the stage's suffix |
| Checkpoints.CheckpointNameNotInput | peregrine/run.py:55 | a checkpoint name is never the sample file's own name |
| Checkpoints.CheckpointNamesDistinct | peregrine/run.py:55-114 | the acquisition, tracking and navigation checkpoints of one sample file are three different files |
| Checkpoints.CheckpointNameInjective | peregrine/run.py:89 | different sample files never share a checkpoint file of one stage |
| Pipeline.ReduceSolutions | peregrine/run.py:117-119 | one (time, position, velocity) record per navigation solution, in solution order |
| Pipeline.AcquisitionStage | peregrine/run.py:55-77 | the acquisition stage computes AcquisitionStep over the settings object's current values: under resume, the checkpoint's contents, or nothing when it cannot be opened; otherwise it acquires on 11 code periods read after the settings' skipNumberOfBytes, and keeps the results whether or not the save succeeds |
| Pipeline.TrackingStage | peregrine/run.py:89-111 | the tracking stage computes TrackingStep over the settings object's current values: the tracking checkpoint under resume, otherwise it tracks the candidates over the settings' msToProcess + 22 ms of samples with msToProcess, and saves the result when possible |
| Pipeline.NavigationStage | peregrine/run.py:114-122 | the navigation stage computes NavigationStep: it navigates on the tracking result and the settings, writes the reduced records, and fails when the file cannot be written |
| Pipeline.RunPipeline | peregrine/run.py:49-122 | the imperative driver ends, traces and leaves the store exactly as the specification Run does |
| PipelineProperties.RunConforms | peregrine/run.py:55-122 | every event of every run conforms to the command line and the environment (all the trace properties below in one predicate) |
| PipelineProperties.RunUsesCheckpointNames | peregrine/run.py:55-120 | every checkpoint a run opens or writes is named file + the stage's suffix; the navigation checkpoint is never read |
| PipelineProperties.RunReadsSampleWindows | peregrine/run.py:65-103 | every sample read uses the input file, skipNumberOfBytes and the chosen format; acquisition reads 11 × samplesPerCode samples and tracking reads the count for msToProcess + 22 ms |
| PipelineProperties.SkippedAcquisitionComputesNothing | peregrine/run.py:56-63 | with --skip-acquisition, no acquisition samples are read and the acquisition engine is not called |
| PipelineProperties.MissingAcquisitionCheckpointExits | peregrine/run.py:58-63 | the run exits for a missing acquisition checkpoint exactly when resuming acquisition with no readable checkpoint, having only attempted that open and changed no file |
| PipelineProperties.FreshAcquisitionStartsRun | peregrine/run.py:64-77 | without the flag, a run begins by reading samples, acquiring and trying the save; the acquisition checkpoint then holds the fresh results exactly when it was writable |
| PipelineProperties.NoCandidatesStopsBeforeTracking | peregrine/run.py:80-84 | the run exits for no satellites exactly when acquisition produced results and none is acquired; it then does nothing of tracking or navigation and touches neither stage's checkpoints |
| PipelineProperties.TrackingReceivesRankedCandidates | peregrine/run.py:86-104 | every call of the tracking engine receives exactly the selected, ranked candidates and msToProcess = 37000 |
| PipelineProperties.TrackingRunsUnlessSkipped | peregrine/run.py:99-104 | without --skip-tracking, a run with candidates reads msToProcess + 22 ms of samples and tracks the ranked candidates |
| PipelineProperties.SkippedTrackingComputesNothing | peregrine/run.py:90-98 | with --skip-tracking, no tracking samples are read and the tracking engine is not called |
| PipelineProperties.MissingTrackingCheckpointExits | peregrine/run.py:92-98 | the run exits for a missing tracking checkpoint exactly when it got candidates, resumes tracking and the checkpoint cannot be opened; navigation then does not run |
| PipelineProperties.FreshTrackingSaves | peregrine/run.py:99-111 | without --skip-tracking, a run with candidates tracks them afresh; the tracking checkpoint then holds that result exactly when it was writable and is untouched otherwise |
| PipelineProperties.NavigationRunsUnlessSkipped | peregrine/run.py:113-121 | navigation runs exactly when tracking produced a result and --skip-navigation is absent; the navigation checkpoint then holds the reduced solutions if writable, and is untouched otherwise |
| PipelineProperties.RunCompletesUnlessNavigationSaveFails | peregrine/run.py:115-122 | a run with a tracking result completes unless navigation runs and its file cannot be written, which ends the run with an uncaught I/O error |
| PipelineProperties.CheckpointSaveFailureIsNotFatal | peregrine/run.py:72-111 | whether the acquisition and tracking checkpoints can be saved changes neither the candidates, the tracking result, the outcome, nor the navigation checkpoints |
| PipelineProperties.ResumeFromOwnCheckpointsReproducesRun | peregrine/run.py:55-111 | re-running with both resume flags on the store a fresh run left (both saves succeeded) ranks the same candidates, obtains the same tracking result, ends the same way and leaves the store as it was |

## Left out

- Argument parsing, logging and log messages are not modelled. The
  command line is the `Args` record.
- `sys.exit(1)` is modelled as the outcome `Exit`, which carries the
  reason; nothing after it runs.
- The uncaught `IOError` of the navigation save is the outcome
  `UncaughtIOError`. The Python process ends with a traceback.
- The values of the `defaults` module are not part of this model. They are
  a `Defaults` parameter.
- The sample loader, the acquisition, tracking and navigation engines, and
  the file format are opaque functions. Their internals are not part of
  this model.
- The driver computes two numbers in floating point:
  `int(round(samplingFreq / (codeFreqBasis / codeLength)))` and
  `int(samplingFreq * 1e-3 * (msToProcess + 22))`. The model takes both
  from the environment (`samplesPerCode`, `samplesForMs`) and does not
  model the rounding.
- SNRs are real numbers. A NaN SNR, which makes the Python sort's order
  unspecified, is not modelled.
- Pickling is not modelled. A checkpoint holds the value that was saved,
  and its contents are never validated, matching the source.
- A loaded acquisition checkpoint can raise errors other than `IOError`.
  These are not modelled.
- A failed save leaves the store unchanged. A real `open(..., 'wb')` that
  succeeds before the dump fails would leave a truncated file. Whether a
  file can be written is one boolean per name.
- The list comprehension and the in-place `sort` on lines 80 and 86 are modelled
  on values (`FilterAcquired`, `SortBySnr`). Aliasing of the Python list
  is not captured. Nothing else holds a reference to it.
- Ties in SNR keep their input order, so the ranking is non-increasing,
  not strictly decreasing.
- The navigation save is not guarded: its I/O error ends the run uncaught.
- `--skip-navigation` omits the stage and reads no saved result, although
  the flag's help text (run.py:43) says "use previously saved navigation
  results".
