/** The run settings record of the receiver (peregrine/initSettings.py) and
    the one change the driver makes to it before processing starts. */
module Settings {
  import opened Wrappers

  /** Processing duration in milliseconds. */
  const MS_TO_PROCESS: nat := 37000

  /** Bytes skipped at the head of the raw sample file before any read. */
  const SKIP_NUMBER_OF_BYTES: nat := 1000 + 16368 * 87

  /** The receiver-wide defaults the settings copy. Their values live in a
      module that is not part of this model, so they are a parameter here. */
  datatype Defaults = Defaults(
    IF: real,
    samplingFreq: real,
    chippingRate: real,
    codeLength: nat)

  /** A value snapshot of an `InitSettings` object, as handed to the
      navigation engine. */
  datatype SettingsRecord = SettingsRecord(
    msToProcess: nat,
    skipNumberOfBytes: nat,
    IF: real,
    samplingFreq: real,
    codeFreqBasis: real,
    codeLength: nat,
    fileName: Option<string>)

  /** The settings object after construction from `defaults` and after the
      driver has stored the sample file path in it. */
  function RunSettings(defaults: Defaults, path: string): SettingsRecord {
    SettingsRecord(MS_TO_PROCESS, SKIP_NUMBER_OF_BYTES, defaults.IF,
             defaults.samplingFreq, defaults.chippingRate, defaults.codeLength,
             Some(path))
  }

  /** The mutable settings object. `fileName` is absent (`None`) until the
      driver assigns it. */
  class InitSettings {
    var msToProcess: nat
    var skipNumberOfBytes: nat
    var IF: real
    var samplingFreq: real
    var codeFreqBasis: real
    var codeLength: nat
    var fileName: Option<string>

    /** Fills in the six fields; two are fixed constants, four are copied
        from the defaults. No file name is set. */
    constructor (defaults: Defaults)
      ensures msToProcess == 37000
      ensures skipNumberOfBytes == 1425016
      ensures IF == defaults.IF
      ensures samplingFreq == defaults.samplingFreq
      ensures codeFreqBasis == defaults.chippingRate
      ensures codeLength == defaults.codeLength
      ensures fileName == None
    {
      msToProcess := MS_TO_PROCESS;
      skipNumberOfBytes := SKIP_NUMBER_OF_BYTES;
      IF := defaults.IF;
      samplingFreq := defaults.samplingFreq;
      codeFreqBasis := defaults.chippingRate;
      codeLength := defaults.codeLength;
      fileName := None;
    }

    /** The current field values as a record. */
    function Snapshot(): SettingsRecord
      reads this
    {
      SettingsRecord(msToProcess, skipNumberOfBytes, IF, samplingFreq,
               codeFreqBasis, codeLength, fileName)
    }

    /** Records the sample file path; every other field keeps its value. */
    method SetFileName(path: string)
      modifies this`fileName
      ensures fileName == Some(path)
      ensures Snapshot() == old(Snapshot()).(fileName := Some(path))
    {
      fileName := Some(path);
    }
  }
}
