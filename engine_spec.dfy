/**
 * Reference definition of the recording engine (CallRecorderService): its state,
 * the platform outcomes it reacts to, and what one start or one stop does to that
 * state, written as functions. The class in module Engine is proved to follow it;
 * the lemmas here state what the engine promises.
 *
 * MediaRecorder objects are abstract handles (natural numbers); `live` holds the
 * handles that were created and not yet released. The MediaStore catalog is a map
 * from entry id to its state. `trials` records, in order, every audio source the
 * engine asked a recorder to use.
 */
module EngineSpec {
  import opened Wrappers
  import JavaText

  // MediaRecorder.AudioSource values
  const MIC: int := 1
  const VOICE_RECOGNITION: int := 6
  const VOICE_COMMUNICATION: int := 7

  // Build.VERSION_CODES
  const SDK_Q: int := 29
  const SDK_S: int := 31

  /**
   * The order in which the engine offers audio sources to a recorder: the one chosen
   * by platform tier (VOICE_RECOGNITION from Android 12, VOICE_COMMUNICATION on
   * Android 10 and 11, the configured resource value below that), then
   * VOICE_RECOGNITION, then MIC.
   */
  function SourceChain(sdk: int, configured: int): (chain: seq<int>)
    ensures |chain| == 3 && chain[1] == VOICE_RECOGNITION && chain[2] == MIC
    ensures chain[0] == (if sdk >= SDK_S then VOICE_RECOGNITION
                         else if sdk >= SDK_Q then VOICE_COMMUNICATION
                         else configured)
  {
    [PrimaryAudioSource(sdk, configured), VOICE_RECOGNITION, MIC]
  }

  /** getAudioSource: the preferred source for the platform tier. */
  function PrimaryAudioSource(sdk: int, configured: int): int {
    if sdk >= SDK_S then VOICE_RECOGNITION
    else if sdk >= SDK_Q then VOICE_COMMUNICATION
    else configured
  }

  /** Index of the first candidate the platform accepts, or |chain| when it accepts none. */
  function FirstAccepted(chain: seq<int>, accepted: set<int>): (k: nat)
    ensures k <= |chain|
    ensures forall j | 0 <= j < k :: chain[j] !in accepted
    ensures k < |chain| ==> chain[k] in accepted
  {
    if |chain| == 0 then 0
    else if chain[0] in accepted then 0
    else 1 + FirstAccepted(chain[1..], accepted)
  }

  // ---------------------------------------------------------------------------
  // Output format preference

  predicate IsDigit(c: char) { '0' <= c <= '9' }

  predicate AllDigits(s: string) { forall i | 0 <= i < |s| :: IsDigit(s[i]) }

  function DigitsValue(s: string): nat
    requires AllDigits(s)
  {
    if |s| == 0 then 0 else DigitsValue(s[..|s| - 1]) * 10 + (s[|s| - 1] as int - '0' as int)
  }

  const INT_MIN: int := -0x8000_0000
  const INT_MAX: int := 0x7fff_ffff

  /**
   * Integer.parseInt over ASCII digits: an optional '+' or '-', at least one digit,
   * and a value that fits a 32-bit int; anything else is a NumberFormatException (None).
   */
  function ParseInt(s: string): (r: Option<int>)
    ensures r.Some? ==> INT_MIN <= r.value <= INT_MAX
    ensures s == "" ==> r.None?
  {
    var signed := |s| > 0 && (s[0] == '-' || s[0] == '+');
    var digits := if signed then s[1..] else s;
    if |digits| == 0 || !AllDigits(digits) then None
    else
      var v: int := if signed && s[0] == '-' then 0 - DigitsValue(digits) as int else DigitsValue(digits) as int;
      if INT_MIN <= v <= INT_MAX then Some(v) else None
  }

  /** Decimal rendering of a natural number, the form in which the preference is stored. */
  function Decimal(n: nat): (s: string)
    ensures |s| >= 1 && AllDigits(s) && s[0] != '-' && s[0] != '+'
  {
    if n < 10 then [('0' as int + n) as char]
    else Decimal(n / 10) + [('0' as int + n % 10) as char]
  }

  lemma {:induction false} DecimalValue(n: nat)
    ensures DigitsValue(Decimal(n)) == n
  {
    if n >= 10 {
      var s := Decimal(n);
      DecimalValue(n / 10);
      assert s[..|s| - 1] == Decimal(n / 10);
    }
  }

  /** A preference written as a decimal number in int range is read back as that number. */
  lemma ParseIntDecimal(n: nat)
    requires n <= INT_MAX
    ensures ParseInt(Decimal(n)) == Some(n)
  {
    DecimalValue(n);
  }

  /**
   * getAudioFormatChoice: the stored preference parsed as an int; a missing or
   * unparsable preference gives 0.
   */
  function FormatChoice(pref: Option<string>): (choice: int)
    ensures pref.None? ==> choice == 0
    ensures pref.Some? && ParseInt(pref.value).None? ==> choice == 0
    ensures pref.Some? && ParseInt(pref.value).Some? ==> choice == ParseInt(pref.value).value
  {
    match pref
    case None => 0
    case Some(s) => ParseInt(s).GetOr(0)
  }

  datatype OutputFormat = AmrWbFormat | Mpeg4
  datatype AudioEncoder = AmrWbEncoder | Aac
  datatype FormatConfig = FormatConfig(
    format: OutputFormat, encoder: AudioEncoder, bitRate: Option<int>, samplingRate: Option<int>)

  /** The recorder configuration for a format choice: 0 is AMR-WB, anything else AAC in MPEG-4. */
  function FormatFor(choice: int): (cfg: FormatConfig)
    ensures choice == 0 <==> cfg.format == AmrWbFormat
    ensures cfg.format == AmrWbFormat <==> cfg.encoder == AmrWbEncoder
    ensures cfg.encoder == AmrWbEncoder ==> cfg.bitRate.None? && cfg.samplingRate.None?
    ensures cfg.encoder == Aac ==> cfg.bitRate == Some(128000) && cfg.samplingRate == Some(44100)
  {
    if choice == 0 then FormatConfig(AmrWbFormat, AmrWbEncoder, None, None)
    else FormatConfig(Mpeg4, Aac, Some(128000), Some(44100))
  }

  function Extension(choice: int): string {
    if choice == 0 then ".amr" else ".m4a"
  }

  /** The number part of a file name: the number, or "unknown" when it is null or empty. */
  function NumberPart(number: Option<string>): (part: string)
    ensures |part| > 0
  {
    if JavaText.IsEmpty(number) then "unknown" else number.value
  }

  /** generateFilename: number part, '_', the formatted timestamp, and the extension of the format choice. */
  function FileName(number: Option<string>, timestamp: string, choice: int): string {
    NumberPart(number) + "_" + timestamp + Extension(choice)
  }

  /** Length of a timestamp in the pattern "yyMMdd_HHmmssSSS". */
  const TIMESTAMP_LENGTH: nat := 16

  /**
   * A file name can be taken apart again: its last four characters are the extension,
   * which says ".amr" exactly for format choice 0 (the AMR-WB container), and with a
   * timestamp of the fixed pattern length, what precedes "_" + timestamp is the number part.
   */
  lemma FileNameDecodes(number: Option<string>, timestamp: string, choice: int)
    requires |timestamp| == TIMESTAMP_LENGTH
    ensures var name := FileName(number, timestamp, choice);
      && |name| == |NumberPart(number)| + 1 + TIMESTAMP_LENGTH + 4
      && name[..|name| - 21] == NumberPart(number)
      && name[|name| - 21] == '_'
      && name[|name| - 20..|name| - 4] == timestamp
      && (name[|name| - 4..] == ".amr" <==> FormatFor(choice).format == AmrWbFormat)
  {
    var name := FileName(number, timestamp, choice);
    var p := NumberPart(number);
    assert name == p + "_" + timestamp + Extension(choice);
    assert name[|name| - 4..] == Extension(choice);
    assert name[..|name| - 21] == p;
  }

  // ---------------------------------------------------------------------------
  // Engine state and platform outcomes

  datatype EntryState = Pending | Completed

  /** CallRecording: what the engine knows about one capture. */
  datatype CallRecording = CallRecording(
    phoneNumber: Option<string>, creationTime: int, fileName: string,
    startRecordingTime: int, mediaId: nat)

  datatype EngineState = EngineState(
    recorder: Option<nat>,             // mMediaRecorder
    current: Option<CallRecording>,    // mCurrentRecording
    live: set<nat>,                    // recorders created and not released
    nextHandle: nat,
    catalog: map<nat, EntryState>,     // MediaStore rows
    nextEntry: nat,
    trials: seq<int>)                  // every setAudioSource call, in order

  /** A call either returns a value or lets an exception escape. */
  datatype Outcome<T> = Returned(value: T) | Propagated

  datatype Step<T> = Step(state: EngineState, result: Outcome<T>)

  /** What MediaRecorder.stop does: succeed, throw IllegalStateException, or throw another RuntimeException. */
  datatype StopOutcome = Stopped | StopIllegalState | StopRuntime

  /** The first exception among opening the output file, setOutputFile, prepare and start. */
  datatype LaunchFault = IoFault | IllegalStateFault | RuntimeFault(message: Option<string>)

  /** The platform's answers during one start. */
  datatype StartEnv = StartEnv(
    staleStop: StopOutcome,          // MediaRecorder.stop of a session being superseded
    permissionGranted: bool,         // RECORD_AUDIO
    sdk: int,
    configuredSource: int,           // R.integer.call_recording_audio_source
    acceptedSources: set<int>,       // setAudioSource succeeds exactly for these
    formatPref: Option<string>,      // stored format preference
    configOk: bool,                  // setOutputFormat / setAudioEncoder / rates succeed
    timestamp: string,               // DATE_FORMAT.format(new Date())
    now: int,                        // System.currentTimeMillis()
    launch: Option<LaunchFault>)     // None: the recorder started

  /** A runtime exception the engine treats as a failed start: its message contains "start failed". */
  predicate IsStartFailed(message: Option<string>) {
    message.Some? && JavaText.Contains(message.value, "start failed")
  }

  function Held(st: EngineState): set<nat> {
    if st.recorder.Some? then {st.recorder.value} else {}
  }

  /** Recorders created, not released, and no longer referenced by the engine. */
  function Leaked(st: EngineState): set<nat> {
    st.live - Held(st)
  }

  /**
   * What holds between engine calls: handles and entries come from their counters;
   * an active session has a live recorder and a pending catalog entry; and every
   * pending entry belongs to the active session (no orphaned entry).
   */
  ghost predicate Inv(st: EngineState) {
    && (forall h | h in st.live :: h < st.nextHandle)
    && (forall e | e in st.catalog :: e < st.nextEntry)
    && (st.recorder.Some? ==> st.recorder.value < st.nextHandle)
    && (st.current.Some? ==>
          && st.recorder.Some? && st.recorder.value in st.live
          && st.current.value.mediaId in st.catalog
          && st.catalog[st.current.value.mediaId] == Pending)
    && (forall e | e in st.catalog && st.catalog[e] == Pending ::
          st.current.Some? && e == st.current.value.mediaId)
  }

  // ---------------------------------------------------------------------------
  // stopRecordingInternal

  /**
   * Stop: with no recorder, nothing changes and the held session (none) is returned.
   * Otherwise the recorder is stopped and released -- release is skipped when stop
   * throws IllegalStateException, and any other RuntimeException escapes with nothing
   * changed. Then the session's catalog entry is marked completed and both fields are
   * cleared; with a recorder but no session, reading the session's media id throws
   * (NullPointerException) and the recorder field stays set.
   */
  function StopSpec(st: EngineState, out: StopOutcome): Step<Option<CallRecording>> {
    match st.recorder
    case None => Step(st, Returned(st.current))
    case Some(h) =>
      if out == StopRuntime then Step(st, Propagated)
      else
        var live := if out == Stopped then st.live - {h} else st.live;
        match st.current
        case None => Step(st.(live := live), Propagated)
        case Some(rec) =>
          var catalog := if rec.mediaId in st.catalog then st.catalog[rec.mediaId := Completed] else st.catalog;
          Step(st.(recorder := None, current := None, live := live, catalog := catalog), Returned(Some(rec)))
  }

  // ---------------------------------------------------------------------------
  // startRecordingInternal

  /** Number of recorders a start creates while looking for an audio source. */
  function Tried(chain: seq<int>, accepted: set<int>): nat {
    var k := FirstAccepted(chain, accepted);
    if k < |chain| then k + 1 else |chain|
  }

  /** Start, once no recorder is held any more (after the forced stop, if there was one). */
  function StartAfterStop(s: EngineState, number: Option<string>, creationTime: int, env: StartEnv): Step<bool> {
    if !env.permissionGranted then Step(s, Returned(false))
    else
      var chain := SourceChain(env.sdk, env.configuredSource);
      var k := FirstAccepted(chain, env.acceptedSources);
      // one recorder per candidate tried; each rejected one is released
      var s1 := s.(nextHandle := s.nextHandle + Tried(chain, env.acceptedSources),
                   trials := s.trials + chain[..Tried(chain, env.acceptedSources)]);
      if k == |chain| then Step(s1.(recorder := None), Returned(false))
      else if !env.configOk then Step(s1.(recorder := None), Returned(false))
      else
        var h := s.nextHandle + k;
        var e := s1.nextEntry;
        var name := FileName(number, env.timestamp, FormatChoice(env.formatPref));
        match env.launch
        case None =>
          Step(s1.(recorder := Some(h),
                   current := Some(CallRecording(number, creationTime, name, env.now, e)),
                   live := s1.live + {h},
                   catalog := s1.catalog[e := Pending],
                   nextEntry := e + 1),
               Returned(true))
        case Some(fault) =>
          // the inserted entry is deleted again
          var s2 := s1.(catalog := s1.catalog[e := Pending] - {e}, nextEntry := e + 1);
          if fault.RuntimeFault? && !IsStartFailed(fault.message) then
            Step(s2.(recorder := Some(h), live := s2.live + {h}), Propagated)
          else
            Step(s2.(recorder := None), Returned(false))
  }

  /** Start: a held recorder is stopped first; if that stop throws, so does start. */
  function StartSpec(st: EngineState, number: Option<string>, creationTime: int, env: StartEnv): Step<bool> {
    if st.recorder.None? then StartAfterStop(st, number, creationTime, env)
    else
      var stopped := StopSpec(st, env.staleStop);
      if stopped.result.Propagated? then Step(stopped.state, Propagated)
      else StartAfterStop(stopped.state, number, creationTime, env)
  }

  // ---------------------------------------------------------------------------
  // Properties

  /** Stop returns the session held before the call; when idle it changes nothing. */
  lemma StopReturnsPriorSession(st: EngineState, out: StopOutcome)
    requires Inv(st)
    ensures var r := StopSpec(st, out);
      && (r.result.Returned? ==> r.result.value == st.current)
      && (st.recorder.None? ==> r.state == st && r.result == Returned(None))
  {
  }

  /**
   * Stopping an active session marks its entry completed and clears both fields,
   * whether the recorder's stop succeeds or throws IllegalStateException; only in the
   * first case is the recorder released, otherwise it is leaked.
   */
  lemma StopCompletesSession(st: EngineState, out: StopOutcome)
    requires Inv(st) && st.current.Some? && out != StopRuntime
    ensures var r := StopSpec(st, out); var id := st.current.value.mediaId;
      && r.result == Returned(st.current)
      && r.state.recorder.None? && r.state.current.None?
      && r.state.catalog == st.catalog[id := Completed]
      && r.state.live == (if out == Stopped then st.live - Held(st) else st.live)
      && Leaked(r.state) == Leaked(st) + (if out == Stopped then {} else Held(st))
  {
  }

  lemma StopPreservesInv(st: EngineState, out: StopOutcome)
    requires Inv(st)
    ensures Inv(StopSpec(st, out).state)
  {
    var r := StopSpec(st, out);
    if st.recorder.Some? && out != StopRuntime && st.current.Some? {
      var id := st.current.value.mediaId;
      forall e | e in r.state.catalog ensures r.state.catalog[e] != Pending {
        if e != id { assert st.catalog[e] == r.state.catalog[e]; }
      }
    }
  }

  /** The state a start continues from: the stale session stopped, or the state itself. */
  function AfterStaleStop(st: EngineState, env: StartEnv): EngineState {
    if st.recorder.None? then st else StopSpec(st, env.staleStop).state
  }

  /**
   * A start with the RECORD_AUDIO permission missing returns false having created no
   * recorder, tried no source and inserted no entry (beyond the forced stop).
   */
  lemma StartWithoutPermission(st: EngineState, number: Option<string>, t: int, env: StartEnv)
    requires Inv(st) && !env.permissionGranted
    requires st.current.Some? || st.recorder.None?
    ensures var r := StartSpec(st, number, t, env); var s := AfterStaleStop(st, env);
      && (r.result == Returned(false) || (r.result.Propagated? && env.staleStop == StopRuntime))
      && r.state == s
      && r.state.recorder.None? == r.result.Returned?
  {
  }

  /**
   * Sources are offered strictly in chain order, one fresh recorder each, and the
   * engine stops at the first one accepted. When every source is refused, start
   * returns false with no recorder held, no handle leaked and the catalog untouched.
   */
  lemma StartTriesSourcesInOrder(st: EngineState, number: Option<string>, t: int, env: StartEnv)
    requires Inv(st) && st.recorder.None? && env.permissionGranted
    ensures var r := StartSpec(st, number, t, env);
      var chain := SourceChain(env.sdk, env.configuredSource);
      var n := |r.state.trials| - |st.trials|;
      && 1 <= n <= 3
      && r.state.trials == st.trials + chain[..n]
      && r.state.nextHandle == st.nextHandle + n
      && (forall j | 0 <= j < n - 1 :: chain[j] !in env.acceptedSources)
      && (n < 3 ==> chain[n - 1] in env.acceptedSources)
      && (r.result == Returned(true) ==> chain[n - 1] in env.acceptedSources)
      && ((forall j | 0 <= j < 3 :: chain[j] !in env.acceptedSources) ==>
           && r.result == Returned(false) && r.state.recorder.None?
           && r.state.catalog == st.catalog && r.state.live == st.live
           && Leaked(r.state) == Leaked(st))
  {
    var chain := SourceChain(env.sdk, env.configuredSource);
    var k := FirstAccepted(chain, env.acceptedSources);
    if forall j | 0 <= j < 3 :: chain[j] !in env.acceptedSources {
      assert k == 3;
    }
  }

  /**
   * A failure after the catalog insert deletes the entry again. An IOException, an
   * IllegalStateException, or a RuntimeException saying "start failed" also releases
   * the recorder and returns false; any other RuntimeException escapes with the
   * recorder still held and no session.
   */
  lemma StartLateFailure(st: EngineState, number: Option<string>, t: int, env: StartEnv)
    requires Inv(st) && st.recorder.None? && env.permissionGranted && env.configOk
    requires FirstAccepted(SourceChain(env.sdk, env.configuredSource), env.acceptedSources) < 3
    requires env.launch.Some?
    ensures var r := StartSpec(st, number, t, env);
      && r.state.catalog == st.catalog
      && r.state.current.None?
      && (if env.launch.value.RuntimeFault? && !IsStartFailed(env.launch.value.message)
          then r.result.Propagated? && r.state.recorder.Some? && r.state.recorder.value in r.state.live
          else r.result == Returned(false) && r.state.recorder.None? && r.state.live == st.live)
  {
    assert st.nextEntry !in st.catalog;
  }

  /**
   * A successful start holds exactly the new session: its number and creation time
   * are the request's, its file name follows the format preference, and its catalog
   * entry is freshly inserted as pending.
   */
  lemma StartSucceeds(st: EngineState, number: Option<string>, t: int, env: StartEnv)
    requires Inv(st)
    requires StartSpec(st, number, t, env).result == Returned(true)
    ensures var r := StartSpec(st, number, t, env); var s := AfterStaleStop(st, env);
      && r.state.current.Some?
      && r.state.current.value.phoneNumber == number
      && r.state.current.value.creationTime == t
      && r.state.current.value.fileName == FileName(number, env.timestamp, FormatChoice(env.formatPref))
      && r.state.current.value.mediaId == s.nextEntry
      && s.nextEntry !in s.catalog
      && r.state.catalog == s.catalog[s.nextEntry := Pending]
  {
    StopPreservesInv(st, env.staleStop);
  }

  /**
   * Starting while a session is active first completes that session: it is never
   * kept or merged. If the forced stop returns, the old entry is completed in the
   * resulting catalog and any session held afterwards is the new request's.
   */
  lemma StartSupersedesSession(st: EngineState, number: Option<string>, t: int, env: StartEnv)
    requires Inv(st) && st.current.Some? && env.staleStop != StopRuntime
    ensures var r := StartSpec(st, number, t, env); var old_id := st.current.value.mediaId;
      && old_id in r.state.catalog && r.state.catalog[old_id] == Completed
      && (r.state.current.Some? ==>
            r.state.current.value.phoneNumber == number && r.state.current.value.creationTime == t
            && r.state.current.value.mediaId != old_id)
  {
    var s := StopSpec(st, env.staleStop).state;
    assert s.catalog[st.current.value.mediaId] == Completed;
  }

  /** A start never leaks a recorder of its own: only the forced stop can leak one. */
  lemma StartLeaksOnlyThroughStop(st: EngineState, number: Option<string>, t: int, env: StartEnv)
    requires Inv(st)
    ensures Leaked(StartSpec(st, number, t, env).state) == Leaked(AfterStaleStop(st, env))
  {
    var s := AfterStaleStop(st, env);
    StopPreservesInv(st, env.staleStop);
    var r := StartSpec(st, number, t, env);
    if s.recorder.None? && env.permissionGranted {
      var chain := SourceChain(env.sdk, env.configuredSource);
      var k := FirstAccepted(chain, env.acceptedSources);
      if k < |chain| {
        assert s.nextHandle + k !in s.live;
      }
    }
  }

  lemma StartPreservesInv(st: EngineState, number: Option<string>, t: int, env: StartEnv)
    requires Inv(st)
    ensures Inv(StartSpec(st, number, t, env).state)
  {
    StopPreservesInv(st, env.staleStop);
    var s := AfterStaleStop(st, env);
    if s.recorder.None? {
      StartAfterStopPreservesInv(s, number, t, env);
    }
  }

  lemma StartAfterStopPreservesInv(s: EngineState, number: Option<string>, t: int, env: StartEnv)
    requires Inv(s) && s.recorder.None?
    ensures Inv(StartAfterStop(s, number, t, env).state)
  {
    if env.permissionGranted {
      var chain := SourceChain(env.sdk, env.configuredSource);
      var k := FirstAccepted(chain, env.acceptedSources);
      if k < |chain| && env.configOk {
        assert s.nextEntry !in s.catalog;
      }
    }
  }

  /**
   * Once the engine holds a recorder with no session (after a RuntimeException that
   * escaped a start), every later start throws and the engine stays in that state.
   */
  lemma WedgedEngineRejectsStarts(st: EngineState, number: Option<string>, t: int, env: StartEnv)
    requires st.recorder.Some? && st.current.None?
    ensures var r := StartSpec(st, number, t, env);
      && r.result.Propagated?
      && r.state.recorder == st.recorder && r.state.current.None?
      && r.state.catalog == st.catalog
  {
  }

  /** How the wedged state arises: a start whose launch fails with an unexpected RuntimeException. */
  lemma UnexpectedRuntimeFaultWedges(st: EngineState, number: Option<string>, t: int, env: StartEnv)
    requires Inv(st) && st.recorder.None? && env.permissionGranted && env.configOk
    requires FirstAccepted(SourceChain(env.sdk, env.configuredSource), env.acceptedSources) < 3
    requires env.launch.Some? && env.launch.value.RuntimeFault? && !IsStartFailed(env.launch.value.message)
    ensures var r := StartSpec(st, number, t, env);
      r.state.recorder.Some? && r.state.current.None?
  {
  }
}
