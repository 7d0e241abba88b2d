/**
 * CallRecorderService: the engine that owns the single MediaRecorder. Its two
 * fields, mMediaRecorder and mCurrentRecording, change step by step through the
 * start and stop sequences; the recorder objects and the MediaStore catalog it
 * drives are modelled as fields of abstract handles beside them. Every method is
 * proved to do what the reference definition in EngineSpec says.
 */
module Engine {
  import opened Wrappers
  import opened EngineSpec

  class CallRecorderService {
    var mediaRecorder: Option<nat>
    var currentRecording: Option<CallRecording>

    // platform resources the engine drives
    var live: set<nat>
    var nextHandle: nat
    var catalog: map<nat, EntryState>
    var nextEntry: nat
    var trials: seq<int>

    function State(): EngineState
      reads this
    {
      EngineState(mediaRecorder, currentRecording, live, nextHandle, catalog, nextEntry, trials)
    }

    ghost predicate Valid()
      reads this
    {
      Inv(State())
    }

    constructor ()
      ensures Valid()
      ensures State() == EngineState(None, None, {}, 0, map[], 0, [])
    {
      mediaRecorder, currentRecording := None, None;
      live, nextHandle := {}, 0;
      catalog, nextEntry := map[], 0;
      trials := [];
    }

    /** Binder isRecording: whether a recorder is held; an active session implies it is. */
    method IsRecording() returns (r: bool)
      requires Valid()
      ensures r <==> mediaRecorder.Some?
      ensures currentRecording.Some? ==> r
    {
      r := mediaRecorder.Some?;
    }

    /**
     * Binder getActiveRecording: the held session, without side effects; a session
     * it reports always has a live recorder and a pending catalog entry.
     */
    method GetActiveRecording() returns (r: Option<CallRecording>)
      requires Valid()
      ensures r == currentRecording
      ensures r.Some? ==> mediaRecorder.Some? && mediaRecorder.value in live
      ensures r.Some? ==> r.value.mediaId in catalog && catalog[r.value.mediaId] == Pending
    {
      r := currentRecording;
    }

    // --- the platform operations, one step each

    /** new MediaRecorder() */
    method NewRecorder() returns (h: nat)
      modifies this
      ensures h == old(nextHandle) && nextHandle == h + 1 && live == old(live) + {h}
      ensures mediaRecorder == old(mediaRecorder) && currentRecording == old(currentRecording)
      ensures catalog == old(catalog) && nextEntry == old(nextEntry) && trials == old(trials)
    {
      h := nextHandle;
      nextHandle := nextHandle + 1;
      live := live + {h};
    }

    /** MediaRecorder.release() */
    method Release(h: nat)
      modifies this`live
      ensures live == old(live) - {h}
    {
      live := live - {h};
    }

    /** MediaRecorder.setAudioSource(source): false stands for IllegalStateException. */
    method SetAudioSource(source: int, accepted: set<int>) returns (ok: bool)
      modifies this`trials
      ensures trials == old(trials) + [source]
      ensures ok <==> source in accepted
    {
      trials := trials + [source];
      ok := source in accepted;
    }

    /** ContentResolver.insert of a pending entry. */
    method Insert() returns (e: nat)
      modifies this`catalog, this`nextEntry
      ensures e == old(nextEntry) && nextEntry == e + 1 && catalog == old(catalog)[e := Pending]
    {
      e := nextEntry;
      nextEntry := nextEntry + 1;
      catalog := catalog[e := Pending];
    }

    /** ContentResolver.delete */
    method Delete(e: nat)
      modifies this`catalog
      ensures catalog == old(catalog) - {e}
    {
      catalog := catalog - {e};
    }

    /** ContentResolver.update with the completed values; a missing row is not updated. */
    method MarkCompleted(e: nat)
      modifies this`catalog
      ensures catalog == if e in old(catalog) then old(catalog)[e := Completed] else old(catalog)
    {
      if e in catalog {
        catalog := catalog[e := Completed];
      }
    }

    // --- the engine's own operations

    /** stopRecordingInternal */
    method StopRecordingInternal(out: StopOutcome) returns (r: Outcome<Option<CallRecording>>)
      requires Valid()
      modifies this
      ensures Valid()
      ensures State() == StopSpec(old(State()), out).state
      ensures r == StopSpec(old(State()), out).result
    {
      StopPreservesInv(State(), out);
      var recording := currentRecording;
      if mediaRecorder.Some? {
        var h := mediaRecorder.value;
        if out == StopRuntime {
          return Propagated;
        }
        if out == Stopped {
          Release(h);
        }
        if currentRecording.None? {
          return Propagated;   // mCurrentRecording.mediaId on null
        }
        MarkCompleted(currentRecording.value.mediaId);
        mediaRecorder := None;
        currentRecording := None;
      }
      r := Returned(recording);
    }

    /**
     * The audio-source fallback of startRecordingInternal: a fresh recorder per
     * candidate, in chain order, each refused one released before the next is created.
     * The recorder of the last attempt is left held, whether or not it was accepted.
     */
    method AttachAudioSource(env: StartEnv) returns (h: nat, audioSourceSet: bool)
      requires forall x | x in live :: x < nextHandle
      modifies this
      ensures var chain := SourceChain(env.sdk, env.configuredSource);
        var k := FirstAccepted(chain, env.acceptedSources);
        var n := Tried(chain, env.acceptedSources);
        && trials == old(trials) + chain[..n]
        && nextHandle == old(nextHandle) + n
        && (audioSourceSet <==> k < |chain|)
        && h == old(nextHandle) + (if audioSourceSet then k else 2)
        && mediaRecorder == Some(h)
        && live == old(live) + {h}
      ensures currentRecording == old(currentRecording)
      ensures catalog == old(catalog) && nextEntry == old(nextEntry)
    {
      ghost var chain := SourceChain(env.sdk, env.configuredSource);
      ghost var base := nextHandle;
      h := NewRecorder();
      mediaRecorder := Some(h);
      audioSourceSet := false;
      var ok := SetAudioSource(PrimaryAudioSource(env.sdk, env.configuredSource), env.acceptedSources);
      if ok {
        audioSourceSet := true;
      } else {
        Release(h);
        h := NewRecorder();
        mediaRecorder := Some(h);
        ok := SetAudioSource(VOICE_RECOGNITION, env.acceptedSources);
        if ok {
          audioSourceSet := true;
        } else {
          Release(h);
          h := NewRecorder();
          mediaRecorder := Some(h);
          ok := SetAudioSource(MIC, env.acceptedSources);
          if ok {
            audioSourceSet := true;
          }
        }
      }
      ghost var k := FirstAccepted(chain, env.acceptedSources);
      assert trials == old(trials) + chain[..Tried(chain, env.acceptedSources)];
    }

    /** startRecordingInternal */
    method StartRecordingInternal(number: Option<string>, creationTime: int, env: StartEnv)
      returns (r: Outcome<bool>)
      requires Valid()
      modifies this
      ensures Valid()
      ensures State() == StartSpec(old(State()), number, creationTime, env).state
      ensures r == StartSpec(old(State()), number, creationTime, env).result
    {
      StartPreservesInv(State(), number, creationTime, env);
      if mediaRecorder.Some? {
        var stopped := StopRecordingInternal(env.staleStop);
        if stopped.Propagated? {
          return Propagated;
        }
      }
      r := StartWhenIdle(number, creationTime, env);
    }

    /** startRecordingInternal from the permission check on, with no recorder held. */
    method StartWhenIdle(number: Option<string>, creationTime: int, env: StartEnv)
      returns (r: Outcome<bool>)
      requires Valid() && mediaRecorder.None?
      modifies this
      ensures State() == StartAfterStop(old(State()), number, creationTime, env).state
      ensures r == StartAfterStop(old(State()), number, creationTime, env).result
    {
      if !env.permissionGranted {
        return Returned(false);
      }
      ghost var s := State();
      assert s.nextHandle + 2 !in s.live;
      var h, audioSourceSet := AttachAudioSource(env);
      if !audioSourceSet {
        Release(h);
        mediaRecorder := None;
        return Returned(false);
      }

      var formatChoice := FormatChoice(env.formatPref);
      if !env.configOk {
        Release(h);
        mediaRecorder := None;
        return Returned(false);
      }

      var fileName := FileName(number, env.timestamp, formatChoice);
      var e := Insert();
      match env.launch {
        case None =>
          currentRecording := Some(CallRecording(number, creationTime, fileName, env.now, e));
          return Returned(true);
        case Some(fault) =>
          Delete(e);
          if fault.RuntimeFault? && !IsStartFailed(fault.message) {
            return Propagated;
          }
      }
      Release(h);
      mediaRecorder := None;
      r := Returned(false);
    }
  }

  /**
   * The engine's scenario from its design: a start that succeeds, then a second start
   * for another number; the second session replaces the first, whose entry is completed.
   */
  method SupersedeScenario() returns (first: Outcome<bool>, second: Outcome<bool>, active: Option<CallRecording>)
    ensures first == Returned(true) && second == Returned(true)
    ensures active.Some? && active.value.phoneNumber == Some("+15557777")
  {
    var engine := new CallRecorderService();
    var env := StartEnv(Stopped, true, 34, MIC, {VOICE_RECOGNITION}, None, true, "251015_120000000", 1000, None);
    first := engine.StartRecordingInternal(Some("+15551234"), 10, env);
    second := engine.StartRecordingInternal(Some("+15557777"), 20, env.(now := 2000));
    active := engine.GetActiveRecording();
  }
}
