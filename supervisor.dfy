/**
 * CallRecorder: the in-call UI's side of call recording. It binds to the engine's
 * service with bounded exponential backoff, keeps one pending start request while
 * the binding is in progress, tells its progress listeners about starts, ticks and
 * stops, follows call-list events, and decides from a per-country table whether
 * recording is allowed at all.
 *
 * Service calls cross a process boundary: their answers (or a RemoteException) are
 * inputs. Timers, toasts, listener callbacks and the data store are recorded in
 * `effects`, in order.
 */
module Supervisor {
  import opened Wrappers
  import JavaText
  import opened EngineSpec

  const MAX_RETRIES: nat := 3
  const RETRY_BASE_DELAY_MS: int := 2000

  function Pow2(n: nat): (p: nat)
    ensures p >= 1
  {
    if n == 0 then 1 else 2 * Pow2(n - 1)
  }

  /** The delay before retry number `count`: RETRY_BASE_DELAY_MS << (count - 1) on a 64-bit long. */
  function RetryDelay(count: nat): (delayMs: int)
    requires 1 <= count <= MAX_RETRIES
    ensures delayMs == [2000, 4000, 8000][count - 1]
  {
    var shifted := (RETRY_BASE_DELAY_MS as bv64) << (count - 1);
    assert shifted == if count == 1 then 2000 else if count == 2 then 4000 else 8000;
    shifted as int
  }

  /** The shift is the base delay times a power of two. */
  lemma RetryDelayIsScaledPower(count: nat)
    requires 1 <= count <= MAX_RETRIES
    ensures RetryDelay(count) == RETRY_BASE_DELAY_MS * Pow2(count - 1)
  {
    assert Pow2(1) == 2 && Pow2(2) == 4;
  }

  /** Each retry waits twice as long as the one before. */
  lemma RetryDelayDoubles(count: nat)
    requires 1 <= count < MAX_RETRIES
    ensures RetryDelay(count + 1) == 2 * RetryDelay(count)
  {
  }

  /**
   * The phone number as written to the log: three stars and the last four characters
   * when it is longer than four, "****" otherwise (null included).
   */
  function MaskNumber(number: Option<string>): (masked: string)
    ensures |masked| == 7 <==> number.Some? && |number.value| > 4
    ensures |masked| == 7 || masked == "****"
    ensures forall i | 0 <= i < 3 :: masked[i] == '*'
    ensures |masked| == 7 ==> masked[3..] == number.value[|number.value| - 4..]
  {
    if number.Some? && |number.value| > 4 then "***" + number.value[|number.value| - 4..] else "****"
  }

  /** Two numbers that end alike are masked alike: nothing but the last four characters shows. */
  lemma MaskRevealsOnlyLastFour(a: string, b: string)
    requires |a| > 4 && |b| > 4 && a[|a| - 4..] == b[|b| - 4..]
    ensures MaskNumber(Some(a)) == MaskNumber(Some(b))
  {
  }

  // ---------------------------------------------------------------------------
  // Country policy table

  const ROOT_TAG: string := "call-record-allowed-flags"
  const COUNTRY_TAG: string := "country"

  /** What the XML pull parser reports after the root element, up to the end of the document. */
  datatype XmlEvent =
    | StartTag(name: string, iso: Option<string>, allowed: Option<string>)
    | OtherEvent          // text, end tags: skipped
    | ReadError           // XmlPullParserException or IOException from the parser

  datatype PolicyDocument = PolicyDocument(rootTag: string, events: seq<XmlEvent>)

  /** A start tag the loader accepts: a "country" element with an iso list and allowed exactly "true" or "false". */
  predicate IsCountryRecord(ev: XmlEvent) {
    ev.StartTag? && ev.name == COUNTRY_TAG && ev.iso.Some?
    && (ev.allowed == Some("true") || ev.allowed == Some("false"))
  }

  /** An event that makes the loader give up. */
  predicate IsRejected(ev: XmlEvent) {
    ev.ReadError? || (ev.StartTag? && !IsCountryRecord(ev))
  }

  /** The table keys one record stands for: its iso list split at commas, each piece upper-cased. */
  function RecordKeys(ev: XmlEvent): set<string>
    requires IsCountryRecord(ev)
  {
    var pieces := JavaText.JavaSplitComma(ev.iso.value);
    set i | 0 <= i < |pieces| :: JavaText.Upper(pieces[i])
  }

  predicate Mentions(ev: XmlEvent, key: string) {
    IsCountryRecord(ev) && key in RecordKeys(ev)
  }

  /** Put every upper-cased piece with value v, in order. */
  function PutKeys(t: map<string, bool>, pieces: seq<string>, v: bool): map<string, bool>
    decreases |pieces|
  {
    if |pieces| == 0 then t else PutKeys(t[JavaText.Upper(pieces[0]) := v], pieces[1..], v)
  }

  /** One accepted event applied to the table: a record puts its keys, anything else is skipped. */
  function ApplyRecord(t: map<string, bool>, ev: XmlEvent): map<string, bool>
    requires !IsRejected(ev)
  {
    if ev.OtherEvent? then t
    else PutKeys(t, JavaText.JavaSplitComma(ev.iso.value), ev.allowed == Some("true"))
  }

  /** The events processed left to right into table t; None once one is rejected. */
  function ApplyEvents(t: map<string, bool>, events: seq<XmlEvent>): Option<map<string, bool>>
    decreases |events|
  {
    if |events| == 0 then Some(t)
    else if IsRejected(events[0]) then None
    else ApplyEvents(ApplyRecord(t, events[0]), events[1..])
  }

  /** loadAllowedStates: the table after loading; any failure leaves it empty (fail closed). */
  function LoadResult(t: map<string, bool>, doc: PolicyDocument): map<string, bool> {
    if doc.rootTag != ROOT_TAG then map[]
    else match ApplyEvents(t, doc.events)
      case Some(m) => m
      case None => map[]
  }

  /** The table's answer for a country: allowed only when present and true. */
  predicate Allowed(table: map<string, bool>, iso: string) {
    iso in table && table[iso]
  }

  lemma {:induction false} PutKeysEffect(t: map<string, bool>, pieces: seq<string>, v: bool, key: string)
    decreases |pieces|
    ensures var m := PutKeys(t, pieces, v);
      && (key in m <==> key in t || exists i | 0 <= i < |pieces| :: JavaText.Upper(pieces[i]) == key)
      && ((exists i | 0 <= i < |pieces| :: JavaText.Upper(pieces[i]) == key) ==> m[key] == v)
      && ((forall i | 0 <= i < |pieces| :: JavaText.Upper(pieces[i]) != key) && key in t ==> m[key] == t[key])
  {
    if |pieces| > 0 {
      var t' := t[JavaText.Upper(pieces[0]) := v];
      PutKeysEffect(t', pieces[1..], v, key);
      if exists i | 0 <= i < |pieces| :: JavaText.Upper(pieces[i]) == key {
        var i :| 0 <= i < |pieces| && JavaText.Upper(pieces[i]) == key;
        if i > 0 { assert JavaText.Upper(pieces[1..][i - 1]) == key; }
      }
      if exists i | 0 <= i < |pieces[1..]| :: JavaText.Upper(pieces[1..][i]) == key {
        var i :| 0 <= i < |pieces[1..]| && JavaText.Upper(pieces[1..][i]) == key;
        assert JavaText.Upper(pieces[i + 1]) == key;
      }
    }
  }

  /** Applying one event: a record naming the key puts the record's value; any other event leaves the key alone. */
  lemma ApplyRecordEffect(t: map<string, bool>, ev: XmlEvent, key: string)
    requires !IsRejected(ev)
    ensures var m := ApplyRecord(t, ev);
      && (Mentions(ev, key) ==> key in m && m[key] == (ev.allowed == Some("true")))
      && (!Mentions(ev, key) ==> (key in m <==> key in t) && (key in t ==> m[key] == t[key]))
  {
    if !ev.OtherEvent? {
      var pieces := JavaText.JavaSplitComma(ev.iso.value);
      PutKeysEffect(t, pieces, ev.allowed == Some("true"), key);
    }
  }

  /** A single malformed record, or a read error, anywhere in the document empties the table. */
  lemma {:induction false} ApplyFailsClosed(t: map<string, bool>, events: seq<XmlEvent>, i: nat)
    requires i < |events| && IsRejected(events[i])
    ensures ApplyEvents(t, events).None?
    decreases |events|
  {
    if i > 0 && !IsRejected(events[0]) {
      ApplyFailsClosed(ApplyRecord(t, events[0]), events[1..], i - 1);
    }
  }

  /** A key no record mentions keeps whatever the table had for it. */
  lemma {:induction false} ApplyUntouched(t: map<string, bool>, events: seq<XmlEvent>, key: string)
    requires ApplyEvents(t, events).Some?
    requires forall j | 0 <= j < |events| :: !Mentions(events[j], key)
    ensures var m := ApplyEvents(t, events).value;
      (key in m <==> key in t) && (key in t ==> m[key] == t[key])
    decreases |events|
  {
    if |events| > 0 {
      var rest := events[1..];
      assert !Mentions(events[0], key);
      ApplyRecordEffect(t, events[0], key);
      forall j | 0 <= j < |rest| ensures !Mentions(rest[j], key) {
        assert rest[j] == events[j + 1];
      }
      ApplyUntouched(ApplyRecord(t, events[0]), rest, key);
    }
  }

  /** The last record mentioning a key decides its value. */
  lemma {:induction false} ApplyLastWins(t: map<string, bool>, events: seq<XmlEvent>, key: string, i: nat)
    requires ApplyEvents(t, events).Some?
    requires i < |events| && Mentions(events[i], key)
    requires forall j | i < j < |events| :: !Mentions(events[j], key)
    ensures var m := ApplyEvents(t, events).value;
      key in m && m[key] == (events[i].allowed == Some("true"))
    decreases |events|
  {
    var rest := events[1..];
    var t' := ApplyRecord(t, events[0]);
    assert ApplyEvents(t, events) == ApplyEvents(t', rest);
    forall j | i - 1 < j < |rest| ensures !Mentions(rest[j], key) {
      assert rest[j] == events[j + 1];
    }
    if i == 0 {
      ApplyRecordEffect(t, events[0], key);
      ApplyUntouched(t', rest, key);
    } else {
      ApplyLastWins(t', rest, key, i - 1);
    }
  }

  predicate AllKeysUpper(t: map<string, bool>) {
    forall k | k in t :: JavaText.Upper(k) == k
  }

  /** Applying one event keeps every key upper case. */
  lemma ApplyRecordKeepsUpper(t: map<string, bool>, ev: XmlEvent)
    requires AllKeysUpper(t) && !IsRejected(ev)
    ensures AllKeysUpper(ApplyRecord(t, ev))
  {
    if !ev.OtherEvent? {
      var pieces := JavaText.JavaSplitComma(ev.iso.value);
      var v := ev.allowed == Some("true");
      forall k | k in PutKeys(t, pieces, v) ensures JavaText.Upper(k) == k {
        PutKeysEffect(t, pieces, v, k);
        if k !in t {
          var i :| 0 <= i < |pieces| && JavaText.Upper(pieces[i]) == k;
          JavaText.UpperIdempotent(pieces[i]);
        }
      }
    }
  }

  /** Every key of a loaded table is upper case, starting from a table whose keys are. */
  lemma {:induction false} ApplyKeepsUpper(t: map<string, bool>, events: seq<XmlEvent>)
    requires AllKeysUpper(t) && ApplyEvents(t, events).Some?
    ensures AllKeysUpper(ApplyEvents(t, events).value)
    decreases |events|
  {
    if |events| > 0 {
      ApplyRecordKeepsUpper(t, events[0]);
      ApplyKeepsUpper(ApplyRecord(t, events[0]), events[1..]);
    }
  }

  /**
   * Loading into an empty table: a wrong root element or any rejected event leaves the
   * table empty (every country denied); otherwise every key is upper case and comes
   * from some record.
   */
  lemma LoadFromEmpty(doc: PolicyDocument, key: string)
    ensures var m := LoadResult(map[], doc);
      && (doc.rootTag != ROOT_TAG ==> m == map[])
      && ((exists i | 0 <= i < |doc.events| :: IsRejected(doc.events[i])) ==> m == map[])
      && AllKeysUpper(m)
      && (key in m ==> exists i | 0 <= i < |doc.events| :: Mentions(doc.events[i], key))
  {
    if exists i | 0 <= i < |doc.events| :: IsRejected(doc.events[i]) {
      var i :| 0 <= i < |doc.events| && IsRejected(doc.events[i]);
      ApplyFailsClosed(map[], doc.events, i);
    }
    if doc.rootTag == ROOT_TAG && ApplyEvents(map[], doc.events).Some? {
      ApplyKeepsUpper(map[], doc.events);
      if forall j | 0 <= j < |doc.events| :: !Mentions(doc.events[j], key) {
        ApplyUntouched(map[], doc.events, key);
      }
    }
  }

  // ---------------------------------------------------------------------------
  // The supervisor's state machine

  type Listener = nat

  datatype PendingRecording = PendingRecording(phoneNumber: Option<string>, creationTime: int)

  /** What Context.bindService does: initiate the binding, return false, or throw. */
  datatype BindResult = BindInitiated | BindRefused | BindThrew

  /** The answer of one call to the service, or a RemoteException. */
  datatype Reply<T> = Answer(value: T) | RemoteFault

  datatype Notice = RecordingStarting | RecordingFailed | RecordingOnScreen | FileLocation(fileName: string)

  datatype Effect =
    | BindRequest                                  // startService + bindService
    | Unbind                                       // retries cancelled, unbindService
    | StartRpc(phoneNumber: Option<string>, creationTime: int)
    | StopRpc
    | NotifyStarted(listeners: set<Listener>)
    | NotifyStopped(listeners: set<Listener>)
    | NotifyProgress(listeners: set<Listener>, elapsedMs: int)
    | SaveRecording(recording: CallRecording)      // CallRecordingDataStore.putRecording
    | Toast(notice: Notice)

  /** One run of the progress task: the service's getActiveRecording answer and the clock. */
  datatype ProgressTick = ProgressTick(active: Reply<Option<CallRecording>>, now: int)

  /** getActiveRecording on the client side: none without a service or on a RemoteException. */
  function ActiveFrom(service: bool, reply: Reply<Option<CallRecording>>): (r: Option<CallRecording>)
    ensures !service || reply.RemoteFault? ==> r.None?
    ensures r.Some? ==> service && reply == Answer(r)
  {
    if service && reply.Answer? then reply.value else None
  }

  /** isRecording on the client side: false without a service or on a RemoteException. */
  function RecordingFrom(service: bool, reply: Reply<bool>): (r: bool)
    ensures r <==> service && reply == Answer(true)
  {
    service && reply.Answer? && reply.value
  }

  /** The progress task's notification: elapsed time since the session started, when one is active. */
  function ProgressEffects(service: bool, listeners: set<Listener>, tick: ProgressTick): (r: seq<Effect>)
    ensures |r| <= 1
    ensures |r| == 1 <==> ActiveFrom(service, tick.active).Some?
    ensures |r| == 1 ==> r[0] == NotifyProgress(listeners, tick.now - ActiveFrom(service, tick.active).value.startRecordingTime)
  {
    match ActiveFrom(service, tick.active)
    case Some(rec) => [NotifyProgress(listeners, tick.now - rec.startRecordingTime)]
    case None => []
  }

  /**
   * startRecording with a service: one start call; on true the listeners hear of the
   * start, the progress task runs once and the on-screen notice shows; otherwise
   * the failure notice shows.
   */
  function DispatchEffects(p: PendingRecording, reply: Reply<bool>, listeners: set<Listener>, tick: ProgressTick): (r: seq<Effect>)
    ensures |r| >= 2 && r[0] == StartRpc(p.phoneNumber, p.creationTime)
    ensures forall i | 1 <= i < |r| :: !r[i].StartRpc?
    ensures NotifyStarted(listeners) in r <==> reply == Answer(true)
  {
    [StartRpc(p.phoneNumber, p.creationTime)]
    + if reply == Answer(true)
      then [NotifyStarted(listeners)] + ProgressEffects(true, listeners, tick) + [Toast(RecordingOnScreen)]
      else [Toast(RecordingFailed)]
  }

  /**
   * finishRecording: with a service, one stop call and, for a returned session, the
   * data-store entry (or the file-location notice when it has no number); then, in
   * every case, one stop notification to all listeners, last.
   */
  function FinishEffects(service: bool, reply: Reply<Option<CallRecording>>, listeners: set<Listener>): (r: seq<Effect>)
    ensures |r| >= 1 && r[|r| - 1] == NotifyStopped(listeners)
    ensures forall i | 0 <= i < |r| - 1 :: !r[i].NotifyStopped?
    ensures StopRpc in r <==> service
    ensures forall i | 0 <= i < |r| :: r[i].SaveRecording? ==> !JavaText.IsEmpty(r[i].recording.phoneNumber)
  {
    var saved :=
      if service && reply.Answer? && reply.value.Some? then
        var rec := reply.value.value;
        if JavaText.IsEmpty(rec.phoneNumber) then [Toast(FileLocation(rec.fileName))] else [SaveRecording(rec)]
      else [];
    (if service then [StopRpc] else []) + saved + [NotifyStopped(listeners)]
  }

  /** Retry bookkeeping after one bind attempt (bindService with scheduleRetry on failure). */
  datatype RetryState = RetryState(count: nat, posted: Option<int>)

  function AfterBind(count: nat, bind: BindResult): (r: RetryState)
    requires count <= MAX_RETRIES
    ensures r.count <= MAX_RETRIES
    ensures r.posted.Some? ==> 1 <= r.count && r.posted.value == RetryDelay(r.count)
    ensures bind == BindInitiated ==> r == RetryState(0, None)
    ensures bind != BindInitiated && count < MAX_RETRIES ==> r.count == count + 1 && r.posted.Some?
    ensures bind != BindInitiated && count == MAX_RETRIES ==> r == RetryState(count, None)
  {
    if bind == BindInitiated then RetryState(0, None)
    else if count < MAX_RETRIES then RetryState(count + 1, Some(RetryDelay(count + 1)))
    else RetryState(count, None)
  }

  /** The effects of one bind attempt: the request, and the failure notice once retries are exhausted. */
  function BindEffects(count: nat, bind: BindResult): seq<Effect> {
    [BindRequest] + if bind != BindInitiated && count >= MAX_RETRIES then [Toast(RecordingFailed)] else []
  }

  class CallRecorder {
    const enabled: bool                     // R.bool.call_recording_enabled
    var initialized: bool
    var service: bool                       // a bound service stub is held
    var pendingRecording: Option<PendingRecording>
    var bindRetryCount: nat
    var retryPosted: Option<int>            // delay of the posted bind retry, if any
    var progressListeners: set<Listener>
    var progressPosts: nat                  // copies of the progress task waiting in the handler
    var allowedByCountry: map<string, bool>
    var effects: seq<Effect>

    ghost predicate Valid()
      reads this
    {
      && bindRetryCount <= MAX_RETRIES
      && (retryPosted.Some? ==> initialized && 1 <= bindRetryCount && retryPosted.value == RetryDelay(bindRetryCount))
      && (service ==> initialized)
    }

    constructor (enabled: bool)
      ensures Valid() && this.enabled == enabled
      ensures !initialized && !service && pendingRecording.None? && bindRetryCount == 0
      ensures retryPosted.None? && progressListeners == {} && progressPosts == 0
      ensures allowedByCountry == map[] && effects == []
    {
      this.enabled := enabled;
      initialized, service, pendingRecording := false, false, None;
      bindRetryCount, retryPosted := 0, None;
      progressListeners, progressPosts := {}, 0;
      allowedByCountry, effects := map[], [];
    }

    /** bindService followed by scheduleRetry when the binding could not be initiated. */
    method BindService(bind: BindResult)
      requires bindRetryCount <= MAX_RETRIES
      modifies this`bindRetryCount, this`retryPosted, this`effects
      ensures RetryState(bindRetryCount, retryPosted) == AfterBind(old(bindRetryCount), bind)
      ensures effects == old(effects) + BindEffects(old(bindRetryCount), bind)
    {
      effects := effects + [BindRequest];
      if bind == BindInitiated {
        bindRetryCount := 0;
        retryPosted := None;
      } else {
        ScheduleRetry();
      }
    }

    /** scheduleRetry: post the next retry with the doubled delay, or give up with a notice. */
    method ScheduleRetry()
      requires bindRetryCount <= MAX_RETRIES
      modifies this`bindRetryCount, this`retryPosted, this`effects
      ensures RetryState(bindRetryCount, retryPosted) == AfterBind(old(bindRetryCount), BindRefused)
      ensures effects == old(effects) + if old(bindRetryCount) >= MAX_RETRIES then [Toast(RecordingFailed)] else []
    {
      if bindRetryCount < MAX_RETRIES {
        bindRetryCount := bindRetryCount + 1;
        retryPosted := Some(RetryDelay(bindRetryCount));
      } else {
        retryPosted := None;
        effects := effects + [Toast(RecordingFailed)];
      }
    }

    /** initialize: when enabled and not yet initialized, reset the count, bind, and mark initialized. */
    method Initialize(bind: BindResult)
      requires Valid()
      modifies this
      ensures Valid()
      ensures old(!enabled || initialized) ==>
        && initialized == old(initialized) && bindRetryCount == old(bindRetryCount)
        && retryPosted == old(retryPosted) && effects == old(effects)
      ensures old(enabled && !initialized) ==>
        && initialized
        && RetryState(bindRetryCount, retryPosted) == AfterBind(0, bind)
        && effects == old(effects) + BindEffects(0, bind)
      ensures service == old(service) && pendingRecording == old(pendingRecording)
      ensures progressListeners == old(progressListeners) && progressPosts == old(progressPosts)
      ensures allowedByCountry == old(allowedByCountry)
    {
      if enabled && !initialized {
        bindRetryCount := 0;
        BindService(bind);
        initialized := true;
      }
    }

    /** The posted retry fires and binds again. */
    method OnRetryTimer(bind: BindResult)
      requires Valid() && retryPosted.Some?
      modifies this
      ensures Valid()
      ensures RetryState(bindRetryCount, retryPosted) == AfterBind(old(bindRetryCount), bind)
      ensures effects == old(effects) + BindEffects(old(bindRetryCount), bind)
      ensures initialized == old(initialized) && service == old(service)
      ensures pendingRecording == old(pendingRecording)
      ensures progressListeners == old(progressListeners) && progressPosts == old(progressPosts)
      ensures allowedByCountry == old(allowedByCountry)
    {
      retryPosted := None;
      BindService(bind);
    }

    /**
     * uninitialize: when initialized, cancel the posted retry, unbind and forget the
     * service. The pending request is kept.
     */
    method Uninitialize()
      requires Valid()
      modifies this
      ensures Valid()
      ensures !old(initialized) ==>
        initialized == old(initialized) && service == old(service) && retryPosted == old(retryPosted) && effects == old(effects)
      ensures old(initialized) ==>
        !initialized && !service && retryPosted.None? && effects == old(effects) + [Unbind]
      ensures pendingRecording == old(pendingRecording) && bindRetryCount == old(bindRetryCount)
      ensures progressListeners == old(progressListeners) && progressPosts == old(progressPosts)
      ensures allowedByCountry == old(allowedByCountry)
    {
      if initialized {
        retryPosted := None;
        effects := effects + [Unbind];
        initialized := false;
        service := false;
      }
    }

    /** One run of the progress task: notify progress if a session is active, and post itself again. */
    method RunProgressTask(tick: ProgressTick)
      modifies this`effects, this`progressPosts
      ensures effects == old(effects) + ProgressEffects(service, progressListeners, tick)
      ensures progressPosts == old(progressPosts) + 1
    {
      var active := ActiveFrom(service, tick.active);
      if active.Some? {
        effects := effects + [NotifyProgress(progressListeners, tick.now - active.value.startRecordingTime)];
      }
      progressPosts := progressPosts + 1;
    }

    /**
     * startRecording. Without a service: queue the request (the latest one wins) and
     * report success when initialized, report failure otherwise. With a service: one
     * start call, whose answer decides the result.
     */
    method StartRecording(phoneNumber: Option<string>, creationTime: int, reply: Reply<bool>, tick: ProgressTick)
      returns (ok: bool)
      requires Valid()
      modifies this
      ensures Valid()
      ensures !service && initialized ==>
        && ok && pendingRecording == Some(PendingRecording(phoneNumber, creationTime))
        && effects == old(effects) + [Toast(RecordingStarting)] && progressPosts == old(progressPosts)
      ensures !service && !initialized ==>
        && !ok && pendingRecording == old(pendingRecording)
        && effects == old(effects) + [Toast(RecordingFailed)] && progressPosts == old(progressPosts)
      ensures service ==>
        && ok == (reply == Answer(true)) && pendingRecording == old(pendingRecording)
        && effects == old(effects) + DispatchEffects(PendingRecording(phoneNumber, creationTime), reply, progressListeners, tick)
        && progressPosts == old(progressPosts) + (if ok then 1 else 0)
      ensures initialized == old(initialized) && service == old(service)
      ensures bindRetryCount == old(bindRetryCount) && retryPosted == old(retryPosted)
      ensures progressListeners == old(progressListeners) && allowedByCountry == old(allowedByCountry)
    {
      if !service {
        if initialized {
          pendingRecording := Some(PendingRecording(phoneNumber, creationTime));
          effects := effects + [Toast(RecordingStarting)];
          return true;
        } else {
          effects := effects + [Toast(RecordingFailed)];
          return false;
        }
      }
      ghost var before := effects;
      var call := [StartRpc(phoneNumber, creationTime)];
      effects := effects + call;
      if reply == Answer(true) {
        effects := effects + [NotifyStarted(progressListeners)];
        RunProgressTask(tick);
        effects := effects + [Toast(RecordingOnScreen)];
        assert effects == before + (call + ([NotifyStarted(progressListeners)] + ProgressEffects(service, progressListeners, tick) + [Toast(RecordingOnScreen)]));
        return true;
      }
      effects := effects + [Toast(RecordingFailed)];
      assert effects == before + (call + [Toast(RecordingFailed)]);
      ok := false;
    }

    /**
     * onServiceConnected: hold the service; a pending request is taken out of its slot
     * and then dispatched, so the slot is empty afterwards and the request is sent once.
     */
    method OnServiceConnected(reply: Reply<bool>, tick: ProgressTick)
      requires Valid() && initialized
      modifies this
      ensures Valid()
      ensures service && pendingRecording.None?
      ensures old(pendingRecording).None? ==> effects == old(effects) && progressPosts == old(progressPosts)
      ensures old(pendingRecording).Some? ==>
        && effects == old(effects) + DispatchEffects(old(pendingRecording).value, reply, progressListeners, tick)
        && progressPosts == old(progressPosts) + (if reply == Answer(true) then 1 else 0)
      ensures initialized && bindRetryCount == old(bindRetryCount) && retryPosted == old(retryPosted)
      ensures progressListeners == old(progressListeners) && allowedByCountry == old(allowedByCountry)
    {
      service := true;
      if pendingRecording.Some? {
        var pending := pendingRecording.value;
        pendingRecording := None;
        var _ := StartRecording(pending.phoneNumber, pending.creationTime, reply, tick);
      }
    }

    /** onServiceDisconnected: forget the service; nothing else changes. */
    method OnServiceDisconnected()
      requires Valid()
      modifies this`service
      ensures Valid() && !service
    {
      service := false;
    }

    /** isRecording, asked of the service. */
    function IsRecording(reply: Reply<bool>): (r: bool)
      reads this
      ensures r ==> service
    {
      RecordingFrom(service, reply)
    }

    /** getActiveRecording, asked of the service. */
    function GetActiveRecording(reply: Reply<Option<CallRecording>>): (r: Option<CallRecording>)
      reads this
      ensures r.Some? ==> service && reply == Answer(r)
    {
      ActiveFrom(service, reply)
    }

    /**
     * finishRecording: stop through the service when there is one, then always tell
     * every listener of the stop and remove every posted copy of the progress task.
     */
    method FinishRecording(reply: Reply<Option<CallRecording>>)
      requires Valid()
      modifies this`effects, this`progressPosts
      ensures effects == old(effects) + FinishEffects(service, reply, progressListeners)
      ensures progressPosts == 0
    {
      if service {
        effects := effects + [StopRpc];
        if reply.Answer? && reply.value.Some? {
          var recording := reply.value.value;
          if !JavaText.IsEmpty(recording.phoneNumber) {
            effects := effects + [SaveRecording(recording)];
          } else {
            effects := effects + [Toast(FileLocation(recording.fileName))];
          }
        }
      }
      effects := effects + [NotifyStopped(progressListeners)];
      progressPosts := 0;
    }

    /** A posted copy of the progress task runs; it posts itself again unconditionally. */
    method OnProgressTick(tick: ProgressTick)
      requires Valid() && progressPosts > 0
      modifies this`effects
      ensures effects == old(effects) + ProgressEffects(service, progressListeners, tick)
      ensures progressPosts == old(progressPosts)
    {
      var active := ActiveFrom(service, tick.active);
      if active.Some? {
        effects := effects + [NotifyProgress(progressListeners, tick.now - active.value.startRecordingTime)];
      }
    }

    /**
     * onCallListChange: the first active call initializes; otherwise, when the active
     * session's number belongs to a call on hold, the recording is finished.
     */
    method OnCallListChange(activeCallExists: bool, onHold: set<Option<string>>, bind: BindResult,
                            activeReply: Reply<Option<CallRecording>>, stopReply: Reply<Option<CallRecording>>)
      requires Valid()
      modifies this
      ensures Valid()
      ensures !old(initialized) && activeCallExists ==>
        && progressPosts == old(progressPosts)
        && (enabled ==>
              initialized && effects == old(effects) + BindEffects(0, bind) && RetryState(bindRetryCount, retryPosted) == AfterBind(0, bind))
        && (!enabled ==> !initialized && effects == old(effects) && retryPosted == old(retryPosted))
      ensures old(initialized) || !activeCallExists ==>
        var active := ActiveFrom(old(service), activeReply);
        && initialized == old(initialized) && retryPosted == old(retryPosted)
        && bindRetryCount == old(bindRetryCount)
        && if active.Some? && active.value.phoneNumber in onHold
           then effects == old(effects) + FinishEffects(old(service), stopReply, progressListeners) && progressPosts == 0
           else effects == old(effects) && progressPosts == old(progressPosts)
      ensures service == old(service) && pendingRecording == old(pendingRecording)
      ensures progressListeners == old(progressListeners) && allowedByCountry == old(allowedByCountry)
    {
      if !initialized && activeCallExists {
        Initialize(bind);
      } else {
        var active := GetActiveRecording(activeReply);
        if active.Some? && active.value.phoneNumber in onHold {
          FinishRecording(stopReply);
        }
      }
    }

    /**
     * onDisconnect: finish the recording exactly when the disconnected call's number
     * equals the active session's number, then uninitialize exactly when no active
     * call remains.
     */
    method OnDisconnect(number: Option<string>, activeReply: Reply<Option<CallRecording>>,
                        stopReply: Reply<Option<CallRecording>>, activeCallRemains: bool)
      requires Valid()
      modifies this
      ensures Valid()
      ensures var active := ActiveFrom(old(service), activeReply);
        var finished := active.Some? && active.value.phoneNumber == number;
        var torn := !activeCallRemains && old(initialized);
        && effects == old(effects)
             + (if finished then FinishEffects(old(service), stopReply, progressListeners) else [])
             + (if torn then [Unbind] else [])
        && progressPosts == (if finished then 0 else old(progressPosts))
        && initialized == (old(initialized) && !torn)
        && service == (old(service) && !torn)
        && retryPosted == (if torn then None else old(retryPosted))
      ensures pendingRecording == old(pendingRecording) && bindRetryCount == old(bindRetryCount)
      ensures progressListeners == old(progressListeners) && allowedByCountry == old(allowedByCountry)
    {
      var active := GetActiveRecording(activeReply);
      if active.Some? && active.value.phoneNumber == number {
        FinishRecording(stopReply);
      }
      if !activeCallRemains {
        Uninitialize();
      }
    }

    method AddRecordingProgressListener(listener: Listener)
      modifies this`progressListeners
      ensures progressListeners == old(progressListeners) + {listener}
    {
      progressListeners := progressListeners + {listener};
    }

    method RemoveRecordingProgressListener(listener: Listener)
      modifies this`progressListeners
      ensures progressListeners == old(progressListeners) - {listener}
    {
      progressListeners := progressListeners - {listener};
    }

    /** Put every upper-cased piece of one iso list into the table. */
    method PutPieces(pieces: seq<string>, v: bool)
      modifies this`allowedByCountry
      ensures allowedByCountry == PutKeys(old(allowedByCountry), pieces, v)
    {
      var j := 0;
      while j < |pieces|
        invariant 0 <= j <= |pieces|
        invariant PutKeys(old(allowedByCountry), pieces, v) == PutKeys(allowedByCountry, pieces[j..], v)
      {
        assert pieces[j..][1..] == pieces[j + 1..];
        allowedByCountry := allowedByCountry[JavaText.Upper(pieces[j]) := v];
        j := j + 1;
      }
    }

    /** loadAllowedStates: fill the table from the document; on any failure clear it. */
    method LoadAllowedStates(doc: PolicyDocument)
      modifies this`allowedByCountry
      ensures allowedByCountry == LoadResult(old(allowedByCountry), doc)
    {
      if doc.rootTag != ROOT_TAG {
        allowedByCountry := map[];
        return;
      }
      var i := 0;
      while i < |doc.events|
        invariant 0 <= i <= |doc.events|
        invariant ApplyEvents(old(allowedByCountry), doc.events) == ApplyEvents(allowedByCountry, doc.events[i..])
      {
        var ev := doc.events[i];
        assert doc.events[i..][1..] == doc.events[i + 1..];
        if ev.OtherEvent? {
          i := i + 1;
          continue;
        }
        if IsRejected(ev) {
          allowedByCountry := map[];
          return;
        }
        PutPieces(JavaText.JavaSplitComma(ev.iso.value), ev.allowed == Some("true"));
        i := i + 1;
      }
    }

    /**
     * canRecordInCurrentCountry: false when disabled; otherwise the table is loaded if
     * it is empty, and the country is allowed only when the table says true for it
     * (an unknown country, null included, is not).
     */
    method CanRecordInCurrentCountry(countryIso: Option<string>, doc: PolicyDocument) returns (r: bool)
      modifies this`allowedByCountry
      ensures !enabled ==> !r && allowedByCountry == old(allowedByCountry)
      ensures enabled && old(allowedByCountry) == map[] ==> allowedByCountry == LoadResult(map[], doc)
      ensures enabled && old(allowedByCountry) != map[] ==> allowedByCountry == old(allowedByCountry)
      ensures r <==> enabled && countryIso.Some? && Allowed(allowedByCountry, countryIso.value)
    {
      if !enabled {
        return false;
      }
      if |allowedByCountry| == 0 {
        LoadAllowedStates(doc);
      }
      r := countryIso.Some? && countryIso.value in allowedByCountry && allowedByCountry[countryIso.value];
    }
  }

  /**
   * Binding is refused every time: the retries wait 2, 4 and 8 seconds, and after the
   * third retry the failure notice shows and nothing more is posted.
   */
  method BackoffScenario() returns (delays: seq<int>, last: Effect, posted: Option<int>)
    ensures delays == [2000, 4000, 8000]
    ensures last == Toast(RecordingFailed) && posted.None?
  {
    var recorder := new CallRecorder(true);
    recorder.Initialize(BindRefused);
    delays := [];
    while recorder.retryPosted.Some?
      invariant recorder.Valid() && recorder.initialized && |delays| <= MAX_RETRIES
      invariant recorder.retryPosted.Some? ==> |delays| + 1 == recorder.bindRetryCount
      invariant recorder.retryPosted.None? ==> |delays| == MAX_RETRIES
      invariant |recorder.effects| >= 1
      invariant recorder.retryPosted.None? ==> recorder.effects[|recorder.effects| - 1] == Toast(RecordingFailed)
      invariant delays == [2000, 4000, 8000][..|delays|]
      decreases MAX_RETRIES - |delays|
      modifies recorder
    {
      delays := delays + [recorder.retryPosted.value];
      recorder.OnRetryTimer(BindRefused);
    }
    last := recorder.effects[|recorder.effects| - 1];
    posted := recorder.retryPosted;
  }

  /**
   * A start request made while the binding is in progress is queued and reported as
   * started; when the service connects it is sent exactly once and the slot is empty.
   */
  method QueuedStartScenario() returns (log: seq<Effect>, queuedOk: bool, slot: Option<PendingRecording>)
    ensures queuedOk && slot.None?
    ensures log == [BindRequest, Toast(RecordingStarting), StartRpc(Some("+15550100"), 10),
                    NotifyStarted({}), Toast(RecordingOnScreen)]
  {
    var recorder := new CallRecorder(true);
    var idle := ProgressTick(Answer(None), 20);
    recorder.Initialize(BindInitiated);
    queuedOk := recorder.StartRecording(Some("+15550100"), 10, RemoteFault, idle);
    recorder.OnServiceConnected(Answer(true), idle);
    log := recorder.effects;
    slot := recorder.pendingRecording;
  }

  /**
   * Tearing down keeps a queued request: after the next call binds again, the request
   * made during the earlier call is still sent when the service connects.
   */
  method StaleRequestScenario() returns (log: seq<Effect>)
    ensures StartRpc(Some("+15550100"), 10) in log
    ensures log == [BindRequest, Toast(RecordingStarting), Unbind, BindRequest,
                    StartRpc(Some("+15550100"), 10), Toast(RecordingFailed)]
  {
    var recorder := new CallRecorder(true);
    var idle := ProgressTick(Answer(None), 20);
    recorder.Initialize(BindInitiated);
    var _ := recorder.StartRecording(Some("+15550100"), 10, RemoteFault, idle);
    recorder.OnDisconnect(Some("+15550100"), RemoteFault, RemoteFault, false);
    recorder.Initialize(BindInitiated);
    recorder.OnServiceConnected(Answer(false), idle);
    log := recorder.effects;
  }

  /** The policy document used by PolicyScenario. */
  function ScenarioDocument(): PolicyDocument {
    PolicyDocument(ROOT_TAG, [
      StartTag(COUNTRY_TAG, Some("us,ca"), Some("true")),
      OtherEvent,
      StartTag(COUNTRY_TAG, Some("DE"), Some("false"))])
  }

  lemma SplitScenarioList()
    ensures JavaText.JavaSplitComma("us,ca") == ["us", "ca"]
  {
    var parts := ["us", "ca"];
    assert JavaText.Join(parts, ',') == "us,ca";
    JavaText.JoinSplits(parts, ',');
  }

  lemma PutScenarioKeys()
    ensures PutKeys(map[], ["us", "ca"], true) == map["US" := true, "CA" := true]
    ensures PutKeys(map["US" := true, "CA" := true], ["DE"], false) == map["US" := true, "CA" := true, "DE" := false]
  {
    assert JavaText.Upper("us") == "US";
    assert JavaText.Upper("ca") == "CA";
    assert JavaText.Upper("DE") == "DE";
    assert ["us", "ca"][1..] == ["ca"];
    assert ["us", "ca"][1..][1..] == [];
    assert ["DE"][1..] == [];
  }

  /** The two records of the sample document, applied one at a time. */
  lemma ApplyScenarioRecords(doc: PolicyDocument)
    requires doc == ScenarioDocument()
    ensures !IsRejected(doc.events[0]) && !IsRejected(doc.events[1]) && !IsRejected(doc.events[2])
    ensures ApplyRecord(map[], doc.events[0]) == map["US" := true, "CA" := true]
    ensures ApplyRecord(map["US" := true, "CA" := true], doc.events[1]) == map["US" := true, "CA" := true]
    ensures ApplyRecord(map["US" := true, "CA" := true], doc.events[2]) == map["US" := true, "CA" := true, "DE" := false]
  {
    SplitScenarioList();
    PutScenarioKeys();
    assert JavaText.JavaSplitComma("DE") == ["DE"];
  }

  lemma LoadScenarioDocument(doc: PolicyDocument)
    requires doc == ScenarioDocument()
    ensures LoadResult(map[], doc) == map["US" := true, "CA" := true, "DE" := false]
  {
    ApplyScenarioRecords(doc);
    var ev := doc.events;
    assert ev[1..][1..] == ev[2..] && ev[2..][1..] == [];
    calc {
      ApplyEvents(map[], ev);
      ApplyEvents(map["US" := true, "CA" := true], ev[1..]);
      ApplyEvents(map["US" := true, "CA" := true], ev[2..]);
      ApplyEvents(map["US" := true, "CA" := true, "DE" := false], []);
    }
  }

  /** What the sample table answers. */
  lemma ScenarioTableAnswers(m: map<string, bool>)
    requires m == map["US" := true, "CA" := true, "DE" := false]
    ensures Allowed(m, "US") && Allowed(m, "CA") && !Allowed(m, "DE") && !Allowed(m, "FR") && !Allowed(m, "us")
  {
    assert "us" != "US" && "us" != "CA" && "us" != "DE";
    assert "FR" != "US" && "FR" != "CA" && "FR" != "DE";
  }

  /** A small table: "us,ca" allowed, "DE" not; other countries, and lower-case keys, are not allowed. */
  lemma PolicyScenario(doc: PolicyDocument)
    requires doc == ScenarioDocument()
    ensures var m := LoadResult(map[], doc);
      Allowed(m, "US") && Allowed(m, "CA") && !Allowed(m, "DE") && !Allowed(m, "FR") && !Allowed(m, "us")
  {
    LoadScenarioDocument(doc);
    ScenarioTableAnswers(LoadResult(map[], doc));
  }
}
