# Call recording control plane of the dialer, modelled in Dafny

The dialer records calls through a small control plane with two parts:

- **`CallRecorderService`** is the recording engine. It owns a single `MediaRecorder` and the session (`CallRecording`) being captured.
  - Starting a session first stops any session still running, then checks the record permission.
  - It then walks an audio-source fallback chain, picks an output format and builds a file name.
  - Next it inserts a pending MediaStore entry, then prepares and starts the recorder.
  - Stopping a session marks its entry completed.
- **`CallRecorder`** is the in-call client of that engine. It does the following:
  - binds to the service, retrying with exponential backoff;
  - queues one start request while the binding is in progress;
  - forwards start and stop to the service and tells progress listeners;
  - reacts to hold and disconnect events;
  - decides from an XML country table whether recording is allowed.

Beside them sit three smaller pieces:

- the fast-scroll letter index of the contacts list (`ContactsFragment`);
- the package-name guard in front of a root `pm grant` command (`PermissionGranter`);
- the required and denied runtime-permission lists and their labels (`PermissionManager`).

## Modules

- **`Wrappers`**: the `Option` type.
- **`JavaText`**: the parts of `java.lang.String` the code relies on.
  - `trim`, upper-casing of ASCII letters, `contains`.
  - `split(",")`, which drops trailing empty strings.
  - A general split-on-character with its inverse `Join`.
- **`EngineSpec`**: the engine as a pure state machine over `EngineState`.
  - Its fields are the `mMediaRecorder` handle, `mCurrentRecording`, the set of recorder handles not yet released, the MediaStore catalog (entry id to pending or completed), and the sequence of `setAudioSource` calls.
  - Everything the platform decides is an input in `StartEnv` / `StopOutcome`: whether a source is accepted, whether configuration, prepare and start throw, the clock and the date string.
  - An exception that escapes is the outcome `Propagated`.
- **`Engine`**: the class `CallRecorderService`. Its methods change the fields step by step, as the Java does, and each method is proved to land exactly on the `EngineSpec` state.
- **`Supervisor`**: the class `CallRecorder` and the country policy loader.
  - Bind results, remote-call replies (`Answer` or `RemoteFault`) and timer firings are inputs.
  - Toasts, listener notifications, remote calls, unbinding and data-store writes are appended to an `effects` log.
- **`Contacts`**: the index map and the selection-target resolution, plus the class `ContactsFragment` with the fields `onLoadFinished` / `onLoaderReset` update.
- **`Granter`**: the package-name regular expression, the grant command string, and the early-return sequence of `attemptGrantCaptureAudioOutputSync`.
- **`Permissions`**: the required list, the denied filter, the class `PermissionManager`, and the display-name and explanation maps.

## Model

| member | source | states |
|---|---|---|
| Engine.CallRecorderService.IsRecording | app/src/main/java/com/fissy/dialer/callrecord/impl/CallRecorderService.java:67-72 | true iff a recorder handle is held; an active session implies recording |
| Engine.CallRecorderService.GetActiveRecording | app/src/main/java/com/fissy/dialer/callrecord/impl/CallRecorderService.java:74-78 | returns the current session and changes nothing; an active session holds a live recorder and a pending catalog entry |
| Engine.CallRecorderService.StopRecordingInternal | app/src/main/java/com/fissy/dialer/callrecord/impl/CallRecorderService.java:267-291 | the new state and the result are exactly the stop of the reference machine, and the engine invariant is kept |
| Engine.CallRecorderService.AttachAudioSource | app/src/main/java/com/fissy/dialer/callrecord/impl/CallRecorderService.java:145-196 | sources are offered in chain order; each one gets a fresh recorder and each refused recorder is released; the source is set iff some source of the chain is accepted; the recorder of the last attempt stays held; session and catalog are unchanged |
| Engine.CallRecorderService.StartRecordingInternal | app/src/main/java/com/fissy/dialer/callrecord/impl/CallRecorderService.java:129-265 | the new state and the result are exactly the start of the reference machine, and the engine invariant is kept |
| Engine.CallRecorderService.StartWhenIdle | app/src/main/java/com/fissy/dialer/callrecord/impl/CallRecorderService.java:137-264 | from an idle engine: permission check, fallback chain, format, insert and launch land exactly on the reference machine's state and result |
| Engine.SupersedeScenario | app/src/main/java/com/fissy/dialer/callrecord/impl/CallRecorderService.java:132-135 | two successful starts in a row: both return true and the second number is the active session |
| EngineSpec.SourceChain | app/src/main/java/com/fissy/dialer/callrecord/impl/CallRecorderService.java:93-109 | the chain has three sources: the SDK-tier primary (VOICE_RECOGNITION from Android S, VOICE_COMMUNICATION from Android Q, the configured source before that), then VOICE_RECOGNITION, then MIC |
| EngineSpec.FirstAccepted | app/src/main/java/com/fissy/dialer/callrecord/impl/CallRecorderService.java:151-196 | the index of the first accepted source: no earlier source is accepted, and the found one is |
| EngineSpec.ParseInt | app/src/main/java/com/fissy/dialer/callrecord/impl/CallRecorderService.java:111-127 | `Integer.parseInt`: a parsed value lies in the 32-bit range, and the empty string does not parse |
| EngineSpec.Decimal | app/src/main/java/com/fissy/dialer/callrecord/impl/CallRecorderService.java:111-127 | a decimal rendering is non-empty, digits only and unsigned |
| EngineSpec.DecimalValue | app/src/main/java/com/fissy/dialer/callrecord/impl/CallRecorderService.java:111-127 | the digits of a decimal rendering denote the number rendered |
| EngineSpec.ParseIntDecimal | app/src/main/java/com/fissy/dialer/callrecord/impl/CallRecorderService.java:111-127 | parsing the decimal rendering of any int-range number gives it back |
| EngineSpec.FormatChoice | app/src/main/java/com/fissy/dialer/callrecord/impl/CallRecorderService.java:111-127 | a missing or unparsable preference gives 0; otherwise the parsed value |
| EngineSpec.FormatFor | app/src/main/java/com/fissy/dialer/callrecord/impl/CallRecorderService.java:205-223 | choice 0 iff AMR_WB output, and that iff the AMR_WB encoder, with no rates set; the AAC encoder comes with 128000 bps and 44100 Hz |
| EngineSpec.NumberPart | app/src/main/java/com/fissy/dialer/callrecord/impl/CallRecorderService.java:299-309 | the number part of a file name is never empty ("unknown" stands in for an empty number) |
| EngineSpec.FileNameDecodes | app/src/main/java/com/fissy/dialer/callrecord/impl/CallRecorderService.java:299-309 | a file name splits back into number part, "_", the timestamp and an extension, which is ".amr" iff the format is AMR_WB |
| EngineSpec.StopReturnsPriorSession | app/src/main/java/com/fissy/dialer/callrecord/impl/CallRecorderService.java:267-291 | stop returns the session held before the call; when idle it changes nothing and returns null |
| EngineSpec.StopCompletesSession | app/src/main/java/com/fissy/dialer/callrecord/impl/CallRecorderService.java:267-291 | stopping an active session marks its entry completed and clears both fields, also when the recorder's stop throws IllegalStateException; only a successful stop releases the recorder, otherwise the handle leaks |
| EngineSpec.StopPreservesInv | app/src/main/java/com/fissy/dialer/callrecord/impl/CallRecorderService.java:267-291 | stop keeps the engine invariant: at most one recorder held, the session's entry pending, every other entry completed |
| EngineSpec.StartWithoutPermission | app/src/main/java/com/fissy/dialer/callrecord/impl/CallRecorderService.java:137-141 | without the record permission, start returns false and allocates no recorder (only an unexpected fault of the stale stop escapes) |
| EngineSpec.StartTriesSourcesInOrder | app/src/main/java/com/fissy/dialer/callrecord/impl/CallRecorderService.java:145-203 | one to three sources are tried, strictly in chain order, one fresh recorder each, stopping at the first accepted one; when all are refused, start returns false with no recorder and no catalog entry |
| EngineSpec.StartLateFailure | app/src/main/java/com/fissy/dialer/callrecord/impl/CallRecorderService.java:231-264 | a failure after the insert deletes the entry and leaves no session; IOException, IllegalStateException or a runtime "start failed" release the recorder and return false, without retrying weaker sources; any other runtime exception propagates with the recorder still held |
| EngineSpec.StartSucceeds | app/src/main/java/com/fissy/dialer/callrecord/impl/CallRecorderService.java:225-235 | a successful start holds a session with the given number, time and generated file name, whose entry is a freshly inserted pending one |
| EngineSpec.StartSupersedesSession | app/src/main/java/com/fissy/dialer/callrecord/impl/CallRecorderService.java:132-135 | starting over an active session completes the old entry, and any new session is a different entry |
| EngineSpec.StartLeaksOnlyThroughStop | app/src/main/java/com/fissy/dialer/callrecord/impl/CallRecorderService.java:129-265 | the start sequence itself leaks no recorder; only the stale stop can |
| EngineSpec.StartPreservesInv | app/src/main/java/com/fissy/dialer/callrecord/impl/CallRecorderService.java:129-265 | start keeps the engine invariant (at most one session, no orphaned pending entry) |
| EngineSpec.StartAfterStopPreservesInv | app/src/main/java/com/fissy/dialer/callrecord/impl/CallRecorderService.java:137-264 | the start sequence from an idle engine keeps the engine invariant |
| EngineSpec.WedgedEngineRejectsStarts | app/src/main/java/com/fissy/dialer/callrecord/impl/CallRecorderService.java:132-135 | with a recorder held but no session, every start throws (the stop dereferences the missing session) and the catalog is unchanged |
| EngineSpec.UnexpectedRuntimeFaultWedges | app/src/main/java/com/fissy/dialer/callrecord/impl/CallRecorderService.java:247-259 | a runtime exception other than "start failed" leaves the engine holding a recorder with no session |
| Supervisor.Pow2 | app/src/main/java/com/android/incallui/call/CallRecorder.java:209 | a power of two is at least 1 |
| Supervisor.RetryDelay | app/src/main/java/com/android/incallui/call/CallRecorder.java:205-211 | the delay of retry n, for n from 1 to 3, is 2000, 4000 and 8000 ms |
| Supervisor.RetryDelayIsScaledPower | app/src/main/java/com/android/incallui/call/CallRecorder.java:209 | the 64-bit shift `2000 << (n-1)` equals 2000·2^(n-1), so it never wraps for the three retries |
| Supervisor.RetryDelayDoubles | app/src/main/java/com/android/incallui/call/CallRecorder.java:209 | each retry waits twice as long as the previous one |
| Supervisor.MaskNumber | app/src/main/java/com/android/incallui/call/CallRecorder.java:251-253 | the mask is "***" plus the last four characters iff the number is longer than four, "****" otherwise; it never shows more than four characters |
| Supervisor.MaskRevealsOnlyLastFour | app/src/main/java/com/android/incallui/call/CallRecorder.java:251-253 | two numbers with the same last four characters mask identically |
| Supervisor.PutKeysEffect | app/src/main/java/com/android/incallui/call/CallRecorder.java:481-484 | putting an iso list adds exactly the upper-cased pieces, each with the record's value; other keys are unchanged |
| Supervisor.ApplyFailsClosed | app/src/main/java/com/android/incallui/call/CallRecorder.java:473-494 | any non-country tag, missing iso, or `allowed` other than "true"/"false", or a read error, makes the load fail |
| Supervisor.ApplyUntouched | app/src/main/java/com/android/incallui/call/CallRecorder.java:477-487 | a key no record names keeps its earlier presence and value |
| Supervisor.ApplyLastWins | app/src/main/java/com/android/incallui/call/CallRecorder.java:477-487 | the last record naming a key decides its value |
| Supervisor.ApplyRecordEffect | app/src/main/java/com/android/incallui/call/CallRecorder.java:477-487 | one record sets every key it names to whether its allowed attribute is "true", and leaves every other key as it was |
| Supervisor.ApplyRecordKeepsUpper | app/src/main/java/com/android/incallui/call/CallRecorder.java:481-484 | one record keeps every key of the table upper-cased |
| Supervisor.ApplyKeepsUpper | app/src/main/java/com/android/incallui/call/CallRecorder.java:481-484 | loading keeps every key upper-cased |
| Supervisor.LoadFromEmpty | app/src/main/java/com/android/incallui/call/CallRecorder.java:465-497 | a wrong root element or any rejected record leaves the table empty; otherwise every key is upper case and comes from some record |
| Supervisor.ActiveFrom | app/src/main/java/com/android/incallui/call/CallRecorder.java:318-329 | with no service or a RemoteException there is no active recording; otherwise it is the service's answer |
| Supervisor.RecordingFrom | app/src/main/java/com/android/incallui/call/CallRecorder.java:305-316 | recording iff a service is bound and it answers true |
| Supervisor.ProgressEffects | app/src/main/java/com/android/incallui/call/CallRecorder.java:451-463 | one progress notification, with the elapsed time since the session started, exactly when there is an active recording |
| Supervisor.DispatchEffects | app/src/main/java/com/android/incallui/call/CallRecorder.java:281-302 | one start call to the service; listeners hear "started" iff the service answers true |
| Supervisor.FinishEffects | app/src/main/java/com/android/incallui/call/CallRecorder.java:331-375 | every path ends with the stop notice to every listener, and only there; the stop call is made iff a service is bound; a recording is saved only when its number is not empty |
| Supervisor.AfterBind | app/src/main/java/com/android/incallui/call/CallRecorder.java:170-226 | a started bind resets the count and posts nothing; a failed one below 3 increments the count and posts the matching delay; at 3 nothing is posted; the count never exceeds 3 |
| Supervisor.CallRecorder.constructor | app/src/main/java/com/android/incallui/call/CallRecorder.java:144-147 | starts uninitialized, unbound, with no pending request, no retry, no listeners and an empty table |
| Supervisor.CallRecorder.BindService | app/src/main/java/com/android/incallui/call/CallRecorder.java:170-203 | the retry state moves as `AfterBind` says and the bind request and any retry effect are logged |
| Supervisor.CallRecorder.ScheduleRetry | app/src/main/java/com/android/incallui/call/CallRecorder.java:205-226 | below 3: count + 1 and a retry posted with the doubled delay; at 3: nothing posted and a failure notice |
| Supervisor.CallRecorder.Initialize | app/src/main/java/com/android/incallui/call/CallRecorder.java:157-168 | does nothing when disabled or already initialized; otherwise resets the count, binds, and sets initialized whatever the bind result |
| Supervisor.CallRecorder.OnRetryTimer | app/src/main/java/com/android/incallui/call/CallRecorder.java:213-222 | a retry firing binds again, with the same retry rules |
| Supervisor.CallRecorder.Uninitialize | app/src/main/java/com/android/incallui/call/CallRecorder.java:228-247 | no-op when not initialized; otherwise unbinds, drops the service and the posted retry, and keeps the pending request |
| Supervisor.CallRecorder.RunProgressTask | app/src/main/java/com/android/incallui/call/CallRecorder.java:451-463 | reports progress when there is an active recording, and reposts itself unconditionally |
| Supervisor.CallRecorder.StartRecording | app/src/main/java/com/android/incallui/call/CallRecorder.java:249-303 | with no service: if initialized, the pending slot is overwritten and the call returns true; otherwise it returns false; with a service: the result is the service's answer |
| Supervisor.CallRecorder.OnServiceConnected | app/src/main/java/com/android/incallui/call/CallRecorder.java:97-109 | the slot is empty afterwards and a pending request is dispatched exactly once |
| Supervisor.CallRecorder.OnServiceDisconnected | app/src/main/java/com/android/incallui/call/CallRecorder.java:111-115 | the service is gone |
| Supervisor.CallRecorder.IsRecording | app/src/main/java/com/android/incallui/call/CallRecorder.java:305-316 | recording implies a bound service |
| Supervisor.CallRecorder.GetActiveRecording | app/src/main/java/com/android/incallui/call/CallRecorder.java:318-329 | an active recording is the bound service's own answer |
| Supervisor.CallRecorder.FinishRecording | app/src/main/java/com/android/incallui/call/CallRecorder.java:331-375 | always notifies every listener of the stop and cancels the progress task, whatever the service does |
| Supervisor.CallRecorder.OnProgressTick | app/src/main/java/com/android/incallui/call/CallRecorder.java:451-463 | a posted progress task that fires reports progress and stays posted |
| Supervisor.CallRecorder.OnCallListChange | app/src/main/java/com/android/incallui/call/CallRecorder.java:386-403 | the first active call initializes; otherwise the recording is finished iff the active session's number is on hold |
| Supervisor.CallRecorder.OnDisconnect | app/src/main/java/com/android/incallui/call/CallRecorder.java:406-417 | finishes iff the disconnected number equals the active session's number, and tears down iff no active call remains and the recorder was initialized |
| Supervisor.CallRecorder.AddRecordingProgressListener | app/src/main/java/com/android/incallui/call/CallRecorder.java:441-443 | the listener set gains the listener |
| Supervisor.CallRecorder.RemoveRecordingProgressListener | app/src/main/java/com/android/incallui/call/CallRecorder.java:445-447 | the listener set loses the listener |
| Supervisor.CallRecorder.PutPieces | app/src/main/java/com/android/incallui/call/CallRecorder.java:481-484 | the loop puts every upper-cased piece with the record's value |
| Supervisor.CallRecorder.LoadAllowedStates | app/src/main/java/com/android/incallui/call/CallRecorder.java:465-497 | the table becomes the result of the loaded records, or empty on any rejection |
| Supervisor.CallRecorder.CanRecordInCurrentCountry | app/src/main/java/com/android/incallui/call/CallRecorder.java:130-142 | false when disabled; the table is (re)loaded exactly when it is empty; true iff the country's iso is allowed in the table |
| Supervisor.BackoffScenario | app/src/main/java/com/android/incallui/call/CallRecorder.java:205-226 | three failed binds post retries at 2000, 4000 and 8000 ms; the fourth fails with a notice and posts nothing |
| Supervisor.QueuedStartScenario | app/src/main/java/com/android/incallui/call/CallRecorder.java:97-109 | a start queued during binding is dispatched on connect, exactly once |
| Supervisor.StaleRequestScenario | app/src/main/java/com/android/incallui/call/CallRecorder.java:228-247 | a request queued before a teardown is still dispatched after the next connect |
| Supervisor.SplitScenarioList | app/src/main/java/com/android/incallui/call/CallRecorder.java:481 | "us,ca" splits into "us" and "ca" |
| Supervisor.PutScenarioKeys | app/src/main/java/com/android/incallui/call/CallRecorder.java:481-484 | the sample records put US, CA as allowed and DE as denied |
| Supervisor.ApplyScenarioRecords | app/src/main/java/com/android/incallui/call/CallRecorder.java:473-494 | the sample document's records are all accepted: the first adds US and CA as allowed, the unknown tag changes nothing, the last adds DE as denied |
| Supervisor.LoadScenarioDocument | app/src/main/java/com/android/incallui/call/CallRecorder.java:465-497 | the sample document loads to US, CA allowed and DE denied |
| Supervisor.ScenarioTableAnswers | app/src/main/java/com/android/incallui/call/CallRecorder.java:130-142 | a table of US and CA allowed and DE denied allows US and CA and refuses DE, FR and a lower-case "us" |
| Supervisor.PolicyScenario | app/src/main/java/com/android/incallui/call/CallRecorder.java:130-142 | in the sample table US and CA are allowed; DE, an absent country and a lower-case key are not |
| Contacts.IndexKey | app/src/main/java/com/fissy/dialer/contactsfragment/ContactsFragment.java:124 | the key is "#" when the header trims to empty, otherwise its upper-cased first character |
| Contacts.SectionKeys | app/src/main/java/com/fissy/dialer/contactsfragment/ContactsFragment.java:121-124 | one key per item, none for a null header |
| Contacts.FirstPositionsAreFirst | app/src/main/java/com/fissy/dialer/contactsfragment/ContactsFragment.java:121-127 | a key is mapped iff some item has it, and it maps to the smallest such position |
| Contacts.FirstPositions | app/src/main/java/com/fissy/dialer/contactsfragment/ContactsFragment.java:121-127 | every position the loop stores lies in [0, itemCount), and the item there has that key |
| Contacts.BuildIndex | app/src/main/java/com/fissy/dialer/contactsfragment/ContactsFragment.java:117-128 | every mapped position lies in [0, itemCount), and the header there yields that key |
| Contacts.BuildIndexFirstPositions | app/src/main/java/com/fissy/dialer/contactsfragment/ContactsFragment.java:117-128 | a key is in the index iff some header yields it, and its value is the first such position |
| Contacts.IndicatorText | app/src/main/java/com/fissy/dialer/contactsfragment/ContactsFragment.java:134-144 | the indicator is "#" for a null or empty header, else the upper-cased first character |
| Contacts.IndicatorMatchesKey | app/src/main/java/com/fissy/dialer/contactsfragment/ContactsFragment.java:124-144 | for a header not starting with a space or control character, the shown indicator is its index key |
| Contacts.ResolveTargetInRange | app/src/main/java/com/fissy/dialer/contactsfragment/ContactsFragment.java:175-216 | any scroll target is a valid position; there is none iff the text does not map and the item position is out of range |
| Contacts.SelectingShownIndicatorJumpsToSectionStart | app/src/main/java/com/fissy/dialer/contactsfragment/ContactsFragment.java:134-216 | selecting the indicator shown for an item scrolls to the first item with the same key |
| Contacts.ContactsFragment.constructor | app/src/main/java/com/fissy/dialer/contactsfragment/ContactsFragment.java:75 | starts with an empty index and no scroller set up |
| Contacts.ContactsFragment.RebuildIndex | app/src/main/java/com/fissy/dialer/contactsfragment/ContactsFragment.java:117-128 | the index is cleared and rebuilt from scratch from the current headers |
| Contacts.ContactsFragment.SetupScroller | app/src/main/java/com/fissy/dialer/contactsfragment/ContactsFragment.java:146-157 | no setup once done; the flag is set on success or IllegalStateException and not on other failures |
| Contacts.ContactsFragment.OnLoadFinished | app/src/main/java/com/fissy/dialer/contactsfragment/ContactsFragment.java:99-227 | a null or empty cursor shows the empty view and leaves the index untouched; otherwise the index is rebuilt and set up at most once, and one selection callback is registered per load; only a non-empty load needs the adapter |
| Contacts.ContactsFragment.AttachAdapter | app/src/main/java/com/fissy/dialer/contactsfragment/ContactsFragment.java:71 | a new adapter, with no items yet, is in place for the next load |
| Contacts.ContactsFragment.OnLoaderReset | app/src/main/java/com/fissy/dialer/contactsfragment/ContactsFragment.java:229-237 | clears the index and the setup flag and drops the adapter |
| Contacts.SetupOnceScenario | app/src/main/java/com/fissy/dialer/contactsfragment/ContactsFragment.java:146-237 | two loads set the scroller up once; the reset makes no call, and the next load with a new adapter sets it up a second time |
| Granter.ScannerMatchesSegments | app/src/main/java/com/fissy/dialer/util/PermissionGranter.java:26 | the scanner accepts exactly names whose dot-separated pieces are all segments |
| Granter.PatternIsSegmentGrammar | app/src/main/java/com/fissy/dialer/util/PermissionGranter.java:26 | accepted iff one or more dot-separated segments, each a letter then letters, digits or underscores; no empty name, no leading or trailing dot |
| Granter.LastSegmentEndsName | app/src/main/java/com/fissy/dialer/util/PermissionGranter.java:26 | a name joined from segments does not end with a dot |
| Granter.NoShellCharacters | app/src/main/java/com/fissy/dialer/util/PermissionGranter.java:26 | an accepted name holds only letters, digits, '_' and '.' |
| Granter.GrantCommand | app/src/main/java/com/fissy/dialer/util/PermissionGranter.java:63 | the command is the four words "pm", "grant", the name and the permission joined by spaces |
| Granter.GrantCommandHasFourWords | app/src/main/java/com/fissy/dialer/util/PermissionGranter.java:26-63 | for an accepted name the command splits back on spaces into exactly those four words |
| Granter.AttemptGrantSync | app/src/main/java/com/fissy/dialer/util/PermissionGranter.java:18-90 | a null or rejected name returns before any check; an already granted permission means no root check and no command; an unrooted device means no command; a command is issued exactly when it is needed and possible, and it is the grant command; on success the permission is checked again |
| Granter.AcceptedNames | app/src/main/java/com/fissy/dialer/util/PermissionGranter.java:26 | "a" and "a.b_2" are accepted |
| Granter.RejectedNames | app/src/main/java/com/fissy/dialer/util/PermissionGranter.java:26 | null, "", ".a", "a.", "a..b", "a.1", "a;b" and "a b" are rejected |
| Permissions.RequiredPermissions | app/src/main/java/com/fissy/dialer/util/PermissionManager.java:59-67 | the seven fixed permissions in declared order, with POST_NOTIFICATIONS appended iff SDK ≥ 33 |
| Permissions.DeniedIsOrderedFilter | app/src/main/java/com/fissy/dialer/util/PermissionManager.java:203-214 | the denied list is an order-preserving sublist of the required list holding exactly the ungranted ones |
| Permissions.DeniedEmptyIff | app/src/main/java/com/fissy/dialer/util/PermissionManager.java:173-214 | nothing is denied iff every required permission is granted |
| Permissions.DeniedStep | app/src/main/java/com/fissy/dialer/util/PermissionManager.java:207-211 | checking one more permission appends it to the denied list exactly when it is not granted |
| Permissions.DeniedPermissions | app/src/main/java/com/fissy/dialer/util/PermissionManager.java:203-214 | the forward loop computes the denied filter, in the order of the required list |
| Permissions.HasAll | app/src/main/java/com/fissy/dialer/util/PermissionManager.java:173-181 | true iff the denied list is empty |
| Permissions.AllTrue | app/src/main/java/com/fissy/dialer/util/PermissionManager.java:224-229 | a map holding exactly the given permissions, each true |
| Permissions.PermissionManager.constructor | app/src/main/java/com/fissy/dialer/util/PermissionManager.java:85-88 | starts uninitialized, with no launcher registered |
| Permissions.PermissionManager.Initialize | app/src/main/java/com/fissy/dialer/util/PermissionManager.java:93-99 | idempotent: the launchers are registered on the first call only |
| Permissions.PermissionManager.GetDeniedPermissions | app/src/main/java/com/fissy/dialer/util/PermissionManager.java:203-214 | the denied filter of the SDK's required list |
| Permissions.PermissionManager.HasAllRequiredPermissions | app/src/main/java/com/fissy/dialer/util/PermissionManager.java:173-181 | true iff the denied list of the same required list is empty |
| Permissions.PermissionManager.RequestPermissions | app/src/main/java/com/fissy/dialer/util/PermissionManager.java:219-237 | with nothing denied, the callback gets true for every required permission and nothing is launched; otherwise the denied list is launched, or the launch fails when not initialized |
| Permissions.InitializeTwiceScenario | app/src/main/java/com/fissy/dialer/util/PermissionManager.java:93-99 | initializing twice registers the four launchers once |
| Permissions.DeniedExample | app/src/main/java/com/fissy/dialer/util/PermissionManager.java:203-214 | a sample denied list keeps the required order |
| Permissions.DisplayName | app/src/main/java/com/fissy/dialer/util/PermissionManager.java:339-360 | any unknown permission string is shown unchanged |
| Permissions.Explanation | app/src/main/java/com/fissy/dialer/util/PermissionManager.java:365-386 | any unknown permission gets "Required for app functionality" |
| Permissions.KnownPermissionsLabelled | app/src/main/java/com/fissy/dialer/util/PermissionManager.java:339-386 | each known permission has its own label, which maps back to it, and a specific explanation |
| Permissions.RequiredLabelsDistinct | app/src/main/java/com/fissy/dialer/util/PermissionManager.java:339-360 | distinct required permissions get distinct labels |
| JavaText.UpperChar | app/src/main/java/com/fissy/dialer/contactsfragment/ContactsFragment.java:124 | `toUpperCase` on an ASCII letter: lower-case letters move up by 32, everything else is unchanged |
| JavaText.Upper | app/src/main/java/com/android/incallui/call/CallRecorder.java:483 | character-wise upper-casing, same length |
| JavaText.UpperIdempotent | app/src/main/java/com/android/incallui/call/CallRecorder.java:483 | upper-casing twice equals upper-casing once |
| JavaText.Trim | app/src/main/java/com/fissy/dialer/contactsfragment/ContactsFragment.java:124 | `trim` is empty iff every character is a space or control character |
| JavaText.SplitAll | app/src/main/java/com/android/incallui/call/CallRecorder.java:481 | the full split always yields at least one piece |
| JavaText.SplitAllPieces | app/src/main/java/com/android/incallui/call/CallRecorder.java:481 | no piece contains the separator, and a string without it splits to itself |
| JavaText.SplitAllJoins | app/src/main/java/com/android/incallui/call/CallRecorder.java:481 | joining the pieces with the separator gives the string back |
| JavaText.JoinSplits | app/src/main/java/com/fissy/dialer/util/PermissionGranter.java:63 | splitting a join of separator-free pieces gives the pieces back |
| JavaText.JavaSplitComma | app/src/main/java/com/android/incallui/call/CallRecorder.java:481 | `split(",")`: no piece contains a comma, and a string without one is its own single piece. Otherwise the result is the full split minus its trailing empty strings: a prefix of it, whose last piece is not empty, and after which every piece is empty |
| JavaText.DropEmptiesRejoins | app/src/main/java/com/android/incallui/call/CallRecorder.java:481 | dropping trailing empty pieces drops only separators from the joined string |
| JavaText.JavaSplitCommaRejoins | app/src/main/java/com/android/incallui/call/CallRecorder.java:481 | the pieces of `split(",")`, joined with commas, are a prefix of the string, and the rest of it is commas only |
| JavaText.JavaSplitCommaExamples | app/src/main/java/com/android/incallui/call/CallRecorder.java:481 | `""` splits to `[""]`, `","` to `[]`, `"a,,"` to `["a"]` and `",a"` to `["", "a"]` |

## Left out

- Android plumbing is not modelled:
  - Binder IPC, `ServiceConnection` and `bindService` are not modelled; a bind result and the remote replies are inputs.
  - `Handler` timers become explicit events (`OnRetryTimer`, `OnProgressTick`); a delay becomes a value.
  - Toasts and resource strings become entries of the effects log.
- The model is sequential. `synchronized`, the worker thread of `attemptGrantCaptureAudioOutput`, and the data-store thread of `finishRecording` are not modelled; persisting a recording is a `SaveRecording` effect.
- `MediaRecorder` and MediaStore are abstract handles and a catalog map, not the real back ends.
  - Which sources are accepted, and which step of configure, prepare or start throws, are inputs.
  - So are the clock and the date string.
  - Parsing the inserted entry's id from the URI's last path segment is not modelled; a null URI is not modelled either. Each insert yields a fresh id.
  - `setAudioSource` throwing anything but IllegalStateException is not modelled.
- `getAudioFormatChoice` is read once per start. The second read inside `generateFilename` is taken to see the same preference.
- XmlPullParser mechanics are not modelled. The table loader consumes the sequence of parser events after the root element; an XmlPullParserException or IOException is one `ReadError` event.
- The `context == null` branches of `CallRecorder` are not modelled. `setUp` is taken to have run.
- Logging (`LogManager`, `Log`, `LogUtil`) is not modelled, and neither is `RootUtil`: root detection and root command execution are the inputs of `GrantEnv`.
- `JavaText.UpperChar`: upper-cases ASCII letters only; Unicode case mapping is not modelled. A Dafny `char` is a Unicode scalar value, not a UTF-16 code unit: for a header whose first character lies outside the Basic Multilingual Plane, `substring(0, 1)` in Java takes a lone surrogate, while the model takes the whole character.
- In `ContactsFragment`, the RecyclerView, the adapter and the fast-scroller library are not modelled.
  - The code that creates the adapter is not part of this model: it lies in the fragment's lifecycle methods, outside `onLoadFinished` and `onLoaderReset`. `AttachAdapter` stands for it.
  - A non-empty load without an adapter would throw NullPointerException in Java; `OnLoadFinished` requires an adapter for that case.
  - The scroll range, the scroller views and the setup outcome are inputs.
  - The runnable posted to the RecyclerView runs at once.
  - `smoothScrollToPosition` is the returned target.
  - Thumb binding and the selection callback's own body are not part of the fragment's state; only the count of registered callbacks is.
- Permissions are a datatype: the eight known permissions plus `OtherPermission(name)` for any other string. An `OtherPermission` that carries a known manifest string is not excluded.
- The other members of `PermissionManager` are not modelled: the default-dialer role, full-screen intent, write-settings, app-settings intent, first-request and shared-preference members. They are platform and preference I/O outside the permission lists. The launcher results delivered later are also not modelled.
- The UI-only files are not part of this model: MainActivity, RecordingDiagnosticsActivity, DeveloperSettingsFragment and the permission dialog fragments.
