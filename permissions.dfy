/**
 * PermissionManager: the runtime permissions the dialer needs, which of them are
 * still denied, the request flow when nothing is denied, one-time registration of
 * the activity-result launchers, and the labels shown for each permission.
 *
 * A permission is one of the eight manifest permissions the class names, or any
 * other permission string. Whether a permission is granted
 * (ContextCompat.checkSelfPermission) is an input: the set of granted permissions.
 * The SDK level is a constant of the instance.
 */
module Permissions {
  import opened Wrappers

  datatype Permission =
    | CallPhone | ReadPhoneState | ReadCallLog | WriteCallLog
    | ReadContacts | WriteContacts | ManageOwnCalls | PostNotifications
    | OtherPermission(name: string)
  {
    /** The manifest string of the permission. */
    function Name(): string {
      match this
      case CallPhone => "android.permission.CALL_PHONE"
      case ReadPhoneState => "android.permission.READ_PHONE_STATE"
      case ReadCallLog => "android.permission.READ_CALL_LOG"
      case WriteCallLog => "android.permission.WRITE_CALL_LOG"
      case ReadContacts => "android.permission.READ_CONTACTS"
      case WriteContacts => "android.permission.WRITE_CONTACTS"
      case ManageOwnCalls => "android.permission.MANAGE_OWN_CALLS"
      case PostNotifications => "android.permission.POST_NOTIFICATIONS"
      case OtherPermission(name) => name
    }
  }

  const TIRAMISU: int := 33

  const FIXED_PERMISSIONS: seq<Permission> :=
    [CallPhone, ReadPhoneState, ReadCallLog, WriteCallLog, ReadContacts, WriteContacts, ManageOwnCalls]

  /** The launchers registered by initializeLaunchers: permissions, dialer role, full-screen intent, write settings. */
  const LAUNCHER_COUNT: nat := 4

  /** getRequiredPermissionsList: the seven fixed permissions in order, then POST_NOTIFICATIONS from Android 13 on. */
  function RequiredPermissions(sdk: int): (required: seq<Permission>)
    ensures |required| >= 7 && required[..7] == FIXED_PERMISSIONS
    ensures sdk >= TIRAMISU ==> required == FIXED_PERMISSIONS + [PostNotifications]
    ensures sdk < TIRAMISU ==> required == FIXED_PERMISSIONS
    ensures PostNotifications in required <==> sdk >= TIRAMISU
    ensures forall p | p in required :: !p.OtherPermission?
  {
    FIXED_PERMISSIONS + if sdk >= TIRAMISU then [PostNotifications] else []
  }

  /** The permissions of the list that are not granted, in list order. */
  function Denied(required: seq<Permission>, granted: set<Permission>): seq<Permission> {
    if |required| == 0 then []
    else if required[0] in granted then Denied(required[1..], granted)
    else [required[0]] + Denied(required[1..], granted)
  }

  /** `sub` is `s` with some elements left out, the rest in their order. */
  predicate IsSubsequence(sub: seq<Permission>, s: seq<Permission>) {
    if |sub| == 0 then true
    else if |s| == 0 then false
    else if sub[0] == s[0] then IsSubsequence(sub[1..], s[1..])
    else IsSubsequence(sub, s[1..])
  }

  /** The denied list keeps the required order and holds exactly the ungranted permissions. */
  lemma {:induction false} DeniedIsOrderedFilter(required: seq<Permission>, granted: set<Permission>)
    ensures IsSubsequence(Denied(required, granted), required)
    ensures forall p :: p in Denied(required, granted) <==> p in required && p !in granted
  {
    if |required| > 0 {
      DeniedIsOrderedFilter(required[1..], granted);
      assert required == [required[0]] + required[1..];
      var rest := Denied(required[1..], granted);
      if required[0] !in granted {
        assert ([required[0]] + rest)[1..] == rest;
      }
    }
  }

  /** Nothing is denied exactly when every listed permission is granted. */
  lemma {:induction false} DeniedEmptyIff(required: seq<Permission>, granted: set<Permission>)
    ensures Denied(required, granted) == [] <==> forall i | 0 <= i < |required| :: required[i] in granted
  {
    if |required| > 0 {
      DeniedEmptyIff(required[1..], granted);
      assert forall i | 1 <= i < |required| :: required[i] == required[1..][i - 1];
    }
  }

  /** Checking one more permission at the end adds it to the denied list when it is not granted. */
  lemma {:induction false} DeniedStep(required: seq<Permission>, granted: set<Permission>, i: nat)
    requires i < |required|
    ensures Denied(required[..i + 1], granted)
      == Denied(required[..i], granted) + (if required[i] in granted then [] else [required[i]])
  {
    if i > 0 {
      DeniedStep(required[1..], granted, i - 1);
      assert required[..i + 1][1..] == required[1..][..i];
      assert required[..i][1..] == required[1..][..i - 1];
      assert required[1..][i - 1] == required[i];
    }
  }

  /** getDeniedPermissions over a list, one check per permission, in order. */
  method DeniedPermissions(required: seq<Permission>, granted: set<Permission>) returns (denied: seq<Permission>)
    ensures denied == Denied(required, granted)
  {
    denied := [];
    var i := 0;
    while i < |required|
      invariant 0 <= i <= |required|
      invariant denied == Denied(required[..i], granted)
    {
      DeniedStep(required, granted, i);
      if required[i] !in granted {
        denied := denied + [required[i]];
      }
      i := i + 1;
    }
    assert required[..|required|] == required;
  }

  /** hasAllRequiredPermissions over a list: stops at the first permission not granted. */
  method HasAll(required: seq<Permission>, granted: set<Permission>) returns (r: bool)
    ensures r <==> Denied(required, granted) == []
  {
    DeniedEmptyIff(required, granted);
    var i := 0;
    while i < |required|
      invariant 0 <= i <= |required|
      invariant forall j | 0 <= j < i :: required[j] in granted
    {
      if required[i] !in granted {
        return false;
      }
      i := i + 1;
    }
    return true;
  }

  /** What requestPermissions did. */
  datatype RequestOutcome =
    | ReportedAllGranted     // nothing denied: no launch
    | Launched               // the permissions launcher was started with the denied list
    | LauncherMissing        // denied permissions but initialize was never called: NullPointerException

  type Callback = nat

  /** The result map for "all granted": every listed permission maps to true, nothing else is present. */
  function AllTrue(permissions: seq<Permission>): (results: map<Permission, bool>)
    ensures forall p :: p in results <==> p in permissions
    ensures forall p | p in results :: results[p]
  {
    map p | p in permissions :: true
  }

  class PermissionManager {
    const sdk: int
    var isInitialized: bool
    var registeredLaunchers: nat
    var callback: Option<Callback>
    var launches: seq<seq<Permission>>                        // arguments of multiplePermissionsLauncher.launch
    var delivered: seq<(Callback, map<Permission, bool>)>     // onPermissionsGranted calls

    ghost predicate Valid()
      reads this
    {
      registeredLaunchers == if isInitialized then LAUNCHER_COUNT else 0
    }

    constructor (sdk: int)
      ensures Valid() && this.sdk == sdk && !isInitialized && registeredLaunchers == 0
      ensures callback.None? && launches == [] && delivered == []
    {
      this.sdk := sdk;
      isInitialized, registeredLaunchers := false, 0;
      callback, launches, delivered := None, [], [];
    }

    /** initialize: register the launchers on the first call only. */
    method Initialize()
      requires Valid()
      modifies this
      ensures Valid() && isInitialized
      ensures registeredLaunchers == LAUNCHER_COUNT
      ensures callback == old(callback) && launches == old(launches) && delivered == old(delivered)
    {
      if isInitialized {
        return;
      }
      registeredLaunchers := registeredLaunchers + LAUNCHER_COUNT;
      isInitialized := true;
    }

    method GetDeniedPermissions(granted: set<Permission>) returns (denied: seq<Permission>)
      ensures denied == Denied(RequiredPermissions(sdk), granted)
    {
      denied := DeniedPermissions(RequiredPermissions(sdk), granted);
    }

    method HasAllRequiredPermissions(granted: set<Permission>) returns (r: bool)
      ensures r <==> Denied(RequiredPermissions(sdk), granted) == []
    {
      r := HasAll(RequiredPermissions(sdk), granted);
    }

    /**
     * requestPermissions: remember the callback; with nothing denied, hand the callback
     * true for every required permission and launch nothing; otherwise launch the
     * request for the denied permissions.
     */
    method RequestPermissions(cb: Option<Callback>, granted: set<Permission>) returns (outcome: RequestOutcome)
      requires Valid()
      modifies this
      ensures Valid() && callback == cb
      ensures isInitialized == old(isInitialized) && registeredLaunchers == old(registeredLaunchers)
      ensures var denied := Denied(RequiredPermissions(sdk), granted);
        && (denied == [] ==>
              && outcome == ReportedAllGranted && launches == old(launches)
              && delivered == old(delivered) + if cb.Some? then [(cb.value, AllTrue(RequiredPermissions(sdk)))] else [])
        && (denied != [] && isInitialized ==>
              outcome == Launched && launches == old(launches) + [denied] && delivered == old(delivered))
        && (denied != [] && !isInitialized ==>
              outcome == LauncherMissing && launches == old(launches) && delivered == old(delivered))
    {
      callback := cb;
      var denied := GetDeniedPermissions(granted);
      if |denied| == 0 {
        if cb.Some? {
          var results := AllTrue(RequiredPermissions(sdk));
          delivered := delivered + [(cb.value, results)];
        }
        return ReportedAllGranted;
      }
      if !isInitialized {
        return LauncherMissing;
      }
      launches := launches + [denied];
      return Launched;
    }
  }

  /** Initializing twice registers the launchers once. */
  method InitializeTwiceScenario() returns (registered: nat)
    ensures registered == LAUNCHER_COUNT
  {
    var manager := new PermissionManager(34);
    manager.Initialize();
    manager.Initialize();
    registered := manager.registeredLaunchers;
  }

  /** On Android 13 with only the phone permissions missing, exactly those are requested, in list order. */
  lemma DeniedExample()
    ensures Denied(RequiredPermissions(TIRAMISU), {ReadCallLog, WriteCallLog, ReadContacts, WriteContacts, ManageOwnCalls, PostNotifications})
      == [CallPhone, ReadPhoneState]
  {
    var granted := {ReadCallLog, WriteCallLog, ReadContacts, WriteContacts, ManageOwnCalls, PostNotifications};
    var all := RequiredPermissions(TIRAMISU);
    assert Denied(all[2..], granted) == [] by {
      DeniedEmptyIff(all[2..], granted);
    }
    assert all[1..][1..] == all[2..];
  }

  /** getPermissionDisplayName: a label for each of the eight permissions, the name itself otherwise. */
  function DisplayName(permission: Permission): (shown: string)
    ensures permission.OtherPermission? ==> shown == permission.name
  {
    match permission
    case CallPhone => "Phone Calls"
    case ReadPhoneState => "Phone State"
    case ReadCallLog => "Call Log (Read)"
    case WriteCallLog => "Call Log (Write)"
    case ReadContacts => "Contacts (Read)"
    case WriteContacts => "Contacts (Write)"
    case PostNotifications => "Notifications"
    case ManageOwnCalls => "Call Management"
    case OtherPermission(name) => name
  }

  const DEFAULT_EXPLANATION: string := "Required for app functionality"

  /** getPermissionExplanation: a sentence for each of the eight permissions, a generic one otherwise. */
  function Explanation(permission: Permission): (text: string)
    ensures permission.OtherPermission? ==> text == DEFAULT_EXPLANATION
  {
    match permission
    case CallPhone => "Required to make phone calls directly from the app"
    case ReadPhoneState => "Required to read phone state and manage calls"
    case ReadCallLog => "Required to display your call history"
    case WriteCallLog => "Required to save call records"
    case ReadContacts => "Required to display contact information during calls"
    case WriteContacts => "Required to update contact information"
    case PostNotifications => "Required to show incoming call and message notifications"
    case ManageOwnCalls => "Required to manage and handle incoming calls"
    case OtherPermission(_) => DEFAULT_EXPLANATION
  }

  /** The permission a label was made for; the inverse of DisplayName on the eight permissions. */
  function PermissionOfLabel(shown: string): Option<Permission> {
    if shown == "Phone Calls" then Some(CallPhone)
    else if shown == "Phone State" then Some(ReadPhoneState)
    else if shown == "Call Log (Read)" then Some(ReadCallLog)
    else if shown == "Call Log (Write)" then Some(WriteCallLog)
    else if shown == "Contacts (Read)" then Some(ReadContacts)
    else if shown == "Contacts (Write)" then Some(WriteContacts)
    else if shown == "Notifications" then Some(PostNotifications)
    else if shown == "Call Management" then Some(ManageOwnCalls)
    else None
  }

  /**
   * Each of the eight permissions has a label that leads back to it and differs from
   * its manifest name, and an explanation that is not the generic one.
   */
  lemma {:induction false} KnownPermissionsLabelled(p: Permission)
    requires !p.OtherPermission?
    ensures PermissionOfLabel(DisplayName(p)) == Some(p)
    ensures DisplayName(p) != p.Name() && Explanation(p) != DEFAULT_EXPLANATION
  {
    match p
    case CallPhone =>
    case ReadPhoneState =>
    case ReadCallLog =>
    case WriteCallLog =>
    case ReadContacts =>
    case WriteContacts =>
    case PostNotifications =>
    case ManageOwnCalls =>
  }

  /** Different required permissions are shown with different labels. */
  lemma RequiredLabelsDistinct(sdk: int, p: Permission, q: Permission)
    requires p in RequiredPermissions(sdk) && q in RequiredPermissions(sdk) && p != q
    ensures DisplayName(p) != DisplayName(q)
  {
    KnownPermissionsLabelled(p);
    KnownPermissionsLabelled(q);
  }
}
