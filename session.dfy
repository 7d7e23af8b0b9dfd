/** A session of the activity: the callbacks the main thread delivers, one
    after another, and the effects the activity asks for in answer. Each
    callback is handled on its own; the only link between a request and its
    reply is the request code the reply carries. */
module Session {
  import opened Android
  import opened MainActivity

  /** One callback delivered to the activity, with what the platform
      reports at that moment. */
  datatype Event =
    | Click(selfPermission: int, showRationale: bool)
    | SnackbarTap(action: ActionType)
    | PermissionsResult(requestCode: int, permissions: seq<string>, grantResults: seq<int>, showRationale: bool)

  /** The effects of one callback. */
  function Handle(e: Event): (effects: seq<Effect>)
    ensures LaunchCamera in effects <==> Grants(e)
  {
    match e
    case Click(selfPermission, showRationale) => OnClick(selfPermission, showRationale)
    case SnackbarTap(action) => SnackbarAction(action)
    case PermissionsResult(requestCode, permissions, grantResults, showRationale) =>
      OnRequestPermissionsResult(requestCode, permissions, grantResults, showRationale)
  }

  /** The effects of a session, callback by callback. */
  function Run(events: seq<Event>): seq<Effect> {
    if events == [] then [] else Handle(events[0]) + Run(events[1..])
  }

  /** The platform's report in this callback says the camera is granted: the
      permission check on a click, or a well-formed granted reply to the
      activity's request code. */
  predicate Grants(e: Event) {
    match e
    case Click(selfPermission, _) => selfPermission == PERMISSION_GRANTED
    case SnackbarTap(_) => false
    case PermissionsResult(requestCode, permissions, grantResults, _) =>
      requestCode == PERMISSION_REQUEST_CAMERA && IsWellFormed(permissions, grantResults)
      && grantResults[0] == PERMISSION_GRANTED
  }

  /** How many callbacks of a session report the camera granted. */
  function CountGrants(events: seq<Event>): nat {
    if events == [] then 0 else (if Grants(events[0]) then 1 else 0) + CountGrants(events[1..])
  }

  /** The requests and snackbars the activity is able to issue: the CAMERA
      request with PERMISSION_REQUEST_CAMERA, and the snackbar offering it. */
  predicate MayIssue(x: Effect) {
    && (x.RequestPermissions? ==> x == CameraRequest())
    && (x.Snackbar? ==> x == ShowSnackbar(REQUEST_PERMISSION))
  }

  /** One callback launches the camera at most once, and exactly when it
      reports the camera granted. */
  lemma HandleLaunchesOnGrant(e: Event)
    ensures multiset(Handle(e))[LaunchCamera] == if Grants(e) then 1 else 0
  {
  }

  /** One callback issues nothing but what MayIssue allows. */
  lemma HandleIssuesOnlyCamera(e: Event)
    ensures forall x | x in Handle(e) :: MayIssue(x)
  {
  }

  /** An effect of a session comes from one of its callbacks. */
  lemma {:induction false} InRun(events: seq<Event>, x: Effect)
    requires x in Run(events)
    ensures exists i | 0 <= i < |events| :: x in Handle(events[i])
  {
    if x !in Handle(events[0]) {
      InRun(events[1..], x);
      var i :| 0 <= i < |events[1..]| && x in Handle(events[1..][i]);
      assert x in Handle(events[i + 1]);
    }
  }

  /** The camera is launched exactly as many times as the platform reported
      it granted: never without such a report, and once per report. */
  lemma {:induction false} LaunchesMatchGrants(events: seq<Event>)
    ensures multiset(Run(events))[LaunchCamera] == CountGrants(events)
  {
    if events != [] {
      HandleLaunchesOnGrant(events[0]);
      LaunchesMatchGrants(events[1..]);
    }
  }

  /** Whatever the platform answers, every request the activity issues is
      the CAMERA request with PERMISSION_REQUEST_CAMERA, and every snackbar it
      shows offers to request it: the settings snackbar is never shown. */
  lemma {:induction false} SessionIssuesOnlyCamera(events: seq<Event>)
    ensures forall x | x in Run(events) :: MayIssue(x)
  {
    forall x | x in Run(events) ensures MayIssue(x) {
      InRun(events, x);
      var i :| 0 <= i < |events| && x in Handle(events[i]);
      HandleIssuesOnlyCamera(events[i]);
    }
  }

  /** Every request issued in a session has its reply dispatched, whatever
      the reply says: the request-code filter never drops the activity's own replies. */
  lemma OwnRepliesAreDispatched(events: seq<Event>, k: nat, permissions: seq<string>, grantResults: seq<int>,
                                showRationale: bool)
    requires k < |Run(events)| && Run(events)[k].RequestPermissions?
    ensures Run(events)[k].permissions == [CAMERA]
    ensures OnRequestPermissionsResult(Run(events)[k].requestCode, permissions, grantResults, showRationale)
            == Dispatch(GetPermissionResult(permissions, grantResults, showRationale))
  {
    SessionIssuesOnlyCamera(events);
    assert MayIssue(Run(events)[k]);
  }
}
