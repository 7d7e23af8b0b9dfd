/** The camera-permission logic of MainActivity.

    Every callback of the activity (the button's click listener, the
    snackbar's action, the permission-result callback) is a function from
    what the platform reports to the list of effects the activity asks the
    platform to perform, in the order it asks for them. */
module MainActivity {
  import opened Android

  /** Which action a snackbar's button performs. */
  datatype ActionType = OPEN_SETTINGS | REQUEST_PERMISSION

  /** The classification of a permission-request reply. */
  datatype PermissionResult = GRANTED | DENY | DENY_PERMANENTLY

  /** The request code the activity attaches to its CAMERA requests. */
  const PERMISSION_REQUEST_CAMERA: int := 0

  /** What the activity asks the platform to do. */
  datatype Effect =
    | LaunchCamera        // startCamera(): open CameraPreviewActivity
    | ToastGranted        // the "permission granted" toast
    | ToastDenied         // the "permission not granted" toast
    | ToastGoToSettings   // openSettings(): the "go to the settings" toast
    | Snackbar(buttonText: string, action: ActionType)
    | RequestPermissions(permissions: seq<string>, requestCode: int)

  /** The only request the activity ever issues: CAMERA, with its request code. */
  function CameraRequest(): Effect {
    RequestPermissions([CAMERA], PERMISSION_REQUEST_CAMERA)
  }

  /** A reply the classifier does not reject outright: exactly one grant
      code, and CAMERA somewhere among the permission names. */
  predicate IsWellFormed(permissions: seq<string>, grantResults: seq<int>) {
    |grantResults| == 1 && CAMERA in permissions
  }

  /** getPermissionResult. The first branch that applies wins: a malformed
      reply is a denial, a granted code is a grant whatever the rationale
      flag says, and a refusal is permanent exactly when the platform would
      no longer show a rationale. */
  function GetPermissionResult(permissions: seq<string>, grantResults: seq<int>, showRationale: bool)
    : (r: PermissionResult)
    ensures r == GRANTED <==>
              IsWellFormed(permissions, grantResults) && grantResults[0] == PERMISSION_GRANTED
    ensures r == DENY_PERMANENTLY <==>
              IsWellFormed(permissions, grantResults) && grantResults[0] != PERMISSION_GRANTED && !showRationale
    ensures r == DENY <==>
              !IsWellFormed(permissions, grantResults) || (grantResults[0] != PERMISSION_GRANTED && showRationale)
  {
    if |grantResults| != 1 || CAMERA !in permissions then DENY
    else if grantResults[0] == PERMISSION_GRANTED then GRANTED
    else if !showRationale then DENY_PERMANENTLY
    else if grantResults[0] == PERMISSION_DENIED then DENY
    else DENY
  }

  /** getSnackbarActionText: the label of the snackbar's button, which names
      what the button does: "Предоставить" (grant) on the button that issues
      the CAMERA request, "Настройки" (settings) on the one that sends the
      user to the settings. */
  function GetSnackbarActionText(actionType: ActionType): (text: string)
    ensures |text| > 0
    ensures text == "Предоставить" <==> SnackbarAction(actionType) == [CameraRequest()]
    ensures text == "Настройки" <==> SnackbarAction(actionType) == [ToastGoToSettings]
  {
    match actionType
    case OPEN_SETTINGS => "Настройки"
    case REQUEST_PERMISSION => "Предоставить"
  }

  /** showSnackbar: the snackbar the user sees, whose button is labelled
      with what tapping it does. */
  function ShowSnackbar(actionType: ActionType): (e: Effect)
    ensures e.Snackbar?
    ensures actionType == REQUEST_PERMISSION ==>
              e.buttonText == "Предоставить" && SnackbarAction(e.action) == [CameraRequest()]
    ensures actionType == OPEN_SETTINGS ==>
              e.buttonText == "Настройки" && SnackbarAction(e.action) == [ToastGoToSettings]
  {
    Snackbar(GetSnackbarActionText(actionType), actionType)
  }

  /** The action lambda of showSnackbar: what tapping the button does. It
      shows one toast or issues one request, never launches the camera. */
  function SnackbarAction(actionType: ActionType): (effects: seq<Effect>)
    ensures |effects| == 1 && LaunchCamera !in effects
    ensures actionType == OPEN_SETTINGS <==> effects == [ToastGoToSettings]
    ensures actionType == REQUEST_PERMISSION <==> effects == [CameraRequest()]
  {
    match actionType
    case OPEN_SETTINGS => [ToastGoToSettings]
    case REQUEST_PERMISSION => [CameraRequest()]
  }

  /** requestCameraPermission: with a rationale to show, only the snackbar
      offering to request; otherwise only the CAMERA request itself. */
  function RequestCameraPermission(showRationale: bool): (effects: seq<Effect>)
    ensures |effects| == 1 && LaunchCamera !in effects
    ensures effects[0].Snackbar? <==> showRationale
    ensures effects[0].RequestPermissions? <==> !showRationale
    ensures showRationale ==> effects[0] == ShowSnackbar(REQUEST_PERMISSION)
    ensures !showRationale ==> effects[0] == CameraRequest()
  {
    if showRationale then [ShowSnackbar(REQUEST_PERMISSION)]
    else [CameraRequest()]
  }

  /** The button's click listener. Granted already: the camera is launched
      and nothing is requested. Otherwise the click is requestCameraPermission. */
  function OnClick(selfPermission: int, showRationale: bool): (effects: seq<Effect>)
    ensures |effects| == 1
    ensures LaunchCamera in effects <==> selfPermission == PERMISSION_GRANTED
    ensures selfPermission == PERMISSION_GRANTED ==>
              effects == [LaunchCamera] && CameraRequest() !in effects
    ensures selfPermission != PERMISSION_GRANTED ==> effects == RequestCameraPermission(showRationale)
  {
    if selfPermission == PERMISSION_GRANTED then [LaunchCamera]
    else RequestCameraPermission(showRationale)
  }

  /** The `when` of onRequestPermissionsResult: the camera is launched on a
      grant only, after the granted toast; a permanent refusal shows the
      same toast as the settings snackbar's button; nothing is requested again. */
  function Dispatch(result: PermissionResult): (effects: seq<Effect>)
    ensures 0 < |effects|
    ensures LaunchCamera in effects <==> result == GRANTED
    ensures forall e | e in effects :: !e.RequestPermissions? && !e.Snackbar?
    ensures result == GRANTED ==> effects == [ToastGranted, LaunchCamera]
    ensures result == DENY ==> effects == [ToastDenied]
    ensures result == DENY_PERMANENTLY ==> effects == SnackbarAction(OPEN_SETTINGS)
  {
    match result
    case GRANTED => [ToastGranted, LaunchCamera]
    case DENY => [ToastDenied]
    case DENY_PERMANENTLY => [ToastGoToSettings]
  }

  /** onRequestPermissionsResult: replies carrying another request code are
      ignored; a reply to PERMISSION_REQUEST_CAMERA is classified and dispatched. */
  function OnRequestPermissionsResult(requestCode: int, permissions: seq<string>, grantResults: seq<int>,
                                      showRationale: bool): (effects: seq<Effect>)
    ensures requestCode != PERMISSION_REQUEST_CAMERA ==> effects == []
    ensures requestCode == PERMISSION_REQUEST_CAMERA ==>
              effects == Dispatch(GetPermissionResult(permissions, grantResults, showRationale))
    ensures LaunchCamera in effects <==>
              requestCode == PERMISSION_REQUEST_CAMERA && IsWellFormed(permissions, grantResults)
              && grantResults[0] == PERMISSION_GRANTED
  {
    if requestCode == PERMISSION_REQUEST_CAMERA then
      Dispatch(GetPermissionResult(permissions, grantResults, showRationale))
    else []
  }

  // ---------------------------------------------------------------------
  // The decision table of the classifier

  /** A malformed reply is a denial, whatever the rationale flag says. */
  lemma MalformedIsDeny(permissions: seq<string>, grantResults: seq<int>, showRationale: bool)
    requires |grantResults| != 1 || CAMERA !in permissions
    ensures GetPermissionResult(permissions, grantResults, showRationale) == DENY
  {
  }

  /** A well-formed granted reply is a grant for both values of the rationale
      flag: the granted branch comes before the rationale branch. */
  lemma GrantedIgnoresRationale(permissions: seq<string>, grantResults: seq<int>)
    requires IsWellFormed(permissions, grantResults) && grantResults[0] == PERMISSION_GRANTED
    ensures GetPermissionResult(permissions, grantResults, true) == GRANTED
    ensures GetPermissionResult(permissions, grantResults, false) == GRANTED
  {
  }

  /** A well-formed refusal is permanent exactly when no rationale would be
      shown, and a plain denial otherwise, whatever the refusing code is. */
  lemma RefusalIsPermanentIffNoRationale(permissions: seq<string>, grantResults: seq<int>, showRationale: bool)
    requires IsWellFormed(permissions, grantResults) && grantResults[0] != PERMISSION_GRANTED
    ensures GetPermissionResult(permissions, grantResults, showRationale) == DENY_PERMANENTLY <==> !showRationale
    ensures GetPermissionResult(permissions, grantResults, showRationale) == DENY <==> showRationale
  {
  }

  /** The classifier looks only at whether CAMERA is among the names, not
      at where it stands: the one code received is read as CAMERA's code
      wherever CAMERA appears. */
  lemma ReadsFirstCode(permissions: seq<string>, code: int, showRationale: bool)
    requires CAMERA in permissions
    ensures GetPermissionResult(permissions, [code], showRationale) ==
              GetPermissionResult([CAMERA], [code], showRationale)
  {
  }

  /** For the reply to the activity's own request (the one name CAMERA) the
      first code is the code of CAMERA, so the classification is that of the
      one code received. */
  lemma OwnReplyReadsCameraCode(code: int, showRationale: bool)
    ensures GetPermissionResult(CameraRequest().permissions, [code], showRationale) ==
              if code == PERMISSION_GRANTED then GRANTED
              else if showRationale then DENY
              else DENY_PERMANENTLY
  {
  }

  // ---------------------------------------------------------------------
  // The click, the snackbar and the dispatch

  /** When the permission is already granted the rationale flag plays no
      part in the click. */
  lemma GrantedClickIgnoresRationale()
    ensures OnClick(PERMISSION_GRANTED, true) == OnClick(PERMISSION_GRANTED, false) == [LaunchCamera]
  {
  }

  /** Tapping the REQUEST_PERMISSION snackbar issues the very request that
      requestCameraPermission issues when there is no rationale to show. */
  lemma SnackbarRequestIsDirectRequest()
    ensures SnackbarAction(REQUEST_PERMISSION) == RequestCameraPermission(false)
  {
  }

  /** Two actions, two different labels. */
  lemma SnackbarLabelsDistinct(a: ActionType, b: ActionType)
    ensures GetSnackbarActionText(a) == GetSnackbarActionText(b) <==> a == b
  {
  }

  /** Every reply with the activity's own request code is dispatched, and
      every reply with another code produces no effect at all. */
  lemma RequestCodeFilter(requestCode: int, permissions: seq<string>, grantResults: seq<int>, showRationale: bool)
    ensures OnRequestPermissionsResult(requestCode, permissions, grantResults, showRationale) == [] <==>
              requestCode != PERMISSION_REQUEST_CAMERA
  {
  }
}
