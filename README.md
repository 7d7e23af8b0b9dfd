# PermissionsApp camera-permission gate, in Dafny

PermissionsApp is a one-screen Android application whose button opens a
camera preview. Before opening it, `MainActivity` asks the platform whether
the CAMERA permission is granted; if not, it either shows a snackbar that
explains why and offers to request it, or requests it directly. When the
platform's reply arrives it classifies it as `GRANTED`, `DENY` or
`DENY_PERMANENTLY` and shows a toast, launching the camera on a grant.

This project models that decision procedure as pure functions:

- `android.dfy` (module `Android`): the platform values the activity compares
  against: `CAMERA` (`"android.permission.CAMERA"`), `PERMISSION_GRANTED` (0)
  and `PERMISSION_DENIED` (-1).
- `main_activity.dfy` (module `MainActivity`): the enums `ActionType` and
  `PermissionResult`, the constant `PERMISSION_REQUEST_CAMERA` (0), and each
  callback of the activity as a function from what the platform reports to the
  list of `Effect`s the activity asks for (`LaunchCamera`, the three toasts, a
  `Snackbar` with its button text and action, a `RequestPermissions` with its
  names and request code), in the order it asks for them. The answers of
  `checkSelfPermission` and `shouldShowRequestPermissionRationale` are
  parameters (`selfPermission`, `showRationale`).
- `session.dfy` (module `Session`): a session as the sequence of callbacks the
  main thread delivers (clicks, snackbar taps, permission replies), each handled
  on its own, and what holds of every session: the camera is launched exactly
  once per report that it is granted, every request is the CAMERA request with
  code 0, and the settings snackbar is never shown.

The classifier reads the grant code `grantResults[0]` whenever CAMERA is
anywhere among the reply's permission names, not the code at CAMERA's
position; the model follows the code (`ReadsFirstCode`) and shows that for the
reply to the activity's own one-name request the two coincide
(`OwnReplyReadsCameraCode`).

`showSnackbar` is only ever called with `REQUEST_PERMISSION`; a permanent
refusal calls `openSettings` directly. The `OPEN_SETTINGS` action and its
"Настройки" label are therefore never shown, which `SessionIssuesOnlyCamera`
states.

## Model

| member | source | states |
|---|---|---|
| MainActivity.GetPermissionResult | app/src/main/java/com/example/permissionsapp/MainActivity.kt:127-137 | the result is GRANTED iff the reply has one grant code, names CAMERA and that code is PERMISSION_GRANTED; DENY_PERMANENTLY iff it is well formed, not granted and no rationale would be shown; DENY in every other case |
| MainActivity.MalformedIsDeny | app/src/main/java/com/example/permissionsapp/MainActivity.kt:132 | a reply without exactly one grant code, or without CAMERA among its names, is DENY for either rationale flag |
| MainActivity.GrantedIgnoresRationale | app/src/main/java/com/example/permissionsapp/MainActivity.kt:132-134 | a well-formed reply whose code is PERMISSION_GRANTED is GRANTED for both values of the rationale flag |
| MainActivity.RefusalIsPermanentIffNoRationale | app/src/main/java/com/example/permissionsapp/MainActivity.kt:134-136 | a well-formed refusal (any code other than PERMISSION_GRANTED) is DENY_PERMANENTLY exactly when the rationale flag is false and DENY exactly when it is true |
| MainActivity.ReadsFirstCode | app/src/main/java/com/example/permissionsapp/MainActivity.kt:132-133 | for any names containing CAMERA and one grant code, the result is the same as for the names [CAMERA]: that one code is read as CAMERA's wherever CAMERA stands |
| MainActivity.OwnReplyReadsCameraCode | app/src/main/java/com/example/permissionsapp/MainActivity.kt:130-137 | for a reply naming only CAMERA with one code, the result is GRANTED on PERMISSION_GRANTED, otherwise DENY with a rationale and DENY_PERMANENTLY without |
| MainActivity.GetSnackbarActionText | app/src/main/java/com/example/permissionsapp/MainActivity.kt:87-91 | the label is non-empty, and is "Предоставить" exactly for the action whose button issues the CAMERA request and "Настройки" exactly for the one whose button shows the go-to-settings toast |
| MainActivity.SnackbarLabelsDistinct | app/src/main/java/com/example/permissionsapp/MainActivity.kt:87-91 | the two actions have different labels ("Настройки", "Предоставить") |
| MainActivity.ShowSnackbar | app/src/main/java/com/example/permissionsapp/MainActivity.kt:69-91 | a REQUEST_PERMISSION snackbar is labelled "Предоставить" and its button issues the CAMERA request with code 0; an OPEN_SETTINGS snackbar is labelled "Настройки" and its button shows the go-to-settings toast |
| MainActivity.SnackbarAction | app/src/main/java/com/example/permissionsapp/MainActivity.kt:75-83 | the button has exactly one effect and never launches the camera: OPEN_SETTINGS shows the go-to-settings toast, REQUEST_PERMISSION issues the CAMERA request with code 0 |
| MainActivity.RequestCameraPermission | app/src/main/java/com/example/permissionsapp/MainActivity.kt:59-67 | exactly one effect: the REQUEST_PERMISSION snackbar iff a rationale is to be shown, the CAMERA request with code 0 iff not; never both, never the camera |
| MainActivity.SnackbarRequestIsDirectRequest | app/src/main/java/com/example/permissionsapp/MainActivity.kt:59-81 | tapping the REQUEST_PERMISSION snackbar issues the same request as requesting directly |
| MainActivity.OnClick | app/src/main/java/com/example/permissionsapp/MainActivity.kt:41-56 | the camera is launched iff the permission check says granted, and then it is the only effect and no request is issued; otherwise the click is requestCameraPermission |
| MainActivity.GrantedClickIgnoresRationale | app/src/main/java/com/example/permissionsapp/MainActivity.kt:47-51 | with the permission granted the click launches the camera whatever the rationale flag |
| MainActivity.Dispatch | app/src/main/java/com/example/permissionsapp/MainActivity.kt:109-122 | the camera is launched iff the result is GRANTED, after the granted toast; DENY shows only the denied toast; DENY_PERMANENTLY shows only the go-to-settings toast, as the settings button does; no request or snackbar follows |
| MainActivity.OnRequestPermissionsResult | app/src/main/java/com/example/permissionsapp/MainActivity.kt:103-125 | a reply with a request code other than 0 has no effect; a reply with code 0 is classified and dispatched; the camera is launched iff the code is 0 and the reply is a well-formed grant |
| MainActivity.RequestCodeFilter | app/src/main/java/com/example/permissionsapp/MainActivity.kt:108 | a reply has no effect exactly when its request code is not PERMISSION_REQUEST_CAMERA |
| Session.Handle | app/src/main/java/com/example/permissionsapp/MainActivity.kt:41-125 | a callback launches the camera iff its platform report says the camera is granted |
| Session.HandleLaunchesOnGrant | app/src/main/java/com/example/permissionsapp/MainActivity.kt:47-113 | a callback launches the camera once when it reports a grant and not at all otherwise |
| Session.LaunchesMatchGrants | app/src/main/java/com/example/permissionsapp/MainActivity.kt:47-113 | over any session the camera is launched exactly as many times as the platform reported it granted |
| Session.HandleIssuesOnlyCamera | app/src/main/java/com/example/permissionsapp/MainActivity.kt:59-83 | a callback issues no request but the CAMERA request with code 0 and no snackbar but the REQUEST_PERMISSION one |
| Session.SessionIssuesOnlyCamera | app/src/main/java/com/example/permissionsapp/MainActivity.kt:59-85 | over any session every request is the CAMERA request with code 0 and every snackbar is the REQUEST_PERMISSION one |
| Session.OwnRepliesAreDispatched | app/src/main/java/com/example/permissionsapp/MainActivity.kt:64-109 | the reply to any request issued in a session passes the request-code filter and is classified and dispatched |

## Left out

- The platform services (`ActivityCompat.checkSelfPermission`,
  `shouldShowRequestPermissionRationale`, `requestPermissions`): their answers
  are parameters and their invocation is an effect. The rationale query inside
  `getPermissionResult` is a parameter too; it has no effect the activity can see.
- Rendering: `Snackbar.make`/`show`, `Toast.makeText`, `findViewById`, the
  layout, and the texts of the snackbar and the toasts. Only which toast or
  snackbar is chosen, and the snackbar button's label, are modelled.
- `startCamera`'s intent and `CameraPreviewActivity`: the opaque effect `LaunchCamera`.
- The `sharedPreferences` field: assigned in `onCreate` and never read or written.
- The activity lifecycle (`onCreate`'s setup, `super.onRequestPermissionsResult`).
- Timing: the model does not relate when a reply arrives to when its request
  was issued; a session is only the order in which callbacks are handled.
