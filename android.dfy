/** The values of the Android platform that the activity compares against.
    The platform services themselves (the permission check, the rationale
    query, the request dialog) are not modelled here: their answers are
    parameters of the functions in module MainActivity. */
module Android {

  /** Manifest.permission.CAMERA */
  const CAMERA: string := "android.permission.CAMERA"

  /** PackageManager.PERMISSION_GRANTED: the grant code of a granted permission. */
  const PERMISSION_GRANTED: int := 0

  /** PackageManager.PERMISSION_DENIED: the grant code of a refused permission. */
  const PERMISSION_DENIED: int := -1
}
