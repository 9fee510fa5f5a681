/**
 * The fragment's saved state: a string-keyed bundle holding the file-provider
 * authority (a string) and the requested camera direction (an int code).
 */
module SavedState {
  import opened Wrappers
  import opened CameraTypes

  datatype BundleValue = StringValue(s: string) | IntValue(i: int)

  /** A saved-state bundle: keys to typed values. */
  type Bundle = map<string, BundleValue>

  const ArgFileProviderAuth: string := "arg_file_provider_auth"
  const ArgCameraDirection: string := "arg_camera_direction"

  /** The string stored under `key`, if any; a value of another type reads as absent. */
  function GetString(bundle: Bundle, key: string): (r: Option<string>)
    ensures r.Some? <==> key in bundle && bundle[key].StringValue?
    ensures r.Some? ==> bundle[key] == StringValue(r.value)
  {
    if key in bundle && bundle[key].StringValue? then Some(bundle[key].s) else None
  }

  /** The int stored under `key`, or `default` when absent or of another type. */
  function GetInt(bundle: Bundle, key: string, default: int): (r: int)
    ensures key in bundle && bundle[key].IntValue? ==> bundle[key] == IntValue(r)
    ensures !(key in bundle && bundle[key].IntValue?) ==> r == default
  {
    if key in bundle && bundle[key].IntValue? then bundle[key].i else default
  }

  /** The bundle after `storeState` put both entries into it. */
  function Stored(bundle: Bundle, authority: string, directionCode: int): (r: Bundle)
    ensures r.Keys == bundle.Keys + {ArgFileProviderAuth, ArgCameraDirection}
    ensures r[ArgFileProviderAuth] == StringValue(authority)
    ensures r[ArgCameraDirection] == IntValue(directionCode)
    ensures forall k :: k in bundle && k != ArgFileProviderAuth && k != ArgCameraDirection ==> r[k] == bundle[k]
  {
    bundle[ArgFileProviderAuth := StringValue(authority)][ArgCameraDirection := IntValue(directionCode)]
  }

  /**
   * The (authority, direction code) pair after `restoreState` read `bundle`
   * into a fragment that held (`authority`, `directionCode`): a missing
   * bundle changes nothing; otherwise each entry present with the right type
   * is taken, a missing authority keeps the old one, and a missing or
   * wrongly typed direction falls back to the front camera's code.
   */
  function Restored(bundle: Option<Bundle>, authority: string, directionCode: int): (r: (string, int))
    ensures bundle.None? ==> r == (authority, directionCode)
    ensures bundle.Some? && GetString(bundle.value, ArgFileProviderAuth).None? ==> r.0 == authority
    ensures bundle.Some? && GetString(bundle.value, ArgFileProviderAuth).Some? ==>
      r.0 == GetString(bundle.value, ArgFileProviderAuth).value
    ensures bundle.Some? && ArgCameraDirection in bundle.value && bundle.value[ArgCameraDirection].IntValue? ==>
      r.1 == bundle.value[ArgCameraDirection].i
    ensures bundle.Some? && !(ArgCameraDirection in bundle.value && bundle.value[ArgCameraDirection].IntValue?) ==>
      r.1 == CameraDirection.Front.Code()
  {
    match bundle
    case None => (authority, directionCode)
    case Some(b) =>
      (GetString(b, ArgFileProviderAuth).GetOr(authority),
       GetInt(b, ArgCameraDirection, CameraDirection.Front.Code()))
  }

  /** Restoring what was stored gives back exactly the stored fields. */
  lemma RestoreAfterStore(bundle: Bundle, authority: string, directionCode: int,
                          oldAuthority: string, oldDirectionCode: int)
    ensures Restored(Some(Stored(bundle, authority, directionCode)), oldAuthority, oldDirectionCode)
         == (authority, directionCode)
  {
  }

  /** The arguments bundle `newInstance` hands to a new fragment. */
  function NewInstanceArguments(authority: string, direction: CameraDirection): (r: Bundle)
    ensures r.Keys == {ArgFileProviderAuth, ArgCameraDirection}
  {
    Stored(map[], authority, direction.Code())
  }

  /** A fragment restored from its `newInstance` arguments resolves the direction it was created with. */
  lemma NewInstanceArgumentsRestoreDirection(authority: string, direction: CameraDirection,
                                             oldAuthority: string, oldDirectionCode: int)
    ensures var r := Restored(Some(NewInstanceArguments(authority, direction)), oldAuthority, oldDirectionCode);
            r.0 == authority && GenerateByCode(r.1) == direction
  {
    RestoreAfterStore(map[], authority, direction.Code(), oldAuthority, oldDirectionCode);
    GenerateByCodeInvertsCode(direction);
  }
}
