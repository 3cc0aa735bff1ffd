/**
  Readings and failures from the browser's one-shot position request, and the
  message the form shows for each failure code. Codes are those of the W3C
  Geolocation API's GeolocationPositionError interface.
 */
module Geolocation {

  /** A captured position and the time it was captured (an ISO-8601 string). */
  datatype Reading = Reading(latitude: real, longitude: real, accuracy: real, timestamp: string)

  /** What the provider answers: coordinates, or a failure with its numeric code. */
  datatype Answer =
    | Fix(latitude: real, longitude: real, accuracy: real)
    | PositionError(code: int)

  const PermissionDenied: int := 1
  const PositionUnavailable: int := 2
  const Timeout: int := 3

  const DeniedMessage: string := "Location access denied by user"
  const UnavailableMessage: string := "Location information unavailable"
  const TimeoutMessage: string := "Location request timed out"
  const FallbackMessage: string := "Unable to get location"

  /** The failure codes the form names a reason for. */
  predicate IsKnownCode(code: int)
  {
    code == PermissionDenied || code == PositionUnavailable || code == Timeout
  }

  /** The message shown for a failed position request. */
  function ErrorMessage(code: int): (m: string)
    ensures m != ""
    ensures m == FallbackMessage <==> !IsKnownCode(code)
    ensures code == PermissionDenied ==> m == DeniedMessage
    ensures code == PositionUnavailable ==> m == UnavailableMessage
    ensures code == Timeout ==> m == TimeoutMessage
  {
    if code == PermissionDenied then DeniedMessage
    else if code == PositionUnavailable then UnavailableMessage
    else if code == Timeout then TimeoutMessage
    else FallbackMessage
  }

  /** Two failures show the same message exactly when they have the same known code or both have unknown codes. */
  lemma ErrorMessageNamesTheCause(a: int, b: int)
    ensures ErrorMessage(a) == ErrorMessage(b) <==>
      a == b || (!IsKnownCode(a) && !IsKnownCode(b))
  {
  }
}
