/** The "Add New Device" form of `src/components/AddDeviceModal.js`: a blank
    check on the typed ID, then a claim through the device service. */
module AddDeviceModal {
  import opened Common
  import opened DeviceService

  const BLANK_ID: Alert := Alert("Error", "Please enter a Device ID.")
  const ADDED: Alert := Alert("Success", "Device added successfully!")

  function ClaimFailed(e: ServiceError): (a: Alert)
    ensures a.title == "Failed to Add Device" && a.message == ErrorMessage(e)
  {
    Alert("Failed to Add Device", ErrorMessage(e))
  }

  class AddDeviceForm {
    var deviceId: string
    var nickname: string
    var loading: bool
    var alert: Option<Alert>
    /** How many times `onSuccess` has been called. */
    var successCount: nat

    constructor ()
      ensures deviceId == "" && nickname == "" && !loading && alert.None? && successCount == 0
    {
      deviceId, nickname, loading, alert, successCount := "", "", false, None, 0;
    }

    /** `handleClaim`; `called` tells whether `claimDevice` was invoked. */
    method HandleClaim(store: DeviceStore, user: Option<User>, now: int) returns (called: bool)
      requires store.Valid()
      modifies this, store
      ensures store.Valid()
      ensures called <==> !IsBlank(old(deviceId))
      ensures !called ==> store.State() == old(store.State())
      ensures !called ==> alert == Some(BLANK_ID) && loading == old(loading) && successCount == old(successCount)
      ensures !called ==> deviceId == old(deviceId) && nickname == old(nickname)
      ensures called ==> !loading
      ensures called ==> store.State() == Claim(old(store.State()), user, old(deviceId), old(nickname), now).store
      ensures called && Claim(old(store.State()), user, old(deviceId), old(nickname), now).result.Ok? ==>
                alert == Some(ADDED) && deviceId == "" && nickname == "" && successCount == old(successCount) + 1
      ensures called && Claim(old(store.State()), user, old(deviceId), old(nickname), now).result.Err? ==>
                alert == Some(ClaimFailed(Claim(old(store.State()), user, old(deviceId), old(nickname), now).result.error)) &&
                deviceId == old(deviceId) && nickname == old(nickname) && successCount == old(successCount)
    {
      if IsBlank(deviceId) {
        alert := Some(BLANK_ID);
        return false;
      }
      called := true;
      loading := true;
      var r := store.ClaimDevice(user, deviceId, nickname, now);
      if r.Ok? {
        alert := Some(ADDED);
        deviceId := "";
        nickname := "";
        successCount := successCount + 1;
      } else {
        alert := Some(ClaimFailed(r.error));
      }
      loading := false;
    }
  }

  /** An ID made only of separators other than white space passes the form's
      blank check and is then refused by the service as invalid, leaving the
      store unchanged. */
  lemma SeparatorsOnlyPassBlankCheck(raw: string, s: Store, user: User, nickname: string, now: int)
    requires raw != [] && forall i :: 0 <= i < |raw| ==> raw[i] == ':' || raw[i] == '-'
    ensures !IsBlank(raw)
    ensures Claim(s, Some(user), raw, nickname, now) == Step(Err(InvalidDeviceId), s)
  {
    assert !IsJsSpace(raw[0]);
    NormalizeEmptyIff(raw);
  }

  /** The same for the literal input "::--". */
  lemma ColonsAndDashesRejected(s: Store, user: User)
    ensures !IsBlank("::--")
    ensures Claim(s, Some(user), "::--", "", 0).result == Err(InvalidDeviceId)
    ensures ClaimFailed(Claim(s, Some(user), "::--", "", 0).result.error).message == "Invalid Device ID"
  {
    SeparatorsOnlyPassBlankCheck("::--", s, user, "", 0);
  }

  /** A white-space-only ID never reaches the service: the blank check and the
      service's own emptiness check agree on it. */
  lemma BlankNormalizesEmpty(raw: string)
    requires IsBlank(raw)
    ensures NormalizeDeviceId(raw) == ""
  {
    NormalizeEmptyIff(raw);
  }
}
