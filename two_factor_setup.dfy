/** The two-factor setup screen (src/components/auth/TwoFactorSetup.tsx): a four-step
    machine with the QR data, the typed code, an error message and a loading flag.
    Each handler is modelled from its start to the end of its `finally` block; the answer
    of the awaited API call is an input (`Ok` or the error it throws), and the
    `confirm` dialog's answer is an input too. */
module TwoFactorSetup {
  import opened Wrappers
  import opened Types
  import ApiClient
  import CodeEntry
  import Text

  datatype Step = Initial | Qr | Verify | Success

  datatype Enable2FAResponse = Enable2FAResponse(qrCodeUrl: string, manualEntryKey: string)

  datatype Verify2FARequest = Verify2FARequest(userId: string, code: string)

  const UserNotFound: ApiClient.ErrorValue := ApiClient.PlainError("User not found")

  class TwoFactorSetup {
    var step: Step
    var qrCodeUrl: string
    var manualKey: string
    var verificationCode: string
    var error: string
    var isLoading: bool

    /** The initial state of the component. */
    constructor ()
      ensures step == Initial && qrCodeUrl == "" && manualKey == "" && verificationCode == ""
      ensures error == "" && !isLoading
    {
      step, qrCodeUrl, manualKey, verificationCode, error, isLoading := Initial, "", "", "", "", false;
    }

    /** `handleEnable2FA`: on success the QR data is stored and the step becomes qr; on
        failure the step stays and the error is shown. */
    method HandleEnable2FA(answer: Result<Enable2FAResponse, ApiClient.ErrorValue>)
      modifies this
      ensures answer.Ok? ==>
        && step == Qr && qrCodeUrl == answer.value.qrCodeUrl && manualKey == answer.value.manualEntryKey
        && error == ""
      ensures answer.Err? ==>
        && step == old(step) && qrCodeUrl == old(qrCodeUrl) && manualKey == old(manualKey)
        && error == ApiClient.GetErrorMessage(answer.error)
      ensures verificationCode == old(verificationCode) && !isLoading
    {
      error := "";
      isLoading := true;
      match answer {
        case Ok(response) =>
          qrCodeUrl := response.qrCodeUrl;
          manualKey := response.manualEntryKey;
          step := Qr;
        case Err(e) =>
          error := ApiClient.GetErrorMessage(e);
      }
      isLoading := false;
    }

    /** The "I've Scanned the QR Code" button. */
    method Scanned()
      modifies this
      ensures step == Verify
      ensures qrCodeUrl == old(qrCodeUrl) && manualKey == old(manualKey)
      ensures verificationCode == old(verificationCode) && error == old(error) && isLoading == old(isLoading)
    {
      step := Verify;
    }

    /** The Back button of the verify step. */
    method Back()
      modifies this
      ensures step == Qr
      ensures qrCodeUrl == old(qrCodeUrl) && manualKey == old(manualKey)
      ensures verificationCode == old(verificationCode) && error == old(error) && isLoading == old(isLoading)
    {
      step := Qr;
    }

    /** The code input's change handler. */
    method OnCodeChange(value: string)
      modifies this
      ensures verificationCode == CodeEntry.DigitsOnly(value)
      ensures step == old(step) && qrCodeUrl == old(qrCodeUrl) && manualKey == old(manualKey)
      ensures error == old(error) && isLoading == old(isLoading)
    {
      verificationCode := CodeEntry.DigitsOnly(value);
    }

    /** Whether the verify button accepts a click. */
    function CanVerify(): bool
      reads this
    {
      CodeEntry.SubmitEnabled(verificationCode, isLoading)
    }

    /** `handleVerify2FA`: without a signed-in user nothing is sent and "User not found" is
        shown; otherwise the code is sent, and success moves to the success step while a
        failure keeps the step and shows the error. Returns the request sent, if any. */
    method HandleVerify2FA(user: Option<User>, answer: Result<(), ApiClient.ErrorValue>)
      returns (sent: Option<Verify2FARequest>)
      modifies this
      ensures user.None? ==>
        sent == None && step == old(step) && error == ApiClient.GetErrorMessage(UserNotFound)
      ensures user.Some? ==> sent == Some(Verify2FARequest(user.value.id, old(verificationCode)))
      ensures user.Some? && answer.Ok? ==> step == Success && error == ""
      ensures user.Some? && answer.Err? ==>
        step == old(step) && error == ApiClient.GetErrorMessage(answer.error)
      ensures qrCodeUrl == old(qrCodeUrl) && manualKey == old(manualKey)
      ensures verificationCode == old(verificationCode) && !isLoading
    {
      error := "";
      isLoading := true;
      sent := None;
      if user.None? {
        error := ApiClient.GetErrorMessage(UserNotFound);
      } else {
        sent := Some(Verify2FARequest(user.value.id, verificationCode));
        match answer {
          case Ok(_) => step := Success;
          case Err(e) => error := ApiClient.GetErrorMessage(e);
        }
      }
      isLoading := false;
    }

    /** `handleDisable2FA`: a declined confirmation changes nothing; success returns to the
        initial step with the QR data and the code cleared; failure shows the error. */
    method HandleDisable2FA(confirmed: bool, answer: Result<(), ApiClient.ErrorValue>)
      modifies this
      ensures !confirmed ==>
        && step == old(step) && qrCodeUrl == old(qrCodeUrl) && manualKey == old(manualKey)
        && verificationCode == old(verificationCode) && error == old(error) && isLoading == old(isLoading)
      ensures confirmed && answer.Ok? ==>
        && step == Initial && qrCodeUrl == "" && manualKey == "" && verificationCode == ""
        && error == "" && !isLoading
      ensures confirmed && answer.Err? ==>
        && step == old(step) && qrCodeUrl == old(qrCodeUrl) && manualKey == old(manualKey)
        && verificationCode == old(verificationCode)
        && error == ApiClient.GetErrorMessage(answer.error) && !isLoading
    {
      if !confirmed {
        return;
      }
      error := "";
      isLoading := true;
      match answer {
        case Ok(_) =>
          step := Initial;
          qrCodeUrl := "";
          manualKey := "";
          verificationCode := "";
        case Err(e) =>
          error := ApiClient.GetErrorMessage(e);
      }
      isLoading := false;
    }
  }

  /** The message shown when verification is attempted without a user. */
  lemma UserNotFoundMessage()
    ensures ApiClient.GetErrorMessage(UserNotFound) == "User not found"
  {
  }

  /** The verify button is enabled only for six digits: whatever was typed, the stored
      code consists of digits, and enabling needs exactly six of them and no pending call. */
  lemma VerifyNeedsSixDigits(typed: string, isLoading: bool)
    ensures CodeEntry.SubmitEnabled(CodeEntry.DigitsOnly(typed), isLoading) ==>
      !isLoading && |CodeEntry.DigitsOnly(typed)| == 6
      && forall i :: 0 <= i < 6 ==> Text.IsDigit(CodeEntry.DigitsOnly(typed)[i])
  {
    CodeEntry.DigitsOnlyKeepsDigits(typed);
  }
}
