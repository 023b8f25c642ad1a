/**
 * The SMS booking confirmation: the credential gate, the rewrite of South
 * African numbers into E.164 form (ITU-T Recommendation E.164), the first name
 * and message text, and the boolean result of the send.
 */
module Notifications {
  import opened Wrappers

  /** The three Twilio settings; a missing value is `None`. */
  datatype TwilioSettings = TwilioSettings(
    accountSid: Option<string>,
    authToken: Option<string>,
    fromNumber: Option<string>)

  /** Python truthiness of an optional string. */
  predicate Truthy(s: Option<string>)
  {
    s.Some? && |s.value| > 0
  }

  /** `all([TWILIO_ACCOUNT_SID, TWILIO_AUTH_TOKEN, TWILIO_PHONE_NUMBER])`. */
  predicate Configured(t: TwilioSettings)
  {
    Truthy(t.accountSid) && Truthy(t.authToken) && Truthy(t.fromNumber)
  }

  const CountryPrefix: string := "+27"

  /** A national South African number: ten characters with a leading trunk '0'. */
  predicate IsLocalNumber(p: string)
  {
    |p| == 10 && p[0] == '0'
  }

  /**
   * A number starting with '+' is kept; a local number loses its '0' and gets
   * the country prefix; anything else is sent as it is.
   */
  function NormalisePhone(p: string): (r: string)
    ensures |p| > 0 && p[0] == '+' ==> r == p
    ensures r != p <==> IsLocalNumber(p)
    ensures IsLocalNumber(p) ==> |r| == 12 && r[..3] == CountryPrefix && r[3..] == p[1..]
  {
    if |p| > 0 && p[0] == '+' then p
    else if IsLocalNumber(p) then CountryPrefix + p[1..]
    else p
  }

  /** Rewriting an already rewritten number changes nothing. */
  lemma NormalisePhoneIdempotent(p: string)
    ensures NormalisePhone(NormalisePhone(p)) == NormalisePhone(p)
  {
    if IsLocalNumber(p) {
      assert NormalisePhone(p)[0] == '+';
    }
  }

  predicate IsDigit(c: char)
  {
    '0' <= c <= '9'
  }

  /** '+', then between one and fifteen digits, the first of them not '0'. */
  predicate IsE164(r: string)
  {
    2 <= |r| <= 16 && r[0] == '+' && r[1] != '0' && forall k :: 1 <= k < |r| ==> IsDigit(r[k])
  }

  /** A ten-digit local number becomes a well-formed E.164 number with country code 27. */
  lemma LocalNumberBecomesE164(p: string)
    requires IsLocalNumber(p)
    requires forall k :: 0 <= k < |p| ==> IsDigit(p[k])
    ensures IsE164(NormalisePhone(p))
  {
    var r := NormalisePhone(p);
    assert r == CountryPrefix + p[1..];
    forall k | 1 <= k < |r|
      ensures IsDigit(r[k])
    {
      if k >= 3 {
        assert r[k] == p[k - 2];
      }
    }
  }

  /** `full_name.split(' ')[0]`: everything before the first space. */
  function FirstName(fullName: string): (r: string)
    ensures r <= fullName
    ensures ' ' !in r
    ensures |r| < |fullName| ==> fullName[|r|] == ' '
  {
    if |fullName| == 0 || fullName[0] == ' ' then ""
    else [fullName[0]] + FirstName(fullName[1..])
  }

  /** `part` stands in `whole` starting at index `at`. */
  predicate OccursAt(part: string, whole: string, at: int)
  {
    0 <= at && at + |part| <= |whole| && whole[at..at + |part|] == part
  }

  const SmsOpening: string := "Hi "
  const SmsMiddle: string := ", this is Zappies AI confirming your onboarding call for "
  const SmsClosing: string := ". You'll also receive an email and calendar invite. See you then!"

  /** The text of the confirmation SMS: it names the recipient and the meeting time. */
  function SmsBody(firstName: string, startTime: string): (r: string)
    ensures OccursAt(firstName, r, |SmsOpening|)
    ensures OccursAt(startTime, r, |SmsOpening| + |firstName| + |SmsMiddle|)
  {
    var r := SmsOpening + firstName + SmsMiddle + startTime + SmsClosing;
    assert r[|SmsOpening|..|SmsOpening| + |firstName|] == firstName;
    var at := |SmsOpening| + |firstName| + |SmsMiddle|;
    assert r[at..at + |startTime|] == startTime;
    r
  }

  datatype SmsMessage = SmsMessage(to: string, from: string, body: string)

  /** The message `send_sms_confirmation` would hand to Twilio; none without credentials. */
  function PrepareSmsConfirmation(t: TwilioSettings, phone: string, fullName: string, startTime: string): (r: Option<SmsMessage>)
    ensures r.None? <==> !Configured(t)
    ensures r.Some? ==>
      && r.value.to == NormalisePhone(phone)
      && r.value.from == t.fromNumber.value
      && r.value.body == SmsBody(FirstName(fullName), startTime)
  {
    if !Configured(t) then None
    else Some(SmsMessage(NormalisePhone(phone), t.fromNumber.value, SmsBody(FirstName(fullName), startTime)))
  }

  /**
   * `send_sms_confirmation`: False without credentials and before anything is
   * sent; otherwise True exactly when the provider accepts the message, and
   * False for any exception of the send.
   */
  method SendSmsConfirmation(t: TwilioSettings, phone: string, fullName: string, startTime: string)
    returns (sent: Option<SmsMessage>, ok: bool)
    ensures sent == PrepareSmsConfirmation(t, phone, fullName, startTime)
    ensures !Configured(t) ==> sent.None? && !ok
    ensures ok ==> sent.Some?
  {
    sent := PrepareSmsConfirmation(t, phone, fullName, startTime);
    if sent.None? {
      return sent, false;
    }
    var accepted: bool := *;
    ok := accepted;
  }
}
