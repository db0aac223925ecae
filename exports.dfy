/**
 * Exports.swift: the result objects handed across the C boundary, and the two entry points
 * `begin_passkey_registration` / `begin_passkey_login`.
 *
 * An entry point is modelled as one synchronous run of what the source spreads over a `Task`:
 * the version guard, the salt conversion, a new handler, the begin, the platform's completion
 * (an input), and the callback invocations, which the method returns in order.
 */
module Exports {
  import opened Wrappers
  import opened Base64URL
  import opened Platform
  import opened PasskeyHandler

  /** The correlation token the caller passes as `context`. */
  type UInt64 = x: int | 0 <= x < 0x1_0000_0000_0000_0000

  /** `RegistrationResultObject`: Base64URL text fields and the raw PRF output. */
  datatype RegistrationResultObject = RegistrationResultObject(
    id: string,
    rawId: string,
    clientDataJSON: string,
    attestationObject: string,
    prfOutput: seq<Byte>)

  /** `LoginResultObject`. */
  datatype LoginResultObject = LoginResultObject(
    id: string,
    rawId: string,
    clientDataJSON: string,
    authenticatorData: string,
    signature: string,
    userHandle: string,
    prfOutput: seq<Byte>)

  /** `credential.prf?.first` of a registration, as raw bytes; empty when there is none. */
  function RegistrationPrfBytes(prf: Option<PrfRegistrationOutput>): seq<Byte> {
    if prf.Some? && prf.value.first.Some? then prf.value.first.value else []
  }

  /** The attestation field: the encoded attestation object, or the empty text when there is none (so it decodes to no bytes). */
  function AttestationText(attestation: Option<seq<Byte>>): (text: string)
    ensures attestation.None? ==> text == ""
    ensures attestation.Some? ==> text == Base64URLEncodedString(attestation.value)
    ensures Base64URLDecode(text) == Some(attestation.GetOr([]))
  {
    if attestation.Some? then
      EncodedRoundTrip(attestation.value);
      Base64URLEncodedString(attestation.value)
    else
      assert Base64URLDecode("") == Some([]);
      ""
  }

  /** `RegistrationResultObject.init(from:)`. */
  function RegistrationResult(credential: PlatformRegistration): (r: RegistrationResultObject)
    ensures r.id == r.rawId == Base64URLEncodedString(credential.credentialID)
    ensures r.clientDataJSON == Base64URLEncodedString(credential.rawClientDataJSON)
    ensures r.attestationObject == AttestationText(credential.rawAttestationObject)
    ensures Base64URLDecode(r.id) == Some(credential.credentialID)
    ensures Base64URLDecode(r.clientDataJSON) == Some(credential.rawClientDataJSON)
    ensures credential.rawAttestationObject.None? ==> r.attestationObject == ""
    ensures Base64URLDecode(r.attestationObject) == Some(credential.rawAttestationObject.GetOr([]))
    ensures credential.prf.Some? && credential.prf.value.first.Some? ==> r.prfOutput == credential.prf.value.first.value
    ensures credential.prf.None? || credential.prf.value.first.None? ==> r.prfOutput == []
  {
    EncodedRoundTrip(credential.credentialID);
    EncodedRoundTrip(credential.rawClientDataJSON);
    var idEncoded := Base64URLEncodedString(credential.credentialID);
    RegistrationResultObject(
      idEncoded,
      idEncoded,
      Base64URLEncodedString(credential.rawClientDataJSON),
      AttestationText(credential.rawAttestationObject),
      RegistrationPrfBytes(credential.prf))
  }

  /** `LoginResultObject.init(from:)`. */
  function LoginResult(assertion: PlatformAssertion): (r: LoginResultObject)
    ensures r.id == r.rawId == Base64URLEncodedString(assertion.credentialID)
    ensures r.clientDataJSON == Base64URLEncodedString(assertion.rawClientDataJSON)
    ensures r.authenticatorData == Base64URLEncodedString(assertion.rawAuthenticatorData)
    ensures r.signature == Base64URLEncodedString(assertion.signature)
    ensures r.userHandle == Base64URLEncodedString(assertion.userID)
    ensures Base64URLDecode(r.id) == Some(assertion.credentialID)
    ensures Base64URLDecode(r.clientDataJSON) == Some(assertion.rawClientDataJSON)
    ensures Base64URLDecode(r.authenticatorData) == Some(assertion.rawAuthenticatorData)
    ensures Base64URLDecode(r.signature) == Some(assertion.signature)
    ensures Base64URLDecode(r.userHandle) == Some(assertion.userID)
    ensures assertion.prf.Some? ==> r.prfOutput == assertion.prf.value.first
    ensures assertion.prf.None? ==> r.prfOutput == []
  {
    EncodedRoundTrip(assertion.credentialID);
    EncodedRoundTrip(assertion.rawClientDataJSON);
    EncodedRoundTrip(assertion.rawAuthenticatorData);
    EncodedRoundTrip(assertion.signature);
    EncodedRoundTrip(assertion.userID);
    var idEncoded := Base64URLEncodedString(assertion.credentialID);
    LoginResultObject(
      idEncoded,
      idEncoded,
      Base64URLEncodedString(assertion.rawClientDataJSON),
      Base64URLEncodedString(assertion.rawAuthenticatorData),
      Base64URLEncodedString(assertion.signature),
      Base64URLEncodedString(assertion.userID),
      if assertion.prf.Some? then assertion.prf.value.first else [])
  }

  /**
   * A registration whose credential id is DE AD gives id and rawId "3q0"; its PRF output is
   * empty without PRF results and is the raw first output when there is one.
   */
  lemma RegistrationResultVectors(clientData: seq<Byte>)
    ensures var r := RegistrationResult(PlatformRegistration([0xDE, 0xAD], clientData, None, None));
      r.id == "3q0" && r.rawId == "3q0" && r.attestationObject == "" && r.prfOutput == []
    ensures var prf := Some(PrfRegistrationOutput(true, Some([0x01, 0x02, 0x03]), None));
      RegistrationResult(PlatformRegistration([0xDE, 0xAD], clientData, None, prf)).prfOutput == [0x01, 0x02, 0x03]
  {
    DeadVector();
  }

  /**
   * An assertion whose credential id is DE AD gives id and rawId "3q0"; its PRF output is
   * empty without PRF results and is the raw first output when there is one.
   */
  lemma LoginResultVectors(clientData: seq<Byte>, authenticatorData: seq<Byte>, signature: seq<Byte>, userID: seq<Byte>)
    ensures var r := LoginResult(PlatformAssertion([0xDE, 0xAD], clientData, authenticatorData, signature, userID, None));
      r.id == "3q0" && r.rawId == "3q0" && r.prfOutput == []
    ensures var prf := Some(PrfAssertionOutput([0x01, 0x02, 0x03], None));
      LoginResult(PlatformAssertion([0xDE, 0xAD], clientData, authenticatorData, signature, userID, prf)).prfOutput == [0x01, 0x02, 0x03]
  {
    DeadVector();
  }

  datatype OSVersion = OSVersion(major: nat, minor: nat, patch: nat)

  /** `#available(macOS 15.0, *)`. */
  predicate Available(os: OSVersion) {
    os.major >= 15
  }

  /** One call of the C callback: the result pointer (`nil` as `None`) and the context. */
  datatype CallbackInvocation<T> = CallbackInvocation(result: Option<T>, context: UInt64)

  /** A ceremony the platform answers with the other kind of credential: nothing resumes the caller. */
  predicate AnswersWithAssertion(completion: Completion) {
    completion.DidCompleteWithAuthorization? && completion.credential.AssertionCredential?
  }

  predicate AnswersWithRegistration(completion: Completion) {
    completion.DidCompleteWithAuthorization? && completion.credential.RegistrationCredential?
  }

  /**
   * The `Task` of `begin_passkey_registration`: a new handler, the begin, the platform's
   * completion, then the `do`/`catch` around the awaited registration. The callback is
   * invoked once, with the marshalled result or `nil`, unless nothing resumes the caller.
   */
  method RegistrationTask(windowPtr: Option<Window>, domain: string, challenge: seq<Byte>, username: string,
                          userID: seq<Byte>, saltData: Option<seq<Byte>>, context: UInt64, completion: Completion)
    returns (request: RegistrationRequest, callbacks: seq<CallbackInvocation<RegistrationResultObject>>)
    ensures request.relyingPartyIdentifier == domain && request.challenge == challenge
    ensures request.name == username && request.userID == userID
    ensures request.prf.Some? <==> saltData.Some?
    ensures saltData.Some? ==> request.prf.value.values == PrfInputValues(saltData.value, None)
    ensures |callbacks| == 0 <==> AnswersWithAssertion(completion)
    ensures |callbacks| <= 1
    ensures forall i | 0 <= i < |callbacks| :: callbacks[i].context == context
    ensures forall i | 0 <= i < |callbacks| :: callbacks[i].result.Some? <==> AnswersWithRegistration(completion)
    ensures AnswersWithRegistration(completion) ==>
      callbacks == [CallbackInvocation(Some(RegistrationResult(completion.credential.registration)), context)]
  {
    var handler := new ApplePasskeyHandler(windowPtr);
    var continuation: Continuation := 0;
    request := handler.BeginRegistration(domain, challenge, username, userID, saltData, continuation);
    match completion {
      case DidCompleteWithAuthorization(credential) => handler.DidCompleteWithAuthorization(credential);
      case DidCompleteWithError(error) => handler.DidCompleteWithError(error);
    }
    RegistrationCeremony(continuation, completion);
    var awaited := AwaitRegistration(handler.resumptions, continuation);
    assert awaited == RegistrationAnswer(completion);
    match awaited {
      case None =>
        callbacks := [];
      case Some(Success(credential)) =>
        callbacks := [CallbackInvocation(Some(RegistrationResult(credential)), context)];
      case Some(Failure(_)) =>
        callbacks := [CallbackInvocation(None, context)];
    }
  }

  /** The `Task` of `begin_passkey_login`. */
  method LoginTask(windowPtr: Option<Window>, domain: string, challenge: seq<Byte>,
                   saltData: Option<seq<Byte>>, context: UInt64, completion: Completion)
    returns (request: AssertionRequest, callbacks: seq<CallbackInvocation<LoginResultObject>>)
    ensures request.relyingPartyIdentifier == domain && request.challenge == challenge
    ensures request.prf.Some? <==> saltData.Some?
    ensures saltData.Some? ==> request.prf.value.values == PrfInputValues(saltData.value, None)
    ensures |callbacks| == 0 <==> AnswersWithRegistration(completion)
    ensures |callbacks| <= 1
    ensures forall i | 0 <= i < |callbacks| :: callbacks[i].context == context
    ensures forall i | 0 <= i < |callbacks| :: callbacks[i].result.Some? <==> AnswersWithAssertion(completion)
    ensures AnswersWithAssertion(completion) ==>
      callbacks == [CallbackInvocation(Some(LoginResult(completion.credential.assertion)), context)]
  {
    var handler := new ApplePasskeyHandler(windowPtr);
    var continuation: Continuation := 0;
    request := handler.BeginLogin(domain, challenge, saltData, continuation);
    match completion {
      case DidCompleteWithAuthorization(credential) => handler.DidCompleteWithAuthorization(credential);
      case DidCompleteWithError(error) => handler.DidCompleteWithError(error);
    }
    LoginCeremony(continuation, completion);
    var awaited := AwaitLogin(handler.resumptions, continuation);
    assert awaited == LoginAnswer(completion);
    match awaited {
      case None =>
        callbacks := [];
      case Some(Success(assertion)) =>
        callbacks := [CallbackInvocation(Some(LoginResult(assertion)), context)];
      case Some(Failure(_)) =>
        callbacks := [CallbackInvocation(None, context)];
    }
  }

  /**
   * `begin_passkey_registration`. Below macOS 15 the callback is invoked once with `nil` and
   * nothing else happens. Otherwise a zero-length salt becomes "no PRF", the registration request
   * is submitted, and once the platform completes, the callback is invoked once: with the
   * marshalled result on success, with `nil` on any thrown error, always with the caller's context.
   * The one completion that resumes nothing is an assertion credential: the registration
   * continuation then stays pending and the callback is never invoked.
   */
  method BeginPasskeyRegistration(os: OSVersion, windowPtr: Option<Window>, domain: string, challenge: seq<Byte>,
                                  username: string, userID: seq<Byte>, salt: seq<Byte>, context: UInt64,
                                  completion: Completion)
    returns (submitted: Option<RegistrationRequest>, callbacks: seq<CallbackInvocation<RegistrationResultObject>>)
    ensures !Available(os) ==> submitted == None && callbacks == [CallbackInvocation(None, context)]
    ensures Available(os) ==> submitted.Some?
    ensures submitted.Some? ==>
      && submitted.value.relyingPartyIdentifier == domain && submitted.value.challenge == challenge
      && submitted.value.name == username && submitted.value.userID == userID
      && (submitted.value.prf.Some? <==> |salt| > 0)
      && (|salt| > 0 ==> submitted.value.prf.value.values == PrfInputValues(salt, None))
    ensures |callbacks| <= 1
    ensures |callbacks| == 0 <==> Available(os) && AnswersWithAssertion(completion)
    ensures forall i | 0 <= i < |callbacks| :: callbacks[i].context == context
    ensures forall i | 0 <= i < |callbacks| :: callbacks[i].result.Some? <==> Available(os) && AnswersWithRegistration(completion)
    ensures Available(os) && AnswersWithRegistration(completion) ==>
      callbacks == [CallbackInvocation(Some(RegistrationResult(completion.credential.registration)), context)]
  {
    if !Available(os) {
      callbacks := [CallbackInvocation(None, context)];
      submitted := None;
      return;
    }
    var saltData: Option<seq<Byte>> := None;
    if |salt| > 0 {
      saltData := Some(salt);
    }
    var request;
    request, callbacks := RegistrationTask(windowPtr, domain, challenge, username, userID, saltData, context, completion);
    submitted := Some(request);
  }

  /**
   * `begin_passkey_login`: as registration, with an assertion request and the PRF assertion
   * extension. A registration credential resumes nothing here and leaves the callback uninvoked.
   */
  method BeginPasskeyLogin(os: OSVersion, windowPtr: Option<Window>, domain: string, challenge: seq<Byte>,
                           salt: seq<Byte>, context: UInt64, completion: Completion)
    returns (submitted: Option<AssertionRequest>, callbacks: seq<CallbackInvocation<LoginResultObject>>)
    ensures !Available(os) ==> submitted == None && callbacks == [CallbackInvocation(None, context)]
    ensures Available(os) ==> submitted.Some?
    ensures submitted.Some? ==>
      && submitted.value.relyingPartyIdentifier == domain && submitted.value.challenge == challenge
      && (submitted.value.prf.Some? <==> |salt| > 0)
      && (|salt| > 0 ==> submitted.value.prf.value.values == PrfInputValues(salt, None))
    ensures |callbacks| <= 1
    ensures |callbacks| == 0 <==> Available(os) && AnswersWithRegistration(completion)
    ensures forall i | 0 <= i < |callbacks| :: callbacks[i].context == context
    ensures forall i | 0 <= i < |callbacks| :: callbacks[i].result.Some? <==> Available(os) && AnswersWithAssertion(completion)
    ensures Available(os) && AnswersWithAssertion(completion) ==>
      callbacks == [CallbackInvocation(Some(LoginResult(completion.credential.assertion)), context)]
  {
    if !Available(os) {
      callbacks := [CallbackInvocation(None, context)];
      submitted := None;
      return;
    }
    var saltData: Option<seq<Byte>> := None;
    if |salt| > 0 {
      saltData := Some(salt);
    }
    var request;
    request, callbacks := LoginTask(windowPtr, domain, challenge, saltData, context, completion);
    submitted := Some(request);
  }
}
