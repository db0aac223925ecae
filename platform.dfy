/**
 * The AuthenticationServices values the bridge exchanges with the platform, as plain data:
 * the requests it submits, the credentials the platform hands back, its errors, and the
 * two ways an authorization controller reports completion.
 */
module Platform {
  import opened Wrappers
  import opened Base64URL

  /** A window handle; the bridge only passes it through. */
  type Window = nat

  /** `InputValues(saltInput1:saltInput2:)` of the PRF extension (WebAuthn "prf", section 10.1.4 of W3C Web Authentication Level 3). */
  datatype PrfInputValues = PrfInputValues(saltInput1: seq<Byte>, saltInput2: Option<seq<Byte>>)

  /** `ASAuthorizationPublicKeyCredentialPRFRegistrationInput.inputValues(_)`. */
  datatype PrfRegistrationInput = RegistrationInputValues(values: PrfInputValues)

  /** `ASAuthorizationPublicKeyCredentialPRFAssertionInput.inputValues(_)`: a type distinct from the registration input. */
  datatype PrfAssertionInput = AssertionInputValues(values: PrfInputValues)

  /** A platform credential registration request, as made by `createCredentialRegistrationRequest`. */
  datatype RegistrationRequest = RegistrationRequest(
    relyingPartyIdentifier: string,
    challenge: seq<Byte>,
    name: string,
    userID: seq<Byte>,
    prf: Option<PrfRegistrationInput>)

  /** A platform credential assertion request, as made by `createCredentialAssertionRequest`. */
  datatype AssertionRequest = AssertionRequest(
    relyingPartyIdentifier: string,
    challenge: seq<Byte>,
    prf: Option<PrfAssertionInput>)

  /** The PRF output of a registration; `first` is optional. */
  datatype PrfRegistrationOutput = PrfRegistrationOutput(isSupported: bool, first: Option<seq<Byte>>, second: Option<seq<Byte>>)

  /** The PRF output of an assertion; `first` is always there. */
  datatype PrfAssertionOutput = PrfAssertionOutput(first: seq<Byte>, second: Option<seq<Byte>>)

  /** `ASAuthorizationPlatformPublicKeyCredentialRegistration`. */
  datatype PlatformRegistration = PlatformRegistration(
    credentialID: seq<Byte>,
    rawClientDataJSON: seq<Byte>,
    rawAttestationObject: Option<seq<Byte>>,
    prf: Option<PrfRegistrationOutput>)

  /** `ASAuthorizationPlatformPublicKeyCredentialAssertion`. */
  datatype PlatformAssertion = PlatformAssertion(
    credentialID: seq<Byte>,
    rawClientDataJSON: seq<Byte>,
    rawAuthenticatorData: seq<Byte>,
    signature: seq<Byte>,
    userID: seq<Byte>,
    prf: Option<PrfAssertionOutput>)

  /** `auth.credential`, by the two casts the delegate tries and everything else. */
  datatype Credential =
    | RegistrationCredential(registration: PlatformRegistration)
    | AssertionCredential(assertion: PlatformAssertion)
    | OtherCredential

  /** An `NSError`: domain, code and localized description. */
  datatype AuthError = AuthError(domain: string, code: int, description: string)

  /** What the authorization controller reports to its delegate: one of its two callbacks. */
  datatype Completion =
    | DidCompleteWithAuthorization(credential: Credential)
    | DidCompleteWithError(error: AuthError)
}
