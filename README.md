# Passkey bridge core, modelled in Dafny

This project models the Swift core of a macOS passkey bridge. The bridge lets a caller outside
Swift run WebAuthn registration and login ceremonies through the platform authenticator. It
reports the result through a C callback instead of an `async` return. The model covers two files.

- `ApplePasskeyHandler.swift`. The handler has two optional continuation slots, one per ceremony
  kind. `beginRegistration` and `beginLogin` build the platform request. They attach the PRF
  extension (WebAuthn "prf", section 10.1.4 of W3C Web Authentication Level 3) only when a salt
  is given. Then they store the awaiting caller's continuation in their slot. The controller's
  two delegate callbacks resume the pending slots and then clear them.
- `Exports.swift`. `Data.base64URLEncodedString` encodes bytes as text. `RegistrationResultObject`
  and `LoginResultObject` marshal a credential. The entry points `begin_passkey_registration` and
  `begin_passkey_login` check the OS version, turn a zero-length salt into "no PRF", run the
  ceremony and invoke the callback.

Files:

- `wrappers.dfy` holds `Option` and `Result`.
- `base64url.dfy` (module `Base64URL`) holds the encoder as written: standard Base64 (section 4
  of RFC 4648) followed by the three `replacingOccurrences` calls. It also holds an independent
  reference. That reference is the unpadded base64url encoding of section 5 of RFC 4648, plus a
  base64url decoder that accepts the text with or without padding. The decoder is strict about
  leftover bits, as section 3.5 of RFC 4648 allows.
- `platform.dfy` (module `Platform`) holds the AuthenticationServices values as plain data:
  requests, PRF inputs and outputs, credentials, errors and the two completion callbacks.
- `handler.dfy` (module `PasskeyHandler`) holds the class `ApplePasskeyHandler` and the
  specification it is proved against. `Apply` and `Run` are pure transition functions over
  `HandlerState`. The exactly-once lemmas quantify over every sequence of begins and completions.
  A continuation is an opaque token. The real field `resumptions` records what each `resume`
  delivered, which is the value an awaiting `begin` returns or throws. Two ghost sets, `issued`
  and `dropped`, account for every continuation.
- `exports.dfy` (module `Exports`) holds the result objects and the entry points. The platform's
  completion is an input. An entry method returns the request it submitted and the callback
  invocations in order. Below macOS 15 it submits nothing.

Behaviour of the Swift code that the model makes explicit:

- The callback is not invoked when a registration is answered with an assertion credential (or a
  login with a registration credential). The delegate only touches the other kind's slot, which is
  empty, so nothing is resumed and the caller stays suspended. `Exports.BeginPasskeyRegistration` states this as
  `|callbacks| == 0 <==> Available(os) && AnswersWithAssertion(completion)`.
- Nothing stops a handler being reused. A second begin of the same kind overwrites the slot, and
  the earlier caller is never resumed (`PasskeyHandler.OverwrittenNeverResumed`,
  `PasskeyHandler.OverwrittenLoginNeverResumed`).
- The handler attaches PRF for any present salt, even an empty one. Only the entry points map
  a zero-length salt to "no PRF".
- An absent attestation object is marshalled as `""`, which is also the encoding of zero bytes.
  After decoding, "absent" and "empty" look the same (`Exports.AttestationText`).

## Model

| member | source | states |
|---|---|---|
| `Base64URL.Base64URLEncodedString` | swift-lib/Sources/PasskeyBridge/Exports.swift:152-157 | the replacement chain over standard Base64 equals the independently defined unpadded base64url encoding of section 5 of RFC 4648 |
| `Base64URL.EncodedAlphabet` | swift-lib/Sources/PasskeyBridge/Exports.swift:152-157 | no output character is `+`, `/` or `=`; every one is a digit of the URL-safe alphabet |
| `Base64URL.EncodedLength` | swift-lib/Sources/PasskeyBridge/Exports.swift:151-157 | output length is 4·⌈n/3⌉ less 2 when n mod 3 = 1 and less 1 when n mod 3 = 2, i.e. the padded length minus the stripped `=` |
| `Base64URL.EncodedRoundTrip` | swift-lib/Sources/PasskeyBridge/Exports.swift:151-157 | base64url-decoding the output recovers the input bytes exactly ("Base64URL format (no padding)") |
| `Base64URL.DecodedReencodes` | swift-lib/Sources/PasskeyBridge/Exports.swift:151-157 | any text that decodes to some bytes is exactly the encoder's output for them once its padding is dropped: the encoding is canonical |
| `Base64URL.EncodingInjective` | swift-lib/Sources/PasskeyBridge/Exports.swift:151-157 | distinct byte strings never share an encoding |
| `Base64URL.SextetsRoundTrip` | swift-lib/Sources/PasskeyBridge/Exports.swift:153 | splitting bytes into 6-bit groups and reassembling them is the identity |
| `Base64URL.SextetsCanonical` | swift-lib/Sources/PasskeyBridge/Exports.swift:153 | the only 6-bit groups that reassemble to some bytes are the groups of those bytes |
| `Base64URL.SextetCount` | swift-lib/Sources/PasskeyBridge/Exports.swift:153 | n bytes give 4·⌊n/3⌋ digits plus 0, 2 or 3 for a remainder of 0, 1 or 2 |
| `Base64URL.ReplaceDigit` | swift-lib/Sources/PasskeyBridge/Exports.swift:154-155 | replacing one alphabet character by another turns digits over one alphabet into digits over the other |
| `Base64URL.ReplacedCharactersVector` | swift-lib/Sources/PasskeyBridge/Exports.swift:152-157 | bytes FB FF encode to `+/8=` in standard Base64 and to `-_8` as written: both replaced characters and the padding are rewritten |
| `Base64URL.FullQuantumVector` | swift-lib/Sources/PasskeyBridge/Exports.swift:152-157 | bytes 4D 61 6E ("Man") encode to `TWFu` both in standard Base64 and as written |
| `Base64URL.DeadVector` | swift-lib/Sources/PasskeyBridge/Exports.swift:152-157 | bytes DE AD encode to `3q0=` in standard Base64 and to `3q0` as written |
| `Exports.AttestationText` | swift-lib/Sources/PasskeyBridge/Exports.swift:20 | attestation text is `""` when the raw attestation is absent, and otherwise the base64url encoding of it, which decodes back to it |
| `Exports.RegistrationResult` | swift-lib/Sources/PasskeyBridge/Exports.swift:15-27 | `id == rawId`, both the base64url encoding of the credential id; clientDataJSON is the encoding of the raw client data and attestationObject the attestation text; each decodes back to the raw bytes; `prfOutput` is the raw first PRF output when present and empty otherwise |
| `Exports.LoginResult` | swift-lib/Sources/PasskeyBridge/Exports.swift:41-55 | `id == rawId`, both the base64url encoding of the credential id; clientDataJSON, authenticatorData, signature and userHandle are the encodings of the raw client data, authenticator data, signature and user id, each decoding back to the raw bytes; `prfOutput` is the raw first PRF output when present and empty otherwise |
| `Exports.RegistrationResultVectors` | swift-lib/Sources/PasskeyBridge/Exports.swift:15-27 | credential id DE AD gives id and rawId `3q0`; without PRF results `prfOutput` is empty, with first output 01 02 03 it is exactly those bytes |
| `Exports.LoginResultVectors` | swift-lib/Sources/PasskeyBridge/Exports.swift:41-55 | credential id DE AD gives id and rawId `3q0`; without PRF results `prfOutput` is empty, with first output 01 02 03 it is exactly those bytes |
| `Exports.RegistrationTask` | swift-lib/Sources/PasskeyBridge/Exports.swift:85-102 | the submitted request carries the domain, challenge, name and user id unchanged and PRF iff a salt is given; the callback fires at most once, always with the caller's context, non-null exactly for a registration credential (then with its marshalled result), never for an assertion credential |
| `Exports.LoginTask` | swift-lib/Sources/PasskeyBridge/Exports.swift:128-143 | the same for login: non-null exactly for an assertion credential, no callback for a registration credential |
| `Exports.BeginPasskeyRegistration` | swift-lib/Sources/PasskeyBridge/Exports.swift:58-103 | below macOS 15 it submits nothing and calls back once with `nil` and the context; otherwise a zero-length salt means no PRF, a non-empty one is passed as `saltInput1`; the callback fires at most once and always with the unchanged context; success gives the marshalled result, any error or an unsupported credential gives `nil` |
| `Exports.BeginPasskeyLogin` | swift-lib/Sources/PasskeyBridge/Exports.swift:105-144 | the same for login, with the PRF assertion extension |
| `PasskeyHandler.ApplePasskeyHandler.constructor` | swift-lib/Sources/PasskeyBridge/ApplePasskeyHandler.swift:14-22 | keeps the provided window, if any; both slots start nil |
| `PasskeyHandler.ApplePasskeyHandler.BeginRegistration` | swift-lib/Sources/PasskeyBridge/ApplePasskeyHandler.swift:25-54 | the request has the PRF registration extension with `saltInput1 == salt` iff a salt is given; stores the continuation only in the registration slot, overwriting it without a guard; login slot and resumptions unchanged |
| `PasskeyHandler.ApplePasskeyHandler.BeginLogin` | swift-lib/Sources/PasskeyBridge/ApplePasskeyHandler.swift:57-82 | the request has the PRF assertion extension with `saltInput1 == salt` iff a salt is given; stores the continuation only in the login slot; registration slot and resumptions unchanged |
| `PasskeyHandler.ApplePasskeyHandler.PresentationAnchor` | swift-lib/Sources/PasskeyBridge/ApplePasskeyHandler.swift:86-88 | the provided window if any, else the application's first window; nothing (the force-unwrap trap) when there is neither |
| `PasskeyHandler.ApplePasskeyHandler.DidCompleteWithAuthorization` | swift-lib/Sources/PasskeyBridge/ApplePasskeyHandler.swift:90-107 | a registration credential resumes the pending registration slot with it and clears that slot only; an assertion does the same for the login slot only; any other credential resumes every pending slot with error -3 and clears both; the invariant is kept |
| `PasskeyHandler.ApplePasskeyHandler.DidCompleteWithError` | swift-lib/Sources/PasskeyBridge/ApplePasskeyHandler.swift:109-115 | every pending slot is resumed with the error, then both are nil; the invariant is kept |
| `PasskeyHandler.ApplyValid` | swift-lib/Sources/PasskeyBridge/ApplePasskeyHandler.swift:90-115 | each begin or completion keeps the exactly-once invariant, only appends to the resumption log and forgets no continuation |
| `PasskeyHandler.FailBothValid` | swift-lib/Sources/PasskeyBridge/ApplePasskeyHandler.swift:109-115 | a failure resumes exactly the pending continuations, each once, and leaves nothing pending |
| `PasskeyHandler.RunValid` | swift-lib/Sources/PasskeyBridge/ApplePasskeyHandler.swift:50-115 | any sequence of events with fresh continuations keeps the invariant; the log only grows |
| `PasskeyHandler.ExactlyOnce` | swift-lib/Sources/PasskeyBridge/ApplePasskeyHandler.swift:90-115 | on a new handler, after any event sequence no continuation was resumed twice, every resumed one was stored by a begin, and every stored one is pending, resumed or overwritten |
| `PasskeyHandler.OverwrittenNeverResumed` | swift-lib/Sources/PasskeyBridge/ApplePasskeyHandler.swift:50-53 | a continuation overwritten by a second registration begin is never resumed by any later events |
| `PasskeyHandler.OverwrittenLoginNeverResumed` | swift-lib/Sources/PasskeyBridge/ApplePasskeyHandler.swift:78-81 | a continuation overwritten by a second login begin is never resumed by any later events |
| `PasskeyHandler.SecondCompletionAfterFailure` | swift-lib/Sources/PasskeyBridge/ApplePasskeyHandler.swift:99-115 | after an error or an unsupported credential, a second completion resumes nothing |
| `PasskeyHandler.SecondCompletionSameKind` | swift-lib/Sources/PasskeyBridge/ApplePasskeyHandler.swift:91-98 | a second credential of the same kind finds its slot cleared and resumes nothing |
| `PasskeyHandler.FailureResolvesAll` | swift-lib/Sources/PasskeyBridge/ApplePasskeyHandler.swift:109-115 | after a failure no caller is left pending: every stored continuation is resumed once, apart from overwritten ones |
| `PasskeyHandler.RegistrationCeremony` | swift-lib/Sources/PasskeyBridge/ApplePasskeyHandler.swift:90-115 | one registration begin and one completion resume the caller exactly once, with the registration, error -3 or the platform error; an assertion resumes nothing |
| `PasskeyHandler.LoginCeremony` | swift-lib/Sources/PasskeyBridge/ApplePasskeyHandler.swift:90-115 | the same for login: the assertion, error -3 or the platform error; a registration credential resumes nothing |

## Left out

- Concurrency and scheduling. `Task`, `await` and the thread the callback runs on are not
  modelled. An entry method runs the body of its `Task` synchronously and takes the platform's
  completion as an input. It does not model that the guard's callback fires before the method
  returns while the others fire later.
- The checked continuation's own runtime checks, such as traps on a double resume and warnings
  on a leaked continuation. The model proves instead that no continuation is resumed twice.
- AuthenticationServices: `ASAuthorizationController`, `performRequests`, and assigning the
  delegate and the presentation-context provider. These are foreign framework calls. The
  submitted request is returned instead, and the platform's answer is a `Completion` input.
- Pointer ownership: `Unmanaged.passRetained(...).toOpaque()`, `fromOpaque` and
  `UnsafeWindowPtr`. A non-null result pointer is modelled as the result object it points to,
  and a window pointer as an opaque `Window` number.
- `NSApplication.shared.windows` is a parameter of `PresentationAnchor`.
- `Logger` calls are diagnostics only.
- `SRString` and `SRData` conversions (`toString`, `toArray`, `Data(...)`) are identities on
  `string` and `seq<Byte>`.
- `#available(macOS 15.0, *)` is modelled as a major version of at least 15.
- The PRF `second` outputs and `saltInput2`: the source never sets or reads them, so
  `saltInput2` is always `None`.
- The Rust side and the build manifests are not part of this model. They are FFI, runtime and
  build plumbing:
  - `src/macos/mod.rs` passes a boxed one-shot sender as the context and turns a null result
    pointer into `None`.
  - `src/macos/blocking.rs` blocks on that future and turns `None` into the error
    "Registration failed" or "Login failed".
  - `src/macos/commands.rs` reports a window without an `ns_window` as "Missing ns_window" and a
    failed blocking task as a join error.
  - `src/lib.rs` registers the two commands.
  - `build.rs` links the Swift package with a macOS 15.0 minimum.
  - `swift-lib/Package.swift` declares `.macOS(.v15)`.
- The `#available` guard in the entry points is dead code in the built library, because
  `Package.swift` sets macOS 15 as the minimum. The model still covers the `!Available(os)` branch
  as the Swift code is written.
- `PresentationAnchor` traps on `windows.first!` when no window is given and the application has
  none. The model returns `None`, and the entry points' callback promises assume that the
  ceremony reaches a completion. The Rust commands always pass the window's `ns_window`, so in this
  program the trap is not reached from the entry points.
