/**
 * `ApplePasskeyHandler` (ApplePasskeyHandler.swift): one pending-continuation slot per
 * ceremony kind, filled by `beginRegistration` / `beginLogin` and resumed, then cleared, by
 * the authorization controller's two delegate callbacks.
 *
 * A continuation is an opaque token. What resuming one delivers to its awaiting caller is
 * recorded in the handler's resumption log. Two ghost sets account for every continuation
 * the handler has been given: `issued` (all of them) and `dropped` (those a second begin of
 * the same kind overwrote before they were resumed).
 *
 * The pure part (HandlerState, Apply, Run) is the specification the class is proved against;
 * the exactly-once lemmas are stated over arbitrary sequences of events.
 */
module PasskeyHandler {
  import opened Wrappers
  import opened Base64URL
  import opened Platform

  /** A suspended caller of `beginRegistration` or `beginLogin`: its checked continuation. */
  type Continuation = nat

  /** One `resume(returning:)` or `resume(throwing:)`, with what it delivered. */
  datatype Resumption =
    | ResumedRegistration(continuation: Continuation, registrationOutcome: Result<PlatformRegistration, AuthError>)
    | ResumedLogin(continuation: Continuation, loginOutcome: Result<PlatformAssertion, AuthError>)

  /** The error both slots are resumed with when the credential is of neither expected type. */
  const UnsupportedCredentialType := AuthError("ApplePasskeyHandler", -3, "Unsupported credential type.")

  /** The handler's slots, its resumption log, and the ghost accounting of continuations. */
  datatype HandlerState = HandlerState(
    registration: Option<Continuation>,
    login: Option<Continuation>,
    resumptions: seq<Resumption>,
    issued: set<Continuation>,
    dropped: set<Continuation>)

  /** What can happen to a handler: a begin storing a fresh continuation, or a controller callback. */
  datatype Event =
    | BeginRegistration(continuation: Continuation)
    | BeginLogin(continuation: Continuation)
    | Completed(completion: Completion)

  /** A freshly initialised handler: both slots nil. */
  const Initial := HandlerState(None, None, [], {}, {})

  function SlotSet(slot: Option<Continuation>): set<Continuation> {
    if slot.Some? then {slot.value} else {}
  }

  /** `registrationContinuation?.resume(...)`: a resumption if the slot is pending, nothing otherwise. */
  function ResumeRegistration(slot: Option<Continuation>, outcome: Result<PlatformRegistration, AuthError>): seq<Resumption> {
    if slot.Some? then [ResumedRegistration(slot.value, outcome)] else []
  }

  /** `loginContinuation?.resume(...)`. */
  function ResumeLogin(slot: Option<Continuation>, outcome: Result<PlatformAssertion, AuthError>): seq<Resumption> {
    if slot.Some? then [ResumedLogin(slot.value, outcome)] else []
  }

  /** Both slots resumed with `error`, registration first, then both cleared. */
  function FailBoth(s: HandlerState, error: AuthError): HandlerState {
    s.(registration := None, login := None,
       resumptions := s.resumptions + ResumeRegistration(s.registration, Failure(error))
                                    + ResumeLogin(s.login, Failure(error)))
  }

  /** The effect of one event on a handler. */
  function Apply(s: HandlerState, e: Event): HandlerState {
    match e
    case BeginRegistration(k) =>
      s.(registration := Some(k), issued := s.issued + {k}, dropped := s.dropped + SlotSet(s.registration))
    case BeginLogin(k) =>
      s.(login := Some(k), issued := s.issued + {k}, dropped := s.dropped + SlotSet(s.login))
    case Completed(DidCompleteWithAuthorization(RegistrationCredential(r))) =>
      s.(registration := None, resumptions := s.resumptions + ResumeRegistration(s.registration, Success(r)))
    case Completed(DidCompleteWithAuthorization(AssertionCredential(a))) =>
      s.(login := None, resumptions := s.resumptions + ResumeLogin(s.login, Success(a)))
    case Completed(DidCompleteWithAuthorization(OtherCredential)) =>
      FailBoth(s, UnsupportedCredentialType)
    case Completed(DidCompleteWithError(error)) =>
      FailBoth(s, error)
  }

  /** The effect of a sequence of events, in order. */
  function Run(s: HandlerState, events: seq<Event>): HandlerState
    decreases |events|
  {
    if |events| == 0 then s else Run(Apply(s, events[0]), events[1..])
  }

  /** A begin is handed a continuation the handler has never seen (each await creates a new one). */
  predicate FreshFor(s: HandlerState, e: Event) {
    match e
    case BeginRegistration(k) => k !in s.issued
    case BeginLogin(k) => k !in s.issued
    case Completed(_) => true
  }

  predicate FreshRun(s: HandlerState, events: seq<Event>)
    decreases |events|
  {
    |events| == 0 || (FreshFor(s, events[0]) && FreshRun(Apply(s, events[0]), events[1..]))
  }

  function Pending(s: HandlerState): set<Continuation> {
    SlotSet(s.registration) + SlotSet(s.login)
  }

  function Resumed(log: seq<Resumption>): set<Continuation> {
    set i | 0 <= i < |log| :: log[i].continuation
  }

  ghost predicate ResumedAtMostOnce(log: seq<Resumption>) {
    forall i, j | 0 <= i < j < |log| :: log[i].continuation != log[j].continuation
  }

  /**
   * The exactly-once invariant: no continuation is resumed twice, the two slots never share one,
   * and every continuation ever stored is in exactly one of three places: still pending,
   * resumed, or dropped by an overwriting begin.
   */
  ghost predicate ValidState(s: HandlerState) {
    && ResumedAtMostOnce(s.resumptions)
    && (s.registration.Some? && s.login.Some? ==> s.registration.value != s.login.value)
    && s.issued == Pending(s) + Resumed(s.resumptions) + s.dropped
    && Pending(s) !! Resumed(s.resumptions)
    && Pending(s) !! s.dropped
    && Resumed(s.resumptions) !! s.dropped
  }

  /**
   * What `try await withCheckedThrowingContinuation` gives the caller holding continuation `k`
   * in a registration: the first registration resumption of `k`, or nothing while it is pending.
   */
  function AwaitRegistration(log: seq<Resumption>, k: Continuation): Option<Result<PlatformRegistration, AuthError>>
    decreases |log|
  {
    if |log| == 0 then None
    else if log[0].ResumedRegistration? && log[0].continuation == k then Some(log[0].registrationOutcome)
    else AwaitRegistration(log[1..], k)
  }

  /** The same for a login continuation. */
  function AwaitLogin(log: seq<Resumption>, k: Continuation): Option<Result<PlatformAssertion, AuthError>>
    decreases |log|
  {
    if |log| == 0 then None
    else if log[0].ResumedLogin? && log[0].continuation == k then Some(log[0].loginOutcome)
    else AwaitLogin(log[1..], k)
  }

  // ---------------------------------------------------------------------------
  // Lemmas about the specification
  // ---------------------------------------------------------------------------

  lemma ResumedAppend(log: seq<Resumption>, more: seq<Resumption>)
    ensures Resumed(log + more) == Resumed(log) + Resumed(more)
  {
    var all := log + more;
    forall k | k in Resumed(all) ensures k in Resumed(log) + Resumed(more) {
      var i :| 0 <= i < |all| && all[i].continuation == k;
      if i >= |log| { assert more[i - |log|] == all[i]; }
    }
    forall k | k in Resumed(log) + Resumed(more) ensures k in Resumed(all) {
      if k in Resumed(log) {
        var i :| 0 <= i < |log| && log[i].continuation == k;
        assert all[i] == log[i];
      } else {
        var i :| 0 <= i < |more| && more[i].continuation == k;
        assert all[|log| + i] == more[i];
      }
    }
  }

  lemma ResumedSlot(log: seq<Resumption>, slot: Option<Continuation>)
    requires slot.None? ==> log == []
    requires slot.Some? ==> |log| == 1 && log[0].continuation == slot.value
    ensures Resumed(log) == SlotSet(slot)
  {
    if slot.Some? {
      assert log[0].continuation in Resumed(log);
    }
  }

  /** Appending resumptions of continuations not yet resumed, and distinct among themselves, keeps the log duplicate-free. */
  lemma AtMostOnceAppend(log: seq<Resumption>, more: seq<Resumption>)
    requires ResumedAtMostOnce(log) && ResumedAtMostOnce(more)
    requires Resumed(log) !! Resumed(more)
    ensures ResumedAtMostOnce(log + more)
  {
    var all := log + more;
    forall i, j | 0 <= i < j < |all| ensures all[i].continuation != all[j].continuation {
      if j >= |log| && i < |log| {
        assert all[i].continuation in Resumed(log);
        assert all[j] == more[j - |log|];
        assert all[j].continuation in Resumed(more);
      } else if i >= |log| {
        assert all[i] == more[i - |log|] && all[j] == more[j - |log|];
      }
    }
  }

  /** One event keeps the invariant, only extends the log, and never forgets a continuation. */
  lemma ApplyValid(s: HandlerState, e: Event)
    requires ValidState(s) && FreshFor(s, e)
    ensures ValidState(Apply(s, e))
    ensures s.resumptions <= Apply(s, e).resumptions
    ensures s.issued <= Apply(s, e).issued && s.dropped <= Apply(s, e).dropped
  {
    var t := Apply(s, e);
    match e
    case BeginRegistration(k) =>
      assert Pending(t) == Pending(s) - SlotSet(s.registration) + {k};
    case BeginLogin(k) =>
      assert Pending(t) == Pending(s) - SlotSet(s.login) + {k};
    case Completed(DidCompleteWithAuthorization(RegistrationCredential(r))) =>
      var more := ResumeRegistration(s.registration, Success(r));
      ResumedAppend(s.resumptions, more);
      ResumedSlot(more, s.registration);
      AtMostOnceAppend(s.resumptions, more);
    case Completed(DidCompleteWithAuthorization(AssertionCredential(a))) =>
      var more := ResumeLogin(s.login, Success(a));
      ResumedAppend(s.resumptions, more);
      ResumedSlot(more, s.login);
      AtMostOnceAppend(s.resumptions, more);
    case Completed(DidCompleteWithAuthorization(OtherCredential)) =>
      FailBothValid(s, UnsupportedCredentialType);
    case Completed(DidCompleteWithError(error)) =>
      FailBothValid(s, error);
  }

  /** A failure resumes every pending continuation once and leaves nothing pending. */
  lemma FailBothValid(s: HandlerState, error: AuthError)
    requires ValidState(s)
    ensures ValidState(FailBoth(s, error))
    ensures Pending(FailBoth(s, error)) == {}
    ensures Resumed(FailBoth(s, error).resumptions) == Resumed(s.resumptions) + Pending(s)
  {
    var more := ResumeRegistration(s.registration, Failure(error)) + ResumeLogin(s.login, Failure(error));
    ResumedAppend(ResumeRegistration(s.registration, Failure(error)), ResumeLogin(s.login, Failure(error)));
    ResumedSlot(ResumeRegistration(s.registration, Failure(error)), s.registration);
    ResumedSlot(ResumeLogin(s.login, Failure(error)), s.login);
    assert Resumed(more) == Pending(s);
    assert ResumedAtMostOnce(more);
    ResumedAppend(s.resumptions, more);
    AtMostOnceAppend(s.resumptions, more);
    assert FailBoth(s, error).resumptions == s.resumptions + more;
  }

  /** Any run of events with fresh continuations keeps the invariant; the log only grows. */
  lemma {:induction false} RunValid(s: HandlerState, events: seq<Event>)
    requires ValidState(s) && FreshRun(s, events)
    ensures ValidState(Run(s, events))
    ensures s.resumptions <= Run(s, events).resumptions
    ensures s.issued <= Run(s, events).issued && s.dropped <= Run(s, events).dropped
    decreases |events|
  {
    if |events| > 0 {
      ApplyValid(s, events[0]);
      RunValid(Apply(s, events[0]), events[1..]);
    }
  }

  /**
   * Exactly-once, for any sequence of begins and completions on a new handler: no continuation
   * is resumed twice, every resumed continuation was stored by a begin, and every stored one
   * is still pending, resumed, or was overwritten by a later begin of the same kind.
   */
  lemma ExactlyOnce(events: seq<Event>)
    requires FreshRun(Initial, events)
    ensures var t := Run(Initial, events);
      && ResumedAtMostOnce(t.resumptions)
      && Resumed(t.resumptions) <= t.issued
      && t.issued == Pending(t) + Resumed(t.resumptions) + t.dropped
  {
    assert Resumed([]) == {};
    RunValid(Initial, events);
  }

  /**
   * A continuation overwritten by a second begin of the same kind is never resumed, whatever
   * happens afterwards: its caller stays suspended (the source has no guard against this).
   */
  lemma OverwrittenNeverResumed(s: HandlerState, k: Continuation, events: seq<Event>)
    requires ValidState(s) && s.registration.Some? && FreshRun(Apply(s, BeginRegistration(k)), events)
    requires k !in s.issued
    ensures s.registration.value !in Resumed(Run(Apply(s, BeginRegistration(k)), events).resumptions)
  {
    var t := Apply(s, BeginRegistration(k));
    ApplyValid(s, BeginRegistration(k));
    RunValid(t, events);
    assert s.registration.value in Run(t, events).dropped;
  }

  /** The login twin: a login continuation overwritten by a second login begin is never resumed. */
  lemma OverwrittenLoginNeverResumed(s: HandlerState, k: Continuation, events: seq<Event>)
    requires ValidState(s) && s.login.Some? && FreshRun(Apply(s, BeginLogin(k)), events)
    requires k !in s.issued
    ensures s.login.value !in Resumed(Run(Apply(s, BeginLogin(k)), events).resumptions)
  {
    var t := Apply(s, BeginLogin(k));
    ApplyValid(s, BeginLogin(k));
    RunValid(t, events);
    assert s.login.value in Run(t, events).dropped;
  }

  /** After a failure (an error or a credential of neither type) a second completion finds nothing to resume. */
  lemma SecondCompletionAfterFailure(s: HandlerState, first: Completion, second: Completion)
    requires first.DidCompleteWithError? || first == DidCompleteWithAuthorization(OtherCredential)
    ensures var t := Apply(s, Completed(first));
      Apply(t, Completed(second)).resumptions == t.resumptions
  {
  }

  /** A second credential of the same kind finds its slot already cleared. */
  lemma SecondCompletionSameKind(s: HandlerState, first: Credential, second: Credential)
    requires (first.RegistrationCredential? && second.RegistrationCredential?)
          || (first.AssertionCredential? && second.AssertionCredential?)
    ensures var t := Apply(s, Completed(DidCompleteWithAuthorization(first)));
      Apply(t, Completed(DidCompleteWithAuthorization(second))).resumptions == t.resumptions
  {
  }

  /**
   * After a failure, no caller is left suspended: every continuation ever stored has been
   * resumed, apart from those an overwriting begin dropped; each of the pending ones exactly once.
   */
  lemma FailureResolvesAll(s: HandlerState, completion: Completion)
    requires ValidState(s)
    requires completion.DidCompleteWithError? || completion == DidCompleteWithAuthorization(OtherCredential)
    ensures var t := Apply(s, Completed(completion));
      && Pending(t) == {}
      && t.issued == Resumed(t.resumptions) + t.dropped
      && ResumedAtMostOnce(t.resumptions)
  {
    var error := if completion.DidCompleteWithError? then completion.error else UnsupportedCredentialType;
    FailBothValid(s, error);
  }

  /** What a registration caller is resumed with when the platform reports `c`: nothing for an assertion. */
  function RegistrationAnswer(c: Completion): Option<Result<PlatformRegistration, AuthError>> {
    match c
    case DidCompleteWithAuthorization(RegistrationCredential(r)) => Some(Success(r))
    case DidCompleteWithAuthorization(AssertionCredential(_)) => None
    case DidCompleteWithAuthorization(OtherCredential) => Some(Failure(UnsupportedCredentialType))
    case DidCompleteWithError(error) => Some(Failure(error))
  }

  /** What a login caller is resumed with when the platform reports `c`: nothing for a registration. */
  function LoginAnswer(c: Completion): Option<Result<PlatformAssertion, AuthError>> {
    match c
    case DidCompleteWithAuthorization(RegistrationCredential(_)) => None
    case DidCompleteWithAuthorization(AssertionCredential(a)) => Some(Success(a))
    case DidCompleteWithAuthorization(OtherCredential) => Some(Failure(UnsupportedCredentialType))
    case DidCompleteWithError(error) => Some(Failure(error))
  }

  /** One registration ceremony on a new handler: the caller is resumed once, with the registration or the error. */
  lemma RegistrationCeremony(k: Continuation, c: Completion)
    ensures var t := Apply(Apply(Initial, BeginRegistration(k)), Completed(c));
      && AwaitRegistration(t.resumptions, k) == RegistrationAnswer(c)
      && |t.resumptions| == (if RegistrationAnswer(c).Some? then 1 else 0)
  {
  }

  /** One login ceremony on a new handler. */
  lemma LoginCeremony(k: Continuation, c: Completion)
    ensures var t := Apply(Apply(Initial, BeginLogin(k)), Completed(c));
      && AwaitLogin(t.resumptions, k) == LoginAnswer(c)
      && |t.resumptions| == (if LoginAnswer(c).Some? then 1 else 0)
  {
  }

  // ---------------------------------------------------------------------------
  // The handler object
  // ---------------------------------------------------------------------------

  class ApplePasskeyHandler {
    var registrationContinuation: Option<Continuation>
    var loginContinuation: Option<Continuation>
    /** What each `resume` delivered, in order: the value an awaiting `begin` returns or throws. */
    var resumptions: seq<Resumption>
    ghost var issued: set<Continuation>
    ghost var dropped: set<Continuation>
    /** The caller's window, borrowed; absent means "use the application's first window". */
    const providedWindow: Option<Window>

    ghost function State(): HandlerState
      reads this
    {
      HandlerState(registrationContinuation, loginContinuation, resumptions, issued, dropped)
    }

    ghost predicate Valid()
      reads this
    {
      ValidState(State())
    }

    /** `init(windowPtr:)`: keeps the window, if any; both slots start out nil. */
    constructor (windowPtr: Option<Window>)
      ensures Valid() && State() == Initial
      ensures providedWindow == windowPtr
    {
      registrationContinuation := None;
      loginContinuation := None;
      resumptions := [];
      issued := {};
      dropped := {};
      providedWindow := windowPtr;
      new;
      assert Resumed([]) == {};
    }

    /**
     * `beginRegistration`: builds the registration request, attaching the PRF registration
     * extension with `saltInput1` equal to the salt exactly when a salt is given, and stores
     * the awaiting caller's continuation in the registration slot. The request is what is
     * submitted to the controller by `performRequests`.
     */
    method BeginRegistration(domain: string, challenge: seq<Byte>, username: string, userID: seq<Byte>,
                             salt: Option<seq<Byte>>, continuation: Continuation)
      returns (request: RegistrationRequest)
      requires Valid() && continuation !in issued
      modifies this
      ensures Valid() && State() == Apply(old(State()), Event.BeginRegistration(continuation))
      ensures registrationContinuation == Some(continuation)
      ensures loginContinuation == old(loginContinuation) && resumptions == old(resumptions)
      ensures request.relyingPartyIdentifier == domain && request.challenge == challenge
      ensures request.name == username && request.userID == userID
      ensures request.prf.Some? <==> salt.Some?
      ensures salt.Some? ==> request.prf.value == RegistrationInputValues(PrfInputValues(salt.value, None))
    {
      ghost var before := State();
      request := RegistrationRequest(domain, challenge, username, userID, None);
      if salt.Some? {
        request := request.(prf := Some(RegistrationInputValues(PrfInputValues(salt.value, None))));
      }
      dropped := dropped + SlotSet(registrationContinuation);
      issued := issued + {continuation};
      registrationContinuation := Some(continuation);
      ApplyValid(before, Event.BeginRegistration(continuation));
    }

    /**
     * `beginLogin`: builds the assertion request, attaching the PRF assertion extension with
     * `saltInput1` equal to the salt exactly when a salt is given, and stores the awaiting
     * caller's continuation in the login slot.
     */
    method BeginLogin(domain: string, challenge: seq<Byte>, salt: Option<seq<Byte>>, continuation: Continuation)
      returns (request: AssertionRequest)
      requires Valid() && continuation !in issued
      modifies this
      ensures Valid() && State() == Apply(old(State()), Event.BeginLogin(continuation))
      ensures loginContinuation == Some(continuation)
      ensures registrationContinuation == old(registrationContinuation) && resumptions == old(resumptions)
      ensures request.relyingPartyIdentifier == domain && request.challenge == challenge
      ensures request.prf.Some? <==> salt.Some?
      ensures salt.Some? ==> request.prf.value == AssertionInputValues(PrfInputValues(salt.value, None))
    {
      ghost var before := State();
      request := AssertionRequest(domain, challenge, None);
      if salt.Some? {
        request := request.(prf := Some(AssertionInputValues(PrfInputValues(salt.value, None))));
      }
      dropped := dropped + SlotSet(loginContinuation);
      issued := issued + {continuation};
      loginContinuation := Some(continuation);
      ApplyValid(before, Event.BeginLogin(continuation));
    }

    /** `presentationAnchor(for:)`: the provided window, else the application's first window; `None` is the trap of `first!` on an empty list. */
    function PresentationAnchor(appWindows: seq<Window>): (anchor: Option<Window>)
      ensures providedWindow.Some? ==> anchor == providedWindow
      ensures providedWindow.None? ==> (anchor.Some? <==> |appWindows| > 0)
      ensures providedWindow.None? && anchor.Some? ==> anchor.value == appWindows[0]
    {
      if providedWindow.Some? then providedWindow
      else if |appWindows| > 0 then Some(appWindows[0])
      else None
    }

    /**
     * `authorizationController(controller:didCompleteWithAuthorization:)`. A registration
     * credential resumes and clears only the registration slot, an assertion only the login
     * slot; any other credential resumes both pending slots with error -3 and clears both.
     */
    method DidCompleteWithAuthorization(credential: Credential)
      requires Valid()
      modifies this
      ensures Valid() && State() == Apply(old(State()), Completed(Completion.DidCompleteWithAuthorization(credential)))
      ensures credential.RegistrationCredential? ==>
        && registrationContinuation == None && loginContinuation == old(loginContinuation)
        && resumptions == old(resumptions) + ResumeRegistration(old(registrationContinuation), Success(credential.registration))
      ensures credential.AssertionCredential? ==>
        && loginContinuation == None && registrationContinuation == old(registrationContinuation)
        && resumptions == old(resumptions) + ResumeLogin(old(loginContinuation), Success(credential.assertion))
      ensures credential.OtherCredential? ==>
        && registrationContinuation == None && loginContinuation == None
        && resumptions == old(resumptions) + ResumeRegistration(old(registrationContinuation), Failure(UnsupportedCredentialType))
                                           + ResumeLogin(old(loginContinuation), Failure(UnsupportedCredentialType))
    {
      ghost var before := State();
      match credential {
      case RegistrationCredential(registration) =>
        if registrationContinuation.Some? {
          resumptions := resumptions + [ResumedRegistration(registrationContinuation.value, Success(registration))];
        }
        registrationContinuation := None;
        assert resumptions == before.resumptions + ResumeRegistration(before.registration, Success(registration));
      case AssertionCredential(assertion) =>
        if loginContinuation.Some? {
          resumptions := resumptions + [ResumedLogin(loginContinuation.value, Success(assertion))];
        }
        loginContinuation := None;
        assert resumptions == before.resumptions + ResumeLogin(before.login, Success(assertion));
      case OtherCredential =>
        var error := UnsupportedCredentialType;
        if registrationContinuation.Some? {
          resumptions := resumptions + [ResumedRegistration(registrationContinuation.value, Failure(error))];
        }
        if loginContinuation.Some? {
          resumptions := resumptions + [ResumedLogin(loginContinuation.value, Failure(error))];
        }
        registrationContinuation := None;
        loginContinuation := None;
        assert State() == FailBoth(before, error);
      }
      ApplyValid(before, Completed(Completion.DidCompleteWithAuthorization(credential)));
    }

    /** `authorizationController(controller:didCompleteWithError:)`: every pending slot is resumed with the error, then both are cleared. */
    method DidCompleteWithError(error: AuthError)
      requires Valid()
      modifies this
      ensures Valid() && State() == Apply(old(State()), Completed(Completion.DidCompleteWithError(error)))
      ensures registrationContinuation == None && loginContinuation == None
      ensures resumptions == old(resumptions) + ResumeRegistration(old(registrationContinuation), Failure(error))
                                              + ResumeLogin(old(loginContinuation), Failure(error))
    {
      ghost var before := State();
      if registrationContinuation.Some? {
        resumptions := resumptions + [ResumedRegistration(registrationContinuation.value, Failure(error))];
      }
      if loginContinuation.Some? {
        resumptions := resumptions + [ResumedLogin(loginContinuation.value, Failure(error))];
      }
      registrationContinuation := None;
      loginContinuation := None;
      assert State() == FailBoth(before, error);
      ApplyValid(before, Completed(Completion.DidCompleteWithError(error)));
    }
  }
}
