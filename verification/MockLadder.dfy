/**
  The PIN/PUK retry step that six handlers of pkg/flow/mocked spell out by hand, as one function, and what
  follows from it for whole runs of a mocked flow.
 */
module MockLadders {
  import opened Wrappers
  import opened FlowTypes

  const MAX_PIN_RETRIES := 3
  const MAX_PUK_RETRIES := 5
  const ERROR_PUK_RETRIES := "puk-retries"
  const ERROR_PUK := "puk"
  const ERROR_PIN := "pin"

  /** The credentials of a mocked card. */
  datatype Secrets = Secrets(pinRetries: int, pukRetries: int, pin: string, puk: string)
  {
    predicate InRange() {
      0 <= pinRetries <= MAX_PIN_RETRIES && 0 <= pukRetries <= MAX_PUK_RETRIES
    }

    function Attempts(): int {
      pinRetries + pukRetries
    }

    function Reset(newPin: string): Secrets {
      this.(pinRetries := MAX_PIN_RETRIES, pukRetries := MAX_PUK_RETRIES, pin := newPin)
    }
  }

  /** What the user has entered, as far as the credentials go. */
  datatype Entered = Entered(pin: string, newPin: string, puk: string, newPuk: string, overwrite: bool, resolve: bool)

  function TextAt(params: Params, k: Key): string {
    if k in params && params[k].Text? then params[k].text else ""
  }

  function EnteredIn(params: Params): Entered {
    Entered(TextAt(params, PIN), TextAt(params, NewPIN), TextAt(params, PUK), TextAt(params, NewPUK),
            IsSet(params, Overwrite), IsSet(params, ResolveAddr))
  }

  /** None of the type assertions of this flow's handler fails; a value that the handler does not read may be any. */
  predicate WellTypedFor(flow: FlowType, params: Params) {
    match flow
    case Login => SecretsAreTexts(params)
    case RecoverAccount => SecretsAreTexts(params)
    case ExportPublic => SecretsAreTexts(params) && !NotFlag(params, ExportMaster) && !NotFlag(params, ExportPriv)
    case ChangePIN => SecretsAreTexts(params) && !NotFlag(params, Overwrite)
    case ChangePUK => SecretsAreTexts(params) && !NotText(params, NewPUK) && !NotFlag(params, Overwrite)
    case GetMetadata =>
      !NotFlag(params, ResolveAddr) &&
      (IsSet(params, ResolveAddr) ==> SecretsAreTexts(params) && !NotFlag(params, ExportMaster))
    case LoadAccount =>
      && !NotFlag(params, FactoryReset) && !NotFlag(params, Overwrite) && !NotText(params, Mnemonic)
      && !NotText(params, NewPUK) && !NotText(params, PIN) && !NotText(params, NewPIN)
    case _ => true
  }

  predicate SecretsAreTexts(params: Params) {
    !NotText(params, PIN) && !NotText(params, NewPIN) && !NotText(params, PUK)
  }

  /** All parameters that a run over these resumes handles are well typed. */
  predicate StaysWellTyped(flow: FlowType, params: Params, resumes: seq<Params>)
    decreases |resumes|
  {
    WellTypedFor(flow, params) && (resumes == [] || StaysWellTyped(flow, params + resumes[0], resumes[1..]))
  }

  predicate RepeatedPin(e: Entered) {
    |e.pin| == DEF_PIN_LEN && e.pin == e.newPin
  }

  /** Outcome of a step: new credentials, and the prompt with its error, if the step sets one. */
  datatype LadderStep = LadderStep(after: Secrets, prompt: Signal, error: Option<string>)

  predicate Blocked(c: Secrets) {
    c.pinRetries == 0 && c.pukRetries == 0
  }

  /** The ladder itself. */
  function Ladder(c: Secrets, e: Entered): LadderStep {
    if c.pukRetries == 0 then LadderStep(c, SwapCard, Some(ERROR_PUK_RETRIES))
    else if c.pinRetries == 0 then
      if |e.puk| != DEF_PUK_LEN then LadderStep(c, EnterPUK, Some(""))
      else if !RepeatedPin(e) then LadderStep(c, EnterNewPIN, Some(ERROR_UNBLOCKING))
      else if e.puk == c.puk then LadderStep(c, EnterPIN, None)
      else if c.pukRetries == 1 then LadderStep(c.(pukRetries := 0), SwapCard, Some(ERROR_PUK_RETRIES))
      else LadderStep(c.(pukRetries := c.pukRetries - 1), EnterPUK, Some(ERROR_PUK))
    else if e.newPin == "" && |e.pin| == DEF_PIN_LEN && e.pin != c.pin then
      if c.pinRetries == 1 then LadderStep(c.(pinRetries := 0), EnterPUK, Some(""))
      else LadderStep(c.(pinRetries := c.pinRetries - 1), EnterPIN, Some(ERROR_PIN))
    else LadderStep(c, EnterPIN, None)
  }

  /** The success test of the handlers, on given credentials. */
  predicate Passes(c: Secrets, e: Entered) {
    || (c.pinRetries > 0 && |e.pin| == DEF_PIN_LEN && e.pin == c.pin)
    || (c.pinRetries == 0 && c.pukRetries > 0 && |e.puk| == DEF_PUK_LEN && e.puk == c.puk && RepeatedPin(e))
  }

  /**
    The handlers evaluate their success test after the ladder has changed the counters.  It makes no difference:
    the test on the updated counters agrees with the test on the counters before the step.
   */
  lemma LateTestIsEarlyTest(c: Secrets, e: Entered)
    ensures Passes(Ladder(c, e).after, e) <==> Passes(c, e)
    ensures Passes(c, e) ==> Ladder(c, e).after == c
  {
  }

  // ---------------------------------------------------------------------------------------------
  // The handlers
  // ---------------------------------------------------------------------------------------------

  datatype Reply = Result | Prompt(signal: Signal, error: Option<string>)

  /** A handler's effect on the credentials, and what it sends. */
  datatype Handled = Handled(after: Secrets, reply: Reply)

  function Ask(step: LadderStep): Handled {
    Handled(step.after, Prompt(step.prompt, step.error))
  }

  /** Login, RecoverAccount, ExportPublic, and GetMetadata when addresses are to be resolved. */
  function Verify(c: Secrets, e: Entered): Handled {
    if Passes(c, e) then Handled(c.Reset(e.pin), Result) else Ask(Ladder(c, e))
  }

  /** ChangePUK asks for the new PUK before it changes anything else. */
  function ChangePuk(c: Secrets, e: Entered): Handled {
    if Passes(c, e) && e.newPuk == "" then Handled(c.Reset(e.pin), Prompt(EnterNewPUK, Some(ERROR_CHANGING)))
    else if Passes(c, e) && e.overwrite && |e.puk| == DEF_PUK_LEN && e.puk == e.newPuk then
      Handled(c.Reset(c.pin).(puk := e.puk), Result)
    else Ask(Ladder(c, e))
  }

  /** ChangePIN's own test: an allowed overwrite is enough, whatever the credentials. */
  predicate PassesChange(c: Secrets, e: Entered) {
    e.newPin != "" && RepeatedPin(e) &&
    (e.overwrite || (c.pinRetries == 0 && c.pukRetries > 0 && |e.puk| == DEF_PUK_LEN && e.puk == c.puk))
  }

  predicate VerifiesOldPin(c: Secrets, e: Entered) {
    e.newPin == "" && c.pinRetries > 0 && |e.pin| == DEF_PIN_LEN && e.pin == c.pin
  }

  function ChangePin(c: Secrets, e: Entered): Handled {
    if VerifiesOldPin(c, e) then
      Handled(c.Reset(e.pin), Prompt(EnterNewPIN, Some(ERROR_CHANGING)))
    else if PassesChange(c, e) then Handled(Ladder(c, e).after.Reset(e.pin), Result)
    else Ask(Ladder(c, e))
  }

  /** The late tests of ChangePIN agree with the early ones too. */
  lemma LateChangeTestIsEarlyTest(c: Secrets, e: Entered)
    ensures VerifiesOldPin(Ladder(c, e).after, e) <==> VerifiesOldPin(c, e)
    ensures VerifiesOldPin(c, e) ==> Ladder(c, e).after == c
    ensures PassesChange(Ladder(c, e).after, e) <==> PassesChange(c, e)
  {
  }

  /** Metadata is public unless its addresses are to be resolved. */
  function ShowMetadata(c: Secrets, e: Entered): Handled {
    if e.resolve then Verify(c, e) else Handled(c, Result)
  }

  /** The flows whose handlers contain the ladder. */
  predicate HasLadder(flow: FlowType) {
    flow == Login || flow == RecoverAccount || flow == ExportPublic || flow == ChangePIN || flow == ChangePUK ||
    flow == GetMetadata
  }

  type LadderFlow = f: FlowType | HasLadder(f) witness Login

  function Handle(flow: LadderFlow, c: Secrets, e: Entered): Handled {
    match flow
    case ChangePIN => ChangePin(c, e)
    case ChangePUK => ChangePuk(c, e)
    case GetMetadata => ShowMetadata(c, e)
    case _ => Verify(c, e)
  }

  /** Gets a result without credentials: ChangePIN for a repeated PIN with an allowed overwrite, public metadata. */
  predicate Bypasses(flow: LadderFlow, e: Entered) {
    (flow == ChangePIN && RepeatedPin(e) && e.overwrite) || (flow == GetMetadata && !e.resolve)
  }

  /** Without accepted credentials a handler gives a result exactly when it is bypassed. */
  lemma ResultWithoutCredentialsIff(flow: LadderFlow, c: Secrets, e: Entered)
    requires !Passes(c, e)
    ensures Handle(flow, c, e).reply == Result <==> Bypasses(flow, e)
  {
  }

  predicate Resets(flow: LadderFlow, c: Secrets, e: Entered) {
    Handle(flow, c, e).reply == Result || Passes(c, e)
  }

  /** A card-side refusal: the entered PIN or PUK was looked at and found wrong. */
  predicate Rejects(c: Secrets, e: Entered) {
    c.pukRetries != 0 &&
    if c.pinRetries == 0 then |e.puk| == DEF_PUK_LEN && RepeatedPin(e) && e.puk != c.puk
    else e.newPin == "" && |e.pin| == DEF_PIN_LEN && e.pin != c.pin
  }

  lemma StepKeepsRange(flow: LadderFlow, c: Secrets, e: Entered)
    requires c.InRange()
    ensures Handle(flow, c, e).after.InRange()
  {
  }

  // ---------------------------------------------------------------------------------------------
  // Runs: a first call and any number of resumes, whose parameters pile up
  // ---------------------------------------------------------------------------------------------

  /** The credentials after handling the current parameters and then every resume. */
  function Run(flow: LadderFlow, c: Secrets, params: Params, resumes: seq<Params>): Secrets
    decreases |resumes|
  {
    var after := Handle(flow, c, EnteredIn(params)).after;
    if resumes == [] then after else Run(flow, after, params + resumes[0], resumes[1..])
  }

  function Replies(flow: LadderFlow, c: Secrets, params: Params, resumes: seq<Params>): seq<Reply>
    decreases |resumes|
  {
    var step := Handle(flow, c, EnteredIn(params));
    [step.reply] +
    if resumes == [] then [] else Replies(flow, step.after, params + resumes[0], resumes[1..])
  }

  /** How many of the handled attempts were rejected. */
  function Burnt(flow: LadderFlow, c: Secrets, params: Params, resumes: seq<Params>): nat
    decreases |resumes|
  {
    var e := EnteredIn(params);
    (if Rejects(c, e) then 1 else 0) +
    if resumes == [] then 0 else Burnt(flow, Handle(flow, c, e).after, params + resumes[0], resumes[1..])
  }

  /** No step of the run accepts the credentials. */
  predicate NeverResets(flow: LadderFlow, c: Secrets, params: Params, resumes: seq<Params>)
    decreases |resumes|
  {
    var e := EnteredIn(params);
    !Resets(flow, c, e) &&
    (resumes == [] || NeverResets(flow, Handle(flow, c, e).after, params + resumes[0], resumes[1..]))
  }

  lemma {:induction false} CountersStayInRange(flow: LadderFlow, c: Secrets, params: Params, resumes: seq<Params>)
    requires c.InRange()
    ensures Run(flow, c, params, resumes).InRange()
    decreases |resumes|
  {
    StepKeepsRange(flow, c, EnteredIn(params));
    if resumes == [] {
    } else {
      CountersStayInRange(flow, Handle(flow, c, EnteredIn(params)).after, params + resumes[0], resumes[1..]);
    }
  }

  /** Until something is accepted, every attempt is accounted for: what is left plus what was burnt is constant. */
  lemma {:induction false} AttemptsAreConserved(flow: LadderFlow, c: Secrets, params: Params, resumes: seq<Params>)
    requires NeverResets(flow, c, params, resumes)
    ensures Run(flow, c, params, resumes).Attempts() + Burnt(flow, c, params, resumes) == c.Attempts()
    decreases |resumes|
  {
    if resumes == [] {
    } else {
      AttemptsAreConserved(flow, Handle(flow, c, EnteredIn(params)).after, params + resumes[0], resumes[1..]);
    }
  }

  /** No step of the run is bypassed.  For Login, RecoverAccount, ExportPublic and ChangePUK that is every run. */
  predicate NeverBypasses(flow: LadderFlow, params: Params, resumes: seq<Params>)
    decreases |resumes|
  {
    !Bypasses(flow, EnteredIn(params)) && (resumes == [] || NeverBypasses(flow, params + resumes[0], resumes[1..]))
  }

  predicate OnlySwapPrompts(replies: seq<Reply>) {
    forall i :: 0 <= i < |replies| ==> replies[i] == Prompt(SwapCard, Some(ERROR_PUK_RETRIES))
  }

  /**
    With both counters at 0 a run prompts for another card at every step, and changes nothing, exactly when none of its
    steps is bypassed.
   */
  lemma {:induction false} BlockedCardStaysBlockedIff(
      flow: LadderFlow, c: Secrets, params: Params, resumes: seq<Params>)
    requires Blocked(c)
    ensures OnlySwapPrompts(Replies(flow, c, params, resumes)) <==> NeverBypasses(flow, params, resumes)
    ensures NeverBypasses(flow, params, resumes) ==> Run(flow, c, params, resumes) == c
    decreases |resumes|
  {
    hide EnteredIn, Bypasses;
    var step := Handle(flow, c, EnteredIn(params));
    ResultWithoutCredentialsIff(flow, c, EnteredIn(params));
    assert Replies(flow, c, params, resumes)[0] == step.reply;
    if resumes == [] || step.reply == Result {
    } else {
      var others := Replies(flow, c, params + resumes[0], resumes[1..]);
      assert Replies(flow, c, params, resumes) == [step.reply] + others;
      assert forall i :: 0 <= i < |others| ==> others[i] == Replies(flow, c, params, resumes)[i + 1];
      BlockedCardStaysBlockedIff(flow, c, params + resumes[0], resumes[1..]);
    }
  }

  lemma {:induction false} NothingToBypass(flow: LadderFlow, params: Params, resumes: seq<Params>)
    requires flow != ChangePIN && flow != GetMetadata
    ensures NeverBypasses(flow, params, resumes)
    decreases |resumes|
  {
    if resumes == [] {
    } else {
      NothingToBypass(flow, params + resumes[0], resumes[1..]);
    }
  }

  /** What the first step of a run settles. */
  lemma FirstStep(flow: LadderFlow, c: Secrets, params: Params, resumes: seq<Params>)
    ensures Run(flow, c, params, []) == Handle(flow, c, EnteredIn(params)).after
    ensures StaysWellTyped(flow, params, resumes) ==> WellTypedFor(flow, params)
    ensures StaysWellTyped(flow, params, resumes) && resumes != [] ==>
      StaysWellTyped(flow, params + resumes[0], resumes[1..])
    ensures Blocked(c) ==> !Passes(c, EnteredIn(params))
    ensures NeverBypasses(flow, params, resumes) && resumes != [] ==>
      NeverBypasses(flow, params + resumes[0], resumes[1..])
    ensures Blocked(c) && NeverBypasses(flow, params, resumes) ==>
      Handle(flow, c, EnteredIn(params)) == Handled(c, Prompt(SwapCard, Some(ERROR_PUK_RETRIES)))
  {
  }

  lemma ResolvedMetadataIsVerified(c: Secrets, e: Entered)
    requires e.resolve
    ensures Handle(GetMetadata, c, e) == Verify(c, e)
  {
  }

  /** The credentials after some resumes; the last call changes nothing if its parameters are ill-typed. */
  function After(flow: LadderFlow, c: Secrets, params: Params, resumes: seq<Params>, wellTyped: bool): Secrets {
    if wellTyped then Run(flow, c, params, resumes)
    else if resumes == [] then c
    else Run(flow, c, params, resumes[..|resumes| - 1])
  }

  /** A run of one more resume begins with its first step. */
  lemma AfterResumed(
      flow: LadderFlow, c: Secrets, params: Params, resumes: seq<Params>, n: nat, wellTyped: bool)
    requires n < |resumes|
    ensures After(flow, c, params, resumes[..n + 1], wellTyped) ==
      After(flow, Handle(flow, c, EnteredIn(params)).after, params + resumes[0], resumes[1..][..n], wellTyped)
  {
    hide EnteredIn, Handle;
    assert resumes[..n + 1][1..] == resumes[1..][..n];
    if !wellTyped && n > 0 {
      assert resumes[..n + 1][..n] == resumes[..n];
      assert resumes[..n][1..] == resumes[1..][..n - 1] == resumes[1..][..n][..n - 1];
    }
  }

  function NoParams(n: nat): seq<Params> {
    seq(n, i requires 0 <= i < n => map[])
  }

  /**
    A refused PIN stays in the parameters: resuming with nothing new burns one more attempt each time, until the
    PIN is blocked.  The real engine deletes a refused PIN and prompts again.
   */
  lemma {:induction false} EmptyResumesBurnThePin(flow: LadderFlow, c: Secrets, params: Params, n: nat)
    requires n < c.pinRetries && c.pukRetries != 0 && !Bypasses(flow, EnteredIn(params))
    requires var e := EnteredIn(params); e.newPin == "" && |e.pin| == DEF_PIN_LEN && e.pin != c.pin
    ensures Run(flow, c, params, NoParams(n)) == c.(pinRetries := c.pinRetries - n - 1)
    decreases n
  {
    var after := Handle(flow, c, EnteredIn(params)).after;
    assert after == c.(pinRetries := c.pinRetries - 1);
    if n == 0 {
    } else {
      var nothing: Params := map[];
      assert params + nothing == params;
      assert NoParams(n)[0] == nothing && NoParams(n)[1..] == NoParams(n - 1);
      EmptyResumesBurnThePin(flow, after, params, n - 1);
    }
  }
}
