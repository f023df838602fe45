/** The investment dialog for one token: the amount the user types, the ordered
    validation that gates submission, the single `createInvestment` call and the four
    state fields it drives (`amount`, `isProcessing`, `error`, `success`), plus the
    pending 2-second completion timer.

    `handleInvest` is an async function that stops at one `await`; here it is two
    steps: `Begin` runs up to and including the call (which it returns as an effect),
    and `Settle` runs the try/catch/finally once the call's outcome is known. */
module InvestmentFlow {
  import opened Wrappers
  import opened Offering

  /** The smallest amount, in US dollars, the dialog submits. */
  const MinimumInvestment: real := 10.0

  const InvalidAmountText := "Por favor, insira um valor válido"
  const BelowMinimumText := "Valor mínimo de investimento: $10"
  /** The message `createInvestment` throws for a non-2xx reply without an `error` field. */
  const ApiFallbackText := "Failed to create investment"
  /** The message the dialog shows for a thrown error whose own message is empty. */
  const ModalFallbackText := "Erro ao processar investimento"

  // ---------------------------------------------------------------------------
  // Validation

  /** Why a submission was refused before any request. */
  datatype Refusal = InvalidAmount | BelowMinimum | ExceedsAvailable(available: real)

  /** The outcome of the checks at the top of `handleInvest`. */
  datatype Verdict = NeedsWallet | Refused(reason: Refusal) | Accepted(amountUsd: real)

  /** The checks run in order and stop at the first failure: wallet, a positive
      amount, the minimum, what is left of the goal. `amount` is `None` for an empty
      input. When what is left is NaN (a missing `raised` or `goal`), the comparison
      with it is false and the last check passes every amount. Each verdict is
      characterised below by the conditions under which it is given, independently of
      the order. */
  function Validate(isConnected: bool, amount: Option<real>, token: Token): (v: Verdict)
    ensures v == NeedsWallet <==> !isConnected
    ensures v == Refused(InvalidAmount) <==> isConnected && (amount.None? || amount.value <= 0.0)
    ensures v == Refused(BelowMinimum) <==>
              isConnected && amount.Some? && 0.0 < amount.value < MinimumInvestment
    ensures v.Refused? && v.reason.ExceedsAvailable? <==>
              isConnected && amount.Some? && MinimumInvestment <= amount.value
              && Available(token).Some? && amount.value > Available(token).value
    ensures v.Refused? && v.reason.ExceedsAvailable? ==> Available(token) == Some(v.reason.available)
    ensures v.Accepted? <==>
              isConnected && amount.Some? && MinimumInvestment <= amount.value
              && (Available(token).None? || amount.value <= Available(token).value)
    ensures v.Accepted? ==> amount == Some(v.amountUsd)
  {
    if !isConnected then NeedsWallet
    else if amount.None? || amount.value <= 0.0 then Refused(InvalidAmount)
    else if amount.value < MinimumInvestment then Refused(BelowMinimum)
    else
      var maxAvailable := Available(token);
      if maxAvailable.Some? && amount.value > maxAvailable.value then Refused(ExceedsAvailable(maxAvailable.value))
      else Accepted(amount.value)
  }

  /** The boundary cases: exactly the minimum and exactly what is left both pass, a
      negative amount is reported as invalid rather than below the minimum. */
  lemma ValidationBoundaries(token: Token, x: real)
    ensures Available(token).Some? && Available(token).value >= MinimumInvestment ==>
              Validate(true, Some(MinimumInvestment), token) == Accepted(MinimumInvestment)
              && Validate(true, Some(Available(token).value), token) == Accepted(Available(token).value)
    ensures x < 0.0 ==> Validate(true, Some(x), token) == Refused(InvalidAmount)
    ensures Validate(false, Some(x), token) == NeedsWallet
  {
  }

  /** Without a `raised` or a `goal`, no upper bound is enforced: every amount from the
      minimum up is submitted. */
  lemma MissingBoundAdmitsAnyAmount(token: Token, x: real)
    requires token.raised.None? || token.goal.None?
    ensures x >= MinimumInvestment ==> Validate(true, Some(x), token) == Accepted(x)
  {
  }

  lemma ValidationExample()
    ensures var t := Token(1, "AGRO1", Some(2.0), Some(950.0), Some(1000.0), None);
            && Validate(true, Some(60.0), t) == Refused(ExceedsAvailable(50.0))
            && Validate(true, Some(50.0), t) == Accepted(50.0)
            && Validate(true, Some(49.99), t) == Accepted(49.99)
            && Validate(true, Some(9.99), t) == Refused(BelowMinimum)
            && Validate(true, None, t) == Refused(InvalidAmount)
  {
  }

  /** `calculateTokens`: 0 for an empty amount or a missing or zero price, otherwise
      the amount divided by the price (the two-decimal rounding is display only). */
  function EstimatedTokens(amount: Option<real>, price: Option<real>): (n: real)
    ensures amount.None? || price.None? || price.value == 0.0 ==> n == 0.0
    ensures amount.Some? && price.Some? && price.value != 0.0 ==> n * price.value == amount.value
  {
    if amount.None? || price.None? || price.value == 0.0 then 0.0
    else amount.value / price.value
  }

  lemma EstimateExample()
    ensures EstimatedTokens(Some(100.0), Some(2.0)) == 50.0
  {
  }

  // ---------------------------------------------------------------------------
  // Messages

  /** The `error` field. The empty string is `NoError`; the max-available message
      carries the amount it formats. */
  datatype ErrorText = NoError | Message(text: string) | MaxAvailable(available: real)

  /** The error box is rendered exactly when `error` is non-empty (truthy): never for
      the cleared field or an empty message, always for the max-available message. */
  predicate Shown(e: ErrorText): (b: bool)
    ensures !b <==> e == NoError || e == Message("")
    ensures e.MaxAvailable? ==> b
  {
    match e
    case NoError => false
    case Message(t) => t != ""
    case MaxAvailable(_) => true
  }

  function RefusalText(r: Refusal): (e: ErrorText)
    ensures Shown(e)
    ensures r.ExceedsAvailable? <==> e.MaxAvailable?
    ensures r.ExceedsAvailable? ==> e == MaxAvailable(r.available)
  {
    match r
    case InvalidAmount => Message(InvalidAmountText)
    case BelowMinimum => Message(BelowMinimumText)
    case ExceedsAvailable(a) => MaxAvailable(a)
  }

  /** Each refusal has its own message: an invalid amount never shows the minimum
      message, and two max-available messages differ exactly when their amounts do. */
  lemma RefusalTextsDiffer(r1: Refusal, r2: Refusal)
    ensures RefusalText(r1) == RefusalText(r2) ==> r1 == r2
  {
  }

  /** How the `createInvestment` call ended: a 2xx reply; a non-2xx reply whose JSON
      body had the given `error` field (`None` when absent); or any other thrown error
      (the network, an unreadable body) with its message. */
  datatype ApiOutcome = Created | Rejected(serverError: Option<string>) | Thrown(message: string)

  /** The message of the error `createInvestment` throws: for a non-2xx reply the
      body's `error` when it is non-empty, else its own fallback, so never empty; for
      any other error, that error's message. */
  function ThrownMessage(o: ApiOutcome): (m: string)
    requires !o.Created?
    ensures o.Rejected? ==> m != ""
    ensures o.Rejected? && o.serverError.Some? && o.serverError.value != "" ==> m == o.serverError.value
    ensures o.Rejected? && (o.serverError.None? || o.serverError.value == "") ==> m == ApiFallbackText
    ensures o.Thrown? ==> m == o.message
  {
    match o
    case Rejected(e) => if e.Some? && e.value != "" then e.value else ApiFallbackText
    case Thrown(m) => m
  }

  /** `err.message || 'Erro ao processar investimento'`: never empty; the server's
      message whenever it sent one; and for a non-2xx reply the dialog's own fallback is
      never reached, because the API layer already substituted its own. */
  function FailureText(o: ApiOutcome): (t: string)
    requires !o.Created?
    ensures t != ""
    ensures o.Rejected? && o.serverError.Some? && o.serverError.value != "" ==> t == o.serverError.value
    ensures o.Rejected? && (o.serverError.None? || o.serverError.value == "") ==> t == ApiFallbackText
    ensures o.Rejected? ==> t == ThrownMessage(o)
    ensures o.Thrown? && o.message != "" ==> t == o.message
    ensures o.Thrown? && o.message == "" ==> t == ModalFallbackText
  {
    var m := ThrownMessage(o);
    if m != "" then m else ModalFallbackText
  }

  // ---------------------------------------------------------------------------
  // The dialog's state machine

  /** The body of the `createInvestment(token.id, account, amount)` call. */
  datatype Request = Request(tokenId: int, walletAddress: Option<string>, amountUsd: real)

  /** What a step asks of the outside world: nothing, the `onConnectWallet` callback,
      the API call, or the `onComplete` callback. */
  datatype Effect = NoCall | ConnectWallet | CreateInvestment(request: Request) | Complete

  /** The dialog's state fields; `completionPending` stands for the armed timer. */
  datatype ModalState = ModalState(
    amount: Option<real>,
    isProcessing: bool,
    error: ErrorText,
    success: bool,
    completionPending: bool
  )

  /** The state of a freshly mounted dialog. */
  const Mounted := ModalState(None, false, NoError, false, false)

  datatype Transition = Transition(state: ModalState, effect: Effect)

  /** The amount input's `onChange`. The input exists only on the form, not on the
      success screen; it stays editable while a request is in flight. */
  function Edit(s: ModalState, amount: Option<real>): (r: ModalState)
    requires !s.success
    ensures r.amount == amount
    ensures r.(amount := s.amount) == s
  {
    s.(amount := amount)
  }

  /** `handleInvest` up to its `await`. The confirm button exists only on the form and
      is disabled while processing, hence the precondition. */
  function Begin(s: ModalState, token: Token, isConnected: bool, account: Option<string>): (r: Transition)
    requires !s.isProcessing && !s.success
    ensures r.state.amount == s.amount && !r.state.success && r.state.completionPending == s.completionPending
    ensures !isConnected ==> r == Transition(s, ConnectWallet)
    ensures r.effect.CreateInvestment? <==> Validate(isConnected, s.amount, token).Accepted?
    ensures r.effect.CreateInvestment? ==>
              && r.effect.request == Request(token.id, account, s.amount.value)
              && r.state.isProcessing && r.state.error == NoError
    ensures r.effect.NoCall? <==> Validate(isConnected, s.amount, token).Refused?
    ensures r.effect.NoCall? ==>
              !r.state.isProcessing && r.state.error == RefusalText(Validate(isConnected, s.amount, token).reason)
    ensures !r.effect.Complete?
  {
    match Validate(isConnected, s.amount, token)
    case NeedsWallet => Transition(s, ConnectWallet)
    case Refused(why) => Transition(s.(error := RefusalText(why)), NoCall)
    case Accepted(x) => Transition(s.(isProcessing := true, error := NoError), CreateInvestment(Request(token.id, account, x)))
  }

  /** `handleInvest` after its `await`: the try, catch and finally blocks. */
  function Settle(s: ModalState, outcome: ApiOutcome): (r: ModalState)
    requires s.isProcessing
    ensures !r.isProcessing && r.amount == s.amount
    ensures outcome.Created? ==> r.success && r.completionPending && r.error == s.error
    ensures !outcome.Created? ==>
              && r.success == s.success && r.completionPending == s.completionPending
              && r.error == Message(FailureText(outcome)) && Shown(r.error)
  {
    if outcome.Created? then s.(success := true, completionPending := true, isProcessing := false)
    else s.(error := Message(FailureText(outcome)), isProcessing := false)
  }

  /** The 2-second timer armed on success calls `onComplete`. */
  function FireCompletion(s: ModalState): (r: Transition)
    requires s.completionPending
    ensures r.effect == Complete && !r.state.completionPending
    ensures r.state.(completionPending := true) == s
  {
    Transition(s.(completionPending := false), Complete)
  }

  /** Something that happens to an open dialog. */
  datatype Event =
    | Type(amount: Option<real>)
    | Confirm(isConnected: bool, account: Option<string>)
    | Reply(outcome: ApiOutcome)
    | TimerFires

  /** The form (amount input, confirm button, close button) is rendered; otherwise the
      success screen is. */
  predicate FormShown(s: ModalState) {
    !s.success
  }

  /** Whether the event can happen: its control is rendered and enabled, a request is
      outstanding, or the timer is armed. The amount input is there exactly when the
      form is; the confirm button needs the form and no request in flight; in a
      reachable state a reply arrives while the form is shown and the timer fires
      while the success screen is. */
  predicate Enabled(s: ModalState, e: Event): (b: bool)
    ensures e.Type? ==> (b <==> FormShown(s))
    ensures e.Confirm? ==> (b <==> FormShown(s) && !s.isProcessing)
    ensures Inv(s) && b && e.Reply? ==> FormShown(s)
    ensures Inv(s) && b && e.TimerFires? ==> !FormShown(s)
  {
    match e
    case Type(_) => !s.success
    case Confirm(_, _) => !s.success && !s.isProcessing
    case Reply(_) => s.isProcessing
    case TimerFires => s.completionPending
  }

  function Step(s: ModalState, token: Token, e: Event): (t: Transition)
    requires Enabled(s, e)
  {
    match e
    case Type(a) => Transition(Edit(s, a), NoCall)
    case Confirm(c, account) => Begin(s, token, c, account)
    case Reply(o) => Transition(Settle(s, o), NoCall)
    case TimerFires => FireCompletion(s)
  }

  /** What holds of every state the dialog reaches. */
  predicate Inv(s: ModalState) {
    && (s.isProcessing ==> !s.success && s.error == NoError)
    && (s.success ==> !s.isProcessing && s.error == NoError)
    && (s.completionPending ==> s.success)
    && (s.error.Message? ==> s.error.text != "")
  }

  lemma MountedInv()
    ensures Inv(Mounted)
  {
  }

  lemma StepKeepsInv(s: ModalState, token: Token, e: Event)
    requires Inv(s) && Enabled(s, e)
    ensures Inv(Step(s, token, e).state)
  {
  }

  /** A request is admissible when it is for this token and within the amount rules. */
  predicate Admissible(q: Request, token: Token) {
    && q.tokenId == token.id
    && MinimumInvestment <= q.amountUsd
    && (Available(token).None? || q.amountUsd <= Available(token).value)
  }

  /** 1 when `b` holds, else 0. */
  function CountIf(b: bool): (n: nat)
    ensures n <= 1 && (n == 1 <==> b)
  {
    if b then 1 else 0
  }

  /** The effects of a run of events, in order. */
  datatype Trace = Trace(final: ModalState, requests: seq<Request>, replies: nat, completions: nat)

  /** Runs the events in order. An event that is not enabled (a click on a missing or
      disabled control, a reply with nothing in flight) changes nothing. */
  function Run(s: ModalState, token: Token, events: seq<Event>): (t: Trace)
    decreases |events|
  {
    if events == [] then Trace(s, [], 0, 0)
    else
      var e := events[0];
      var t := if Enabled(s, e) then Step(s, token, e) else Transition(s, NoCall);
      var rest := Run(t.state, token, events[1..]);
      var sent := if t.effect.CreateInvestment? then [t.effect.request] else [];
      Trace(rest.final, sent + rest.requests,
            rest.replies + CountIf(Enabled(s, e) && e.Reply?),
            rest.completions + CountIf(t.effect.Complete?))
  }

  /** How many confirm clicks a run holds. */
  function Confirms(events: seq<Event>): (n: nat)
    decreases |events|
  {
    if events == [] then 0 else CountIf(events[0].Confirm?) + Confirms(events[1..])
  }

  /** Over any run: the invariant is kept; every request sent is answered by a reply
      except one still in flight exactly when `isProcessing` holds; `onComplete` fires
      once for each switch to `success`, which never switches back; no more requests
      are sent than confirm clicks; and every request passed validation. */
  lemma {:induction false} RunKeepsPromises(s: ModalState, token: Token, events: seq<Event>)
    requires Inv(s)
    ensures var t := Run(s, token, events);
            && Inv(t.final)
            && |t.requests| + CountIf(s.isProcessing) == t.replies + CountIf(t.final.isProcessing)
            && t.completions + CountIf(t.final.completionPending) + CountIf(s.success)
               == CountIf(s.completionPending) + CountIf(t.final.success)
            && (s.success ==> t.final.success)
            && |t.requests| <= Confirms(events)
            && (forall q :: q in t.requests ==> Admissible(q, token))
    decreases |events|
  {
    if events != [] {
      var e := events[0];
      var t := if Enabled(s, e) then Step(s, token, e) else Transition(s, NoCall);
      if Enabled(s, e) {
        StepKeepsInv(s, token, e);
      }
      RunKeepsPromises(t.state, token, events[1..]);
      var rest := Run(t.state, token, events[1..]);
      var sent := if t.effect.CreateInvestment? then [t.effect.request] else [];
      assert Run(s, token, events).requests == sent + rest.requests;
      forall q | q in sent ensures Admissible(q, token) {
        assert e.Confirm? && Validate(e.isConnected, s.amount, token).Accepted?;
      }
    }
  }

  /** From a freshly mounted dialog: at most one request is ever in flight, and
      `onComplete` fires at most once. */
  lemma RunFromMount(token: Token, events: seq<Event>)
    ensures var t := Run(Mounted, token, events);
            && |t.requests| == t.replies + CountIf(t.final.isProcessing)
            && t.completions <= 1
            && |t.requests| <= Confirms(events)
            && (forall q :: q in t.requests ==> Admissible(q, token))
  {
    RunKeepsPromises(Mounted, token, events);
  }

  /** The successful scenario: type 100, confirm with a connected wallet, the API
      accepts, the timer fires. */
  lemma SuccessScenario()
    ensures var token := Token(1, "AGRO1", Some(2.0), Some(500000.0), Some(1000000.0), None);
            var wallet := Some("0xABCDEF1234567890");
            Run(Mounted, token, [Type(Some(100.0)), Confirm(true, wallet), Reply(Created), TimerFires])
            == Trace(ModalState(Some(100.0), false, NoError, true, false),
                     [Request(1, wallet, 100.0)], 1, 1)
  {
    var token := Token(1, "AGRO1", Some(2.0), Some(500000.0), Some(1000000.0), None);
    var wallet := Some("0xABCDEF1234567890");
    var s1 := ModalState(Some(100.0), false, NoError, false, false);
    var s2 := s1.(isProcessing := true);
    var s3 := ModalState(Some(100.0), false, NoError, true, true);
    var s4 := s3.(completionPending := false);
    assert Validate(true, Some(100.0), token) == Accepted(100.0);
    assert Run(s4, token, []) == Trace(s4, [], 0, 0);
    assert Run(s3, token, [TimerFires]) == Trace(s4, [], 0, 1);
    assert Run(s2, token, [Reply(Created), TimerFires]) == Trace(s4, [], 1, 1);
    assert Run(s1, token, [Confirm(true, wallet), Reply(Created), TimerFires])
        == Trace(s4, [Request(1, wallet, 100.0)], 1, 1);
  }

  /** The dialog's state, updated in place. `token` is the prop it was opened for. */
  class InvestmentModal {
    const token: Token
    var amount: Option<real>
    var isProcessing: bool
    var error: ErrorText
    var success: bool
    var completionPending: bool

    function State(): (s: ModalState)
      reads this
    {
      ModalState(amount, isProcessing, error, success, completionPending)
    }

    constructor (token: Token)
      ensures this.token == token && State() == Mounted
    {
      this.token := token;
      amount := None;
      isProcessing := false;
      error := NoError;
      success := false;
      completionPending := false;
    }

    method SetAmount(value: Option<real>)
      requires !success
      modifies this
      ensures State() == Edit(old(State()), value)
    {
      amount := value;
    }

    method HandleInvest(isConnected: bool, account: Option<string>) returns (effect: Effect)
      requires !isProcessing && !success
      modifies this
      ensures Transition(State(), effect) == Begin(old(State()), token, isConnected, account)
    {
      if !isConnected {
        return ConnectWallet;
      }
      if amount.None? || amount.value <= 0.0 {
        error := Message(InvalidAmountText);
        return NoCall;
      }
      if amount.value < MinimumInvestment {
        error := Message(BelowMinimumText);
        return NoCall;
      }
      var maxAvailable := Available(token);
      if maxAvailable.Some? && amount.value > maxAvailable.value {
        error := MaxAvailable(maxAvailable.value);
        return NoCall;
      }
      isProcessing := true;
      error := NoError;
      effect := CreateInvestment(Request(token.id, account, amount.value));
    }

    method SettleInvestment(outcome: ApiOutcome)
      requires isProcessing
      modifies this
      ensures State() == Settle(old(State()), outcome)
    {
      if outcome.Created? {
        success := true;
        completionPending := true;
      } else {
        error := Message(FailureText(outcome));
      }
      isProcessing := false;
    }

    method CompletionTimerFires() returns (effect: Effect)
      requires completionPending
      modifies this
      ensures Transition(State(), effect) == FireCompletion(old(State()))
    {
      completionPending := false;
      effect := Complete;
    }
  }
}
