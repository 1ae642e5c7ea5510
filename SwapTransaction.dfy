/**
 * The swap transaction controller of
 * components/Pages/Trade/Swap/hooks/useTransaction.tsx.
 *
 * The hook's React state (step, hash, error, gas, button label), its props
 * (amount, messages, the 200 ms debounced encoded messages) and the
 * react-query cache that holds fee estimates are one `TxState`; every
 * callback the hook registers is an `Event`, and `Next` is what that
 * callback does to the state. `TransactionController` is the same machine
 * as an object whose methods update its fields in place.
 */
module SwapTransaction {
  import opened Wrappers
  import opened TextMatch
  import opened Messages

  datatype TxStep = Idle | Estimating | Ready | Posting | Broadcasting | Success | Failed

  /** The user-facing outcomes the error classifiers choose between. */
  datatype Reason = InsufficientFunds | SlippageTooLow | UserDenied | SimulationFailed | ExecutionFailed

  function Message(r: Reason): string
  {
    match r
    case InsufficientFunds => "Insufficient Funds"
    case SlippageTooLow => "Try increasing slippage"
    case UserDenied => "User Denied"
    case SimulationFailed => "Failed to simulate transaction."
    case ExecutionFailed => "Failed to execute transaction."
  }

  predicate IsMessage(text: string)
  {
    exists r: Reason :: Message(r) == text
  }

  predicate ReportsInsufficientFunds(raw: string)
  {
    ContainsIgnoringCase(raw, "insufficient funds") || ContainsIgnoringCase(raw, "Overflow: Cannot Sub with")
  }

  predicate ReportsMaxSpread(raw: string)
  {
    ContainsIgnoringCase(raw, "Max spread assertion")
  }

  predicate ReportsRejection(raw: string)
  {
    ContainsIgnoringCase(raw, "Request rejected")
  }

  /** How a failed fee simulation is reported, from the error's text. */
  function ClassifySimulation(raw: string): Reason
  {
    if ReportsInsufficientFunds(raw) then InsufficientFunds
    else if ReportsMaxSpread(raw) then SlippageTooLow
    else SimulationFailed
  }

  /** How a failed signing or broadcast is reported, from the error's text. */
  function ClassifyExecution(raw: string): Reason
  {
    if ReportsInsufficientFunds(raw) then InsufficientFunds
    else if ReportsMaxSpread(raw) then SlippageTooLow
    else if ReportsRejection(raw) then UserDenied
    else ExecutionFailed
  }

  /** The classifiers do not depend on the letter case of the error text. */
  lemma ClassifyIgnoresCase(raw: string)
    ensures ClassifySimulation(Lower(raw)) == ClassifySimulation(raw)
    ensures ClassifyExecution(Lower(raw)) == ClassifyExecution(raw)
  {
    ContainsLower(raw, "insufficient funds");
    ContainsLower(raw, "Overflow: Cannot Sub with");
    ContainsLower(raw, "Max spread assertion");
    ContainsLower(raw, "Request rejected");
  }

  /**
   * The two classifiers agree on every specific reason a simulation can
   * name; only the generic fall-backs differ, and a rejection by the wallet
   * is recognised only when signing.
   */
  lemma ClassifiersAgree(raw: string)
    ensures ClassifySimulation(raw) != SimulationFailed ==> ClassifyExecution(raw) == ClassifySimulation(raw)
    ensures ClassifySimulation(raw) == SimulationFailed <==> ClassifyExecution(raw) in {UserDenied, ExecutionFailed}
    ensures ClassifySimulation(raw) != UserDenied && ClassifySimulation(raw) != ExecutionFailed
    ensures ClassifyExecution(raw) != SimulationFailed
  {
  }

  /** "insufficient funds" in any letter case, anywhere in the error text, is reported as such. */
  lemma InsufficientFundsAnywhere(pre: string, word: string, post: string)
    requires Lower(word) == Lower("insufficient funds")
    ensures ClassifySimulation(pre + word + post) == InsufficientFunds
    ensures ClassifyExecution(pre + word + post) == InsufficientFunds
  {
    ContainsEmbedded(pre, word, post, "insufficient funds");
  }

  /** A wallet's "Request rejected", with no funds or spread complaint, is reported as denied by the user. */
  lemma RejectionIsUserDenied(pre: string, word: string, post: string)
    requires Lower(word) == Lower("Request rejected")
    requires !ReportsInsufficientFunds(pre + word + post) && !ReportsMaxSpread(pre + word + post)
    ensures ClassifyExecution(pre + word + post) == UserDenied
    ensures ClassifySimulation(pre + word + post) == SimulationFailed
  {
    ContainsEmbedded(pre, word, post, "Request rejected");
  }

  /** `msgs` and `encodedMsgs` may be absent (`null`). */
  type Msgs = Option<seq<Call>>

  /** A fee query's key: the amount, the debounced encoded messages and the current error. */
  datatype FeeKey = FeeKey(amount: string, msgs: Msgs, error: Option<string>)

  /** What the wallet returns from a successful signing: either hash field may be missing. */
  datatype SignResult = SignResult(transactionHash: Option<string>, txHash: Option<string>)

  datatype TxState = TxState(
    step: TxStep,
    txHash: Option<string>,
    error: Option<string>,
    gas: nat,
    buttonLabel: Option<string>,
    fees: map<FeeKey, nat>,  // the fee query's cached results, by key
    amount: string,
    msgs: Msgs,
    debouncedMsgs: Msgs)

  /** The hook as first rendered: the debounced value starts out equal to its input. */
  function Initial(amount: string, msgs: Msgs, encodedMsgs: Msgs): TxState
  {
    TxState(Idle, None, None, 0, None, map[], amount, msgs, encodedMsgs)
  }

  function KeyOf(s: TxState): FeeKey
  {
    FeeKey(s.amount, s.debouncedMsgs, s.error)
  }

  /** The `fee` the hook exposes: the cached result for the current key, if any. */
  function Fee(s: TxState): Option<nat>
  {
    if KeyOf(s) in s.fees then Some(s.fees[KeyOf(s)]) else None
  }

  datatype Event =
    | PropsChanged(newAmount: string, newMsgs: Msgs)      // a re-render with new props
    | MsgsDebounced(encoded: Msgs)                         // the debounced encoded messages changed
    | EstimateStarted(enabled: bool)                       // the fee query function begins
    | Simulated(forAmount: string, forMsgs: Msgs, gasUnits: nat)  // `client.simulate` resolved for that input
    | SimulationRejected(raw: string)                      // `client.simulate` threw
    | Submit                                               // `submit()` called
    | Signed(result: SignResult)                           // the mutation resolved
    | SigningRejected(raw: string)                         // the mutation threw
    | RecordFetched(hash: string, code: Option<int>)       // `client.getTx` returned a record
    | Reset                                                // `reset()` called

  /** The fee query is enabled only with messages, while idle, with no error, and when the caller enables it. */
  predicate CanEstimate(s: TxState, enabled: bool)
  {
    s.debouncedMsgs.Some? && s.step == Idle && s.error.None? && enabled
  }

  /** `submit()` posts only with a fee estimate and at least one message. */
  predicate CanSubmit(s: TxState)
  {
    Fee(s).Some? && s.msgs.Some? && |s.msgs.value| >= 1
  }

  function HashOf(r: SignResult): Option<string>
  {
    if Truthy(r.transactionHash) then r.transactionHash else r.txHash
  }

  /** The failure handler of the signing mutation, as evidently intended (see `SigningRejectedAsWritten`). */
  function OnSigningError(s: TxState, raw: string): (t: TxState)
    ensures t.step == Failed && t.error == Some(Message(ClassifyExecution(raw)))
    ensures t.(step := s.step, error := s.error) == s
  {
    s.(error := Some(Message(ClassifyExecution(raw))), step := Failed)
  }

  function Next(s: TxState, e: Event): TxState
  {
    match e
    case PropsChanged(a, m) => s.(amount := a, msgs := m)
    case MsgsDebounced(m) =>
      s.(debouncedMsgs := m, error := if Truthy(s.error) then None else s.error, step := Idle)
    case EstimateStarted(enabled) =>
      if CanEstimate(s, enabled) then s.(error := None, step := Estimating) else s
    case Simulated(a, m, g) =>
      s.(gas := g,
         buttonLabel := if Truthy(s.buttonLabel) then None else s.buttonLabel,
         step := Ready,
         fees := s.fees[FeeKey(a, m, None) := g])
    case SimulationRejected(raw) =>
      var r := ClassifySimulation(raw);
      s.(step := Idle,
         error := Some(Message(r)),
         buttonLabel := if r == InsufficientFunds then Some(Message(r)) else s.buttonLabel)
    case Submit => if CanSubmit(s) then s.(step := Posting) else s
    case Signed(r) => s.(step := Broadcasting, txHash := HashOf(r))
    case SigningRejected(raw) => OnSigningError(s, raw)
    case RecordFetched(h, code) =>
      if s.txHash == Some(h) then s.(step := if code.Some? && code.value != 0 then Failed else Success)
      else s
    case Reset => s.(error := None, txHash := None, step := Idle)
  }

  function Run(s: TxState, evs: seq<Event>): TxState
    decreases |evs|
  {
    if evs == [] then s else Run(Next(s, evs[0]), evs[1..])
  }

  /**
   * What every reachable state satisfies: estimates are cached only under
   * error-free keys, an estimate runs with no error shown, every error shown
   * is one of the five messages, and the button label is only ever the
   * insufficient-funds one.
   */
  predicate Inv(s: TxState)
  {
    (forall k :: k in s.fees ==> k.error.None?)
    && (s.step == Estimating ==> s.error.None?)
    && (s.error.Some? ==> IsMessage(s.error.value))
    && (s.buttonLabel.Some? ==> s.buttonLabel.value == Message(InsufficientFunds))
  }

  lemma InitialInv(amount: string, msgs: Msgs, encodedMsgs: Msgs)
    ensures Inv(Initial(amount, msgs, encodedMsgs))
  {
  }

  lemma NextInv(s: TxState, e: Event)
    requires Inv(s)
    ensures Inv(Next(s, e))
  {
    match e
    case SimulationRejected(raw) =>
      assert Message(ClassifySimulation(raw)) == Next(s, e).error.value;
    case SigningRejected(raw) =>
      assert Message(ClassifyExecution(raw)) == Next(s, e).error.value;
    case _ =>
  }

  lemma {:induction false} RunInv(s: TxState, evs: seq<Event>)
    requires Inv(s)
    ensures Inv(Run(s, evs))
    decreases |evs|
  {
    if evs != [] {
      NextInv(s, evs[0]);
      RunInv(Next(s, evs[0]), evs[1..]);
    }
  }

  /** While an error is shown there is no fee, so `submit()` does nothing. */
  lemma ErrorBlocksSubmit(s: TxState)
    requires Inv(s) && s.error.Some?
    ensures Fee(s).None?
    ensures Next(s, Submit) == s
  {
  }

  /** The only way into `Posting` is a `submit()` that finds a fee and a non-empty message list. */
  lemma PostingOnlyBySubmit(s: TxState, e: Event)
    requires s.step != Posting && Next(s, e).step == Posting
    ensures e == Submit && CanSubmit(s)
  {
  }

  /** `Ready` is reached only by a resolved simulation, which records its gas. */
  lemma ReadyOnlyBySimulation(s: TxState, e: Event)
    requires s.step != Ready && Next(s, e).step == Ready
    ensures e.Simulated? && Next(s, e).gas == e.gasUnits
    ensures Fee(Next(s, e)) == Some(e.gasUnits) <== KeyOf(s) == FeeKey(e.forAmount, e.forMsgs, None)
  {
  }

  /** A confirmed outcome concerns the hash the wallet returned: it needs a record for the current hash. */
  lemma OutcomeOnlyByRecord(s: TxState, e: Event)
    requires s.step != Success && Next(s, e).step == Success
    ensures e.RecordFetched? && s.txHash == Some(e.hash) && (e.code.None? || e.code.value == 0)
  {
  }

  /** With no estimate ever made, nothing is ever posted. */
  lemma {:induction false} NoPostingWithoutEstimate(s: TxState, evs: seq<Event>)
    requires s.fees == map[] && s.step != Posting
    requires forall i :: 0 <= i < |evs| ==> !evs[i].Simulated?
    ensures Run(s, evs).fees == map[] && Run(s, evs).step != Posting
    decreases |evs|
  {
    if evs != [] {
      assert !evs[0].Simulated?;
      NoPostingWithoutEstimate(Next(s, evs[0]), evs[1..]);
    }
  }

  /** With no signing result, no hash is ever recorded and nothing is broadcast or confirmed. */
  lemma {:induction false} NoConfirmationWithoutSigning(s: TxState, evs: seq<Event>)
    requires s.txHash.None? && s.step != Broadcasting && s.step != Success
    requires forall i :: 0 <= i < |evs| ==> !evs[i].Signed?
    ensures Run(s, evs).txHash.None?
    ensures Run(s, evs).step != Broadcasting && Run(s, evs).step != Success
    decreases |evs|
  {
    if evs != [] {
      assert !evs[0].Signed?;
      NoConfirmationWithoutSigning(Next(s, evs[0]), evs[1..]);
    }
  }

  /**
   * A new debounced input always returns the controller to `Idle` with no
   * error, and the fee then shown is whatever was cached for the new input.
   */
  lemma DebounceResets(s: TxState, m: Msgs)
    requires Inv(s)
    ensures Next(s, MsgsDebounced(m)).step == Idle
    ensures Next(s, MsgsDebounced(m)).error.None?
    ensures Fee(Next(s, MsgsDebounced(m))) == (if FeeKey(s.amount, m, None) in s.fees then Some(s.fees[FeeKey(s.amount, m, None)]) else None)
  {
    if s.error.Some? {
      var r :| Message(r) == s.error.value;
      assert Message(r) != "";
    }
  }

  /**
   * A simulation that resolves after the input changed is not discarded: it
   * still moves the controller to `Ready` and overwrites the gas that the
   * next mutation will use, although the fee shown is that of the new input.
   */
  lemma LateSimulationStillApplies(s: TxState, a: string, stale: Msgs, g: nat)
    requires KeyOf(s) != FeeKey(a, stale, None)
    ensures Next(s, Simulated(a, stale, g)).step == Ready
    ensures Next(s, Simulated(a, stale, g)).gas == g
    ensures Fee(Next(s, Simulated(a, stale, g))) == Fee(s)
  {
  }

  /**
   * Simulating to 180000 gas makes the controller ready with that fee;
   * submitting posts, the signed hash is broadcast, and a record for it with
   * code 5 ends in `Failed`.
   */
  lemma FailedRecordScenario(amount: string, calls: seq<Call>, hash: string)
    requires |calls| >= 1
    ensures var s0 := Initial(amount, Some(calls), Some(calls));
            var s1 := Next(s0, EstimateStarted(true));
            var s2 := Next(s1, Simulated(amount, Some(calls), 180000));
            var s3 := Next(s2, Submit);
            var s4 := Next(s3, Signed(SignResult(Some(hash), None)));
            var s5 := Next(s4, RecordFetched(hash, Some(5)));
            s1.step == Estimating && s2.step == Ready && Fee(s2) == Some(180000)
            && s3.step == Posting && s4.step == Broadcasting
            && (hash != "" ==> s4.txHash == Some(hash) && s5.step == Failed)
  {
  }

  /**
   * What the signing mutation rejects with: nothing, or a value with its
   * `toString()` text and whether its `message` member is callable.
   */
  datatype Thrown = Nullish | Thrown(text: string, messageIsMethod: bool)

  /**
   * The failure handler as written: it first logs `e?.message()`, which
   * throws unless `e` is nullish or its `message` is a method, and then
   * nothing after it runs. A nullish `e` is classified by the text
   * "undefined".
   */
  function SigningRejectedAsWritten(s: TxState, e: Thrown): TxState
  {
    match e
    case Nullish => OnSigningError(s, "undefined")
    case Thrown(text, isMethod) => if isMethod then OnSigningError(s, text) else s
  }

  /**
   * For an ordinary error object, whose `message` is a string, the handler
   * as written leaves the controller `Posting` with no error, where the
   * intended handler ends in `Failed` with a reason.
   */
  lemma SigningErrorLostAsWritten(s: TxState, text: string)
    requires s.step == Posting
    ensures SigningRejectedAsWritten(s, Thrown(text, false)).step == Posting
    ensures SigningRejectedAsWritten(s, Thrown(text, false)).error == s.error
    ensures Next(s, SigningRejected(text)).step == Failed
    ensures IsMessage(Next(s, SigningRejected(text)).error.value)
  {
  }

  /** When `message` is a method, the handler as written does what was intended. */
  lemma SigningErrorWithMessageMethod(s: TxState, text: string)
    ensures SigningRejectedAsWritten(s, Thrown(text, true)) == Next(s, SigningRejected(text))
  {
  }

  /** The controller as an object: the hook's state variables are its fields. */
  class TransactionController {
    var step: TxStep
    var txHash: Option<string>
    var error: Option<string>
    var gas: nat
    var buttonLabel: Option<string>
    var fees: map<FeeKey, nat>
    var amount: string
    var msgs: Msgs
    var debouncedMsgs: Msgs

    function State(): TxState
      reads this
    {
      TxState(step, txHash, error, gas, buttonLabel, fees, amount, msgs, debouncedMsgs)
    }

    predicate Valid()
      reads this
    {
      Inv(State())
    }

    constructor(amount0: string, msgs0: Msgs, encodedMsgs0: Msgs)
      ensures Valid() && State() == Initial(amount0, msgs0, encodedMsgs0)
    {
      step, txHash, error, gas, buttonLabel, fees := Idle, None, None, 0, None, map[];
      amount, msgs, debouncedMsgs := amount0, msgs0, encodedMsgs0;
    }

    /** The `fee` the hook returns. */
    function CurrentFee(): (f: Option<nat>)
      reads this
      ensures f == Fee(State())
    {
      var k := FeeKey(amount, debouncedMsgs, error);
      if k in fees then Some(fees[k]) else None
    }

    method SetProps(a: string, m: Msgs)
      requires Valid()
      modifies this
      ensures Valid() && State() == Next(old(State()), PropsChanged(a, m))
    {
      amount, msgs := a, m;
    }

    /** The effect on the debounced messages (lines 261-270). */
    method DebouncedMsgsChanged(m: Msgs)
      requires Valid()
      modifies this
      ensures Valid() && State() == Next(old(State()), MsgsDebounced(m))
    {
      debouncedMsgs := m;
      if error.Some? && error.value != "" {
        error := None;
      }
      if step != Idle {
        step := Idle;
      }
      NextInv(old(State()), MsgsDebounced(m));
    }

    /** The start of the fee query function, when the query is enabled. */
    method StartEstimate(enabled: bool) returns (started: bool)
      requires Valid()
      modifies this
      ensures started == CanEstimate(old(State()), enabled)
      ensures Valid() && State() == Next(old(State()), EstimateStarted(enabled))
    {
      started := debouncedMsgs.Some? && step == Idle && error.None? && enabled;
      if started {
        error := None;
        step := Estimating;
      }
    }

    /** `client.simulate` resolved with `gasUnits` for the query started under `forAmount` and `forMsgs`. */
    method SimulationResolved(forAmount: string, forMsgs: Msgs, gasUnits: nat)
      requires Valid()
      modifies this
      ensures Valid() && State() == Next(old(State()), Simulated(forAmount, forMsgs, gasUnits))
    {
      gas := gasUnits;
      if buttonLabel.Some? && buttonLabel.value != "" {
        buttonLabel := None;
      }
      step := Ready;
      fees := fees[FeeKey(forAmount, forMsgs, None) := gasUnits];
    }

    /** `client.simulate` threw an error whose text is `raw`. */
    method SimulationFailed(raw: string)
      requires Valid()
      modifies this
      ensures Valid() && State() == Next(old(State()), SimulationRejected(raw))
    {
      var r := ClassifySimulation(raw);
      step := Idle;
      error := Some(Message(r));
      if r == InsufficientFunds {
        buttonLabel := Some(Message(r));
      }
      NextInv(old(State()), SimulationRejected(raw));
    }

    method Submit() returns (posted: bool)
      requires Valid()
      modifies this
      ensures posted == CanSubmit(old(State()))
      ensures Valid() && State() == Next(old(State()), Event.Submit)
    {
      var fee := CurrentFee();
      posted := fee.Some? && msgs.Some? && |msgs.value| >= 1;
      if posted {
        step := Posting;
      }
    }

    method SigningSucceeded(result: SignResult)
      requires Valid()
      modifies this
      ensures Valid() && State() == Next(old(State()), Signed(result))
    {
      step := Broadcasting;
      if result.transactionHash.Some? && result.transactionHash.value != "" {
        txHash := result.transactionHash;
      } else {
        txHash := result.txHash;
      }
    }

    /** The signing mutation's failure handler as intended (`OnSigningError`); see `SigningRejectedAsWritten` for the code as written. */
    method SigningFailed(raw: string)
      requires Valid()
      modifies this
      ensures Valid() && State() == Next(old(State()), SigningRejected(raw))
    {
      error := Some(Message(ClassifyExecution(raw)));
      step := Failed;
      NextInv(old(State()), SigningRejected(raw));
    }

    /** The effect on the fetched transaction record (lines 249-259). */
    method RecordArrived(hash: string, code: Option<int>)
      requires Valid()
      modifies this
      ensures Valid() && State() == Next(old(State()), RecordFetched(hash, code))
    {
      if txHash == Some(hash) {
        if code.Some? && code.value != 0 {
          step := Failed;
        } else {
          step := Success;
        }
      }
    }

    method Reset()
      requires Valid()
      modifies this
      ensures Valid() && State() == Next(old(State()), Event.Reset)
    {
      error := None;
      txHash := None;
      step := Idle;
    }
  }
}
