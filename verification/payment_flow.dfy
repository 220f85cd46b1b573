/**
 * The X402 payment-and-execution dialog as a transition system over values.
 *
 * `ModalState` holds the dialog's five state cells (step, errorMessage,
 * privateKey, isVerifying, isExecuting) together with what the outside world
 * can observe of it: the transfer requests handed to the wallet, the number of
 * `onSuccess` and `onClose` calls, and the continuations that are still
 * scheduled (a verification or execution waiting on its delay, and the
 * completion timer). `Next` is one handler run or one external signal.
 * The class in module PaymentModal is proved against `Next`.
 */
module PaymentFlow {
  import opened Wrappers

  /** The declared steps of the dialog; `Success` is declared but never assigned. */
  datatype Step = Confirm | Paying | Success | Verify | Execute | Completed | Error

  /** The treasury address every payment is sent to. */
  const PlatformAddress: string := "0x7AFf5e8F1c3eB926b8f1E7b196aDc108fb7a00b2"

  /** 0.001 ether in wei: the fixed demonstration amount, whatever the displayed cost. */
  const DemoAmountWei: nat := 1_000_000_000_000_000

  const WalletNotConnected: string := "Wallet not connected"
  const TxFailedPrefix: string := "Transaction failed: "
  const PrivateKeyRequired: string := "Private key is required"
  const PaymentFailed: string := "Payment failed"

  /** A transfer request handed to the wallet's `sendTransaction`. */
  datatype Transfer = Transfer(to: string, valueWei: nat)

  const DemoTransfer: Transfer := Transfer(PlatformAddress, DemoAmountWei)

  /** What was thrown inside the payment `try` block: an `Error` with a message, or any other value. */
  datatype Thrown = ErrorInstance(message: string) | NonErrorValue

  /** The outcome of handing the transfer to the wallet: accepted, or a synchronous throw. */
  datatype Submission = Submitted | Threw(thrown: Thrown)

  datatype ModalState = ModalState(
    step: Step,
    errorMessage: string,
    privateKey: string,
    isVerifying: bool,
    isExecuting: bool,
    pendingVerifies: nat,      // verifications waiting on their 2 s delay
    pendingExecutions: nat,    // executions waiting on their 3 s delay
    pendingTimers: nat,        // completion timers waiting on their 2 s delay
    transfers: seq<Transfer>,  // every transfer request issued, in order
    successCalls: nat,         // calls of the owner's onSuccess
    closeCalls: nat)           // calls of the owner's onClose

  /**
   * One handler run or external signal. `Pay` carries the connected address
   * (absent when no wallet is connected) and how the wallet took the request;
   * `TxSucceeded` and `TxFailed` are the receipt and error signals of the
   * wallet hooks; the `Finish*` events and `FireCompletionTimer` are the
   * continuations that run once their delay has passed.
   */
  datatype Event =
    | Pay(address: Option<string>, submission: Submission)
    | TxSucceeded
    | TxFailed(message: string)
    | StartVerify
    | FinishVerify
    | EnterPrivateKey(key: string)
    | StartExecute
    | FinishExecute
    | FireCompletionTimer
    | Close

  /** The steps in which the dialog refuses to close. */
  predicate InFlight(step: Step) {
    step == Paying || step == Verify || step == Execute
  }

  /** JavaScript truthiness of the connected address: present and non-empty. */
  predicate Connected(address: Option<string>) {
    address.Some? && address.value != ""
  }

  /** The message the payment handler's `catch` shows for a thrown value. */
  function ThrownMessage(thrown: Thrown): string {
    match thrown
    case ErrorInstance(message) => message
    case NonErrorValue => PaymentFailed
  }

  /** The state of a freshly mounted dialog. */
  function Initial(): (s: ModalState)
    ensures s.step == Confirm && s.errorMessage == "" && s.privateKey == ""
    ensures !s.isVerifying && !s.isExecuting && s.transfers == []
    ensures s.successCalls == 0 && s.closeCalls == 0
  {
    ModalState(Confirm, "", "", false, false, 0, 0, 0, [], 0, 0)
  }

  /** The state after one event. A continuation that is not scheduled does not run. */
  function Next(s: ModalState, e: Event): ModalState {
    match e
    case Pay(address, submission) =>
      if !Connected(address) then
        s.(step := Error, errorMessage := WalletNotConnected)
      else (
        match submission
        case Submitted =>
          s.(step := Paying, errorMessage := "", transfers := s.transfers + [DemoTransfer])
        case Threw(thrown) =>
          s.(step := Error, errorMessage := ThrownMessage(thrown)))
    case TxSucceeded =>
      if s.step == Paying then s.(step := Verify) else s
    case TxFailed(message) =>
      if s.step == Paying then s.(step := Error, errorMessage := TxFailedPrefix + message) else s
    case StartVerify =>
      s.(isVerifying := true, pendingVerifies := s.pendingVerifies + 1)
    case FinishVerify =>
      if s.pendingVerifies == 0 then s
      else s.(isVerifying := false, step := Execute, pendingVerifies := s.pendingVerifies - 1)
    case EnterPrivateKey(key) =>
      s.(privateKey := key)
    case StartExecute =>
      if s.privateKey == "" then s.(errorMessage := PrivateKeyRequired)
      else s.(isExecuting := true, errorMessage := "", pendingExecutions := s.pendingExecutions + 1)
    case FinishExecute =>
      if s.pendingExecutions == 0 then s
      else s.(isExecuting := false, step := Completed,
               pendingExecutions := s.pendingExecutions - 1, pendingTimers := s.pendingTimers + 1)
    case FireCompletionTimer =>
      if s.pendingTimers == 0 then s
      else s.(successCalls := s.successCalls + 1, closeCalls := s.closeCalls + 1,
               step := Confirm, privateKey := "", errorMessage := "",
               pendingTimers := s.pendingTimers - 1)
    case Close =>
      if InFlight(s.step) then s
      else s.(step := Confirm, errorMessage := "", privateKey := "", closeCalls := s.closeCalls + 1)
  }

  /** The state after a sequence of events, applied left to right. */
  function Run(s: ModalState, events: seq<Event>): ModalState
    decreases |events|
  {
    if events == [] then s else Run(Next(s, events[0]), events[1..])
  }

  /**
   * The events the rendered dialog and its environment can produce in state `s`:
   * the Pay and Retry buttons (shown in confirm and error), the verify button
   * (shown in verify, disabled while verifying), the key input (shown in execute),
   * the execute button (shown in execute, disabled while executing or with an
   * empty key), the close action (always), the wallet's two signals (always),
   * and each continuation that is scheduled.
   */
  predicate Offered(s: ModalState, e: Event) {
    match e
    case Pay(_, _) => s.step == Confirm || s.step == Error
    case TxSucceeded => true
    case TxFailed(_) => true
    case StartVerify => s.step == Verify && !s.isVerifying
    case FinishVerify => s.pendingVerifies > 0
    case EnterPrivateKey(_) => s.step == Execute
    case StartExecute => s.step == Execute && !s.isExecuting && s.privateKey != ""
    case FinishExecute => s.pendingExecutions > 0
    case FireCompletionTimer => s.pendingTimers > 0
    case Close => true
  }

  /** Every event of `events` is offered in the state it is applied to. */
  predicate OfferedTrace(s: ModalState, events: seq<Event>)
    decreases |events|
  {
    events == [] || (Offered(s, events[0]) && OfferedTrace(Next(s, events[0]), events[1..]))
  }

  /**
   * 1 when the current step still holds a payment that has not yet been handed
   * on to a scheduled verification or execution, else 0.
   */
  function OpenPayment(s: ModalState): nat {
    if s.step == Paying || (s.step == Verify && !s.isVerifying) || (s.step == Execute && !s.isExecuting)
    then 1 else 0
  }

  /**
   * The invariant of every state the dialog reaches through offered events:
   * `Success` is never the step, every transfer is the fixed demonstration
   * transfer, the busy flags mirror the single scheduled continuation, and
   * every success callback, scheduled timer, scheduled execution or
   * verification and open payment is paid for by its own transfer request.
   */
  ghost predicate Consistent(s: ModalState) {
    && s.step != Success
    && (forall t | t in s.transfers :: t == DemoTransfer)
    && s.isVerifying == (s.pendingVerifies > 0) && s.pendingVerifies <= 1
    && s.isExecuting == (s.pendingExecutions > 0) && s.pendingExecutions <= 1
    && s.successCalls + s.pendingTimers + s.pendingExecutions + s.pendingVerifies + OpenPayment(s)
       <= |s.transfers|
  }

  lemma InitialIsConsistent()
    ensures Consistent(Initial())
  {
  }

  /** One offered event keeps the invariant. */
  lemma NextKeepsConsistent(s: ModalState, e: Event)
    requires Consistent(s) && Offered(s, e)
    ensures Consistent(Next(s, e))
  {
  }

  /** Offered traces keep the invariant. */
  lemma {:induction false} OfferedTraceKeepsConsistent(s: ModalState, events: seq<Event>)
    requires Consistent(s) && OfferedTrace(s, events)
    ensures Consistent(Run(s, events))
    decreases |events|
  {
    if events != [] {
      NextKeepsConsistent(s, events[0]);
      OfferedTraceKeepsConsistent(Next(s, events[0]), events[1..]);
    }
  }

  /**
   * Whatever the order of clicks, signals and timers the dialog offers, the
   * owner's onSuccess runs at most once per transfer request, and every
   * transfer request is the fixed 0.001 ether transfer to the treasury.
   */
  lemma {:induction false} SuccessCallsBoundedByTransfers(events: seq<Event>)
    requires OfferedTrace(Initial(), events)
    ensures Run(Initial(), events).successCalls <= |Run(Initial(), events).transfers|
    ensures forall t | t in Run(Initial(), events).transfers :: t == DemoTransfer
  {
    InitialIsConsistent();
    OfferedTraceKeepsConsistent(Initial(), events);
  }

  /** No handler and no signal ever assigns the declared `Success` step. */
  lemma {:induction false} SuccessStepUnreachable(s: ModalState, events: seq<Event>)
    requires s.step != Success
    ensures Run(s, events).step != Success
    decreases |events|
  {
    if events != [] {
      SuccessStepUnreachable(Next(s, events[0]), events[1..]);
    }
  }

  /** Transfers are only ever appended: a run keeps every earlier request. */
  lemma {:induction false} TransfersOnlyGrow(s: ModalState, events: seq<Event>)
    ensures s.transfers <= Run(s, events).transfers
    decreases |events|
  {
    if events != [] {
      TransfersOnlyGrow(Next(s, events[0]), events[1..]);
    }
  }

  /** Pay without a connected wallet: error step, fixed message, no transfer, key untouched. */
  lemma PayWithoutWallet(s: ModalState, address: Option<string>, submission: Submission)
    requires !Connected(address)
    ensures Next(s, Pay(address, submission)) ==
            s.(step := Error, errorMessage := WalletNotConnected)
  {
  }

  /**
   * Pay with a connected wallet that accepts the request: paying step, message
   * cleared, exactly one transfer of the fixed amount to the treasury.
   */
  lemma PayWithWallet(s: ModalState, address: Option<string>)
    requires Connected(address)
    ensures Next(s, Pay(address, Submitted)).step == Paying
    ensures Next(s, Pay(address, Submitted)).errorMessage == ""
    ensures Next(s, Pay(address, Submitted)).transfers == s.transfers + [Transfer(PlatformAddress, DemoAmountWei)]
    ensures Next(s, Pay(address, Submitted)).privateKey == s.privateKey
  {
  }

  /** The wallet's two signals act only while paying; in any other step they change nothing. */
  lemma WalletSignals(s: ModalState, message: string)
    ensures s.step == Paying ==> Next(s, TxSucceeded) == s.(step := Verify)
    ensures s.step == Paying ==>
      Next(s, TxFailed(message)) == s.(step := Error, errorMessage := TxFailedPrefix + message)
    ensures s.step != Paying ==> Next(s, TxSucceeded) == s && Next(s, TxFailed(message)) == s
  {
  }

  /** A scheduled verification always ends in the execute step: there is no failure outcome. */
  lemma VerificationAlwaysSucceeds(s: ModalState)
    requires s.pendingVerifies > 0
    ensures Next(s, FinishVerify).step == Execute && !Next(s, FinishVerify).isVerifying
  {
  }

  /**
   * Execute with an empty key only sets "Private key is required" and schedules
   * nothing; with a key it sets isExecuting, clears the message and schedules
   * one execution, which on finishing clears isExecuting, enters completed and
   * schedules the completion timer.
   */
  lemma ExecuteGuard(s: ModalState)
    ensures s.privateKey == "" ==> Next(s, StartExecute) == s.(errorMessage := PrivateKeyRequired)
    ensures s.privateKey != "" ==>
      Next(s, StartExecute) == s.(isExecuting := true, errorMessage := "",
                                  pendingExecutions := s.pendingExecutions + 1)
    ensures s.pendingExecutions > 0 ==>
      Next(s, FinishExecute).step == Completed && !Next(s, FinishExecute).isExecuting &&
      Next(s, FinishExecute).pendingTimers == s.pendingTimers + 1
  {
  }

  /**
   * The completion timer calls onSuccess once and onClose once, then resets
   * the step to confirm and clears the key and the message.
   */
  lemma CompletionTimerResets(s: ModalState)
    requires s.pendingTimers > 0
    ensures Next(s, FireCompletionTimer).successCalls == s.successCalls + 1
    ensures Next(s, FireCompletionTimer).closeCalls == s.closeCalls + 1
    ensures Next(s, FireCompletionTimer).step == Confirm
    ensures Next(s, FireCompletionTimer).privateKey == "" && Next(s, FireCompletionTimer).errorMessage == ""
  {
  }

  /**
   * Close is refused while paying, verifying or executing: nothing changes and
   * onClose is not called. In every other step it resets to confirm, clears
   * the message and the key, and calls onClose once.
   */
  lemma CloseGuard(s: ModalState)
    ensures InFlight(s.step) ==> Next(s, Close) == s
    ensures !InFlight(s.step) ==>
      Next(s, Close) == s.(step := Confirm, errorMessage := "", privateKey := "", closeCalls := s.closeCalls + 1)
  {
  }

  /** Running two traces one after the other is running their concatenation. */
  lemma {:induction false} RunAppend(s: ModalState, a: seq<Event>, b: seq<Event>)
    ensures Run(s, a + b) == Run(Run(s, a), b)
    ensures OfferedTrace(s, a + b) <==> OfferedTrace(s, a) && OfferedTrace(Run(s, a), b)
    decreases |a|
  {
    if a == [] {
      assert a + b == b;
    } else {
      assert (a + b)[1..] == a[1..] + b;
      RunAppend(Next(s, a[0]), a[1..], b);
    }
  }

  /** A whole purchase: pay, receipt, verify, key "0xabc", execute. */
  function FirstPurchase(address: string): seq<Event> {
    [Pay(Some(address), Submitted), TxSucceeded, StartVerify, FinishVerify,
     EnterPrivateKey("0xabc"), StartExecute, FinishExecute]
  }

  /**
   * The purchase is offered step by step from a new dialog and ends in
   * completed with one transfer requested, no callback made yet, and the
   * completion timer scheduled.
   */
  lemma FirstPurchaseCompletes(address: string)
    requires address != ""
    ensures OfferedTrace(Initial(), FirstPurchase(address))
    ensures Run(Initial(), FirstPurchase(address)) ==
      Initial().(step := Completed, privateKey := "0xabc", pendingTimers := 1, transfers := [DemoTransfer])
  {
    var evs: seq<Event> := [];
    RunAppend(Initial(), evs, [Pay(Some(address), Submitted)]);  evs := evs + [Pay(Some(address), Submitted)];
    RunAppend(Initial(), evs, [TxSucceeded]);                    evs := evs + [TxSucceeded];
    RunAppend(Initial(), evs, [StartVerify]);                    evs := evs + [StartVerify];
    RunAppend(Initial(), evs, [FinishVerify]);                   evs := evs + [FinishVerify];
    RunAppend(Initial(), evs, [EnterPrivateKey("0xabc")]);       evs := evs + [EnterPrivateKey("0xabc")];
    RunAppend(Initial(), evs, [StartExecute]);                   evs := evs + [StartExecute];
    RunAppend(Initial(), evs, [FinishExecute]);                  evs := evs + [FinishExecute];
    assert evs == FirstPurchase(address);
  }

  /**
   * Close is allowed in `completed`, but it does not cancel the completion
   * timer. If the user closes, reopens and pays again within the timer's
   * delay, the timer of the first flow resets the second one to confirm while
   * its transfer is already requested, and the wallet's later success signal
   * is then ignored.
   */
  lemma StaleCompletionTimer(address: string)
    requires address != ""
    ensures
      var events := FirstPurchase(address) + [Close, Pay(Some(address), Submitted), FireCompletionTimer, TxSucceeded];
      var s := Run(Initial(), events);
      && OfferedTrace(Initial(), events)
      && s.step == Confirm && |s.transfers| == 2 && s.successCalls == 1 && s.closeCalls == 2
  {
    FirstPurchaseCompletes(address);
    var s := Initial();
    var evs := FirstPurchase(address);
    RunAppend(s, evs, [Close]);                       evs := evs + [Close];
    RunAppend(s, evs, [Pay(Some(address), Submitted)]); evs := evs + [Pay(Some(address), Submitted)];
    RunAppend(s, evs, [FireCompletionTimer]);         evs := evs + [FireCompletionTimer];
    RunAppend(s, evs, [TxSucceeded]);                 evs := evs + [TxSucceeded];
    assert evs == FirstPurchase(address) + [Close, Pay(Some(address), Submitted), FireCompletionTimer, TxSucceeded];
  }

  /**
   * The stale timer does not stop a verification the second flow has already
   * started: the timer resets the dialog to confirm and calls onClose, and the
   * verification's continuation then sets execute regardless, so the closed
   * dialog jumps to the execute step.
   */
  lemma StaleTimerThenVerification(address: string)
    requires address != ""
    ensures
      var reset := FirstPurchase(address) +
        [Close, Pay(Some(address), Submitted), TxSucceeded, StartVerify, FireCompletionTimer];
      var s := Run(Initial(), reset);
      var t := Run(Initial(), reset + [FinishVerify]);
      && OfferedTrace(Initial(), reset + [FinishVerify])
      && s.step == Confirm && s.isVerifying && s.closeCalls == 2
      && t.step == Execute && t.closeCalls == 2 && |t.transfers| == 2
  {
    FirstPurchaseCompletes(address);
    var s := Initial();
    var evs := FirstPurchase(address);
    RunAppend(s, evs, [Close]);                         evs := evs + [Close];
    RunAppend(s, evs, [Pay(Some(address), Submitted)]); evs := evs + [Pay(Some(address), Submitted)];
    RunAppend(s, evs, [TxSucceeded]);                   evs := evs + [TxSucceeded];
    RunAppend(s, evs, [StartVerify]);                   evs := evs + [StartVerify];
    RunAppend(s, evs, [FireCompletionTimer]);           evs := evs + [FireCompletionTimer];
    assert evs == FirstPurchase(address) +
      [Close, Pay(Some(address), Submitted), TxSucceeded, StartVerify, FireCompletionTimer];
    RunAppend(s, evs, [FinishVerify]);
  }
}
