/**
 * The X402 payment dialog as the object the component is: five state cells
 * that its handlers and effects assign one after another. Each asynchronous
 * handler is split at its `await`: `StartVerify`/`FinishVerify`,
 * `StartExecute`/`FinishExecute`, and the delayed completion callback is
 * `FireCompletionTimer`. The wallet's receipt and error signals are
 * `TxSucceeded` and `TxFailed`. What leaves the component (transfer requests,
 * onSuccess and onClose calls) and the scheduled continuations are recorded
 * in ghost fields. Every method is proved to take the step `Next` describes.
 */
module PaymentModal {
  import opened Wrappers
  import opened PaymentFlow

  class PaymentDialog {
    const programName: string
    const totalCost: real

    var step: Step
    var errorMessage: string
    var privateKey: string
    var isVerifying: bool
    var isExecuting: bool

    ghost var pendingVerifies: nat
    ghost var pendingExecutions: nat
    ghost var pendingTimers: nat
    ghost var transfers: seq<Transfer>
    ghost var successCalls: nat
    ghost var closeCalls: nat

    /** The dialog's state as a value of the transition system. */
    ghost function State(): ModalState
      reads this
    {
      ModalState(step, errorMessage, privateKey, isVerifying, isExecuting,
                 pendingVerifies, pendingExecutions, pendingTimers,
                 transfers, successCalls, closeCalls)
    }

    /** A freshly mounted dialog: confirm step, empty message and key, nothing requested yet. */
    constructor (programName: string, totalCost: real)
      ensures State() == Initial()
      ensures this.programName == programName && this.totalCost == totalCost
    {
      this.programName := programName;
      this.totalCost := totalCost;
      step := Confirm;
      errorMessage := "";
      privateKey := "";
      isVerifying := false;
      isExecuting := false;
      pendingVerifies, pendingExecutions, pendingTimers := 0, 0, 0;
      transfers := [];
      successCalls, closeCalls := 0, 0;
    }

    /**
     * The Pay / Retry handler. Without a connected address it reports the
     * error; otherwise it enters paying and asks the wallet for the fixed
     * demonstration transfer (the displayed `totalCost` plays no part).
     */
    method HandlePayment(address: Option<string>, submission: Submission)
      modifies this
      ensures State() == Next(old(State()), Pay(address, submission))
      ensures !Connected(address) ==> step == Error && errorMessage == WalletNotConnected
      ensures Connected(address) && submission.Submitted? ==>
        step == Paying && errorMessage == "" && transfers == old(transfers) + [DemoTransfer]
    {
      if !(address.Some? && address.value != "") {
        step := Error;
        errorMessage := WalletNotConnected;
        return;
      }
      step := Paying;
      errorMessage := "";
      match submission
      case Submitted =>
        transfers := transfers + [Transfer(PlatformAddress, DemoAmountWei)];
      case Threw(thrown) =>
        step := Error;
        errorMessage := match thrown
          case ErrorInstance(message) => message
          case NonErrorValue => PaymentFailed;
    }

    /** The wallet reports the transaction receipt: paying moves on to verify. */
    method TxSucceeded()
      modifies this
      ensures State() == Next(old(State()), Event.TxSucceeded)
      ensures old(step) == Paying ==> step == Verify
      ensures old(step) != Paying ==> State() == old(State())
    {
      if step == Paying {
        step := Verify;
      }
    }

    /** The wallet reports a transaction error: paying fails with the wallet's message. */
    method TxFailed(message: string)
      modifies this
      ensures State() == Next(old(State()), Event.TxFailed(message))
      ensures old(step) == Paying ==> step == Error && errorMessage == TxFailedPrefix + message
      ensures old(step) != Paying ==> State() == old(State())
    {
      if step == Paying {
        step := Error;
        errorMessage := TxFailedPrefix + message;
      }
    }

    /** The verify handler up to its simulated attestation delay. */
    method StartVerify()
      modifies this
      ensures State() == Next(old(State()), Event.StartVerify)
      ensures isVerifying && pendingVerifies == old(pendingVerifies) + 1
    {
      isVerifying := true;
      pendingVerifies := pendingVerifies + 1;
    }

    /** The verify handler after its delay: verification always succeeds. */
    method FinishVerify()
      requires pendingVerifies > 0
      modifies this
      ensures State() == Next(old(State()), Event.FinishVerify)
      ensures !isVerifying && step == Execute
    {
      isVerifying := false;
      step := Execute;
      pendingVerifies := pendingVerifies - 1;
    }

    /** The key input's change handler. */
    method EnterPrivateKey(key: string)
      modifies this
      ensures State() == Next(old(State()), Event.EnterPrivateKey(key))
      ensures privateKey == key
    {
      privateKey := key;
    }

    /**
     * The execute handler up to its simulated execution delay. An empty key is
     * refused with a message and nothing is scheduled.
     */
    method StartExecute()
      modifies this
      ensures State() == Next(old(State()), Event.StartExecute)
      ensures old(privateKey) == "" ==>
        errorMessage == PrivateKeyRequired && step == old(step) && pendingExecutions == old(pendingExecutions)
      ensures old(privateKey) != "" ==>
        isExecuting && errorMessage == "" && pendingExecutions == old(pendingExecutions) + 1
    {
      if privateKey == "" {
        errorMessage := PrivateKeyRequired;
        return;
      }
      isExecuting := true;
      errorMessage := "";
      pendingExecutions := pendingExecutions + 1;
    }

    /** The execute handler after its delay: completed, and the completion timer is scheduled. */
    method FinishExecute()
      requires pendingExecutions > 0
      modifies this
      ensures State() == Next(old(State()), Event.FinishExecute)
      ensures !isExecuting && step == Completed && pendingTimers == old(pendingTimers) + 1
    {
      isExecuting := false;
      step := Completed;
      pendingExecutions := pendingExecutions - 1;
      pendingTimers := pendingTimers + 1;
    }

    /** The delayed completion callback: notify the owner, close, and reset for the next purchase. */
    method FireCompletionTimer()
      requires pendingTimers > 0
      modifies this
      ensures State() == Next(old(State()), Event.FireCompletionTimer)
      ensures successCalls == old(successCalls) + 1 && closeCalls == old(closeCalls) + 1
      ensures step == Confirm && privateKey == "" && errorMessage == ""
    {
      pendingTimers := pendingTimers - 1;
      successCalls := successCalls + 1;
      closeCalls := closeCalls + 1;
      step := Confirm;
      privateKey := "";
      errorMessage := "";
    }

    /** The close handler: refused while paying, verifying or executing. */
    method HandleClose()
      modifies this
      ensures State() == Next(old(State()), Event.Close)
      ensures InFlight(old(step)) ==> State() == old(State())
      ensures !InFlight(old(step)) ==>
        step == Confirm && errorMessage == "" && privateKey == "" && closeCalls == old(closeCalls) + 1
    {
      if step != Paying && step != Verify && step != Execute {
        step := Confirm;
        errorMessage := "";
        privateKey := "";
        closeCalls := closeCalls + 1;
      }
    }
  }

  /**
   * The end-to-end purchase: "DEX Arbitrage Bot" at 0.16, pay with a connected
   * wallet, receipt, verify, key "0xabc", execute. The dialog is completed with
   * one transfer requested and no callback yet; after the completion timer
   * onSuccess and onClose have each run once and the dialog is back in
   * confirm with the key cleared.
   */
  method EndToEndPurchase() returns (stepAtCompletion: Step, finalStep: Step, finalKey: string,
                                     ghost successCalls: nat, ghost closeCalls: nat)
    ensures stepAtCompletion == Completed
    ensures finalStep == Confirm && finalKey == ""
    ensures successCalls == 1 && closeCalls == 1
  {
    var dialog := new PaymentDialog("DEX Arbitrage Bot", 0.16);
    dialog.HandlePayment(Some("0x1234"), Submitted);
    dialog.TxSucceeded();
    dialog.StartVerify();
    dialog.FinishVerify();
    dialog.EnterPrivateKey("0xabc");
    dialog.StartExecute();
    dialog.FinishExecute();
    stepAtCompletion := dialog.step;
    assert dialog.successCalls == 0 && |dialog.transfers| == 1;
    dialog.FireCompletionTimer();
    finalStep, finalKey := dialog.step, dialog.privateKey;
    successCalls, closeCalls := dialog.successCalls, dialog.closeCalls;
  }
}
