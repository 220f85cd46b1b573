# TEE marketplace: payment dialog and enclave dispatcher

This project models two pieces of the TEE marketplace in Dafny:

- **The X402 payment-and-execution dialog.** It is a step machine over
  `confirm`, `paying`, `success`, `verify`, `execute`, `completed` and `error`.
  Its handlers and effects drive the payment, the simulated attestation, the
  execution with a temporary private key and the delayed reset.
- **The enclave back end.** This is its path dispatcher `process_request`
  and the loop that reads one request from a connection in chunks.

Layout:

- `wrappers.dfy`: `Option`.
- `payment_flow.dfy` (module `PaymentFlow`): the dialog as a transition
  system over values.
  - `ModalState` holds the five state cells. It also holds what the outside
    sees: transfer requests, `onSuccess` and `onClose` calls, and the
    continuations still scheduled.
  - `Next` is one handler run or one wallet signal. `Run` applies a trace.
  - `Offered` says which events the rendered dialog makes possible in a
    state. That covers which buttons are shown in which step, their
    `disabled` conditions, the wallet's signals and the scheduled timers.
  - `Consistent` is the invariant of every state reached through offered
    events.
- `payment_modal.dfy` (module `PaymentModal`): the dialog as a class.
  - The class has the five state cells `step`, `errorMessage`, `privateKey`,
    `isVerifying` and `isExecuting`, which its methods assign.
  - The effects and pending continuations are ghost fields.
  - Each asynchronous handler is split at its delay: `StartVerify`/`FinishVerify`,
    `StartExecute`/`FinishExecute`, and `FireCompletionTimer` for the
    delayed completion callback.
  - Every method is proved to take exactly the step that `Next` describes.
- `enclave.dfy` (module `Enclave`):
  - `ProcessRequest` over an abstract parse outcome.
  - `ReceiveRequest`, the receive loop over the sequence of chunks that
    successive `recv` calls return.
  - `ServeConnection`, one turn of the accept loop.

Behaviour of the code worth noting:

- Close is allowed in `completed`, but it does not cancel the pending
  completion timer. Suppose the user closes, reopens and pays again within
  the timer's 2 seconds. The first flow's timer then resets the new flow to
  `confirm` and calls `onClose`, although the new transfer is already
  requested. The wallet's later success signal is ignored, because the step
  is no longer `paying` (`StaleCompletionTimer`).
- A verification the new flow has already started survives that reset. Its
  continuation sets `execute` unconditionally, so the dialog that the timer
  has just reset and closed jumps to the `execute` step
  (`StaleTimerThenVerification`).
- Even with this race, `onSuccess` never runs more often than transfers were
  requested (`SuccessCallsBoundedByTransfers`).
- The `error` step is entered from `confirm` or `error` by paying (without a
  connected wallet, or when handing the transfer to the wallet throws), and
  from `paying` on a transaction error.
- The empty-key check in the execute handler cannot be reached through the
  rendered dialog, because the execute button is disabled while the key is
  empty. It is modelled anyway, and `Offered` leaves it out.
- A failing `recv`, or received bytes that are not valid UTF-8, end in the
  accept loop's catch-all handler, which logs the error: nothing is sent and
  the socket's `close` is never called.

## Model

| member | source | states |
|---|---|---|
| PaymentFlow.Initial | src/components/payment/x402-payment-modal.tsx:39-51 | A new dialog is in `confirm` with an empty error message and key, not verifying or executing, with nothing requested or called |
| PaymentFlow.SuccessStepUnreachable | src/components/payment/x402-payment-modal.tsx:39-47 | From any state other than `success`, no sequence of handler runs, signals or timers ever reaches the declared `success` step |
| PaymentFlow.InitialIsConsistent | src/components/payment/x402-payment-modal.tsx:39-51 | The initial state satisfies the dialog invariant |
| PaymentFlow.NextKeepsConsistent | src/components/payment/x402-payment-modal.tsx:185-318 | Every event the rendered dialog offers keeps the invariant: never `success`, only demonstration transfers, busy flags match the single scheduled continuation, and every success call, timer, scheduled step and open payment is matched by its own transfer |
| PaymentFlow.OfferedTraceKeepsConsistent | src/components/payment/x402-payment-modal.tsx:66-153 | The invariant holds after any trace of offered events |
| PaymentFlow.SuccessCallsBoundedByTransfers | src/components/payment/x402-payment-modal.tsx:80-143 | From a new dialog, in any order of clicks, signals and timers, `onSuccess` runs at most once per transfer request, and every request is 0.001 ether to the treasury address |
| PaymentFlow.TransfersOnlyGrow | src/components/payment/x402-payment-modal.tsx:102-105 | Transfer requests are only ever appended |
| PaymentFlow.PayWithoutWallet | src/components/payment/x402-payment-modal.tsx:81-85 | Paying without a connected address sets `error` and "Wallet not connected", requests no transfer and changes nothing else (key untouched) |
| PaymentFlow.PayWithWallet | src/components/payment/x402-payment-modal.tsx:87-105 | Paying with an address enters `paying`, clears the message and appends exactly one transfer of the fixed 10^15 wei to `PLATFORM_ADDRESS`, whatever the total cost; the key is untouched |
| PaymentFlow.WalletSignals | src/components/payment/x402-payment-modal.tsx:66-78 | In `paying`, the success signal moves to `verify` and the error signal moves to `error` with "Transaction failed: " followed by the message; in any other step both leave the whole state unchanged |
| PaymentFlow.VerificationAlwaysSucceeds | src/components/payment/x402-payment-modal.tsx:113-119 | A finished verification clears `isVerifying` and always enters `execute`; there is no failure outcome |
| PaymentFlow.ExecuteGuard | src/components/payment/x402-payment-modal.tsx:121-133 | With an empty key, execute only sets "Private key is required" and schedules nothing; with a key it sets `isExecuting`, clears the message and schedules one execution, whose finish clears `isExecuting`, enters `completed` and schedules the completion timer |
| PaymentFlow.CompletionTimerResets | src/components/payment/x402-payment-modal.tsx:136-143 | The completion timer calls `onSuccess` once and `onClose` once, then resets to `confirm` and clears the key and the message |
| PaymentFlow.CloseGuard | src/components/payment/x402-payment-modal.tsx:146-153 | Close in `paying`, `verify` or `execute` changes nothing and does not call `onClose`; in any other step it resets to `confirm`, clears the message and key, and calls `onClose` once |
| PaymentFlow.FirstPurchaseCompletes | src/components/payment/x402-payment-modal.tsx:80-133 | From a new dialog, the offered trace pay, receipt, verify, key "0xabc", execute ends in `completed` with one transfer, no callback yet and the completion timer scheduled |
| PaymentFlow.StaleCompletionTimer | src/components/payment/x402-payment-modal.tsx:136-153 | In an offered trace, close in `completed` followed by a new payment is reset to `confirm` by the first flow's timer, with two transfers requested and one success call; the later receipt is ignored |
| PaymentFlow.StaleTimerThenVerification | src/components/payment/x402-payment-modal.tsx:113-153 | In an offered trace, the stale timer resets a second flow that is verifying to `confirm` and calls `onClose`; the verification's continuation then moves the closed dialog to `execute` |
| PaymentModal.PaymentDialog.constructor | src/components/payment/x402-payment-modal.tsx:32-51 | The mounted dialog's state is the initial state; the program name and total cost are kept as given |
| PaymentModal.PaymentDialog.HandlePayment | src/components/payment/x402-payment-modal.tsx:80-111 | The pay handler: without an address it enters `error` with "Wallet not connected"; with one it enters `paying`, clears the message and requests the demonstration transfer; a synchronous throw enters `error` with the thrown message or "Payment failed" |
| PaymentModal.PaymentDialog.TxSucceeded | src/components/payment/x402-payment-modal.tsx:66-70 | The receipt effect moves `paying` to `verify` and leaves every other state unchanged |
| PaymentModal.PaymentDialog.TxFailed | src/components/payment/x402-payment-modal.tsx:73-78 | The error effect moves `paying` to `error` with "Transaction failed: " followed by the message and leaves every other state unchanged |
| PaymentModal.PaymentDialog.StartVerify | src/components/payment/x402-payment-modal.tsx:113-116 | Sets `isVerifying` and schedules one verification |
| PaymentModal.PaymentDialog.FinishVerify | src/components/payment/x402-payment-modal.tsx:116-118 | Clears `isVerifying` and enters `execute` |
| PaymentModal.PaymentDialog.EnterPrivateKey | src/components/payment/x402-payment-modal.tsx:250-256 | The key input stores the typed key |
| PaymentModal.PaymentDialog.StartExecute | src/components/payment/x402-payment-modal.tsx:121-131 | An empty key only sets "Private key is required", with the step unchanged and nothing scheduled; otherwise sets `isExecuting`, clears the message and schedules one execution |
| PaymentModal.PaymentDialog.FinishExecute | src/components/payment/x402-payment-modal.tsx:131-136 | Clears `isExecuting`, enters `completed` and schedules the completion timer |
| PaymentModal.PaymentDialog.FireCompletionTimer | src/components/payment/x402-payment-modal.tsx:136-143 | Calls `onSuccess` and `onClose` once each, resets to `confirm`, and clears the key and message |
| PaymentModal.PaymentDialog.HandleClose | src/components/payment/x402-payment-modal.tsx:146-153 | Refused (state unchanged) in `paying`, `verify` and `execute`; otherwise resets to `confirm`, clears the message and key, and calls `onClose` once |
| PaymentModal.EndToEndPurchase | src/components/payment/x402-payment-modal.tsx:80-143 | Pay with a wallet, receipt, verify, key "0xabc" and execute reach `completed`; after the timer, `onSuccess` and `onClose` have each run once and the dialog is in `confirm` with the key cleared |
| Enclave.ProcessRequest | tee-backend/enclave.py:26-61 | Plain text exactly when the input is not JSON, and then "Enclave received: " followed by the input; every JSON answer carries server "enclave"; an error key exactly when an exception other than a decode error was raised before the response is built (by the decoder or by the log line) or the JSON is not an object; an echo key exactly for path `/echo`; a request method exactly for path `/` |
| Enclave.RootResponse | tee-backend/enclave.py:35-41 | Path `/` yields "Hello from Enclave!", server "enclave", the timestamp, and the request's method, or null when it has none |
| Enclave.EchoResponse | tee-backend/enclave.py:42-47 | Path `/echo` yields `echo` equal to `data` whenever that key is present, and "" only when it is absent; `headers_received` is `headers`, or an empty object when absent |
| Enclave.OtherPathResponse | tee-backend/enclave.py:48-53 | Any other path yields "Path <path> processed by Enclave" with server "enclave" and the timestamp |
| Enclave.MissingPathResponse | tee-backend/enclave.py:48-53 | A request without a path is answered with "Path None processed by Enclave" |
| Enclave.RaisedResponse | tee-backend/enclave.py:28-61 | Any other exception raised in the `try` before the response is built (the decoder on deep nesting or an over-long integer, or the log line at line 32) yields an error object with the exception's text and server "enclave" |
| Enclave.NonObjectResponse | tee-backend/enclave.py:60-61 | Valid JSON that is not an object yields an error object naming the type that has no `get`, with server "enclave" |
| Enclave.ReceiveRequest | tee-backend/enclave.py:77-85 | The accumulated data is the concatenation of the chunks read. Every chunk read is non-empty, and only the last may contain `}`. Reading stops when the peer is done, at the first empty chunk, or after the first chunk containing `}`. The loop reports a failed read exactly when it reaches a `recv` that raises |
| Enclave.ReceivedIsUnique | tee-backend/enclave.py:77-85 | This stopping rule determines the number of chunks read and the data |
| Enclave.NothingReceived | tee-backend/enclave.py:77-87 | The accumulated data is empty exactly when the first read finds the peer done or an empty chunk |
| Enclave.ServeConnection | tee-backend/enclave.py:77-103 | When a `recv` raises: nothing sent and `close` never called. With no data: nothing sent and the socket closed. With data that decodes: the dispatcher's response to the decoded text is sent and the socket closed. With data that does not decode: nothing sent and `close` never called |

## Left out

- The wallet hooks and `parseEther` belong to a foreign wallet library. The
  model sees them only as an optional connected address, the receipt and
  error signals, a recorded transfer request, and a synchronous throw.
- The way the library keeps a stale success or error flag across a retry is
  not modelled. Each signal is an explicit event.
- `setTimeout` delays are timing. Each delay is an explicit finish or timer
  event that may run once it has been scheduled.
- Rendering, the Dialog component, the `isOpen` prop and the `console` logging
  are not modelled. Which controls a step shows, and when they are disabled,
  is kept only as `Offered`.
- `totalCost` and `programName` are kept on the class but play no part in a
  transition. The source uses them only for display and logging.
- The wallet balance and network widgets and `formatBalance` are not part of
  this model. They are floating-point formatting and lookup tables over
  wallet state.
- The pages, header, layout, wagmi configuration and the HTTP proxy
  `server1.py` are not part of this model. They are static markup, mock data
  and I/O plumbing.
- Socket creation, bind, listen, accept, `sendall`, the VSOCK/TCP choice,
  `argparse` and the log lines in `enclave.py` are I/O. `sendall` failures
  and keyboard interrupts are not modelled.
- A `recv` that blocks is not modelled: every read either returns or raises.
  `recv` has no timeout, and the accept loop serves one connection at a time.
  So a peer that never sends `}` and never closes stops the enclave from
  serving any later client. The model does not capture this.
- ProcessRequest: an exception raised by `json.dumps` while serialising the
  response is not modelled. The model does not serialise the response.
- ProcessRequest: a request whose JSON strings hold a lone-surrogate escape
  (such as `"\ud800"`) cannot be represented, because a Dafny string cannot
  hold a surrogate. The error object the log line then causes is reachable
  only as an exception outcome (`Raised`) of the request, not from its
  decoded fields.
- `json.loads`, UTF-8 decoding and `datetime.now()` are foreign or
  nondeterministic. They enter as a parse outcome, a decode function and a
  timestamp text. `json.dumps` is not modelled, so a JSON answer is a map
  from keys to values, and key order is not kept.
- The `recv` size limit of 1024 bytes is not modelled. The chunks are
  whatever the reads return.
- PathText: a list- or dict-valued path is shown as "[...]" or "{...}", not as
  Python's `str()` of it. The model keeps dicts as maps, which lose their key
  order.
