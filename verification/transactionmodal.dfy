/** The deposit / withdraw / transfer form (components/TransactionModal.tsx): an amount and, for a
    transfer, a recipient; `handleConfirm` runs its checks in order, the first failure wins, and only a
    request that passes them all reaches the session. */
module TransactionForm {
  import opened Outcomes
  import opened JsText
  import opened Types

  const InvalidAmount := "Please enter a valid amount."
  const InsufficientBalance := "Insufficient balance."
  const MissingRecipient := "Please enter a recipient address."
  const MalformedRecipient := "Please enter a valid Ethereum address (0x followed by 40 hex characters)."
  const ConfirmFallback := "Transaction failed. Please try again."

  /** The literal the transaction type is in the source. */
  function TypeName(kind: TransactionType): (name: string)
    ensures |name| >= 7
  {
    match kind
    case Deposit => "Deposit"
    case Withdraw => "Withdraw"
    case Transfer => "Transfer"
  }

  /** The shape the form demands of a recipient: `0x` and 42 characters in all; the other 40 are not
      looked at. */
  predicate AddressShaped(recipient: string) {
    StartsWith(recipient, "0x") && |recipient| == 42
  }

  /** The message of the first check that fails, `None` when all pass. `parsed` is `parseFloat` of
      the amount field, `None` for `NaN`. */
  function FirstFailure(kind: TransactionType, parsed: Option<real>, balance: real, recipient: string)
    : (m: Option<string>)
    ensures m.Some? ==> m.value in {InvalidAmount, InsufficientBalance, MissingRecipient, MalformedRecipient}
  {
    if parsed.None? || parsed.value <= 0.0 then Some(InvalidAmount)
    else if (kind.Withdraw? || kind.Transfer?) && parsed.value > balance then Some(InsufficientBalance)
    else if kind.Transfer? && IsBlank(recipient) then Some(MissingRecipient)
    else if kind.Transfer? && !AddressShaped(recipient) then Some(MalformedRecipient)
    else None
  }

  /** Each message is shown exactly when every earlier check passed and its own check failed. */
  lemma FailureMessages(kind: TransactionType, parsed: Option<real>, balance: real, recipient: string)
    ensures var m := FirstFailure(kind, parsed, balance, recipient);
            && (m == Some(InvalidAmount) <==> parsed.None? || parsed.value <= 0.0)
            && (m == Some(InsufficientBalance) <==>
                  parsed.Some? && parsed.value > 0.0 && !kind.Deposit? && parsed.value > balance)
            && (m == Some(MissingRecipient) <==>
                  parsed.Some? && parsed.value > 0.0 && kind.Transfer? && parsed.value <= balance
                  && IsBlank(recipient))
            && (m == Some(MalformedRecipient) <==>
                  parsed.Some? && parsed.value > 0.0 && kind.Transfer? && parsed.value <= balance
                  && !IsBlank(recipient) && !AddressShaped(recipient))
  {
  }

  /** The checks pass exactly for a positive amount within the balance (a deposit is not held to the
      balance) and, for a transfer, an address-shaped recipient. */
  lemma AcceptedRequests(kind: TransactionType, parsed: Option<real>, balance: real, recipient: string)
    ensures FirstFailure(kind, parsed, balance, recipient).None? <==>
              parsed.Some? && parsed.value > 0.0
              && (kind.Deposit? || parsed.value <= balance)
              && (kind.Transfer? ==> AddressShaped(recipient))
  {
    if kind.Transfer? && AddressShaped(recipient) {
      assert recipient[0] == '0' && !IsJsWhitespace('0');
      BlankIffAllWhitespace(recipient);
    }
  }

  /** A deposit is never refused for the balance, whatever the balance is. */
  lemma DepositIgnoresBalance(parsed: Option<real>, balance: real, other: real,
                              recipient: string, otherRecipient: string)
    ensures FirstFailure(TransactionType.Deposit, parsed, balance, recipient)
            == FirstFailure(TransactionType.Deposit, parsed, other, otherRecipient)
  {
  }

  /** What the form shows while open. */
  datatype View = View(heading: string, showsRecipient: bool, errorLine: Option<string>,
                       confirmLabel: string, confirmDisabled: bool)

  /** A confirmed request as the session receives it. */
  datatype Request = Request(kind: TransactionType, amount: real, recipient: string)

  class TransactionModal {
    var isOpen: bool
    var transactionType: TransactionType
    var currentBalance: real
    var amount: string
    var recipient: string
    var error: string
    var isProcessing: bool

    /** A form as first mounted: empty fields, no error, not processing. */
    constructor (isOpen: bool, kind: TransactionType, balance: real)
      ensures this.isOpen == isOpen && transactionType == kind && currentBalance == balance
      ensures amount == "" && recipient == "" && error == "" && !isProcessing
    {
      this.isOpen, transactionType, currentBalance := isOpen, kind, balance;
      amount, recipient, error, isProcessing := "", "", "", false;
    }

    /** The rendering: nothing when closed; the recipient field only for a transfer; the error line
        only when there is an error; the confirm button disabled exactly while processing. */
    function Render(): (v: Option<View>)
      reads this
      ensures v.None? <==> !isOpen
      ensures v.Some? ==>
                && v.value.heading == TypeName(transactionType) + " Funds"
                && (v.value.showsRecipient <==> transactionType.Transfer?)
                && (v.value.errorLine.Some? <==> error != "")
                && (v.value.errorLine.Some? ==> v.value.errorLine.value == error)
                && (v.value.confirmDisabled <==> isProcessing)
                && (isProcessing ==> v.value.confirmLabel == "Processing...")
                && (!isProcessing ==> v.value.confirmLabel == "Confirm " + TypeName(transactionType))
    {
      if !isOpen then None
      else
        Some(View(TypeName(transactionType) + " Funds", transactionType.Transfer?,
                  if error == "" then None else Some(error),
                  if isProcessing then "Processing..." else "Confirm " + TypeName(transactionType),
                  isProcessing))
    }

    /** Typing into the fields. */
    method Edit(newAmount: string, newRecipient: string)
      modifies this`amount, this`recipient
      ensures amount == newAmount && recipient == newRecipient
    {
      amount, recipient := newAmount, newRecipient;
    }

    /** `handleConfirm`. `parsed` is `parseFloat(amount)`; `outcome` is how the session's handler ends
        (with the message it throws). `request` is the call made to it, and `closed` says whether the
        form asked to be closed. */
    method HandleConfirm(parsed: Option<real>, outcome: Outcome<string>) returns (request: Option<Request>, closed: bool)
      requires isOpen
      modifies this`amount, this`recipient, this`error, this`isProcessing
      ensures var failure := FirstFailure(transactionType, parsed, currentBalance, old(recipient));
              && (failure.Some? ==>
                    request.None? && !closed && error == failure.value
                    && amount == old(amount) && recipient == old(recipient) && isProcessing == old(isProcessing))
              && (failure.None? ==>
                    request == Some(Request(transactionType, parsed.value, old(recipient))) && !isProcessing)
      ensures request.Some? && outcome.Pass? ==> closed && amount == "" && recipient == "" && error == ""
      ensures request.Some? && outcome.Fail? ==>
                !closed && amount == old(amount) && recipient == old(recipient)
                && error == MessageOr(outcome.error, ConfirmFallback)
    {
      var failure := FirstFailure(transactionType, parsed, currentBalance, recipient);
      if failure.Some? {
        error := failure.value;
        return None, false;
      }
      error := "";
      isProcessing := true;
      request := Some(Request(transactionType, parsed.value, recipient));
      if outcome.Pass? {
        closed := true;
        amount := "";
        recipient := "";
      } else {
        closed := false;
        error := MessageOr(outcome.error, ConfirmFallback);
      }
      isProcessing := false;
    }
  }

  /** A request that reaches the session carries a positive amount, and for a transfer an
      address-shaped recipient. */
  lemma RequestsAreChecked(kind: TransactionType, parsed: Option<real>, balance: real, recipient: string)
    requires FirstFailure(kind, parsed, balance, recipient).None?
    ensures parsed.Some? && parsed.value > 0.0
    ensures kind.Transfer? ==> StartsWith(recipient, "0x") && |recipient| == 42
  {
    AcceptedRequests(kind, parsed, balance, recipient);
  }
}
