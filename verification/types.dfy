/** The dashboard's value records (types.ts). Amounts and balances are decimal ether, as exact reals. */
module Types {

  datatype UserAccount = UserAccount(address: string, balance: real)

  datatype TransactionStatus = Completed | Pending | Failed

  datatype TransactionAction = Deposit | Withdrawal | TransferIn | TransferOut {
    /** The string literal the action is in the source. */
    function Text(): string {
      match this
      case Deposit => "Deposit"
      case Withdrawal => "Withdrawal"
      case TransferIn => "Transfer In"
      case TransferOut => "Transfer Out"
    }
  }

  datatype Transaction = Transaction(
    id: string,
    date: string,
    action: TransactionAction,
    amount: real,
    from: string,
    to: string,
    status: TransactionStatus)

  datatype ProposalStatus = Active | Passed | Failed

  datatype Proposal = Proposal(
    id: string,
    title: string,
    description: string,
    proposer: string,
    endDate: string,
    votesFor: nat,
    votesAgainst: nat,
    status: ProposalStatus)

  datatype TransactionType = Deposit | Withdraw | Transfer

  datatype BalanceData = BalanceData(name: string, balance: real)

  datatype TokenHolder = TokenHolder(address: string, balance: real)
}
