/** The session state of the dashboard (hooks/useBlockchain.ts): the connected account, the lists read
    from the contracts, the balance-history window, the ids of proposals this session has voted on, and
    the last error. Each operation takes what the wallet and the contracts answer as inputs and changes
    the fields in the order the hook's state setters run. */
module Session {
  import opened Outcomes
  import opened JsText
  import opened Types
  import opened ProposalLabels

  // ---------------------------------------------------------------- errors

  /** What the hook throws or stores: a message, or one of the two balance refusals, whose messages
      interpolate the balance (kept here as numbers). */
  datatype HookError = Message(text: string) | InsufficientEth(have: real, need: real) | InsufficientBank(have: real)

  const WalletNotConnected := "Wallet not connected"
  const AlreadyVoted := "You have already voted on this proposal."
  const BadRecipient := "Invalid recipient address. Must be a valid Ethereum address starting with 0x"
  const BadTypeOrRecipient := "Invalid transaction type or missing recipient"
  const TransactionFailed := "Transaction failed"
  const VoteFailed := "Vote transaction failed"
  const VoteFallback := "Failed to vote"
  const ProposalFailed := "Proposal creation failed"
  const ProposalFallback := "Failed to create proposal"

  const ConnectFallback := "Failed to connect wallet"
  const AskToConnect := "Please connect your wallet in MetaMask to continue."
  const RequestPending := "A connection request is already pending. Please check MetaMask."
  const InstallWallet := "MetaMask is not installed. Please install MetaMask browser extension."
  const DeployFirst := "Contracts not deployed. Please deploy contracts first using 'npm run deploy:local'"
  /** The error `connectWallet` throws when no wallet is injected, written in three parts so that the
      pattern the handler looks for is visible. */
  const NotInstalledThrown := "MetaMask is " + "not installed" + ". Please install MetaMask to use this application."

  /** The message `connectWallet` stores for the error it caught: wallet codes first (4001 the user
      refused, -32002 a request is pending), then two message patterns, else the message itself. */
  function ConnectErrorMessage(e: JsError): (m: string)
    ensures m != ""
    ensures e.code == Some(4001) ==> m == AskToConnect
    ensures e.code == Some(-32002) ==> m == RequestPending
    ensures e.code != Some(4001) && e.code != Some(-32002) ==>
              (Contains(e.message, "not installed") ==> m == InstallWallet)
              && (!Contains(e.message, "not installed") && Contains(e.message, "Contracts not initialized") ==> m == DeployFirst)
              && (!Contains(e.message, "not installed") && !Contains(e.message, "Contracts not initialized")
                  ==> m == MessageOr(e.message, ConnectFallback))
  {
    if e.code == Some(4001) then AskToConnect
    else if e.code == Some(-32002) then RequestPending
    else if Contains(e.message, "not installed") then InstallWallet
    else if Contains(e.message, "Contracts not initialized") then DeployFirst
    else MessageOr(e.message, ConnectFallback)
  }

  /** The error `connectWallet` throws itself when no wallet is injected ends up as the install hint. */
  lemma NotInstalledMessage()
    ensures ConnectErrorMessage(JsError(None, NotInstalledThrown)) == InstallWallet
  {
    var head, needle := "MetaMask is ", "not installed";
    assert NotInstalledThrown[|head|..|head| + |needle|] == needle;
    ContainsAt(NotInstalledThrown, needle, |head|);
  }

  // ---------------------------------------------------------------- what the contracts answer

  /** A `getUserTransactions` entry; `date` is the timestamp as the locale renders it. */
  datatype ChainTx = ChainTx(id: nat, date: string, action: TransactionAction, amountWei: nat,
                             from: string, to: string, isComplete: bool)

  /** A `getTopHolders` entry. */
  datatype ChainHolder = ChainHolder(holder: string, balanceWei: nat)

  /** What `getProposal`, `getProposalStatus` and `hasVoted` give for one index. */
  datatype ChainProposal = ChainProposal(title: string, description: string, proposer: string, endDate: string,
                                         votesFor: nat, votesAgainst: nat, status: ProposalStatus, hasVoted: bool)

  /** A `loadProposals` pass: the count read failed, or one entry per index, `None` where a read of
      that index threw. */
  datatype ProposalReads = CountFailed | Counted(items: seq<Option<ChainProposal>>)

  /** The wallet's side of a write: the send (with its confirmation wait) and the receipt status,
      `None` for a null receipt. */
  datatype Submission = Submission(send: Outcome<JsError>, receipt: Option<int>)

  /** Everything `performTransaction` reads: the wallet's and the bank's balance before the send (each
      a failure where that read throws), the submission, then the bank balance and the two lists re-read
      after it (`None` where a list read failed). */
  datatype TransactionChain = TransactionChain(
    ethBalance: Result<real, JsError>,
    bankBalance: Result<real, JsError>,
    submission: Submission,
    newBankBalance: Result<real, JsError>,
    transactionsRead: Option<seq<ChainTx>>,
    holdersRead: Option<seq<ChainHolder>>)

  /** The service call `performTransaction` makes. */
  datatype SendRequest = SendDeposit(amount: real) | SendWithdraw(amount: real) | SendTransfer(to: string, amount: real)

  datatype VoteChoice = For | Against

  /** The `vote` call: the decoded proposal number (`None` is `NaN`) and the support flag. */
  datatype VoteRequest = VoteRequest(proposalNum: Option<int>, support: bool)

  function WeiToEther(wei: nat): (eth: real)
    ensures eth >= 0.0
    ensures eth * 1000000000000000000.0 == wei as real
  {
    wei as real / 1000000000000000000.0
  }

  /** One row of `loadTransactions`. */
  function ToTransaction(tx: ChainTx): (t: Transaction)
    ensures t.id == HexLiteral(tx.id) && t.date == tx.date
    ensures !t.status.Failed? && (t.status.Completed? <==> tx.isComplete)
    ensures t.amount == WeiToEther(tx.amountWei) && t.from == tx.from && t.to == tx.to && t.action == tx.action
  {
    Transaction(HexLiteral(tx.id), tx.date, tx.action, WeiToEther(tx.amountWei), tx.from, tx.to,
                if tx.isComplete then Completed else Pending)
  }

  /** A row's id is the hexadecimal literal of the on-chain id, and parses back to it. */
  lemma TransactionIdRoundTrip(tx: ChainTx)
    ensures ParseInt(ToTransaction(tx).id) == Some(tx.id)
  {
    HexLiteralRoundTrip(tx.id);
  }

  /** One row of `loadTokenHolders`. */
  function ToHolder(h: ChainHolder): (t: TokenHolder)
    ensures t.address == h.holder && t.balance == WeiToEther(h.balanceWei)
  {
    TokenHolder(h.holder, WeiToEther(h.balanceWei))
  }

  /** The proposal record `loadProposals` builds for index i. */
  function ToProposal(i: nat, d: ChainProposal): (p: Proposal)
    ensures p.id == Label(i)
    ensures p.title == d.title && p.description == d.description && p.proposer == d.proposer && p.endDate == d.endDate
    ensures p.status == d.status && p.votesFor == d.votesFor && p.votesAgainst == d.votesAgainst
  {
    Proposal(Label(i), d.title, d.description, d.proposer, d.endDate, d.votesFor, d.votesAgainst, d.status)
  }

  /** The list `loadTransactions` stores for a read: one row per entry, in the contract's order. */
  function TransactionList(txs: seq<ChainTx>): (ts: seq<Transaction>)
    ensures |ts| == |txs|
    ensures forall k :: 0 <= k < |ts| ==> ts[k] == ToTransaction(txs[k])
  {
    seq(|txs|, k requires 0 <= k < |txs| => ToTransaction(txs[k]))
  }

  /** The list `loadTokenHolders` stores for a read: one row per entry, in the contract's order. */
  function HolderList(hs: seq<ChainHolder>): (ts: seq<TokenHolder>)
    ensures |ts| == |hs|
    ensures forall k :: 0 <= k < |ts| ==> ts[k] == ToHolder(hs[k])
  {
    seq(|hs|, k requires 0 <= k < |hs| => ToHolder(hs[k]))
  }

  // ---------------------------------------------------------------- loadProposals, as functions

  /** The list `loadProposals` assembles: the loaded entries in index order, failed ones skipped. */
  function Assemble(items: seq<Option<ChainProposal>>): (ps: seq<Proposal>)
    ensures |ps| <= |items|
  {
    if items == [] then []
    else
      var n := |items| - 1;
      Assemble(items[..n]) + (if items[n].Some? then [ToProposal(n, items[n].value)] else [])
  }

  /** The indices that loaded, in increasing order. */
  function LoadedIndices(items: seq<Option<ChainProposal>>): (ix: seq<nat>)
    ensures forall k :: 0 <= k < |ix| ==> ix[k] < |items| && items[ix[k]].Some?
  {
    if items == [] then []
    else
      var n := |items| - 1;
      var init := LoadedIndices(items[..n]);
      assert forall k :: 0 <= k < |init| ==> items[..n][init[k]] == items[init[k]];
      init + (if items[n].Some? then [n] else [])
  }

  /** The labels a pass adds to the voted set: loaded entries the account has voted on, and none at
      all without an account (the hook then does not ask). */
  function VotedLabels(items: seq<Option<ChainProposal>>, connected: bool): (ids: set<string>)
    ensures !connected ==> ids == {}
  {
    if items == [] then {}
    else
      var n := |items| - 1;
      VotedLabels(items[..n], connected)
        + (if connected && items[n].Some? && items[n].value.hasVoted then {Label(n)} else {})
  }

  /** One more index of a pass: its proposal (if it loaded) is appended and its label (if voted) added. */
  lemma PassStep(items: seq<Option<ChainProposal>>, i: nat, connected: bool)
    requires i < |items|
    ensures Assemble(items[..i + 1])
            == Assemble(items[..i]) + (if items[i].Some? then [ToProposal(i, items[i].value)] else [])
    ensures VotedLabels(items[..i + 1], connected)
            == VotedLabels(items[..i], connected)
               + (if connected && items[i].Some? && items[i].value.hasVoted then {Label(i)} else {})
  {
    assert items[..i + 1][..i] == items[..i];
  }

  /** The loaded indices increase strictly, and every entry that loaded is among them. */
  lemma {:induction false} LoadedIndicesOrdered(items: seq<Option<ChainProposal>>)
    ensures var ix := LoadedIndices(items);
            && (forall k, l :: 0 <= k < l < |ix| ==> ix[k] < ix[l])
            && (forall i :: 0 <= i < |items| && items[i].Some? ==> i in ix)
  {
    if items != [] {
      var n := |items| - 1;
      LoadedIndicesOrdered(items[..n]);
      var init, ix := LoadedIndices(items[..n]), LoadedIndices(items);
      assert ix == init + (if items[n].Some? then [n] else []);
      forall i | 0 <= i < n && items[i].Some? ensures i in ix {
        assert items[..n][i] == items[i];
      }
    }
  }

  /** As many proposals are assembled as indices loaded. */
  lemma {:induction false} AssembleLength(items: seq<Option<ChainProposal>>)
    ensures |Assemble(items)| == |LoadedIndices(items)|
  {
    if items != [] {
      AssembleLength(items[..|items| - 1]);
    }
  }

  /** The k-th assembled proposal is the proposal of the k-th loaded index. */
  lemma {:induction false} AssembleAt(items: seq<Option<ChainProposal>>, k: nat)
    requires k < |LoadedIndices(items)|
    ensures k < |Assemble(items)|
    ensures Assemble(items)[k] == ToProposal(LoadedIndices(items)[k], items[LoadedIndices(items)[k]].value)
  {
    var n := |items| - 1;
    var prefix := items[..n];
    AssembleLength(prefix);
    var a, ix := Assemble(prefix), LoadedIndices(prefix);
    assert Assemble(items) == a + (if items[n].Some? then [ToProposal(n, items[n].value)] else []);
    assert LoadedIndices(items) == ix + (if items[n].Some? then [n] else []);
    if k < |ix| {
      AssembleAt(prefix, k);
      assert prefix[ix[k]] == items[ix[k]];
    }
  }

  /** The assembled list is exactly the loaded indices, each turned into its proposal. */
  lemma AssembleIsLoadedIndices(items: seq<Option<ChainProposal>>)
    ensures |Assemble(items)| == |LoadedIndices(items)|
    ensures forall k :: 0 <= k < |Assemble(items)| ==>
              Assemble(items)[k] == ToProposal(LoadedIndices(items)[k], items[LoadedIndices(items)[k]].value)
  {
    AssembleLength(items);
    forall k | 0 <= k < |Assemble(items)|
      ensures Assemble(items)[k] == ToProposal(LoadedIndices(items)[k], items[LoadedIndices(items)[k]].value)
    {
      AssembleAt(items, k);
    }
  }

  /** Every assembled proposal's id decodes to its index, and the ids appear in increasing index order. */
  lemma AssembledIdsInOrder(items: seq<Option<ChainProposal>>)
    ensures |Assemble(items)| == |LoadedIndices(items)|
    ensures forall k :: 0 <= k < |Assemble(items)| ==> Decode(Assemble(items)[k].id) == Some(LoadedIndices(items)[k])
    ensures forall k, l :: 0 <= k < l < |Assemble(items)| ==>
              Decode(Assemble(items)[k].id).value < Decode(Assemble(items)[l].id).value
  {
    AssembleIsLoadedIndices(items);
    LoadedIndicesOrdered(items);
    forall k | 0 <= k < |Assemble(items)|
      ensures Decode(Assemble(items)[k].id) == Some(LoadedIndices(items)[k])
    {
      DecodeLabel(LoadedIndices(items)[k]);
    }
  }

  /** A label is in a pass's voted labels exactly when its entry loaded with a vote recorded. */
  lemma {:induction false} VotedLabelsMembers(items: seq<Option<ChainProposal>>, connected: bool, i: nat)
    ensures (Label(i) in VotedLabels(items, connected))
            <==> (connected && i < |items| && items[i].Some? && items[i].value.hasVoted)
  {
    if items != [] {
      var n := |items| - 1;
      var prefix := items[..n];
      VotedLabelsMembers(prefix, connected, i);
      if i < n {
        LabelInjective(i, n);
        assert prefix[i] == items[i];
      } else if i > n {
        LabelInjective(i, n);
      }
    }
  }

  // ---------------------------------------------------------------- performTransaction, as functions

  /** The checks `performTransaction` makes before calling the service, in the hook's order, and the
      call it then makes. `eth` and `bank` are the balance reads, each made only where the hook makes
      it: the wallet's for a deposit, the bank's for a withdrawal and, after the recipient checks, for a
      transfer. A read that throws ends the operation with its error. */
  function PreSend(kind: TransactionType, amount: real, recipient: Option<string>,
                   eth: Result<real, JsError>, bank: Result<real, JsError>)
    : (r: Result<SendRequest, HookError>)
    ensures r.Success? ==> r.value.amount == amount
                           && (r.value.SendDeposit? <==> kind.Deposit?)
                           && (r.value.SendWithdraw? <==> kind.Withdraw?)
  {
    match kind
    case Deposit =>
      if eth.Failure? then Failure(Message(eth.error.message))
      else if eth.value < amount then Failure(InsufficientEth(eth.value, amount))
      else Success(SendDeposit(amount))
    case Withdraw =>
      if bank.Failure? then Failure(Message(bank.error.message))
      else if bank.value < amount then Failure(InsufficientBank(bank.value))
      else Success(SendWithdraw(amount))
    case Transfer =>
      if recipient.Some? && recipient.value != "" then
        if !StartsWith(recipient.value, "0x") then Failure(Message(BadRecipient))
        else if bank.Failure? then Failure(Message(bank.error.message))
        else if bank.value < amount then Failure(InsufficientBank(bank.value))
        else Success(SendTransfer(recipient.value, amount))
      else Failure(Message(BadTypeOrRecipient))
  }

  /** Which check refuses a request: a deposit only for the wallet's balance (or its read), a
      withdrawal only for the bank balance (or its read), a transfer first for a missing recipient,
      then for one without `0x`, then for the bank balance (or its read). */
  lemma PreSendChecks(kind: TransactionType, amount: real, recipient: Option<string>,
                      eth: Result<real, JsError>, bank: Result<real, JsError>)
    ensures var r := PreSend(kind, amount, recipient, eth, bank);
            && (kind.Deposit? ==> (r.Failure? <==> eth.Failure? || eth.value < amount))
            && (kind.Deposit? && eth.Failure? ==> r == Failure(Message(eth.error.message)))
            && (kind.Deposit? && eth.Success? && eth.value < amount ==> r == Failure(InsufficientEth(eth.value, amount)))
            && (kind.Withdraw? ==> (r.Failure? <==> bank.Failure? || bank.value < amount))
            && (kind.Withdraw? && bank.Failure? ==> r == Failure(Message(bank.error.message)))
            && (kind.Withdraw? && bank.Success? && bank.value < amount ==> r == Failure(InsufficientBank(bank.value)))
            && (kind.Transfer? && (recipient.None? || recipient.value == "") ==> r == Failure(Message(BadTypeOrRecipient)))
            && (kind.Transfer? && recipient.Some? && recipient.value != "" ==>
                  (!StartsWith(recipient.value, "0x") ==> r == Failure(Message(BadRecipient)))
                  && (StartsWith(recipient.value, "0x") && bank.Failure? ==> r == Failure(Message(bank.error.message)))
                  && (StartsWith(recipient.value, "0x") && bank.Success? && bank.value < amount
                      ==> r == Failure(InsufficientBank(bank.value)))
                  && (StartsWith(recipient.value, "0x") && bank.Success? && bank.value >= amount
                      ==> r == Success(SendTransfer(recipient.value, amount))))
  {
  }

  /** Each kind reads only its own balance: a deposit's verdict does not depend on the bank read, nor a
      withdrawal's or a transfer's on the wallet read. */
  lemma PreSendReadsOwnBalance(kind: TransactionType, amount: real, recipient: Option<string>,
                               eth: Result<real, JsError>, eth2: Result<real, JsError>,
                               bank: Result<real, JsError>, bank2: Result<real, JsError>)
    ensures kind.Deposit? ==> PreSend(kind, amount, recipient, eth, bank) == PreSend(kind, amount, recipient, eth, bank2)
    ensures !kind.Deposit? ==> PreSend(kind, amount, recipient, eth, bank) == PreSend(kind, amount, recipient, eth2, bank)
  {
  }

  /** What the catch stores for a thrown error: `err.message || fallback`. The two balance refusals
      always carry a message, so they are stored as they are. */
  function StoredError(thrown: HookError, fallback: string): (stored: HookError)
    ensures thrown.Message? ==> stored == Message(MessageOr(thrown.text, fallback))
    ensures !thrown.Message? ==> stored == thrown
  {
    if thrown.Message? then Message(MessageOr(thrown.text, fallback)) else thrown
  }

  /** The balance history after a confirmed transaction: the last ten points kept, then a point named
      after the previous length carrying the balance read after the transaction. */
  function NextHistory(prev: seq<BalanceData>, balance: real): (h: seq<BalanceData>)
    ensures |h| == Min(|prev|, 10) + 1 && |h| <= 11
    ensures h[..|h| - 1] == prev[|prev| - Min(|prev|, 10)..]
    ensures h[|h| - 1].balance == balance && h[|h| - 1].name == "T+" + ToRadix(|prev|, 10)
  {
    TakeLast(prev, 10) + [BalanceData("T+" + ToRadix(|prev|, 10), balance)]
  }

  // ---------------------------------------------------------------- the session

  class Session {
    var account: Option<UserAccount>
    var transactions: seq<Transaction>
    var proposals: seq<Proposal>
    var balanceHistory: seq<BalanceData>
    var tokenHolders: seq<TokenHolder>
    var votedProposalIds: set<string>
    var isLoading: bool
    var error: Option<HookError>

    /** The balance-history window never holds more than eleven points. */
    ghost predicate Valid()
      reads this
    {
      |balanceHistory| <= 11
    }

    constructor ()
      ensures Valid()
      ensures account.None? && transactions == [] && proposals == [] && balanceHistory == []
      ensures tokenHolders == [] && votedProposalIds == {} && !isLoading && error.None?
    {
      account, transactions, proposals, balanceHistory := None, [], [], [];
      tokenHolders, votedProposalIds, isLoading, error := [], {}, false, None;
    }

    /** `loadProposals`: one pass over the indices; an index whose reads throw is skipped, and a failed
        count read changes nothing. Votes found are added to the voted set as the pass goes. */
    method LoadProposals(answers: ProposalReads)
      modifies this`proposals, this`votedProposalIds
      ensures answers.CountFailed? ==> proposals == old(proposals) && votedProposalIds == old(votedProposalIds)
      ensures answers.Counted? ==> proposals == Assemble(answers.items)
      ensures answers.Counted? ==> votedProposalIds == old(votedProposalIds) + VotedLabels(answers.items, account.Some?)
    {
      if answers.CountFailed? {
        return;
      }
      var items, connected := answers.items, account.Some?;
      var list: seq<Proposal> := [];
      for i := 0 to |items|
        invariant list == Assemble(items[..i])
        invariant votedProposalIds == old(votedProposalIds) + VotedLabels(items[..i], connected)
      {
        PassStep(items, i, connected);
        var loaded := if items[i].Some? then [ToProposal(i, items[i].value)] else [];
        list := list + loaded;
        if items[i].Some? && items[i].value.hasVoted && connected {
          votedProposalIds := votedProposalIds + {Label(i)};
        }
      }
      assert items[..|items|] == items;
      proposals := list;
    }

    /** `loadTransactions`: only with an account; a failed read keeps the old list. */
    method LoadTransactions(read: Option<seq<ChainTx>>)
      modifies this`transactions
      ensures account.Some? && read.Some? ==> transactions == TransactionList(read.value)
      ensures account.None? || read.None? ==> transactions == old(transactions)
    {
      if account.None? {
        return;
      }
      if read.Some? {
        transactions := TransactionList(read.value);
      }
    }

    /** `loadTokenHolders`: does not look at the account; a failed read keeps the old list. */
    method LoadTokenHolders(read: Option<seq<ChainHolder>>)
      modifies this`tokenHolders
      ensures read.Some? ==> tokenHolders == HolderList(read.value)
      ensures read.None? ==> tokenHolders == old(tokenHolders)
    {
      if read.Some? {
        tokenHolders := HolderList(read.value);
      }
    }

    /** `connectWallet`: `connection` is what initializing the service and reading the address and
        balances give, or the error one of them throws. The first loads it starts are not awaited. */
    method ConnectWallet(installed: bool, connection: Result<UserAccount, JsError>) returns (ok: bool)
      modifies this`account, this`error, this`isLoading
      ensures ok <==> installed && connection.Success?
      ensures ok ==> account == Some(connection.value) && error.None?
      ensures !installed ==> account == old(account) && error == Some(Message(InstallWallet))
      ensures installed && connection.Failure? ==>
                account == old(account) && error == Some(Message(ConnectErrorMessage(connection.error)))
      ensures !isLoading
    {
      isLoading := true;
      error := None;
      var thrown: JsError;
      if !installed {
        thrown := JsError(None, NotInstalledThrown);
      } else if connection.Failure? {
        thrown := connection.error;
      } else {
        account := Some(connection.value);
        isLoading := false;
        return true;
      }
      NotInstalledMessage();
      error := Some(Message(ConnectErrorMessage(thrown)));
      isLoading := false;
      ok := false;
    }

    /** `disconnectWallet`: everything derived from the account is cleared; the proposal list stays. */
    method DisconnectWallet()
      modifies this`account, this`transactions, this`balanceHistory, this`tokenHolders,
               this`votedProposalIds, this`error
      ensures Valid()
      ensures account.None? && transactions == [] && balanceHistory == [] && tokenHolders == []
      ensures votedProposalIds == {} && error.None?
      ensures proposals == old(proposals) && isLoading == old(isLoading)
    {
      account := None;
      transactions := [];
      balanceHistory := [];
      tokenHolders := [];
      votedProposalIds := {};
      error := None;
    }

    /** The wallet's `accountsChanged` event: no account left disconnects; otherwise the first account
        becomes the session's with its bank balance (`None` where that read throws and nothing happens).
        The voted set is kept across a switch. */
    method AccountsChanged(accounts: seq<string>, bankBalance: Option<real>)
      requires Valid()
      modifies this`account, this`transactions, this`balanceHistory, this`tokenHolders,
               this`votedProposalIds, this`error
      ensures Valid()
      ensures |accounts| == 0 ==>
                account.None? && transactions == [] && balanceHistory == [] && tokenHolders == []
                && votedProposalIds == {} && error.None?
      ensures |accounts| > 0 && bankBalance.Some? ==> account == Some(UserAccount(accounts[0], bankBalance.value))
      ensures |accounts| > 0 && bankBalance.None? ==> account == old(account)
      ensures |accounts| > 0 ==>
                transactions == old(transactions) && balanceHistory == old(balanceHistory)
                && tokenHolders == old(tokenHolders) && votedProposalIds == old(votedProposalIds)
                && error == old(error)
      ensures proposals == old(proposals)
    {
      if |accounts| == 0 {
        DisconnectWallet();
      } else if bankBalance.Some? {
        account := Some(UserAccount(accounts[0], bankBalance.value));
      }
    }

    /** `performTransaction`: without an account it throws before touching anything; then the local
        checks of `PreSend` run, and only a request that passes them is sent. A confirmed receipt
        (status 1) refreshes the balance, both lists and the history; anything else leaves them. */
    method PerformTransaction(kind: TransactionType, amount: real, recipient: Option<string>, chain: TransactionChain)
      returns (r: Outcome<HookError>, sent: Option<SendRequest>)
      requires Valid()
      modifies this`account, this`transactions, this`tokenHolders, this`balanceHistory, this`error, this`isLoading
      ensures Valid()
      ensures old(account).None? ==>
                r == Fail(Message(WalletNotConnected)) && sent.None? && unchanged(this)
      ensures old(account).Some? ==> !isLoading
      ensures old(account).Some? ==>
                var check := PreSend(kind, amount, recipient, chain.ethBalance, chain.bankBalance);
                && (check.Failure? ==>
                      r == Fail(check.error) && sent.None? && error == Some(StoredError(check.error, TransactionFailed)))
                && (check.Success? ==> sent == Some(check.value))
      ensures r.Pass? <==> old(account).Some? && sent.Some?
                           && chain.submission.send.Pass? && chain.submission.receipt == Some(1)
                           && chain.newBankBalance.Success?
      ensures r.Pass? ==>
                && account == Some(old(account).value.(balance := chain.newBankBalance.value))
                && balanceHistory == NextHistory(old(balanceHistory), chain.newBankBalance.value)
                && error.None?
                && transactions == (if chain.transactionsRead.Some? then TransactionList(chain.transactionsRead.value)
                                    else old(transactions))
                && tokenHolders == (if chain.holdersRead.Some? then HolderList(chain.holdersRead.value)
                                    else old(tokenHolders))
      ensures r.Fail? ==>
                account == old(account) && balanceHistory == old(balanceHistory)
                && transactions == old(transactions) && tokenHolders == old(tokenHolders)
      ensures sent.Some? && chain.submission.send.Fail? ==>
                r == Fail(Message(chain.submission.send.error.message))
                && error == Some(Message(MessageOr(chain.submission.send.error.message, TransactionFailed)))
      ensures sent.Some? && chain.submission.send.Pass? && chain.submission.receipt != Some(1) ==>
                r == Fail(Message(TransactionFailed)) && error == Some(Message(TransactionFailed))
      ensures sent.Some? && chain.submission.send.Pass? && chain.submission.receipt == Some(1)
              && chain.newBankBalance.Failure? ==>
                r == Fail(Message(chain.newBankBalance.error.message))
                && error == Some(Message(MessageOr(chain.newBankBalance.error.message, TransactionFailed)))
    {
      if account.None? {
        return Fail(Message(WalletNotConnected)), None;
      }
      isLoading := true;
      error := None;
      var check := PreSend(kind, amount, recipient, chain.ethBalance, chain.bankBalance);
      if check.Failure? {
        error := Some(StoredError(check.error, TransactionFailed));
        isLoading := false;
        return Fail(check.error), None;
      }
      sent := Some(check.value);
      r := SubmitTransaction(chain);
    }

    /** The part of `performTransaction` after its checks: the send, the receipt check and, on a
        confirmed receipt, the bank balance read and the refresh of the balance, the two lists and the
        history. A bank read that throws after a confirmed receipt still fails the operation. */
    method SubmitTransaction(chain: TransactionChain) returns (r: Outcome<HookError>)
      requires Valid() && account.Some? && error.None?
      modifies this`account, this`transactions, this`tokenHolders, this`balanceHistory, this`error, this`isLoading
      ensures Valid() && !isLoading
      ensures r.Pass? <==> chain.submission.send.Pass? && chain.submission.receipt == Some(1)
                           && chain.newBankBalance.Success?
      ensures r.Pass? ==>
                && account == Some(old(account).value.(balance := chain.newBankBalance.value))
                && balanceHistory == NextHistory(old(balanceHistory), chain.newBankBalance.value)
                && error.None?
                && transactions == (if chain.transactionsRead.Some? then TransactionList(chain.transactionsRead.value)
                                    else old(transactions))
                && tokenHolders == (if chain.holdersRead.Some? then HolderList(chain.holdersRead.value)
                                    else old(tokenHolders))
      ensures r.Fail? ==>
                account == old(account) && balanceHistory == old(balanceHistory)
                && transactions == old(transactions) && tokenHolders == old(tokenHolders)
      ensures chain.submission.send.Fail? ==>
                r == Fail(Message(chain.submission.send.error.message))
                && error == Some(Message(MessageOr(chain.submission.send.error.message, TransactionFailed)))
      ensures chain.submission.send.Pass? && chain.submission.receipt != Some(1) ==>
                r == Fail(Message(TransactionFailed)) && error == Some(Message(TransactionFailed))
      ensures chain.submission.send.Pass? && chain.submission.receipt == Some(1) && chain.newBankBalance.Failure? ==>
                r == Fail(Message(chain.newBankBalance.error.message))
                && error == Some(Message(MessageOr(chain.newBankBalance.error.message, TransactionFailed)))
    {
      var submission := chain.submission;
      if submission.send.Fail? {
        error := Some(Message(MessageOr(submission.send.error.message, TransactionFailed)));
        isLoading := false;
        return Fail(Message(submission.send.error.message));
      }
      if submission.receipt != Some(1) {
        error := Some(Message(TransactionFailed));
        isLoading := false;
        return Fail(Message(TransactionFailed));
      }
      if chain.newBankBalance.Failure? {
        var message := chain.newBankBalance.error.message;
        error := Some(Message(MessageOr(message, TransactionFailed)));
        isLoading := false;
        return Fail(Message(message));
      }
      var balance := chain.newBankBalance.value;
      account := Some(account.value.(balance := balance));
      LoadTransactions(chain.transactionsRead);
      LoadTokenHolders(chain.holdersRead);
      balanceHistory := NextHistory(balanceHistory, balance);
      isLoading := false;
      r := Pass;
    }

    /** `voteOnProposal`: refuses without an account, then refuses an id already in the voted set, both
        before any call and without touching anything. A confirmed vote reloads the proposals and adds
        the id; the voted set never shrinks. */
    method VoteOnProposal(proposalId: string, choice: VoteChoice, submission: Submission, reload: ProposalReads)
      returns (r: Outcome<HookError>, sent: Option<VoteRequest>)
      modifies this`proposals, this`votedProposalIds, this`error, this`isLoading
      ensures old(account).None? ==> r == Fail(Message(WalletNotConnected)) && sent.None? && unchanged(this)
      ensures old(account).Some? && proposalId in old(votedProposalIds) ==>
                r == Fail(Message(AlreadyVoted)) && sent.None? && unchanged(this)
      ensures sent.Some? <==> old(account).Some? && proposalId !in old(votedProposalIds)
      ensures sent.Some? ==> sent.value == VoteRequest(Decode(proposalId), choice == For) && !isLoading
      ensures old(votedProposalIds) <= votedProposalIds
      ensures r.Pass? <==> sent.Some? && submission.send.Pass? && submission.receipt == Some(1)
      ensures r.Pass? ==>
                && proposalId in votedProposalIds && error.None?
                && (reload.Counted? ==>
                      proposals == Assemble(reload.items)
                      && votedProposalIds == old(votedProposalIds) + VotedLabels(reload.items, true) + {proposalId})
                && (reload.CountFailed? ==>
                      proposals == old(proposals) && votedProposalIds == old(votedProposalIds) + {proposalId})
      ensures r.Fail? ==> votedProposalIds == old(votedProposalIds) && proposals == old(proposals)
      ensures sent.Some? && submission.send.Fail? ==>
                r == Fail(Message(submission.send.error.message))
                && error == Some(Message(MessageOr(submission.send.error.message, VoteFallback)))
      ensures sent.Some? && submission.send.Pass? && submission.receipt != Some(1) ==>
                r == Fail(Message(VoteFailed)) && error == Some(Message(VoteFailed))
    {
      if account.None? {
        return Fail(Message(WalletNotConnected)), None;
      }
      if proposalId in votedProposalIds {
        return Fail(Message(AlreadyVoted)), None;
      }
      isLoading := true;
      error := None;
      sent := Some(VoteRequest(Decode(proposalId), choice == For));
      r := SubmitVote(proposalId, submission, reload);
    }

    /** The part of `voteOnProposal` after both refusals: the send, the receipt check and, on a
        confirmed vote, the reload and the new id. */
    method SubmitVote(proposalId: string, submission: Submission, reload: ProposalReads) returns (r: Outcome<HookError>)
      requires account.Some? && error.None?
      modifies this`proposals, this`votedProposalIds, this`error, this`isLoading
      ensures !isLoading
      ensures r.Pass? <==> submission.send.Pass? && submission.receipt == Some(1)
      ensures r.Pass? ==>
                && error.None?
                && (reload.Counted? ==>
                      proposals == Assemble(reload.items)
                      && votedProposalIds == old(votedProposalIds) + VotedLabels(reload.items, true) + {proposalId})
                && (reload.CountFailed? ==>
                      proposals == old(proposals) && votedProposalIds == old(votedProposalIds) + {proposalId})
      ensures r.Fail? ==> votedProposalIds == old(votedProposalIds) && proposals == old(proposals)
      ensures submission.send.Fail? ==>
                r == Fail(Message(submission.send.error.message))
                && error == Some(Message(MessageOr(submission.send.error.message, VoteFallback)))
      ensures submission.send.Pass? && submission.receipt != Some(1) ==>
                r == Fail(Message(VoteFailed)) && error == Some(Message(VoteFailed))
    {
      if submission.send.Fail? {
        error := Some(Message(MessageOr(submission.send.error.message, VoteFallback)));
        isLoading := false;
        return Fail(Message(submission.send.error.message));
      }
      if submission.receipt != Some(1) {
        error := Some(Message(VoteFailed));
        isLoading := false;
        return Fail(Message(VoteFailed));
      }
      LoadProposals(reload);
      votedProposalIds := votedProposalIds + {proposalId};
      isLoading := false;
      r := Pass;
    }

    /** `createProposal`: without an account it throws before any call; otherwise the title and
        description are sent as given, and a confirmed creation reloads the proposals (adding the labels
        that pass finds voted, as every load pass does). */
    method CreateProposal(title: string, description: string, submission: Submission, reload: ProposalReads)
      returns (r: Outcome<HookError>, sent: Option<(string, string)>)
      modifies this`proposals, this`votedProposalIds, this`error, this`isLoading
      ensures old(account).None? ==> r == Fail(Message(WalletNotConnected)) && sent.None? && unchanged(this)
      ensures old(account).Some? ==> sent == Some((title, description)) && !isLoading
      ensures old(votedProposalIds) <= votedProposalIds
      ensures r.Pass? <==> sent.Some? && submission.send.Pass? && submission.receipt == Some(1)
      ensures r.Pass? ==>
                && error.None?
                && (reload.Counted? ==>
                      proposals == Assemble(reload.items)
                      && votedProposalIds == old(votedProposalIds) + VotedLabels(reload.items, true))
                && (reload.CountFailed? ==>
                      proposals == old(proposals) && votedProposalIds == old(votedProposalIds))
      ensures r.Fail? ==> votedProposalIds == old(votedProposalIds) && proposals == old(proposals)
      ensures sent.Some? && submission.send.Fail? ==>
                r == Fail(Message(submission.send.error.message))
                && error == Some(Message(MessageOr(submission.send.error.message, ProposalFallback)))
      ensures sent.Some? && submission.send.Pass? && submission.receipt != Some(1) ==>
                r == Fail(Message(ProposalFailed)) && error == Some(Message(ProposalFailed))
    {
      if account.None? {
        return Fail(Message(WalletNotConnected)), None;
      }
      isLoading := true;
      error := None;
      sent := Some((title, description));
      r := SubmitProposal(submission, reload);
    }

    /** The part of `createProposal` after its guard: the send, the receipt check and, on a confirmed
        creation, the reload. */
    method SubmitProposal(submission: Submission, reload: ProposalReads) returns (r: Outcome<HookError>)
      requires account.Some? && error.None?
      modifies this`proposals, this`votedProposalIds, this`error, this`isLoading
      ensures !isLoading
      ensures r.Pass? <==> submission.send.Pass? && submission.receipt == Some(1)
      ensures r.Pass? ==>
                && error.None?
                && (reload.Counted? ==>
                      proposals == Assemble(reload.items)
                      && votedProposalIds == old(votedProposalIds) + VotedLabels(reload.items, true))
                && (reload.CountFailed? ==>
                      proposals == old(proposals) && votedProposalIds == old(votedProposalIds))
      ensures r.Fail? ==> votedProposalIds == old(votedProposalIds) && proposals == old(proposals)
      ensures submission.send.Fail? ==>
                r == Fail(Message(submission.send.error.message))
                && error == Some(Message(MessageOr(submission.send.error.message, ProposalFallback)))
      ensures submission.send.Pass? && submission.receipt != Some(1) ==>
                r == Fail(Message(ProposalFailed)) && error == Some(Message(ProposalFailed))
    {
      if submission.send.Fail? {
        error := Some(Message(MessageOr(submission.send.error.message, ProposalFallback)));
        isLoading := false;
        return Fail(Message(submission.send.error.message));
      }
      if submission.receipt != Some(1) {
        error := Some(Message(ProposalFailed));
        isLoading := false;
        return Fail(Message(ProposalFailed));
      }
      LoadProposals(reload);
      isLoading := false;
      r := Pass;
    }
  }

  /** A vote on a listed proposal sends that proposal's on-chain index. */
  lemma VoteSendsIndex(i: nat, choice: VoteChoice)
    ensures VoteRequest(Decode(Label(i)), choice == For).proposalNum == Some(i)
  {
    DecodeLabel(i);
  }
}
