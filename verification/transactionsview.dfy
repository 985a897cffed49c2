/** The network-analytics page (components/Transactions.tsx): the badge and colour classifiers of a
    transaction row, and the figures derived from the transaction and holder lists. */
module AnalyticsView {
  import opened JsText
  import opened Types

  // ---------------------------------------------------------------- classifiers

  /** `getStatusBadge`. */
  function StatusBadge(status: TransactionStatus): (classes: string)
    ensures |classes| > 0
  {
    match status
    case Completed => "bg-green-500/20 text-green-300"
    case Pending => "bg-yellow-500/20 text-yellow-300"
    case Failed => "bg-red-500/20 text-red-300"
  }

  /** Each status has its own badge. */
  lemma StatusBadgeInjective(a: TransactionStatus, b: TransactionStatus)
    ensures StatusBadge(a) == StatusBadge(b) <==> a == b
  {
    if a != b {
      assert StatusBadge(a)[3] != StatusBadge(b)[3];
    }
  }

  const Green := "text-green-400"
  const Red := "text-red-400"
  const Grey := "text-gray-300"

  /** `getActionColor`: a substring test on the action's text, the incoming test first. */
  function ActionColor(action: TransactionAction): (color: string)
    ensures color in {Green, Red, Grey}
  {
    var text := action.Text();
    if Contains(text, "In") || Contains(text, "Deposit") then Green
    else if Contains(text, "Out") || Contains(text, "Withdrawal") then Red
    else Grey
  }

  /** Money coming in is green and money going out is red; no action is grey. */
  lemma {:induction false} ActionColors(action: TransactionAction)
    ensures ActionColor(action) == Green <==> action.Deposit? || action.TransferIn?
    ensures ActionColor(action) == Red <==> action.Withdrawal? || action.TransferOut?
    ensures ActionColor(action) != Grey
  {
    var text := action.Text();
    match action
    case Deposit =>
      ContainsAt(text, "Deposit", 0);
    case TransferIn =>
      assert text[9..11] == "In";
      ContainsAt(text, "In", 9);
    case Withdrawal =>
      MissingFirstChar(text, "In");
      MissingFirstChar(text, "Deposit");
      ContainsAt(text, "Withdrawal", 0);
    case TransferOut =>
      MissingFirstChar(text, "In");
      MissingFirstChar(text, "Deposit");
      assert text[9..12] == "Out";
      ContainsAt(text, "Out", 9);
  }

  // ---------------------------------------------------------------- derived figures

  /** The distinct addresses among all senders and receivers, built a row at a time. */
  function Participants(txs: seq<Transaction>): (ps: set<string>)
    ensures |ps| <= 2 * |txs|
  {
    if txs == [] then {}
    else
      var n := |txs| - 1;
      var init := Participants(txs[..n]);
      CardinalityOfUnion(init, {txs[n].from, txs[n].to});
      init + {txs[n].from, txs[n].to}
  }

  lemma CardinalityOfUnion(a: set<string>, b: set<string>)
    ensures |a + b| <= |a| + |b|
  {
    assert a + b == a + (b - a);
  }

  /** `activeParticipants`: the size of the set of every `from` and every `to`. */
  function ActiveParticipants(txs: seq<Transaction>): (n: nat)
    ensures n <= 2 * |txs|
  {
    |Participants(txs)|
  }

  /** The participants are the set of senders joined with the set of receivers. */
  lemma {:induction false} ParticipantsAreSendersAndReceivers(txs: seq<Transaction>)
    ensures Participants(txs) == (set t | t in txs :: t.from) + (set t | t in txs :: t.to)
  {
    if txs != [] {
      var n := |txs| - 1;
      var init := txs[..n];
      ParticipantsAreSendersAndReceivers(init);
      assert txs == init + [txs[n]];
      AppendOne(init, txs[n]);
    }
  }

  /** One more row adds its sender to the senders and its receiver to the receivers. */
  lemma AppendOne(txs: seq<Transaction>, last: Transaction)
    ensures (set t | t in txs + [last] :: t.from) == (set t | t in txs :: t.from) + {last.from}
    ensures (set t | t in txs + [last] :: t.to) == (set t | t in txs :: t.to) + {last.to}
  {
  }

  /** `totalValueLocked`: the balances added up from the left, starting at 0. */
  function TotalValueLocked(holders: seq<TokenHolder>): (total: real)
    ensures holders == [] ==> total == 0.0
    ensures (forall k :: 0 <= k < |holders| ==> holders[k].balance >= 0.0) ==> total >= 0.0
  {
    if holders == [] then 0.0
    else
      var n := |holders| - 1;
      TotalValueLocked(holders[..n]) + holders[n].balance
  }

  /** The total of a joined list is the sum of the totals. */
  lemma {:induction false} TotalValueLockedAppend(a: seq<TokenHolder>, b: seq<TokenHolder>)
    ensures TotalValueLocked(a + b) == TotalValueLocked(a) + TotalValueLocked(b)
  {
    if b == [] {
      assert a + b == a;
    } else {
      var n := |b| - 1;
      TotalValueLockedAppend(a, b[..n]);
      assert (a + b)[..|a + b| - 1] == a + b[..n];
    }
  }

  /** A point of the holders chart. */
  datatype HolderPoint = HolderPoint(name: string, balance: real)

  /** `formattedTokenHolders`: each holder named by the first six characters of its address. */
  function FormattedTokenHolders(holders: seq<TokenHolder>): (points: seq<HolderPoint>)
    ensures |points| == |holders|
    ensures forall k :: 0 <= k < |points| ==>
              && points[k].balance == holders[k].balance
              && points[k].name == Take(holders[k].address, 6) + "..."
              && |points[k].name| <= 9
              && StartsWith(holders[k].address, points[k].name[..|points[k].name| - 3])
  {
    seq(|holders|, k requires 0 <= k < |holders| => HolderPoint(Take(holders[k].address, 6) + "...", holders[k].balance))
  }

  /** A point of the volume chart. */
  datatype VolumePoint = VolumePoint(date: string, amount: real)

  function Reverse<T>(s: seq<T>): (r: seq<T>)
    ensures |r| == |s|
    ensures forall k :: 0 <= k < |s| ==> r[k] == s[|s| - 1 - k]
  {
    if s == [] then [] else [s[|s| - 1]] + Reverse(s[..|s| - 1])
  }

  /** `transactionVolume`: the (date, amount) of each transaction, newest last in the list becoming
      first in the chart. */
  function TransactionVolume(txs: seq<Transaction>): (points: seq<VolumePoint>)
    ensures |points| == |txs|
    ensures forall k :: 0 <= k < |txs| ==>
              points[k] == VolumePoint(txs[|txs| - 1 - k].date, txs[|txs| - 1 - k].amount)
  {
    Reverse(seq(|txs|, k requires 0 <= k < |txs| => VolumePoint(txs[k].date, txs[k].amount)))
  }
}
