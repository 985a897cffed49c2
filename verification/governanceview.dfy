/** The governance page (components/Governance.tsx): one card per proposal with its vote shares,
    status badge, end-date line, shortened proposer and, while the proposal is active and a wallet is
    connected, the two vote buttons, disabled once this session has voted on it. */
module GovernanceView {
  import opened Outcomes
  import opened JsText
  import opened Types
  import opened ProposalLabels
  import Session

  /** The widths of the two vote bars, in percent: both 0 while nobody has voted. */
  function VoteShares(votesFor: nat, votesAgainst: nat): (shares: (real, real))
    ensures votesFor + votesAgainst == 0 ==> shares == (0.0, 0.0)
    ensures votesFor + votesAgainst > 0 ==>
              && shares.0 + shares.1 == 100.0
              && 0.0 <= shares.0 <= 100.0 && 0.0 <= shares.1 <= 100.0
              && shares.0 * (votesFor + votesAgainst) as real == 100.0 * votesFor as real
              && shares.1 * (votesFor + votesAgainst) as real == 100.0 * votesAgainst as real
  {
    var total := votesFor + votesAgainst;
    if total > 0 then
      var t, f, a := total as real, votesFor as real, votesAgainst as real;
      Fraction(f, t);
      Fraction(a, t);
      FractionsAddUp(f, a, t);
      ((f / t) * 100.0, (a / t) * 100.0)
    else (0.0, 0.0)
  }

  /** A part of a positive whole, as a fraction of it, lies between 0 and 1 and scales back. */
  lemma Fraction(part: real, whole: real)
    requires 0.0 <= part <= whole && whole > 0.0
    ensures 0.0 <= part / whole <= 1.0 && (part / whole) * whole == part
  {
  }

  /** The fractions of two parts of a whole add up to 1. */
  lemma FractionsAddUp(part: real, other: real, whole: real)
    requires whole > 0.0 && part + other == whole
    ensures part / whole + other / whole == 1.0
  {
  }

  /** The more votes for, the wider the "for" bar, at a fixed total. */
  lemma SharesFollowVotes(votesFor: nat, votesAgainst: nat)
    requires votesFor + votesAgainst > 0
    ensures VoteShares(votesFor, votesAgainst).0 >= VoteShares(votesFor, votesAgainst).1 <==> votesFor >= votesAgainst
  {
    var t := (votesFor + votesAgainst) as real;
    var s := VoteShares(votesFor, votesAgainst);
    assert s.0 * t - s.1 * t == 100.0 * (votesFor as real - votesAgainst as real);
    assert (s.0 - s.1) * t == 100.0 * (votesFor as real - votesAgainst as real);
  }

  /** `getStatusInfo`: the badge of a proposal status. */
  datatype StatusInfo = StatusInfo(text: string, color: string, bg: string)

  function StatusInfoOf(status: ProposalStatus): (info: StatusInfo)
    ensures info.text == match status case Active => "Active" case Passed => "Passed" case Failed => "Failed"
  {
    match status
    case Active => StatusInfo("Active", "text-blue-400", "bg-blue-500/20")
    case Passed => StatusInfo("Passed", "text-green-400", "bg-green-500/20")
    case Failed => StatusInfo("Failed", "text-red-400", "bg-red-500/20")
  }

  /** Different statuses look different, in colour and in background alike. */
  lemma StatusInfoInjective(a: ProposalStatus, b: ProposalStatus)
    ensures StatusInfoOf(a).color == StatusInfoOf(b).color <==> a == b
    ensures StatusInfoOf(a).bg == StatusInfoOf(b).bg <==> a == b
  {
    if a != b {
      assert StatusInfoOf(a).color[5] != StatusInfoOf(b).color[5];
      assert StatusInfoOf(a).bg[3] != StatusInfoOf(b).bg[3];
    }
  }

  /** The end-date line. */
  function EndDateLabel(p: Proposal): (line: string)
    ensures p.status.Active? ==> line == "Voting ends: " + p.endDate
    ensures !p.status.Active? ==> line == "Ended: " + p.endDate
  {
    (if p.status.Active? then "Voting ends: " else "Ended: ") + p.endDate
  }

  /** An address shown as its first six and last four characters around an ellipsis. */
  function ShortAddress(a: string): (short: string)
    ensures |short| == Min(6, |a|) + 3 + Min(4, |a|)
    ensures StartsWith(a, short[..Min(6, |a|)])
    ensures short[Min(6, |a|)..Min(6, |a|) + 3] == "..."
    ensures short[|short| - Min(4, |a|)..] == a[|a| - Min(4, |a|)..]
  {
    Take(a, 6) + "..." + TakeLast(a, 4)
  }

  /** An address of the usual 42 characters keeps its "0x" and becomes 13 characters long. */
  lemma ShortAddressOfFullAddress(a: string)
    requires |a| == 42 && StartsWith(a, "0x")
    ensures |ShortAddress(a)| == 13 && StartsWith(ShortAddress(a), "0x")
  {
    var s := ShortAddress(a);
    assert s[..2] == a[..6][..2];
  }

  /** A card as rendered: `buttons` is `None` when no vote buttons are shown, else whether both are
      disabled. */
  datatype Card = Card(id: string, title: string, description: string, status: StatusInfo,
                       shares: (real, real), endLine: string, proposer: string, buttons: Option<bool>)

  /** `ProposalCard`. */
  function CardOf(p: Proposal, walletConnected: bool, hasVoted: bool): (c: Card)
    ensures c.id == p.id && c.title == p.title && c.description == p.description
    ensures c.buttons.Some? <==> p.status.Active? && walletConnected
    ensures c.buttons.Some? ==> (c.buttons.value <==> hasVoted)
  {
    Card(p.id, p.title, p.description, StatusInfoOf(p.status), VoteShares(p.votesFor, p.votesAgainst),
         EndDateLabel(p), ShortAddress(p.proposer),
         if p.status.Active? && walletConnected then Some(hasVoted) else None)
  }

  /** The page: the create button only with a wallet, and one card per proposal, in list order, each
      told whether its id is in the voted set. */
  datatype Page = Page(showsCreate: bool, cards: seq<Card>)

  function Governance(proposals: seq<Proposal>, walletConnected: bool, votedProposalIds: set<string>): (page: Page)
    ensures page.showsCreate <==> walletConnected
    ensures |page.cards| == |proposals|
    ensures forall k :: 0 <= k < |proposals| ==>
              page.cards[k] == CardOf(proposals[k], walletConnected, proposals[k].id in votedProposalIds)
  {
    Page(walletConnected,
         seq(|proposals|, k requires 0 <= k < |proposals| =>
               CardOf(proposals[k], walletConnected, proposals[k].id in votedProposalIds)))
  }

  /** After a load pass with an account, every active proposal the account had voted on shows its
      buttons disabled, while a proposal nobody in the session voted on shows them enabled. */
  lemma {:induction false} LoadedVotesDisableButtons(items: seq<Option<Session.ChainProposal>>,
                                                     votedBefore: set<string>, k: nat)
    requires k < |Session.Assemble(items)|
    requires Session.Assemble(items)[k].status.Active?
    ensures var ix := Session.LoadedIndices(items);
            var page := Governance(Session.Assemble(items), true, votedBefore + Session.VotedLabels(items, true));
            k < |ix|
            && page.cards[k].buttons.Some?
            && (items[ix[k]].value.hasVoted ==> page.cards[k].buttons.value)
            && (!items[ix[k]].value.hasVoted && Label(ix[k]) !in votedBefore ==> !page.cards[k].buttons.value)
  {
    Session.AssembleIsLoadedIndices(items);
    var ix := Session.LoadedIndices(items);
    Session.VotedLabelsMembers(items, true, ix[k]);
  }
}
