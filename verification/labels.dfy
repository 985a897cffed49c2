/** Proposal labels (hooks/useBlockchain.ts): the on-chain proposal index i is shown as `PIP-` followed by
    i + 1 in decimal, zero-padded to three digits, and a vote decodes the label back with
    `parseInt(id.split('-')[1]) - 1`. */
module ProposalLabels {
  import opened Outcomes
  import opened JsText

  const Prefix := "PIP-"

  /** `String(i + 1).padStart(3, '0')`. */
  function Number(i: nat): (r: string)
    ensures |r| >= 3
  {
    PadStart(ToRadix(i + 1, 10), 3, '0')
  }

  /** The number part is a decimal numeral whose value is i + 1, padding or not. */
  lemma NumberValue(i: nat)
    ensures AllDigits(Number(i), 10)
    ensures RadixValue(Number(i), 10) == i + 1
  {
    var d := ToRadix(i + 1, 10);
    var r := Number(i);
    LeadingZeros(|r| - |d|, d, 10);
    RadixRoundTrip(i + 1, 10);
  }

  /** The label of proposal index i: `PIP-${String(i + 1).padStart(3, '0')}`. */
  function Label(i: nat): (id: string)
    ensures StartsWith(id, Prefix) && |id| >= 7
  {
    Prefix + Number(i)
  }

  /** The proposal number a vote sends for a label: `parseInt(id.split('-')[1]) - 1`;
      `None` is `NaN`. */
  function Decode(id: string): (r: Option<int>)
    ensures '-' !in id ==> r.None?
  {
    match SplitSecond(id, '-')
    case None => None
    case Some(field) =>
      match ParseInt(field)
      case None => None
      case Some(n) => Some(n - 1)
  }

  /** The field after the label's dash is the whole number part, as it holds no dash itself. */
  lemma SplitAfterPrefix(n: string)
    requires AllDigits(n, 10)
    ensures SplitSecond(Prefix + n, '-') == Some(n)
  {
    var id := Prefix + n;
    assert id[..3] == "PIP";
    assert id[3] == '-';
    assert id[4..] == n;
    assert IndexOf(id, '-') == 3;
    assert '-' !in n by {
      forall k | 0 <= k < |n| ensures n[k] != '-' {
        assert IsDigit(n[k], 10);
      }
    }
  }

  /** Decoding a label gives back its index, also past 999 where the number outgrows the padding. */
  lemma DecodeLabel(i: nat)
    ensures Decode(Label(i)) == Some(i)
  {
    var n := Number(i);
    NumberValue(i);
    SplitAfterPrefix(n);
    ParseDecimal(n);
  }

  /** Different indices get different labels. */
  lemma LabelInjective(i: nat, j: nat)
    ensures Label(i) == Label(j) <==> i == j
  {
    DecodeLabel(i);
    DecodeLabel(j);
  }
}
