/** The status badge of src/components/DigitalBilty.tsx. */
module DigitalBilty {
  import opened Styles
  import opened Text

  datatype BiltyStatus = InTransit | Delivered | Pending

  /** The value of the `status` prop union. */
  function StatusText(s: BiltyStatus): string {
    match s
    case InTransit => "in-transit"
    case Delivered => "delivered"
    case Pending => "pending"
  }

  /** `statusStyles`, keyed by the status text. */
  const StatusStyles: map<string, Tone> := map[
    "in-transit" := AdminAccent,
    "delivered" := Success,
    "pending" := Warning
  ]

  /** The badge colour: every status of the union has an entry, and the three are distinct. */
  function StatusStyle(s: BiltyStatus): (t: Tone)
    ensures StatusText(s) in StatusStyles && t == StatusStyles[StatusText(s)]
    ensures t == AdminAccent <==> s == InTransit
    ensures t == Success <==> s == Delivered
    ensures t == Warning <==> s == Pending
  {
    StatusStyles[StatusText(s)]
  }

  /** `status.replace("-", " ")` */
  function StatusLabel(s: BiltyStatus): (l: string)
    ensures |l| == |StatusText(s)|
  {
    ReplaceFirst(StatusText(s), '-', ' ')
  }

  /** The in-transit badge reads "in transit". */
  lemma InTransitLabel()
    ensures StatusLabel(InTransit) == "in transit"
  {
    var s := StatusText(InTransit);
    assert s[2] == '-' && s[..2] == "in";
    FirstIndexIs(s, '-', 2);
    assert s[..2] + [' '] + s[3..] == "in transit";
  }

  /** The delivered badge shows the status text unchanged. */
  lemma DeliveredLabel()
    ensures StatusLabel(Delivered) == "delivered"
  {
    var s := StatusText(Delivered);
    assert '-' !in s;
    ReplaceFirstWithout(s, '-', ' ');
  }

  /** The pending badge shows the status text unchanged. */
  lemma PendingLabel()
    ensures StatusLabel(Pending) == "pending"
  {
    var s := StatusText(Pending);
    assert '-' !in s;
    ReplaceFirstWithout(s, '-', ' ');
  }

  /** Only the first '-' becomes a space: a later '-' stays. */
  lemma ReplaceKeepsLaterDashes(s: string, i: int, j: int)
    requires 0 <= i < j < |s| && s[i] == '-' && s[j] == '-'
    ensures ReplaceFirst(s, '-', ' ')[j] == '-'
  {
    FirstIndexAtMost(s, '-', i);
    var f := FirstIndex(s, '-');
    var r := ReplaceFirst(s, '-', ' ');
    assert r == s[..f] + [' '] + s[f + 1..];
    assert r[j] == s[f + 1..][j - f - 1];
  }
}
