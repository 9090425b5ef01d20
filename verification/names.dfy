/**
 Names, labels and data volumes of one channel's Docker resources.
 The rest of the model uses them symbolically; the second half shows that the strings they
 stand for never collide.
 */
module Names {

  datatype Role = Candidate | Copier

  /** Labels this channel put on a resource: operation (with or without the restore suffix) and role. */
  datatype Label = Unlabelled | Owned(op: nat, restore: bool, role: Role)

  datatype Name =
    | Canonical                         // vpn-<channel>
    | Next(op: nat, restore: bool)      // vpn-<channel>-next-<operation>[-restore]
    | Previous(op: nat)                 // vpn-<channel>-previous-<operation>
    | CopyOf(op: nat)                   // vpn-copy-<channel>-<operation>
    | Other(text: string)

  datatype Volume =
    | Original                          // vpndata-<channel>
    | Fresh(op: nat)                    // vpndata-<channel>-next-<operation>
    | Elsewhere(text: string)

  datatype Policy = No | UnlessStopped | Always | OnFailure(retries: nat)

  // ---------------------------------------------------------------- the strings themselves

  predicate IsHex(s: string) {
    forall i | 0 <= i < |s| :: '0' <= s[i] <= '9' || 'a' <= s[i] <= 'f'
  }

  /** Channel identifiers are the first eight digits of a random hexadecimal string. */
  predicate IsChannelId(c: string) { |c| == 8 && IsHex(c) }

  /** Operations are named by a full random hexadecimal string. */
  predicate IsOperationId(o: string) { |o| == 32 && IsHex(o) }

  datatype Text = TCanonical | TNext(op: string, restore: bool) | TPrevious(op: string) | TCopy(op: string)

  predicate WellNamed(t: Text) {
    t.TCanonical? || IsOperationId(t.op)
  }

  function Render(c: string, t: Text): string {
    match t
    case TCanonical => "vpn-" + c
    case TNext(op, restore) => "vpn-" + c + "-next-" + op + (if restore then "-restore" else "")
    case TPrevious(op) => "vpn-" + c + "-previous-" + op
    case TCopy(op) => "vpn-copy-" + c + "-" + op
  }

  lemma RenderParts(c: string, t: Text)
    requires IsChannelId(c) && WellNamed(t)
    ensures var r := Render(c, t);
      match t
      case TCanonical => |r| == 12 && r[4..12] == c
      case TNext(op, restore) => |r| == (if restore then 58 else 50) && r[8] != '-' && r[4..12] == c && r[18..50] == op
      case TPrevious(op) => |r| == 54 && r[4..12] == c && r[22..54] == op
      case TCopy(op) => |r| == 50 && r[8] == '-' && r[9..17] == c && r[18..50] == op
  {
    var r := Render(c, t);
    match t
    case TCanonical => assert r[4..12] == c;
    case TNext(op, restore) =>
      assert r == "vpn-" + c + "-next-" + (op + (if restore then "-restore" else ""));
      assert r[4..12] == c;
      assert r[8] == c[4];
      assert r[18..50] == op;
    case TPrevious(op) =>
      assert r[4..12] == c;
      assert r[22..54] == op;
    case TCopy(op) =>
      assert r[9..17] == c;
      assert r[18..50] == op;
  }

  /** No two resources of any two channels share a name: the symbolic names are faithful. */
  lemma NamesNeverCollide(c: string, t: Text, d: string, u: Text)
    requires IsChannelId(c) && WellNamed(t) && IsChannelId(d) && WellNamed(u)
    requires Render(c, t) == Render(d, u)
    ensures c == d && t == u
  {
    RenderParts(c, t);
    RenderParts(d, u);
  }

  /** The length check matters: an operation that ended in the suffix itself would collide. */
  lemma SuffixWouldCollide(c: string, op: string)
    ensures Render(c, TNext(op + "-restore", false)) == Render(c, TNext(op, true))
  {
    assert "vpn-" + c + "-next-" + (op + "-restore") == "vpn-" + c + "-next-" + op + "-restore";
  }
}
