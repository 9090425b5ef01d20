/** Where a request goes: the core works through the printed lines, and the first that applies decides. */
module Routing {
  import opened Common
  import opened RuleText
  import opened Rules
  import opened Readback
  import J = Journal
  import S = Sources

  /** What is asked for: a host by its name, or an address by the networks it lies in. Lines that say no-resolve leave names alone. */
  datatype Target = Host(name: string) | Address(within: string -> bool)

  predicate Applies(line: string, t: Target) {
    match Parse(line)
    case None => false
    case Some(s) =>
      || s.kind == "Match"
      || (s.kind == "DomainSuffix" && t.Host? && Covers(s.payload, t.name))
      || (s.kind == "IPCIDR" && t.Address? && t.within(s.payload))
  }

  function Route(lines: seq<string>, t: Target): Option<string> {
    if lines == [] then None else if Applies(lines[0], t) then Some(Parse(lines[0]).value.proxy) else Route(lines[1..], t)
  }

  predicate Meets(x: Item, t: Target) {
    if x.kind == Domain then t.Host? && Covers(x.pattern, t.name) else t.Address? && t.within(x.pattern)
  }

  predicate NoCommas(items: seq<Item>) {
    forall x | x in items :: ',' !in x.pattern && ',' !in x.channel
  }

  lemma LineApplies(x: Item, t: Target)
    requires ',' !in x.pattern && ',' !in x.channel
    ensures Applies(Line(x), t) <==> Meets(x, t)
    ensures Applies(Line(x), t) ==> Parse(Line(x)).value.proxy == "ch-" + x.channel
  {
    hide Line, Parse;
    PrintedRuleIsRead(x);
  }

  /** The first printed rule that the target meets decides, and if there is none what follows does. */
  lemma {:induction false} FirstMet(items: seq<Item>, rest: seq<string>, t: Target) returns (i: nat)
    requires NoCommas(items)
    ensures i <= |items| && forall j | 0 <= j < i :: !Meets(items[j], t)
    ensures i < |items| ==> Meets(items[i], t) && Route(Print(items) + rest, t) == Some("ch-" + items[i].channel)
    ensures i == |items| ==> Route(Print(items) + rest, t) == Route(rest, t)
  {
    hide Line, Applies, Meets, Parse;
    if items == [] {
      assert Print(items) + rest == rest;
      return 0;
    }
    LineApplies(items[0], t);
    assert (Print(items) + rest)[0] == Line(items[0]) && (Print(items) + rest)[1..] == Print(items[1..]) + rest;
    if Meets(items[0], t) { return 0; }
    var k := FirstMet(items[1..], rest, t);
    i := k + 1;
    forall j | 0 <= j < i ensures !Meets(items[j], t) { if j > 0 { assert items[j] == items[1..][j - 1]; } }
  }

  lemma LastLines(t: Target)
    ensures Route([REJECT, DIRECT], t) == Some(if t.Address? && t.within("198.18.0.0/15") then "REJECT" else "DIRECT")
  {
    RejectIsRead();
    DirectIsRead();
    TwoLines(REJECT, "198.18.0.0/15", "REJECT", DIRECT, "DIRECT", t);
  }

  lemma TwoLines(a: string, network: string, p: string, b: string, q: string, t: Target)
    requires Parse(a) == Some(Seen("IPCIDR", network, p)) && Parse(b) == Some(Seen("Match", "", q))
    ensures Route([a, b], t) == Some(if t.Address? && t.within(network) then p else q)
  {
    hide Parse;
    assert [a, b][1..] == [b];
  }

  lemma EmittedHasNoCommas(rules: seq<Rule>, kind: Kind, ip: Parser)
    requires forall r | r in rules :: ',' !in r.channel
    ensures NoCommas(Emitted(rules, kind, ip)) && forall x | x in Emitted(rules, kind, ip) :: x.kind == kind
  {
    hide Bucket, Emitted, NormalizeStored;
    forall x | x in Emitted(rules, kind, ip) ensures ',' !in x.pattern && ',' !in x.channel && x.kind == kind {
      EmittedSound(rules, kind, ip, x);
      NormalizedIsSafe(kind, rules[x.pos].pattern, ip);
    }
  }

  /** None of the rules of one kind is met by a target of the other kind. */
  lemma {:induction false} OtherKindIsSkipped(items: seq<Item>, rest: seq<string>, t: Target)
    requires NoCommas(items) && forall x | x in items :: !Meets(x, t)
    ensures Route(Print(items) + rest, t) == Route(rest, t)
  {
    var i := FirstMet(items, rest, t);
    forall j | 0 <= j < |items| ensures !Meets(items[j], t) { assert items[j] in items; }
  }

  // ---------------------------------------------------------------- names

  /** The rule is in force and covers the host. */
  predicate Claims(r: Rule, name: string, ip: Parser) {
    r.enabled && r.kind == Domain && NormDomain(r.pattern).Some? && Covers(NormDomain(r.pattern).value, name)
  }

  /**
   A host goes to the channel of the longest domain among the rules in force that cover it, the earlier of two equal ones, and
   directly if there is none.
   */
  lemma HostGoesToLongest(rules: seq<Rule>, ip: Parser, name: string) returns (w: Option<nat>)
    requires forall r | r in rules :: ',' !in r.channel
    ensures Route(Lines(rules, ip), Host(name)) == Some(if w.Some? && w.value < |rules| then "ch-" + rules[w.value].channel else "DIRECT")
    ensures w.None? ==> forall k | 0 <= k < |rules| :: !Claims(rules[k], name, ip)
    ensures w.Some? ==> w.value < |rules| && Claims(rules[w.value], name, ip)
    ensures w.Some? ==> forall k | 0 <= k < |rules| && Claims(rules[k], name, ip) ::
              var won, other := NormDomain(rules[w.value].pattern).value, NormDomain(rules[k].pattern).value;
              |other| < |won| || (other == won && w.value <= k)
  {
    hide Bucket, Emitted, NormDomain, Covers, NormIp;
    var t := Host(name);
    var domains, addresses := Emitted(rules, Domain, ip), Emitted(rules, Ip, ip);
    EmittedHasNoCommas(rules, Domain, ip);
    EmittedHasNoCommas(rules, Ip, ip);
    assert Lines(rules, ip) == Print(domains) + (Print(addresses) + [REJECT, DIRECT]);
    var i := FirstMet(domains, Print(addresses) + [REJECT, DIRECT], t);
    if i < |domains| {
      assert domains[i] in domains;
      EmittedSound(rules, Domain, ip, domains[i]);
      w := Some(domains[i].pos);
      LongestOf(rules, ip, name, i);
    } else {
      w := None;
      OtherKindIsSkipped(addresses, [REJECT, DIRECT], t);
      LastLines(t);
      forall k | 0 <= k < |rules| ensures !Claims(rules[k], name, ip) {
        if Claims(rules[k], name, ip) { ClaimedIsMet(rules, ip, name, k); }
      }
    }
  }

  lemma LongestOf(rules: seq<Rule>, ip: Parser, name: string, i: nat)
    requires i < |Emitted(rules, Domain, ip)| && Covers(Emitted(rules, Domain, ip)[i].pattern, name)
    requires forall j | 0 <= j < i :: !Covers(Emitted(rules, Domain, ip)[j].pattern, name)
    ensures var won := Emitted(rules, Domain, ip)[i];
      forall k | 0 <= k < |rules| && Claims(rules[k], name, ip) ::
        var other := NormDomain(rules[k].pattern).value; |other| < |won.pattern| || (other == won.pattern && won.pos <= k)
  {
    hide Bucket, Emitted, NormDomain, Covers;
    FirstDomainIsLongest(rules, ip, name, i);
    forall k | 0 <= k < |rules| && Claims(rules[k], name, ip)
      ensures var other, won := NormDomain(rules[k].pattern).value, Emitted(rules, Domain, ip)[i];
        |other| < |won.pattern| || (other == won.pattern && won.pos <= k)
    {
      BucketIsExact(rules, Domain, ip, 0, ItemOf(rules, k, Domain, ip));
    }
  }

  lemma ClaimedIsMet(rules: seq<Rule>, ip: Parser, name: string, k: nat)
    requires k < |rules| && Claims(rules[k], name, ip)
    ensures exists j :: 0 <= j < |Emitted(rules, Domain, ip)| && Meets(Emitted(rules, Domain, ip)[j], Host(name))
  {
    hide Emitted, NormDomain, Covers;
    var x := ItemOf(rules, k, Domain, ip);
    EmittedSound(rules, Domain, ip, x);
    var j :| 0 <= j < |Emitted(rules, Domain, ip)| && Emitted(rules, Domain, ip)[j] == x;
    assert Meets(Emitted(rules, Domain, ip)[j], Host(name));
  }

  // ---------------------------------------------------------------- addresses

  /** The rule is in force and its network holds the address; its mask has m bits. */
  ghost predicate Holds(r: Rule, within: string -> bool, ip: Parser, m: nat) {
    r.enabled && r.kind == Ip && NormIp(r.pattern, ip).Some? && within(NormIp(r.pattern, ip).value) && HasBits(NormIp(r.pattern, ip).value, m)
  }

  /**
   An address goes to the channel of the narrowest network among the rules in force that hold it, the earlier of two equally narrow
   ones; if there is none it is refused in the range of made-up addresses and goes directly elsewhere.
   */
  lemma AddressGoesToNarrowest(rules: seq<Rule>, ip: Parser, within: string -> bool) returns (w: Option<nat>, n: nat)
    requires forall r | r in rules :: ',' !in r.channel
    ensures Route(Lines(rules, ip), Address(within)) ==
      Some(if w.Some? && w.value < |rules| then "ch-" + rules[w.value].channel else if within("198.18.0.0/15") then "REJECT" else "DIRECT")
    ensures w.None? ==> forall k, m: nat | 0 <= k < |rules| :: !Holds(rules[k], within, ip, m)
    ensures w.Some? ==> w.value < |rules| && Holds(rules[w.value], within, ip, n)
    ensures w.Some? ==> forall k, m: nat | 0 <= k < |rules| && Holds(rules[k], within, ip, m) :: m < n || (m == n && w.value <= k)
  {
    hide Bucket, Emitted, NormDomain, NormIp, HasBits;
    var t := Address(within);
    var domains, addresses := Emitted(rules, Domain, ip), Emitted(rules, Ip, ip);
    EmittedHasNoCommas(rules, Domain, ip);
    EmittedHasNoCommas(rules, Ip, ip);
    assert Lines(rules, ip) == Print(domains) + (Print(addresses) + [REJECT, DIRECT]);
    OtherKindIsSkipped(domains, Print(addresses) + [REJECT, DIRECT], t);
    var i := FirstMet(addresses, [REJECT, DIRECT], t);
    n := 0;
    if i < |addresses| {
      assert addresses[i] in addresses;
      EmittedSound(rules, Ip, ip, addresses[i]);
      w := Some(addresses[i].pos);
      n := AddressHasBits(rules[w.value].pattern, ip);
      NarrowestOf(rules, ip, within, i, n);
    } else {
      w := None;
      LastLines(t);
      forall k, m: nat | 0 <= k < |rules| ensures !Holds(rules[k], within, ip, m) {
        if Holds(rules[k], within, ip, m) { HeldIsMet(rules, ip, within, k, m); }
      }
    }
  }

  lemma HeldIsMet(rules: seq<Rule>, ip: Parser, within: string -> bool, k: nat, m: nat)
    requires k < |rules| && Holds(rules[k], within, ip, m)
    ensures exists j :: 0 <= j < |Emitted(rules, Ip, ip)| && Meets(Emitted(rules, Ip, ip)[j], Address(within))
  {
    hide Emitted, NormIp, HasBits;
    var x := ItemOf(rules, k, Ip, ip);
    EmittedSound(rules, Ip, ip, x);
    var j :| 0 <= j < |Emitted(rules, Ip, ip)| && Emitted(rules, Ip, ip)[j] == x;
    assert Meets(Emitted(rules, Ip, ip)[j], Address(within));
  }

  lemma NarrowestOf(rules: seq<Rule>, ip: Parser, within: string -> bool, i: nat, n: nat)
    requires i < |Emitted(rules, Ip, ip)| && within(Emitted(rules, Ip, ip)[i].pattern) && HasBits(Emitted(rules, Ip, ip)[i].pattern, n)
    requires forall j | 0 <= j < i :: !within(Emitted(rules, Ip, ip)[j].pattern)
    ensures forall k, m: nat | 0 <= k < |rules| && Holds(rules[k], within, ip, m) :: m < n || (m == n && Emitted(rules, Ip, ip)[i].pos <= k)
  {
    hide Bucket, Emitted, NormIp, HasBits;
    FirstAddressIsNarrowest(rules, ip, within, i);
    forall k, m: nat | 0 <= k < |rules| && Holds(rules[k], within, ip, m) ensures m < n || (m == n && Emitted(rules, Ip, ip)[i].pos <= k) {
      var x := ItemOf(rules, k, Ip, ip);
      BucketIsExact(rules, Ip, ip, 0, x);
    }
  }

  // ---------------------------------------------------------------- whose routes are open

  /** A channel as the database holds it. */
  datatype Stored = Stored(id: string, routed: bool, db: J.Db)

  /** What the rule query reads of each channel. */
  function Standings(stored: seq<Stored>): (r: seq<Standing>)
    requires forall c | c in stored :: c.db.row.Some?
    ensures |r| == |stored|
    ensures forall i | 0 <= i < |r| ::
      r[i] == Standing(stored[i].id, stored[i].routed, stored[i].db.row.value.status in {J.Stopped, J.Failed}, stored[i].db.intent.Some?)
  {
    if stored == [] then []
    else [Standing(stored[0].id, stored[0].routed, S.Down(stored[0].db.row.value.status), stored[0].db.intent.Some?)] + Standings(stored[1..])
  }

  lemma DeadIsSilent(stored: seq<Stored>, id: string)
    requires forall c | c in stored :: c.db.row.Some?
    ensures Dead(Standings(stored), id) <==> exists c | c in stored :: c.id == id && (!c.routed || S.Silent(c.db))
  {
    var r := Standings(stored);
    if Dead(r, id) {
      var d :| d in r && d.id == id && (!d.routed || d.failed || d.stopping);
      var i :| 0 <= i < |r| && r[i] == d;
      assert stored[i] in stored && stored[i].id == id && (!stored[i].routed || S.Silent(stored[i].db));
    }
    if c :| c in stored && c.id == id && (!c.routed || S.Silent(c.db)) {
      var i :| 0 <= i < |stored| && stored[i] == c;
      assert r[i] in r;
    }
  }

  /** Whatever is asked for goes through a channel only while that channel's routes are open: a wish to stop closes them at once. */
  lemma NothingGoesToTheSilent(rules: seq<Rule>, stored: seq<Stored>, routingOff: bool, ip: Parser, t: Target, c: Stored)
    requires (forall r | r in rules :: ',' !in r.channel) && (forall c | c in stored :: c.db.row.Some?) && c in stored
    requires Route(Lines(Effective(rules, Standings(stored), routingOff), ip), t) == Some("ch-" + c.id)
    ensures !routingOff && c.routed && !S.Silent(c.db)
  {
    hide Lines, Route, Dead;
    var channels := Standings(stored);
    var effective := Effective(rules, channels, routingOff);
    EffectiveIsExact(rules, channels, routingOff);
    forall r | r in effective ensures ',' !in r.channel {
      var k :| 0 <= k < |effective| && effective[k] == r;
      assert rules[k] in rules && r.channel == rules[k].channel;
    }
    var w, n;
    if t.Host? { w := HostGoesToLongest(effective, ip, t.name); } else { w, n := AddressGoesToNarrowest(effective, ip, t.within); }
    Differ(c.id);
    assert w.Some?;
    assert ("ch-" + effective[w.value].channel)[3..] == effective[w.value].channel && ("ch-" + c.id)[3..] == c.id;
    DeadIsSilent(stored, c.id);
  }

  lemma Differ(id: string)
    ensures "ch-" + id != "DIRECT" && "ch-" + id != "REJECT"
  {
    assert ("ch-" + id)[0] == 'c' && "DIRECT"[0] == 'D' && "REJECT"[0] == 'R';
  }
}
