/** Comparing what the core says it runs with what a ticket wants, as both programs do it. */
module Readback {
  import opened Common
  import opened RuleText
  import opened Rules
  import opened Tickets

  datatype Json =
    | JNull
    | JBool(b: bool)
    | JNumber(n: real)
    | JText(s: string)
    | JArray(items: seq<Json>)
    | JObject(fields: map<string, Json>)

  datatype Proxy = Proxy(name: string, kind: string)

  /** A core configuration: the managed lists, the mode if one is set, and everything else. */
  datatype Config = Config(mode: Option<string>, proxies: seq<Proxy>, groups: seq<string>, rules: seq<string>, rest: map<string, string>)

  const PREFIX := "__vpnmgr_cfg_"

  // ---------------------------------------------------------------- markers

  function Mark(generation: nat, digest: string): string {
    PREFIX + Decimal(generation) + "_" + digest
  }

  function Marker(t: Ticket): string { Mark(t.generation, t.digest) }

  function Stamp(c: Config, t: Ticket): Config {
    c.(proxies := c.proxies + [Proxy(Marker(t), "direct")])
  }

  /** A marker tells generation and digest apart from all others. */
  lemma MarkInjective(g: nat, d: string, h: nat, e: string)
    requires Mark(g, d) == Mark(h, e)
    ensures g == h && d == e
  {
    var a, b := Decimal(g), Decimal(h);
    DecimalIsDigits(g);
    DecimalIsDigits(h);
    assert Mark(g, d) == PREFIX + (a + "_" + d) && Mark(h, e) == PREFIX + (b + "_" + e);
    assert (PREFIX + (a + "_" + d))[|PREFIX|..] == a + "_" + d;
    assert (PREFIX + (b + "_" + e))[|PREFIX|..] == b + "_" + e;
    DigitsEndAtMark(a, d, b, e);
    DecimalInjective(g, h);
  }

  lemma DigitsEndAtMark(a: string, d: string, b: string, e: string)
    requires a + "_" + d == b + "_" + e
    requires (forall i | 0 <= i < |a| :: '0' <= a[i] <= '9') && (forall i | 0 <= i < |b| :: '0' <= b[i] <= '9')
    ensures a == b && d == e
  {
    var s := a + "_" + d;
    assert s[|a|] == '_' && s[|b|] == '_';
    assert forall i | 0 <= i < |a| :: s[i] == a[i];
    assert forall i | 0 <= i < |b| :: s[i] == b[i];
    assert s[..|a|] == a && s[..|b|] == b;
    assert s[|a| + 1..] == d && s[|b| + 1..] == e;
  }

  // ---------------------------------------------------------------- splitting a rule

  /** s.split(',') */
  function Split(s: string): (r: seq<string>)
    ensures r != []
  {
    if s == "" then [""]
    else
      var rest := Split(s[1..]);
      if s[0] == ',' then [""] + rest else [[s[0]] + rest[0]] + rest[1..]
  }

  lemma {:induction false} SplitAt(a: string, b: string)
    requires ',' !in a
    ensures Split(a + "," + b) == [a] + Split(b)
  {
    if a == "" {
      assert a + "," + b == "," + b;
      assert ("," + b)[1..] == b;
    } else {
      assert (a + "," + b)[1..] == a[1..] + "," + b;
      SplitAt(a[1..], b);
      assert a == [a[0]] + a[1..];
    }
  }

  lemma {:induction false} SplitWhole(a: string)
    requires ',' !in a
    ensures Split(a) == [a]
  {
    if a != "" {
      SplitWhole(a[1..]);
      assert a == [a[0]] + a[1..];
    }
  }

  predicate Plain(s: string) { ',' !in s }

  lemma Split2(a: string, b: string)
    requires Plain(a) && Plain(b)
    ensures Split(a + "," + b) == [a, b]
  {
    SplitAt(a, b);
    SplitWhole(b);
  }

  lemma Split3(a: string, b: string, c: string)
    requires Plain(a) && Plain(b) && Plain(c)
    ensures Split(a + "," + b + "," + c) == [a, b, c]
  {
    hide Split;
    assert a + "," + b + "," + c == a + "," + (b + "," + c);
    SplitAt(a, b + "," + c);
    Split2(b, c);
  }

  lemma Split4(a: string, b: string, c: string, d: string)
    requires Plain(a) && Plain(b) && Plain(c) && Plain(d)
    ensures Split(a + "," + b + "," + c + "," + d) == [a, b, c, d]
  {
    hide Split;
    assert a + "," + b + "," + c + "," + d == a + "," + (b + "," + c + "," + d);
    SplitAt(a, b + "," + c + "," + d);
    Split3(b, c, d);
  }

  /** What the core calls a rule: kind, payload and proxy. */
  datatype Seen = Seen(kind: string, payload: string, proxy: string)

  /** How Python reads a rule line; a line with too few parts is no rule. */
  function Parse(line: string): Option<Seen> {
    var parts := Split(line);
    if parts[0] == "MATCH" && |parts| >= 2 then Some(Seen("Match", "", parts[1]))
    else if parts[0] == "DOMAIN-SUFFIX" && |parts| >= 3 then Some(Seen("DomainSuffix", parts[1], parts[2]))
    else if parts[0] == "IP-CIDR" && |parts| >= 3 then Some(Seen("IPCIDR", parts[1], parts[2]))
    else None
  }

  /** How the desktop program reads it: the number of parts must be right as well. */
  function ParseStrictly(line: string): Option<Seen> {
    var parts := Split(line);
    if |parts| == 2 && parts[0] == "MATCH" then Some(Seen("Match", "", parts[1]))
    else if |parts| == 3 && parts[0] == "DOMAIN-SUFFIX" then Some(Seen("DomainSuffix", parts[1], parts[2]))
    else if |parts| == 4 && parts[0] == "IP-CIDR" && parts[3] == "no-resolve" then Some(Seen("IPCIDR", parts[1], parts[2]))
    else None
  }

  function SeenOf(x: Item): Seen {
    if x.kind == Domain then Seen("DomainSuffix", x.pattern, "ch-" + x.channel) else Seen("IPCIDR", x.pattern, "ch-" + x.channel)
  }

  /** Printing a rule and splitting it again gives it back, because neither patterns nor channels hold commas. */
  lemma PrintedRuleIsRead(x: Item)
    requires ',' !in x.pattern && ',' !in x.channel
    ensures Parse(Line(x)) == Some(SeenOf(x)) && ParseStrictly(Line(x)) == Some(SeenOf(x))
  {
    hide Split;
    var channel := "ch-" + x.channel;
    assert Plain(channel) && Plain(x.pattern);
    if x.kind == Domain {
      assert Line(x) == "DOMAIN-SUFFIX" + "," + x.pattern + "," + channel;
      Split3("DOMAIN-SUFFIX", x.pattern, channel);
    } else {
      assert Line(x) == "IP-CIDR" + "," + x.pattern + "," + channel + "," + "no-resolve";
      Split4("IP-CIDR", x.pattern, channel, "no-resolve");
    }
  }

  lemma AddressLineIsRead(pattern: string, proxy: string)
    requires Plain(pattern) && Plain(proxy)
    ensures var line := "IP-CIDR" + "," + pattern + "," + proxy + "," + "no-resolve";
      Parse(line) == Some(Seen("IPCIDR", pattern, proxy)) && ParseStrictly(line) == Parse(line)
  {
    hide Split;
    Split4("IP-CIDR", pattern, proxy, "no-resolve");
  }

  lemma RejectIsRead()
    ensures Parse(REJECT) == Some(Seen("IPCIDR", "198.18.0.0/15", "REJECT")) && ParseStrictly(REJECT) == Parse(REJECT)
  {
    AddressLineIsRead("198.18.0.0/15", "REJECT");
  }

  lemma DirectIsRead()
    ensures Parse(DIRECT) == Some(Seen("Match", "", "DIRECT")) && ParseStrictly(DIRECT) == Parse(DIRECT)
  {
    hide Split;
    assert DIRECT == "MATCH" + "," + "DIRECT";
    Split2("MATCH", "DIRECT");
  }

  // ---------------------------------------------------------------- the comparison

  /** o[k] as the desktop program reads it: anything missing is null. */
  function Field(o: Json, k: string): Json {
    if o.JObject? && k in o.fields then o.fields[k] else JNull
  }

  /** o.get(k, default) */
  function Get(o: Json, k: string, default: Json): Json
    requires o.JObject?
  {
    if k in o.fields then o.fields[k] else default
  }

  predicate Truthy(j: Json) {
    match j
    case JNull => false
    case JBool(b) => b
    case JNumber(n) => n != 0.0
    case JText(s) => s != ""
    case JArray(items) => items != []
    case JObject(fields) => fields != map[]
  }

  function Names(c: Config): set<string> {
    set p | p in c.proxies :: p.name
  }

  function Wanted(c: Config): Json {
    JText(if c.mode.Some? then c.mode.value else "rule")
  }

  predicate IsMark(name: string) { StartsWith(name, PREFIX) }
  predicate IsChannelName(name: string) { StartsWith(name, "ch-") }

  predicate SeenIs(j: Json, s: Seen) {
    Field(j, "type") == JText(s.kind) && Field(j, "payload") == JText(s.payload) && Field(j, "proxy") == JText(s.proxy)
  }

  predicate RuleMatches(line: string, live: Json) {
    && live.JObject? && Get(live, "extra", JObject(map[])).JObject?
    && Parse(line).Some? && SeenIs(live, Parse(line).value)
    && !Truthy(Get(Get(live, "extra", JObject(map[])), "disabled", JBool(false)))
  }

  predicate RulesMatch(lines: seq<string>, live: seq<Json>) {
    |lines| == |live| && forall i | 0 <= i < |lines| :: RuleMatches(lines[i], live[i])
  }

  /** The comparison of the Web program. */
  predicate Matches(c: Config, t: Ticket, proxies: Json, rules: Json, general: Json) {
    && proxies.JObject? && rules.JObject? && general.JObject?
    && var entries := Get(proxies, "proxies", JObject(map[]));
       && entries.JObject? && (forall n | n in entries.fields :: entries.fields[n].JObject?)
       && (set n | n in entries.fields && IsChannelName(n)) == Names(c)
       && (set n | n in entries.fields && IsMark(n)) == {Marker(t)}
       && Field(entries.fields[Marker(t)], "type") == JText("Direct")
       && (forall n | n in Names(c) :: Field(entries.fields[n], "type") == JText("Socks5"))
       && Field(general, "mode") == Wanted(c)
       && Field(rules, "rules").JArray? && RulesMatch(c.rules, Field(rules, "rules").items)
  }

  predicate RuleMatchesDesktop(line: string, live: Json) {
    && ParseStrictly(line).Some? && SeenIs(live, ParseStrictly(line).value)
    && Field(Field(live, "extra"), "disabled") != JBool(true)
  }

  /** The comparison of the desktop program. */
  predicate MatchesDesktop(c: Config, t: Ticket, proxies: Json, rules: Json, general: Json) {
    && var entries := Field(proxies, "proxies");
       && entries.JObject?
       && (set n | n in entries.fields && IsChannelName(n)) == Names(c)
       && (set n | n in entries.fields && IsMark(n)) == {Marker(t)}
       && Field(entries.fields[Marker(t)], "type") == JText("Direct")
       && (forall n | n in Names(c) :: Field(entries.fields[n], "type") == JText("Socks5"))
       && Field(general, "mode") == Wanted(c)
       && Field(rules, "rules").JArray? && |Field(rules, "rules").items| == |c.rules|
       && forall i | 0 <= i < |c.rules| :: RuleMatchesDesktop(c.rules[i], Field(rules, "rules").items[i])
  }

  /** Every line reads the same strictly or not, as the lines that are printed do. */
  predicate Clear(lines: seq<string>) {
    forall i | 0 <= i < |lines| :: Parse(lines[i]).Some? && ParseStrictly(lines[i]) == Parse(lines[i])
  }

  /** Whatever the Web program accepts the desktop program accepts. */
  lemma WebIsStricter(c: Config, t: Ticket, proxies: Json, rules: Json, general: Json)
    requires Clear(c.rules) && Matches(c, t, proxies, rules, general)
    ensures MatchesDesktop(c, t, proxies, rules, general)
  {
    hide Parse, ParseStrictly, Marker, Names;
    var live := Field(rules, "rules").items;
    forall i | 0 <= i < |c.rules| ensures RuleMatchesDesktop(c.rules[i], live[i]) {
      assert RuleMatches(c.rules[i], live[i]);
    }
  }

  /** What counts as false: null, false, zero, and everything empty. */
  predicate IsFalse(j: Json) {
    j == JNull || j == JBool(false) || j == JNumber(0.0) || j == JText("") || j == JArray([]) || j == JObject(map[])
  }

  /** A rule that says nothing about being disabled, or says no in an object of its own. */
  predicate PlainlyEnabled(live: Json) {
    live.JObject? && ("extra" in live.fields ==>
      && live.fields["extra"].JObject?
      && ("disabled" in live.fields["extra"].fields ==> IsFalse(live.fields["extra"].fields["disabled"])))
  }

  /** Every proxy entry is an object. */
  predicate EntriesAreObjects(proxies: Json) {
    Field(proxies, "proxies").JObject? && forall n | n in Field(proxies, "proxies").fields :: Field(proxies, "proxies").fields[n].JObject?
  }

  lemma RuleDiffers(line: string, live: Json)
    requires Parse(line).Some? && ParseStrictly(line) == Parse(line)
    ensures RuleMatches(line, live) <==> RuleMatchesDesktop(line, live) && PlainlyEnabled(live)
  {
    hide Parse, ParseStrictly;
  }

  lemma RulesDiffer(lines: seq<string>, live: seq<Json>)
    requires Clear(lines) && |lines| == |live|
    ensures RulesMatch(lines, live) <==>
      && (forall i | 0 <= i < |lines| :: RuleMatchesDesktop(lines[i], live[i]))
      && (forall i | 0 <= i < |lines| :: PlainlyEnabled(live[i]))
  {
    hide Parse, ParseStrictly, RuleMatches, RuleMatchesDesktop, PlainlyEnabled;
    forall i | 0 <= i < |lines| ensures RuleMatches(lines[i], live[i]) <==> RuleMatchesDesktop(lines[i], live[i]) && PlainlyEnabled(live[i]) {
      RuleDiffers(lines[i], live[i]);
    }
  }

  /**
   Where the two programs part: the desktop program also accepts proxy entries that are no objects, and rules whose extra is
   present but no object or whose disabled is anything but true that counts as true. There is no other difference.
   */
  lemma ProgramsDiffer(c: Config, t: Ticket, proxies: Json, rules: Json, general: Json)
    requires Clear(c.rules)
    ensures Matches(c, t, proxies, rules, general) <==>
      && MatchesDesktop(c, t, proxies, rules, general) && EntriesAreObjects(proxies)
      && forall i | 0 <= i < |c.rules| :: PlainlyEnabled(Field(rules, "rules").items[i])
  {
    hide Clear, Marker, Names, RulesMatch, RuleMatchesDesktop, PlainlyEnabled, IsMark, IsChannelName;
    if Matches(c, t, proxies, rules, general) {
      SameLength(c.rules, Field(rules, "rules").items);
      RulesDiffer(c.rules, Field(rules, "rules").items);
      assert Marker(t) in (set n | n in Get(proxies, "proxies", JObject(map[])).fields && IsMark(n));
    }
    if MatchesDesktop(c, t, proxies, rules, general) { RulesDiffer(c.rules, Field(rules, "rules").items); }
  }

  lemma SameLength(lines: seq<string>, live: seq<Json>)
    requires RulesMatch(lines, live)
    ensures |lines| == |live|
  {
  }

  /** A rule with an extra of null and no word about being disabled is one that only the desktop program accepts. */
  lemma NullExtraDiffers(line: string)
    requires Parse(line).Some? && ParseStrictly(line) == Parse(line)
    ensures var s := Parse(line).value;
      var live := JObject(map["type" := JText(s.kind), "payload" := JText(s.payload), "proxy" := JText(s.proxy), "extra" := JNull]);
      RuleMatchesDesktop(line, live) && !RuleMatches(line, live)
  {
    hide Parse, ParseStrictly;
  }

  /** Not the other way round: a rule disabled by the number 1 is off for one program and on for the other. */
  lemma DesktopIsLaxer(line: string)
    requires Parse(line).Some? && ParseStrictly(line) == Parse(line)
    ensures var s := Parse(line).value;
      var live := JObject(map["type" := JText(s.kind), "payload" := JText(s.payload), "proxy" := JText(s.proxy),
                              "extra" := JObject(map["disabled" := JNumber(1.0)])]);
      RuleMatchesDesktop(line, live) && !RuleMatches(line, live)
  {
    hide Parse, ParseStrictly;
  }

  // ---------------------------------------------------------------- the faithful view

  function LiveType(kind: string): string {
    if kind == "socks5" then "Socks5" else if kind == "direct" then "Direct" else kind
  }

  /** What a core that runs c says about its proxies: its own entries and built-in ones under other names. */
  predicate ShowsProxies(c: Config, j: Json) {
    && j.JObject? && "proxies" in j.fields && j.fields["proxies"].JObject?
    && var entries := j.fields["proxies"].fields;
       && (forall n | n in entries :: entries[n].JObject?)
       && (forall p | p in c.proxies :: p.name in entries && Field(entries[p.name], "type") == JText(LiveType(p.kind)))
       && (forall n | n in entries && (IsChannelName(n) || IsMark(n)) :: n in Names(c))
  }

  predicate ShowsRule(line: string, j: Json) {
    && j.JObject? && Parse(line).Some? && SeenIs(j, Parse(line).value)
    && Get(j, "extra", JObject(map[])).JObject?
    && IsFalse(Get(Get(j, "extra", JObject(map[])), "disabled", JBool(false)))
  }

  predicate ShowsRules(c: Config, j: Json) {
    && j.JObject? && Field(j, "rules").JArray? && |Field(j, "rules").items| == |c.rules|
    && forall i | 0 <= i < |c.rules| :: ShowsRule(c.rules[i], Field(j, "rules").items[i])
  }

  /** The mode that the core runs a configuration in: rule, unless another is set. */
  function ModeOf(c: Config): string {
    match c.mode
    case Some(mode) => mode
    case None => "rule"
  }

  predicate ShowsGeneral(c: Config, j: Json) {
    j.JObject? && Field(j, "mode") == JText(ModeOf(c))
  }

  /** What rendering makes of proxies and rules: one SOCKS proxy per channel, and lines that can be read. */
  predicate Rendered(c: Config) {
    && (forall p | p in c.proxies :: p.kind == "socks5" && IsChannelName(p.name))
    && Clear(c.rules) && c.groups == []
  }

  lemma MarkIsNoChannel(n: string)
    requires IsMark(n)
    ensures !IsChannelName(n)
  {
    assert n[..|PREFIX|][0] == '_' && n[0] == '_';
    assert |n| >= 3 ==> n[..3][0] == n[0];
  }

  lemma MarkerIsMark(t: Ticket)
    ensures IsMark(Marker(t))
  {
    assert Marker(t) == PREFIX + (Decimal(t.generation) + "_" + t.digest);
    assert Marker(t)[..|PREFIX|] == PREFIX;
  }

  lemma StampedNames(c: Config, t: Ticket)
    ensures Names(Stamp(c, t)) == Names(c) + {Marker(t)}
  {
    forall n ensures n in Names(Stamp(c, t)) <==> n in Names(c) || n == Marker(t) {
      if n == Marker(t) { assert Proxy(Marker(t), "direct") in Stamp(c, t).proxies; }
      if n in Names(c) { var p :| p in c.proxies && p.name == n; assert p in Stamp(c, t).proxies; }
    }
  }

  /** The channel names and markers that a core shows are those of the configuration it runs. */
  lemma ShownNames(c: Config, t: Ticket, j: Json)
    requires Rendered(c) && ShowsProxies(Stamp(c, t), j)
    ensures (set n | n in j.fields["proxies"].fields && IsChannelName(n)) == Names(c)
    ensures (set n | n in j.fields["proxies"].fields && IsMark(n)) == {Marker(t)}
  {
    var entries := j.fields["proxies"].fields;
    StampedNames(c, t);
    MarkerIsMark(t);
    MarkIsNoChannel(Marker(t));
    assert Proxy(Marker(t), "direct") in Stamp(c, t).proxies;
    hide Marker;
    forall n ensures n in entries && IsChannelName(n) <==> n in Names(c) {
      if n in Names(c) { var p :| p in c.proxies && p.name == n; assert p in Stamp(c, t).proxies; }
    }
    forall n ensures n in entries && IsMark(n) <==> n == Marker(t) {
      if n in entries && IsMark(n) { MarkIsNoChannel(n); }
    }
  }

  lemma ShownRuleMatches(line: string, live: Json)
    requires ShowsRule(line, live)
    ensures RuleMatches(line, live)
  {
    hide Parse;
  }

  /** The comparison accepts what a core shows that runs the stamped configuration. */
  lemma AcceptsFaithfulView(c: Config, t: Ticket, proxies: Json, rules: Json, general: Json)
    requires Rendered(c) && ShowsProxies(Stamp(c, t), proxies) && ShowsRules(Stamp(c, t), rules) && ShowsGeneral(Stamp(c, t), general)
    ensures Matches(c, t, proxies, rules, general) && MatchesDesktop(c, t, proxies, rules, general)
  {
    ShownNames(c, t, proxies);
    StampedTypes(c, t, proxies);
    hide Parse, ParseStrictly, Marker, Names, ShowsProxies, RuleMatches, ShowsRule;
    forall i | 0 <= i < |c.rules| ensures RuleMatches(c.rules[i], Field(rules, "rules").items[i]) {
      ShownRuleMatches(Stamp(c, t).rules[i], Field(rules, "rules").items[i]);
    }
    assert Matches(c, t, proxies, rules, general);
    WebIsStricter(c, t, proxies, rules, general);
  }

  lemma StampedTypes(c: Config, t: Ticket, j: Json)
    requires Rendered(c) && ShowsProxies(Stamp(c, t), j)
    ensures j.JObject? && "proxies" in j.fields && j.fields["proxies"].JObject?
    ensures var entries := j.fields["proxies"].fields;
      && (forall n | n in entries :: entries[n].JObject?)
      && Marker(t) in entries && Field(entries[Marker(t)], "type") == JText("Direct")
      && (forall n | n in Names(c) :: n in entries && Field(entries[n], "type") == JText("Socks5"))
  {
    assert Proxy(Marker(t), "direct") in Stamp(c, t).proxies;
    forall n | n in Names(c) ensures n in j.fields["proxies"].fields && Field(j.fields["proxies"].fields[n], "type") == JText("Socks5") {
      var p :| p in c.proxies && p.name == n;
      assert p in Stamp(c, t).proxies;
    }
  }

  // ---------------------------------------------------------------- what acceptance means

  function Join(parts: seq<string>): string
    requires parts != []
  {
    if |parts| == 1 then parts[0] else parts[0] + "," + Join(parts[1..])
  }

  lemma JoinHead(x: string, y: string, rest: seq<string>)
    ensures Join([x + y] + rest) == x + Join([y] + rest)
  {
    assert ([x + y] + rest)[1..] == rest && ([y] + rest)[1..] == rest;
  }

  lemma {:induction false} JoinSplit(s: string)
    ensures Join(Split(s)) == s
  {
    if s != "" {
      hide Join;
      JoinSplit(s[1..]);
      var rest := Split(s[1..]);
      assert s == [s[0]] + s[1..];
      if s[0] == ',' {
        JoinEmpty(rest);
      } else {
        assert rest == [rest[0]] + rest[1..];
        JoinHead([s[0]], rest[0], rest[1..]);
      }
    }
  }

  lemma JoinEmpty(rest: seq<string>)
    requires rest != []
    ensures Join([""] + rest) == "," + Join(rest)
  {
    assert ([""] + rest)[1..] == rest;
  }

  lemma StrictParts(line: string)
    requires ParseStrictly(line).Some?
    ensures var s := ParseStrictly(line).value;
      Split(line) == if s.kind == "Match" then ["MATCH", s.proxy]
                     else if s.kind == "DomainSuffix" then ["DOMAIN-SUFFIX", s.payload, s.proxy]
                     else ["IP-CIDR", s.payload, s.proxy, "no-resolve"]
    ensures ParseStrictly(line).value.kind == "Match" ==> ParseStrictly(line).value.payload == ""
  {
    hide Split;
  }

  /** A line that reads strictly is determined by how it reads. */
  lemma LineFromSeen(a: string, b: string)
    requires ParseStrictly(a).Some? && ParseStrictly(a) == ParseStrictly(b)
    ensures a == b
  {
    hide Split, ParseStrictly, Join;
    StrictParts(a);
    StrictParts(b);
    JoinSplit(a);
    JoinSplit(b);
  }

  lemma ShownRulesAreEqual(c: Config, e: Config, live: seq<Json>)
    requires Clear(c.rules) && Clear(e.rules) && |c.rules| == |e.rules| == |live|
    requires forall i | 0 <= i < |c.rules| :: RuleMatchesDesktop(c.rules[i], live[i])
    requires forall i | 0 <= i < |e.rules| :: ShowsRule(e.rules[i], live[i])
    ensures e.rules == c.rules
  {
    hide Parse, ParseStrictly;
    forall i | 0 <= i < |c.rules| ensures c.rules[i] == e.rules[i] {
      assert RuleMatchesDesktop(c.rules[i], live[i]) && ShowsRule(e.rules[i], live[i]);
      LineFromSeen(c.rules[i], e.rules[i]);
    }
  }

  /**
   Accepting what a core shows means: its proxies are those of a configuration stamped with this
   ticket's generation and digest, for the same channels, and its rules are this list, in this order.
   */
  lemma AcceptanceIsExact(c: Config, t: Ticket, d: Config, u: Ticket, e: Config, proxies: Json, rules: Json, general: Json)
    requires Rendered(c) && Rendered(d) && Rendered(e) && MatchesDesktop(c, t, proxies, rules, general)
    requires ShowsProxies(Stamp(d, u), proxies) && ShowsRules(e, rules)
    ensures u.generation == t.generation && u.digest == t.digest
    ensures Names(d) == Names(c)
    ensures e.rules == c.rules
  {
    ShownNames(d, u, proxies);
    assert {Marker(u)} == {Marker(t)};
    assert Marker(u) in {Marker(t)};
    MarkInjective(u.generation, u.digest, t.generation, t.digest);
    hide ShowsProxies, Marker, Parse, ParseStrictly, Names;
    ShownRulesAreEqual(c, e, Field(rules, "rules").items);
  }

  /** What is live is this list under this marker, whoever loaded it. */
  predicate LiveIs(live: Live, c: Config, t: Ticket) {
    IsOf(live.proxies, c, t) && live.rules.config.rules == c.rules && ModeOf(live.rules.config) == ModeOf(c)
  }

  /** With nothing moving the comparison decides exactly that. */
  lemma MatchesIffLive(c: Config, t: Ticket, live: Live, proxies: Json, rules: Json, general: Json)
    requires Rendered(c) && Rendered(live.proxies.config) && Rendered(live.rules.config)
    requires ShowsProxies(Stamp(live.proxies.config, live.proxies.ticket), proxies)
    requires ShowsRules(live.rules.config, rules) && ShowsGeneral(live.rules.config, general)
    ensures Matches(c, t, proxies, rules, general) <==> LiveIs(live, c, t)
  {
    var d, u, e := live.proxies.config, live.proxies.ticket, live.rules.config;
    if Matches(c, t, proxies, rules, general) {
      hide ShowsProxies, ShowsRules, Names, Marker, Parse, ParseStrictly;
      WebIsStricter(c, t, proxies, rules, general);
      AcceptanceIsExact(c, t, d, u, e, proxies, rules, general);
    }
    if LiveIs(live, c, t) { ThenMatches(c, t, d, u, e, proxies, rules, general); }
  }

  lemma ThenMatches(c: Config, t: Ticket, d: Config, u: Ticket, e: Config, proxies: Json, rules: Json, general: Json)
    requires Rendered(c) && Rendered(d) && Rendered(e)
    requires u.generation == t.generation && u.digest == t.digest && Names(d) == Names(c) && e.rules == c.rules && ModeOf(e) == ModeOf(c)
    requires ShowsProxies(Stamp(d, u), proxies) && ShowsRules(e, rules) && ShowsGeneral(e, general)
    ensures Matches(c, t, proxies, rules, general)
  {
    ShownNames(d, u, proxies);
    StampedTypes(d, u, proxies);
    assert Marker(u) == Marker(t);
    hide Parse, ParseStrictly, Marker, Names, ShowsProxies, RuleMatches, ShowsRule;
    forall i | 0 <= i < |c.rules| ensures RuleMatches(c.rules[i], Field(rules, "rules").items[i]) {
      ShownRuleMatches(e.rules[i], Field(rules, "rules").items[i]);
    }
  }

  // ---------------------------------------------------------------- torn reads

  /** A configuration as it was loaded, with the ticket in its marker. */
  datatype Loaded = Loaded(config: Config, ticket: Ticket)

  /** At any moment the core's proxies and rules may come from different loads. */
  datatype Live = Live(proxies: Loaded, rules: Loaded)

  /** Loading replaces the proxies first and the rules second. */
  predicate Loads(a: Live, b: Live) {
    b == a || b == a.(proxies := b.proxies) || b == a.(rules := a.proxies)
  }

  predicate History(h: seq<Live>) {
    && (forall i | 0 <= i < |h| :: Rendered(h[i].proxies.config) && Rendered(h[i].rules.config))
    && (forall i | 0 <= i < |h| - 1 :: Loads(h[i], h[i + 1]))
  }

  /** Between the moments a and d the proxies were replaced at most once. */
  predicate AtMostOneSwitch(h: seq<Live>, a: nat, d: nat)
    requires a <= d < |h|
  {
    exists k | a <= k <= d :: SwitchesAt(h, a, k, d)
  }

  predicate SwitchesAt(h: seq<Live>, a: nat, k: nat, d: nat)
    requires a <= k <= d < |h|
  {
    && (forall m | a <= m < k :: h[m].proxies == h[a].proxies)
    && (forall m | k <= m <= d :: h[m].proxies == h[d].proxies)
  }

  /** The read-back: proxies at a, rules at b, mode in between, and the proxies once more at d. */
  predicate ReadsBack(c: Config, t: Ticket, h: seq<Live>, a: nat, b: nat, d: nat, first: Json, rules: Json, general: Json, second: Json)
    requires a <= b <= d < |h|
  {
    && ShowsProxies(Stamp(h[a].proxies.config, h[a].proxies.ticket), first)
    && ShowsRules(h[b].rules.config, rules)
    && ShowsProxies(Stamp(h[d].proxies.config, h[d].proxies.ticket), second)
    && MatchesDesktop(c, t, first, rules, general) && MatchesDesktop(c, t, second, rules, general)
  }

  predicate IsOf(l: Loaded, c: Config, t: Ticket) {
    l.ticket.generation == t.generation && l.ticket.digest == t.digest && Names(l.config) == Names(c)
  }

  /** With at most one switch across the read-back, acceptance tells what was live when the rules were read. */
  lemma TornReadsAreRefused(c: Config, t: Ticket, h: seq<Live>, a: nat, b: nat, d: nat, first: Json, rules: Json, general: Json, second: Json)
    requires a <= b <= d < |h| && History(h) && Rendered(c) && AtMostOneSwitch(h, a, d)
    requires ReadsBack(c, t, h, a, b, d, first, rules, general, second)
    ensures IsOf(h[b].proxies, c, t) && h[b].rules.config.rules == c.rules
  {
    hide ShowsProxies, ShowsRules, MatchesDesktop, Rendered, Names;
    AcceptanceIsExact(c, t, h[a].proxies.config, h[a].proxies.ticket, h[b].rules.config, first, rules, general);
    AcceptanceIsExact(c, t, h[d].proxies.config, h[d].proxies.ticket, h[b].rules.config, second, rules, general);
    var k :| a <= k <= d && SwitchesAt(h, a, k, d);
    assert b < k ==> h[b].proxies == h[a].proxies;
  }

  lemma {:induction false} RulesComeFromProxies(h: seq<Live>, b: nat, g: nat)
    requires b <= g < |h| && History(h)
    ensures h[g].rules == h[b].rules || exists m | b <= m < g :: h[g].rules == h[m].proxies
  {
    if b < g {
      RulesComeFromProxies(h, b, g - 1);
      assert Loads(h[g - 1], h[g - 1 + 1]);
    }
  }

  /**
   The mode is read last, at a moment g of its own. What is live then has the ticket's marker and mode, and its rules are
   those that were read or have been loaded since under the ticket's marker.
   */
  lemma ModeIsTheTickets(c: Config, t: Ticket, h: seq<Live>, a: nat, b: nat, g: nat, d: nat, first: Json, rules: Json, general: Json, second: Json)
    requires a <= b <= g <= d < |h| && History(h) && Rendered(c) && AtMostOneSwitch(h, a, d)
    requires ReadsBack(c, t, h, a, b, d, first, rules, general, second) && ShowsGeneral(h[g].rules.config, general)
    ensures IsOf(h[g].proxies, c, t) && ModeOf(h[g].rules.config) == ModeOf(c)
    ensures h[g].rules.config.rules == c.rules || IsOf(h[g].rules, c, t)
  {
    hide ShowsProxies, ShowsRules, Rendered, Names;
    assert Field(general, "mode") == Wanted(c);
    hide MatchesDesktop;
    AcceptanceIsExact(c, t, h[a].proxies.config, h[a].proxies.ticket, h[b].rules.config, first, rules, general);
    AcceptanceIsExact(c, t, h[d].proxies.config, h[d].proxies.ticket, h[b].rules.config, second, rules, general);
    var k :| a <= k <= d && SwitchesAt(h, a, k, d);
    forall m | a <= m <= d ensures IsOf(h[m].proxies, c, t) {
      assert m < k ==> h[m].proxies == h[a].proxies;
      assert k <= m ==> h[m].proxies == h[d].proxies;
    }
    RulesComeFromProxies(h, b, g);
  }

  /** At the moment at which the rules are read the mode may be another: that of older rules that read the same. */
  lemma ModeMayLag(x: Loaded, mode: string, proxies: Json, rules: Json, general: Json)
    requires Rendered(x.config) && mode != ModeOf(x.config)
    requires ShowsProxies(Stamp(x.config, x.ticket), proxies) && ShowsRules(Stamp(x.config, x.ticket), rules) && ShowsGeneral(Stamp(x.config, x.ticket), general)
    ensures var old_ := Loaded(x.config.(mode := Some(mode)), x.ticket);
      var h := [Live(x, old_), Live(x, x)];
      && History(h) && AtMostOneSwitch(h, 0, 1) && ReadsBack(x.config, x.ticket, h, 0, 0, 1, proxies, rules, general, proxies)
      && ShowsGeneral(h[1].rules.config, general) && ModeOf(h[0].rules.config) != ModeOf(x.config)
  {
    hide ShowsProxies, ShowsRules, MatchesDesktop, Matches, Rendered, Stamp;
    AcceptsFaithfulView(x.config, x.ticket, proxies, rules, general);
    UnstampedRules(x.config, x.ticket, rules);
    ModeAside(x.config, mode, rules);
    UnstampedMode(x.config, x.ticket, general);
    var old_ := Loaded(x.config.(mode := Some(mode)), x.ticket);
    assert SwitchesAt([Live(x, old_), Live(x, x)], 0, 0, 1);
  }

  lemma UnstampedMode(c: Config, t: Ticket, general: Json)
    requires ShowsGeneral(Stamp(c, t), general)
    ensures ShowsGeneral(c, general)
  {
  }

  lemma ModeAside(c: Config, mode: string, rules: Json)
    requires Rendered(c) && ShowsRules(c, rules)
    ensures Rendered(c.(mode := Some(mode))) && ShowsRules(c.(mode := Some(mode)), rules)
  {
    hide Parse, ParseStrictly;
    var d := c.(mode := Some(mode));
    assert Clear(d.rules);
    forall i | 0 <= i < |d.rules| ensures ShowsRule(d.rules[i], Field(rules, "rules").items[i]) {
      assert ShowsRule(c.rules[i], Field(rules, "rules").items[i]);
    }
  }

  /** Two switches can fool it: there and back again, with the rules read in between. */
  lemma TwoSwitchesFool(x: Loaded, y: Loaded, proxies: Json, rules: Json, general: Json)
    requires Rendered(x.config) && Rendered(y.config) && !IsOf(y, x.config, x.ticket)
    requires ShowsProxies(Stamp(x.config, x.ticket), proxies) && ShowsRules(Stamp(x.config, x.ticket), rules) && ShowsGeneral(Stamp(x.config, x.ticket), general)
    ensures var h := [Live(x, x), Live(y, x), Live(y, y), Live(x, y)];
      History(h) && ReadsBack(x.config, x.ticket, h, 0, 1, 3, proxies, rules, general, proxies) && !IsOf(h[1].proxies, x.config, x.ticket)
  {
    hide ShowsProxies, ShowsRules, ShowsGeneral, MatchesDesktop, Matches, Rendered, Stamp, IsOf;
    AcceptsFaithfulView(x.config, x.ticket, proxies, rules, general);
    UnstampedRules(x.config, x.ticket, rules);
  }

  lemma UnstampedRules(c: Config, t: Ticket, rules: Json)
    requires ShowsRules(Stamp(c, t), rules)
    ensures ShowsRules(c, rules)
  {
    hide Parse, Marker;
    assert Stamp(c, t).rules == c.rules;
  }

  /** The second look at the proxies is needed: with one switch a single look can be fooled. */
  lemma OneLookIsNotEnough(x: Loaded, y: Loaded, proxies: Json, rules: Json, general: Json)
    requires Rendered(x.config) && Rendered(y.config) && !IsOf(y, x.config, x.ticket)
    requires ShowsProxies(Stamp(x.config, x.ticket), proxies) && ShowsRules(Stamp(x.config, x.ticket), rules) && ShowsGeneral(Stamp(x.config, x.ticket), general)
    ensures var h := [Live(x, x), Live(y, x)];
      History(h) && AtMostOneSwitch(h, 0, 1) && !IsOf(h[1].proxies, x.config, x.ticket)
      && ShowsRules(h[1].rules.config, rules) && MatchesDesktop(x.config, x.ticket, proxies, rules, general)
  {
    hide ShowsProxies, ShowsRules, ShowsGeneral, MatchesDesktop, Matches, Rendered, Stamp, IsOf;
    AcceptsFaithfulView(x.config, x.ticket, proxies, rules, general);
    UnstampedRules(x.config, x.ticket, rules);
    assert SwitchesAt([Live(x, x), Live(y, x)], 0, 1, 1);
  }
}
