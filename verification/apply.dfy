/** Applying a configuration: ticket, read-back, reload, read-back, cache flush, startup file, confirmation. */
module Apply {
  import opened Common
  import opened RuleText
  import opened Rules
  import opened Tickets
  import opened Readback

  // ---------------------------------------------------------------- rendering

  /** What one read transaction sees: the channels and their effective rules. */
  datatype Sources = Sources(channels: seq<string>, rules: seq<Rule>)

  /** Channel identifiers hold no comma. */
  predicate PlainIds(s: Sources) {
    (forall c | c in s.channels :: Plain(c)) && (forall r | r in s.rules :: Plain(r.channel))
  }

  function ChannelProxies(channels: seq<string>): (r: seq<Proxy>)
    ensures forall p | p in r :: p.kind == "socks5" && IsChannelName(p.name)
  {
    if channels == [] then []
    else
      assert ("ch-" + channels[0])[..3] == "ch-";
      [Proxy("ch-" + channels[0], "socks5")] + ChannelProxies(channels[1..])
  }

  /** Keeps what is not managed and replaces what is. */
  function Render(base: Config, s: Sources, ip: Parser): Config {
    base.(proxies := ChannelProxies(s.channels), groups := [], rules := Lines(s.rules, ip))
  }

  lemma {:induction false} ProxyOfEach(channels: seq<string>)
    ensures |ChannelProxies(channels)| == |channels|
    ensures forall k | 0 <= k < |channels| :: ChannelProxies(channels)[k] == Proxy("ch-" + channels[k], "socks5")
  {
    if channels != [] { ProxyOfEach(channels[1..]); }
  }

  /** There is exactly one SOCKS proxy for every channel, in the order of the channels, and what is not managed stays. */
  lemma RenderMakesProxies(base: Config, s: Sources, ip: Parser)
    ensures var c := Render(base, s, ip);
      && |c.proxies| == |s.channels| && (forall k | 0 <= k < |s.channels| :: c.proxies[k] == Proxy("ch-" + s.channels[k], "socks5"))
      && Names(c) == (set id | id in s.channels :: "ch-" + id)
      && c.mode == base.mode && c.rest == base.rest && c.groups == [] && c.rules == Lines(s.rules, ip)
  {
    var c := Render(base, s, ip);
    ProxyOfEach(s.channels);
    hide ChannelProxies, Lines;
    forall n ensures n in Names(c) <==> n in (set id | id in s.channels :: "ch-" + id) {
      if n in Names(c) { var p :| p in c.proxies && p.name == n; }
      if id :| id in s.channels && "ch-" + id == n {
        var k :| 0 <= k < |s.channels| && s.channels[k] == id;
        assert c.proxies[k] in c.proxies;
      }
    }
  }

  /** Every line leads to a proxy that is there, or to one of the core's own. */
  predicate Leads(line: string, names: set<string>) {
    Parse(line).Some? && (Parse(line).value.proxy in names || Parse(line).value.proxy in {"REJECT", "DIRECT"})
  }

  predicate AllLead(lines: seq<string>, names: set<string>) {
    forall i | 0 <= i < |lines| :: Leads(lines[i], names)
  }

  lemma LeadJoined(a: seq<string>, b: seq<string>, names: set<string>)
    requires AllLead(a, names) && AllLead(b, names)
    ensures AllLead(a + b, names)
  {
    hide Leads;
    forall i | 0 <= i < |a + b| ensures Leads((a + b)[i], names) {
      assert (a + b)[i] == if i < |a| then a[i] else b[i - |a|];
    }
  }

  lemma FixedLead(names: set<string>)
    ensures AllLead([REJECT, DIRECT], names)
  {
    RejectIsRead();
    DirectIsRead();
    hide Parse;
  }

  /** If every rule belongs to a listed channel, no line names a proxy that does not exist. */
  lemma LinesLead(s: Sources, ip: Parser, names: set<string>)
    requires PlainIds(s) && names == (set id | id in s.channels :: "ch-" + id) && forall r | r in s.rules :: r.channel in s.channels
    ensures AllLead(Lines(s.rules, ip), names)
  {
    hide AllLead, Emitted;
    ItemsLead(s, Domain, ip, names);
    ItemsLead(s, Ip, ip, names);
    FixedLead(names);
    LeadJoined(Print(Emitted(s.rules, Domain, ip)), Print(Emitted(s.rules, Ip, ip)), names);
    LeadJoined(Print(Emitted(s.rules, Domain, ip)) + Print(Emitted(s.rules, Ip, ip)), [REJECT, DIRECT], names);
  }

  /** Of the channels in s there is one proxy each, what is not managed is as it was, and every line leads somewhere. */
  predicate Serves(c: Config, s: Sources, base: Config) {
    && |c.proxies| == |s.channels| && (forall k | 0 <= k < |s.channels| :: c.proxies[k] == Proxy("ch-" + s.channels[k], "socks5"))
    && Names(c) == (set id | id in s.channels :: "ch-" + id)
    && c.mode == base.mode && c.rest == base.rest && c.groups == []
    && ((forall r | r in s.rules :: r.channel in s.channels) ==> AllLead(c.rules, Names(c)))
  }

  lemma RenderServes(base: Config, s: Sources, ip: Parser)
    requires PlainIds(s)
    ensures Serves(Render(base, s, ip), s, base)
  {
    RenderMakesProxies(base, s, ip);
    hide Render, Lines, AllLead, Names;
    if forall r | r in s.rules :: r.channel in s.channels { LinesLead(s, ip, Names(Render(base, s, ip))); }
  }

  lemma ItemsLead(s: Sources, kind: Kind, ip: Parser, names: set<string>)
    requires PlainIds(s) && names == (set id | id in s.channels :: "ch-" + id) && forall r | r in s.rules :: r.channel in s.channels
    ensures AllLead(Print(Emitted(s.rules, kind, ip)), names)
  {
    hide Emitted, NormalizeStored, Parse, ParseStrictly, Line;
    var items := Emitted(s.rules, kind, ip);
    forall i | 0 <= i < |items| ensures Leads(Line(items[i]), names) {
      EmittedSound(s.rules, kind, ip, items[i]);
      NormalizedIsSafe(kind, s.rules[items[i].pos].pattern, ip);
      PrintedRuleIsRead(items[i]);
      assert s.rules[items[i].pos] in s.rules;
    }
  }

  /** Rendering over the stamped configuration gives the unstamped one back. */
  lemma RenderForgetsStamp(base: Config, s: Sources, ip: Parser, t: Ticket)
    ensures Render(Stamp(Render(base, s, ip), t), s, ip) == Render(base, s, ip)
  {
  }

  lemma ItemsAreClear(rules: seq<Rule>, kind: Kind, ip: Parser)
    requires forall r | r in rules :: Plain(r.channel)
    ensures Clear(Print(Emitted(rules, kind, ip)))
  {
    hide Emitted, NormalizeStored, Parse, ParseStrictly, Line;
    var items := Emitted(rules, kind, ip);
    forall i | 0 <= i < |items| ensures Parse(Print(items)[i]).Some? && ParseStrictly(Print(items)[i]) == Parse(Print(items)[i]) {
      EmittedSound(rules, kind, ip, items[i]);
      NormalizedIsSafe(kind, rules[items[i].pos].pattern, ip);
      PrintedRuleIsRead(items[i]);
    }
  }

  lemma ClearJoined(a: seq<string>, b: seq<string>)
    requires Clear(a) && Clear(b)
    ensures Clear(a + b)
  {
    hide Parse, ParseStrictly;
    forall i | 0 <= i < |a + b| ensures Parse((a + b)[i]).Some? && ParseStrictly((a + b)[i]) == Parse((a + b)[i]) {
      assert (a + b)[i] == if i < |a| then a[i] else b[i - |a|];
    }
  }

  lemma FixedAreClear()
    ensures Clear([REJECT, DIRECT])
  {
    RejectIsRead();
    DirectIsRead();
    hide Parse, ParseStrictly;
  }

  lemma LinesAreClear(rules: seq<Rule>, ip: Parser)
    requires forall r | r in rules :: Plain(r.channel)
    ensures Clear(Lines(rules, ip))
  {
    hide Clear, Emitted;
    ItemsAreClear(rules, Domain, ip);
    ItemsAreClear(rules, Ip, ip);
    FixedAreClear();
    ClearJoined(Print(Emitted(rules, Domain, ip)), Print(Emitted(rules, Ip, ip)));
    ClearJoined(Print(Emitted(rules, Domain, ip)) + Print(Emitted(rules, Ip, ip)), [REJECT, DIRECT]);
  }

  /** Every rendered configuration can be recognised in what the core shows. */
  lemma RenderIsRendered(base: Config, s: Sources, ip: Parser)
    requires PlainIds(s)
    ensures Rendered(Render(base, s, ip))
  {
    hide Clear, Lines;
    LinesAreClear(s.rules, ip);
  }

  // ---------------------------------------------------------------- views

  function Entry(kind: string): Json { JObject(map["type" := JText(kind)]) }

  /** The least a core can show of its proxies. */
  function ProxyView(l: Loaded): Json {
    JObject(map["proxies" := JObject(map n | n in Names(Stamp(l.config, l.ticket)) :: Entry(if n == Marker(l.ticket) then "Direct" else "Socks5"))])
  }

  function RuleEntry(line: string): Json {
    var s := if Parse(line).Some? then Parse(line).value else Seen("", "", "");
    JObject(map["type" := JText(s.kind), "payload" := JText(s.payload), "proxy" := JText(s.proxy)])
  }

  function RuleView(l: Loaded): Json {
    JObject(map["rules" := JArray(seq(|l.config.rules|, i requires 0 <= i < |l.config.rules| => RuleEntry(l.config.rules[i])))])
  }

  function GeneralView(l: Loaded): Json {
    JObject(map["mode" := JText(ModeOf(l.config))])
  }

  lemma ProxyViewShows(l: Loaded)
    requires Rendered(l.config)
    ensures ShowsProxies(Stamp(l.config, l.ticket), ProxyView(l))
  {
    var c := Stamp(l.config, l.ticket);
    var entries := ProxyView(l).fields["proxies"].fields;
    MarkerIsMark(l.ticket);
    MarkIsNoChannel(Marker(l.ticket));
    hide Marker;
    forall p | p in c.proxies ensures p.name in entries && Field(entries[p.name], "type") == JText(LiveType(p.kind)) {
      assert p.name in Names(c);
    }
  }

  lemma RuleViewShows(l: Loaded)
    requires Rendered(l.config)
    ensures ShowsRules(l.config, RuleView(l)) && ShowsRules(Stamp(l.config, l.ticket), RuleView(l))
  {
    hide Parse, ParseStrictly, Marker;
  }

  // ---------------------------------------------------------------- the world of one application

  datatype File = Missing | Unreadable | Holds(config: Config)

  function BaseOf(f: File): Config {
    if f.Holds? then f.config else Config(None, [], [], [], map[])
  }

  /** What was done to the core and to the startup file, in order. */
  datatype Act = Look(result: Option<bool>) | Reload(acknowledged: bool) | Flush(ok: bool) | Write(ok: bool)

  datatype Answer = Applied | Kept | Broken

  /** What it takes to see a configuration live: one look, or a look, an answered reload and another look. */
  function VerifyActs(first: Option<bool>): seq<Act> {
    if first == Some(true) then [Look(first)] else [Look(first), Reload(true), Look(Some(true))]
  }

  /** What is done about it then: flush, write, and look again if either was done. */
  function DeliverActs(flush: bool, write: bool): seq<Act> {
    (if flush then [Flush(true)] else []) + (if write then [Write(true)] else []) + (if flush || write then [Look(Some(true))] else [])
  }

  /** A read-back that started at or after the moment from has accepted. */
  ghost predicate SeenLive(c: Config, t: Ticket, h: seq<Live>, from: nat) {
    exists a, b, d, first, rules, general, second | from <= a <= b <= d < |h| :: ReadsBack(c, t, h, a, b, d, first, rules, general, second)
  }

  lemma ReadsBackLater(c: Config, t: Ticket, h: seq<Live>, k: seq<Live>, a: nat, b: nat, d: nat, first: Json, rules: Json, general: Json, second: Json)
    requires a <= b <= d < |h| && h <= k && ReadsBack(c, t, h, a, b, d, first, rules, general, second)
    ensures ReadsBack(c, t, k, a, b, d, first, rules, general, second)
  {
    hide ShowsProxies, ShowsRules, MatchesDesktop, Stamp;
    assert k[a] == h[a] && k[b] == h[b] && k[d] == h[d];
  }

  lemma SeenLater(c: Config, t: Ticket, h: seq<Live>, k: seq<Live>, from: nat)
    requires SeenLive(c, t, h, from) && h <= k
    ensures SeenLive(c, t, k, from)
  {
    hide ReadsBack, Rendered;
    var a, b, d, first, rules, general, second :| from <= a <= b <= d < |h| && ReadsBack(c, t, h, a, b, d, first, rules, general, second);
    ReadsBackLater(c, t, h, k, a, b, d, first, rules, general, second);
  }

  lemma SeenFromEarlier(c: Config, t: Ticket, h: seq<Live>, from: nat, to: nat)
    requires SeenLive(c, t, h, to) && from <= to
    ensures SeenLive(c, t, h, from)
  {
    hide ReadsBack;
  }

  class Applier {
    const store: TicketStore
    const ip: Parser
    const hash: Config -> string
    /** Nothing but the application itself moves, and its calls succeed. */
    const quiet: bool

    var file: File
    var live: Live
    var sources: Sources
    ghost var history: seq<Live>
    ghost var versions: map<int, Sources>
    ghost var trace: seq<Act>

    ghost predicate Valid()
      reads this, store
    {
      && history != [] && history[|history| - 1] == live && History(history)
      && store.row.sourceRevision in versions && versions[store.row.sourceRevision] == sources
      && (forall v | v in versions :: v <= store.row.sourceRevision && PlainIds(versions[v]))
      && store.row.desiredRevision <= store.row.sourceRevision
      && (forall c :: ValidDigest(hash(c)))
    }

    /** Only what others may do has happened since. */
    twostate predicate Passed()
      reads this, store
    {
      && old(history) <= history
      && (forall v | v in old(versions) :: v in versions && versions[v] == old(versions)[v])
      && store.row == old(store.row).(sourceRevision := store.row.sourceRevision)
      && old(store.row).sourceRevision <= store.row.sourceRevision
      && (quiet ==> store.row == old(store.row) && sources == old(sources))
    }

    constructor (store: TicketStore, ip: Parser, hash: Config -> string, quiet: bool, file: File, live: Live, sources: Sources)
      requires store.row == Fresh && PlainIds(sources) && Rendered(live.proxies.config) && Rendered(live.rules.config)
      requires forall c :: ValidDigest(hash(c))
      ensures Valid() && this.store == store && this.quiet == quiet && this.file == file && this.live == live && this.sources == sources
    {
      this.store, this.ip, this.hash, this.quiet := store, ip, hash, quiet;
      this.file, this.live, this.sources := file, live, sources;
      history, versions, trace := [live], map[0 := sources], [];
    }

    /** Others save channels and rules and load configurations of their own. */
    method Others()
      requires Valid()
      modifies this`live, this`sources, this`history, this`versions, store
      ensures Valid() && Passed()
      ensures quiet ==> live == old(live) && history == old(history)
    {
      hide Rendered, PlainIds, ValidDigest;
      var n: nat := *;
      if quiet { return; }
      while n > 0
        invariant Valid() && Passed()
      {
        if * {
          var s: Sources := *;
          if PlainIds(s) {
            store.Bump();
            sources := s;
            versions := versions[store.row.sourceRevision := s];
          }
        } else {
          var l: Loaded := *;
          if Rendered(l.config) {
            var first: bool := *;
            var next := if first then live.(proxies := l) else live.(rules := live.proxies);
            HistoryGrows(history, next);
            live, history := next, history + [next];
          }
        }
        n := n - 1;
      }
    }

    // what the core shows at this moment, with whatever else it may show

    method ShowProxies() returns (j: Json)
      requires Rendered(live.proxies.config)
      ensures ShowsProxies(Stamp(live.proxies.config, live.proxies.ticket), j)
    {
      ProxyViewShows(live.proxies);
      j := *;
      if !ShowsProxies(Stamp(live.proxies.config, live.proxies.ticket), j) { j := ProxyView(live.proxies); }
    }

    method ShowRules() returns (j: Json)
      requires Rendered(live.rules.config)
      ensures ShowsRules(live.rules.config, j)
    {
      RuleViewShows(live.rules);
      j := *;
      if !ShowsRules(live.rules.config, j) { j := RuleView(live.rules); }
    }

    method ShowGeneral() returns (j: Json)
      ensures ShowsGeneral(live.rules.config, j)
    {
      j := *;
      if !ShowsGeneral(live.rules.config, j) { j := GeneralView(live.rules); }
    }

    /** Whether a request to the core is answered. */
    method Answers() returns (ok: bool)
      ensures quiet ==> ok
    {
      ok := true;
      if !quiet { ok := *; }
    }

    /** Proxies, rules and mode, one after the other; also the moments at which the first two were read. */
    method Gather() returns (ok: bool, proxies: Json, rules: Json, general: Json, ghost a: nat, ghost b: nat)
      requires Valid()
      modifies this`live, this`sources, this`history, this`versions, store
      ensures Valid() && Passed() && (quiet ==> ok && live == old(live) && history == old(history))
      ensures |old(history)| - 1 <= a <= b < |history|
      ensures ok ==> ShowsProxies(Stamp(history[a].proxies.config, history[a].proxies.ticket), proxies)
      ensures ok ==> ShowsRules(history[b].rules.config, rules)
      ensures quiet ==> ShowsGeneral(live.rules.config, general) && history[a] == live && history[b] == live
    {
      hide Rendered, PlainIds, ValidDigest, ShowsProxies, ShowsRules, ShowsGeneral, Stamp;
      rules, general := JNull, JNull;
      a, b := |history| - 1, |history| - 1;
      proxies := ShowProxies();
      ok := Answers();
      if !ok { return; }
      Others();
      b := |history| - 1;
      rules := ShowRules();
      ok := Answers();
      if !ok { return; }
      Others();
      general := ShowGeneral();
      ok := Answers();
    }

    /** Proxies, rules, mode, and the proxies once more; nothing if a request fails. */
    method ReadBack(c: Config, t: Ticket) returns (r: Option<bool>)
      requires Valid() && Rendered(c)
      modifies this`live, this`sources, this`history, this`versions, this`trace, store
      ensures Valid() && Passed() && trace == old(trace) + [Look(r)]
      ensures r == Some(true) ==> SeenLive(c, t, history, |old(history)| - 1)
      ensures quiet ==> r == Some(LiveIs(live, c, t)) && live == old(live) && history == old(history)
    {
      hide Rendered, PlainIds, ValidDigest, ShowsProxies, ShowsRules, ShowsGeneral, Matches, LiveIs, Stamp, SeenLive, History;
      r := None;
      ghost var a, b;
      var ok, proxies, rules, general;
      ok, proxies, rules, general, a, b := Gather();
      if ok {
        r := Some(Matches(c, t, proxies, rules, general));
        LiveRendered(history, live);
        if quiet { MatchesIffLive(c, t, live, proxies, rules, general); }
        if r == Some(true) {
          ghost var h := history;
          Others();
          LiveRendered(history, live);
          var second := ShowProxies();
          ok := Answers();
          if !ok { r := None; }
          else {
            r := Some(Matches(c, t, second, rules, general));
            if quiet { MatchesIffLive(c, t, live, second, rules, general); }
            if r == Some(true) { NowSeen(c, t, h, history, |old(history)| - 1, a, b, proxies, rules, general, second); }
          }
        }
      }
      trace := trace + [Look(r)];
    }

    /** Asks the core to load a configuration: proxies first, rules second, perhaps cut short, perhaps without an answer. */
    method Load(c: Config, t: Ticket) returns (acknowledged: bool)
      requires Valid() && Rendered(c)
      modifies this`live, this`history, this`trace
      ensures Valid() && old(history) <= history && trace == old(trace) + [Reload(acknowledged)]
      ensures quiet ==> acknowledged && live == Live(Loaded(c, t), Loaded(c, t))
    {
      hide Rendered, PlainIds, ValidDigest, History;
      var stage: nat := *;
      acknowledged := *;
      if quiet { acknowledged, stage := true, 2; }
      LiveRendered(history, live);
      if stage >= 1 {
        HistoryGrows(history, live.(proxies := Loaded(c, t)));
        live := live.(proxies := Loaded(c, t));
        history := history + [live];
      }
      if stage >= 2 {
        LiveRendered(history, live);
        HistoryGrows(history, live.(rules := live.proxies));
        live := live.(rules := live.proxies);
        history := history + [live];
      }
      trace := trace + [Reload(acknowledged)];
    }

    method FlushCache() returns (ok: bool)
      modifies this`trace
      ensures trace == old(trace) + [Flush(ok)] && (quiet ==> ok)
    {
      ok := Answers();
      trace := trace + [Flush(ok)];
    }

    /** Replaces the startup file as a whole, or fails and leaves it. */
    method WriteFile(c: Config) returns (ok: bool)
      modifies this`file, this`trace
      ensures trace == old(trace) + [Write(ok)] && (quiet ==> ok)
      ensures file == if ok then Holds(c) else old(file)
    {
      ok := Answers();
      if ok { file := Holds(c); }
      trace := trace + [Write(ok)];
    }

    /** Snapshot, render, fingerprint and prepare, again if the sources have moved in between. */
    method Draft(base: Config) returns (t: Option<Ticket>, c: Config)
      requires Valid()
      modifies this`live, this`sources, this`history, this`versions, store
      ensures Valid() && old(history) <= history
      ensures t.Some? ==> Current(store.row, t.value) && t.value.digest == hash(c) && !t.value.routingOff && store.row.lastError.Some?
      ensures t.Some? ==> t.value.revision in versions && c == Render(base, versions[t.value.revision], ip) && Rendered(c)
      ensures t.None? ==> Pending(store.row, false) && store.row.sourceRevision >= old(store.row).sourceRevision + 8
      ensures quiet ==> t.Some? && sources == old(sources) && live == old(live) && t.value.revision == store.row.sourceRevision
      ensures quiet ==> t.value == NextTicket(old(store.row), old(store.row).sourceRevision, false, hash(c))
    {
      hide Rendered, PlainIds, Render, History;
      t, c := None, base;
      var tries := 0;
      while tries < 8
        invariant Valid() && old(history) <= history && t.None?
        invariant tries > 0 ==> store.row.sourceRevision > store.row.desiredRevision && !quiet
        invariant tries <= 8 && store.row.sourceRevision >= old(store.row).sourceRevision + tries
        invariant quiet ==> store.row == old(store.row) && sources == old(sources) && live == old(live)
      {
        var revision := store.row.sourceRevision;
        c := Render(base, sources, ip);
        RenderIsRendered(base, sources, ip);
        Others();
        t := store.Prepare(revision, false, hash(c));
        if t.Some? { return; }
        tries := tries + 1;
      }
    }

    /** The ticket is still the latest and carries an error or the mark of being unconfirmed. */
    ghost predicate Open(c: Config, t: Ticket)
      reads this, store
    {
      && Valid() && Rendered(c) && Current(store.row, t) && store.row.lastError.Some?
      && t.revision in versions
    }

    /** Keeps the invariant and what callers know of the past. */
    twostate predicate Onward(c: Config, t: Ticket)
      reads this, store
    {
      && Open(c, t) && old(history) <= history
      && (forall v | v in old(versions) :: v in versions && versions[v] == old(versions)[v])
      && (quiet ==> sources == old(sources) && store.row.sourceRevision == old(store.row).sourceRevision)
    }

    /** Reloads and reads back. */
    method Reloaded(c: Config, t: Ticket) returns (ok: bool)
      requires Open(c, t)
      modifies this`live, this`sources, this`history, this`versions, this`trace, store
      ensures Onward(c, t)
      ensures ok ==> SeenLive(c, t, history, |old(history)| - 1) && trace == old(trace) + [Reload(true), Look(Some(true))]
      ensures quiet ==> ok && LiveIs(live, c, t)
    {
      hide Rendered, PlainIds, ValidDigest, History, LiveIs, SeenLive;
      var acknowledged := Load(c, t);
      LoadedIsLive(c, t);
      ghost var from := |history| - 1;
      var second := ReadBack(c, t);
      if second == Some(true) { SeenFromEarlier(c, t, history, |old(history)| - 1, from); }
      ok := Note(c, t, acknowledged, second);
    }

    /** Writes down what a reload and the look after it have shown. */
    method Note(c: Config, t: Ticket, acknowledged: bool, second: Option<bool>) returns (ok: bool)
      requires Open(c, t)
      modifies store
      ensures Open(c, t) && store.row.sourceRevision == old(store.row).sourceRevision
      ensures ok <==> acknowledged && second == Some(true)
    {
      hide Rendered, PlainIds, ValidDigest, History;
      var done;
      if second.None? {
        done := store.Failed(t, "readback_failed");
        return false;
      }
      if !second.value {
        done := store.Failed(t, if acknowledged then "readback_mismatch" else "reload_failed");
        return false;
      }
      done := store.Observed(t);
      ok := acknowledged;
      if !ok { done := store.Failed(t, "reload_failed"); }
    }

    /** Reads back, reloads if that is needed, and reads back again. */
    method Verify(c: Config, t: Ticket) returns (ok: bool, first: Option<bool>)
      requires Open(c, t)
      modifies this`live, this`sources, this`history, this`versions, this`trace, store
      ensures Onward(c, t)
      ensures ok ==> SeenLive(c, t, history, |old(history)| - 1) && trace == old(trace) + VerifyActs(first)
      ensures quiet ==> ok && LiveIs(live, c, t)
      ensures quiet && LiveIs(old(live), c, t) ==> first == Some(true) && live == old(live)
    {
      hide Rendered, PlainIds, ValidDigest, History, LiveIs, SeenLive;
      first := ReadBack(c, t);
      if first == Some(true) {
        var done := store.Observed(t);
        return true, first;
      }
      ghost var from := |history| - 1;
      ok := Reloaded(c, t);
      if ok { SeenFromEarlier(c, t, history, |old(history)| - 1, from); }
    }

    /** Looks once more after a flush or a write. */
    method LookAgain(c: Config, t: Ticket) returns (ok: bool)
      requires Open(c, t)
      modifies this`live, this`sources, this`history, this`versions, this`trace, store
      ensures Onward(c, t)
      ensures ok ==> SeenLive(c, t, history, |old(history)| - 1) && trace == old(trace) + [Look(Some(true))]
      ensures quiet ==> ok == LiveIs(live, c, t) && live == old(live)
    {
      hide Rendered, PlainIds, ValidDigest, History, LiveIs, SeenLive;
      var done;
      var again := ReadBack(c, t);
      ok := again == Some(true);
      if again.None? {
        done := store.Failed(t, "readback_failed");
      } else if !ok {
        done := store.Failed(t, "readback_mismatch");
      }
    }

    /** Flushes the cache if the core was right already, writes the startup file if it differs, and looks once more. */
    method Deliver(c: Config, t: Ticket, base: Config, needsFlush: bool) returns (ok: bool)
      requires Open(c, t)
      modifies this`file, this`live, this`sources, this`history, this`versions, this`trace, store
      ensures Onward(c, t)
      ensures ok ==> file == (if base != Stamp(c, t) then Holds(Stamp(c, t)) else old(file))
      ensures ok ==> trace == old(trace) + DeliverActs(needsFlush, base != Stamp(c, t))
      ensures ok && (needsFlush || base != Stamp(c, t)) ==> SeenLive(c, t, history, |old(history)| - 1)
      ensures quiet ==> live == old(live) && (LiveIs(live, c, t) ==> ok)
    {
      hide Rendered, PlainIds, ValidDigest, History, LiveIs, SeenLive, Stamp;
      var done;
      if needsFlush {
        ok := FlushCache();
        if !ok {
          done := store.Failed(t, "dns_flush_failed");
          return;
        }
      }
      var stamped := Stamp(c, t);
      if base != stamped {
        ok := WriteFile(stamped);
        if !ok {
          done := store.Failed(t, "write_failed");
          return;
        }
      }
      ok := true;
      if base != stamped || needsFlush { ok := LookAgain(c, t); }
    }

    /** Everything is in force: file, core and row agree on c and t, and the sources still render to c. */
    ghost predicate Settled(c: Config, t: Ticket)
      reads this, store
    {
      && Valid() && Rendered(c) && file == Holds(Stamp(c, t)) && c == Render(Stamp(c, t), sources, ip)
      && Current(store.row, t) && t.digest == hash(c) && !Pending(store.row, false) && LiveIs(live, c, t)
    }

    /** From the ticket to the answer. */
    method Carry(base: Config, c: Config, t: Ticket, previous: Row) returns (answer: Answer, first: Option<bool>)
      requires Open(c, t) && !t.routingOff
      modifies this`file, this`live, this`sources, this`history, this`versions, this`trace, store
      ensures Valid() && answer != Broken && old(history) <= history
      ensures forall v | v in old(versions) :: v in versions && versions[v] == old(versions)[v]
      ensures answer == Applied ==> Current(store.row, t) && !Pending(store.row, false) && SeenLive(c, t, history, |old(history)| - 1)
      ensures answer == Applied ==> file == (if base != Stamp(c, t) then Holds(Stamp(c, t)) else old(file))
      ensures answer == Applied ==> trace == old(trace) + VerifyActs(first) + DeliverActs(NeedsFlush(first, previous, t), base != Stamp(c, t))
      ensures answer == Kept ==> Pending(store.row, false)
      ensures quiet && old(store.row).sourceRevision == t.revision ==> answer == Applied && LiveIs(live, c, t) && sources == old(sources)
      ensures quiet && LiveIs(old(live), c, t) ==> first == Some(true) && live == old(live)
    {
      hide Rendered, PlainIds, ValidDigest, History, LiveIs, SeenLive, Stamp, VerifyActs, DeliverActs;
      answer := Kept;
      var ok;
      ok, first := Verify(c, t);
      if !ok { return; }
      ghost var h := history;
      var needsFlush := NeedsFlush(first, previous, t);
      ok := Deliver(c, t, base, needsFlush);
      SeenSince(c, t, h, history, |old(history)| - 1);
      if !ok { return; }
      var done := store.Confirmed(t);
      h := history;
      Others();
      SeenSince(c, t, h, history, |old(history)| - 1);
      var pending := store.Status(false);
      if !pending { answer := Applied; }
    }

    /** What an answer of 204 stands for, given the file, the row and the trace from before. */
    ghost predicate InForce(c: Config, t: Ticket, first: Option<bool>, before: File, row: Row, from: nat, done: seq<Act>)
      reads this, store
    {
      && Valid() && Rendered(c)
      && Current(store.row, t) && !Pending(store.row, false) && t.revision == store.row.sourceRevision
      && c == Render(BaseOf(before), sources, ip) && t.digest == hash(c)
      && file == Holds(Stamp(c, t))
      && SeenLive(c, t, history, from)
      && Serves(c, sources, BaseOf(before))
      && var flush, write := first == Some(true) && (row.desiredRevision != t.revision || row.lastError.Some?), BaseOf(before) != Stamp(c, t);
         trace == done + (if first == Some(true) then [Look(Some(true))] else [Look(first), Reload(true), Look(Some(true))])
           + ((if flush then [Flush(true)] else []) + (if write then [Write(true)] else []) + (if flush || write then [Look(Some(true))] else []))
    }

    /** One application, under the lock that keeps others from applying at the same time. */
    method Apply() returns (answer: Answer, ghost c: Config, ghost t: Ticket, ghost first: Option<bool>)
      requires Valid()
      modifies this`file, this`live, this`sources, this`history, this`versions, this`trace, store
      ensures Valid() && (answer == Broken <==> old(file).Unreadable?)
      ensures answer == Applied ==> InForce(c, t, first, old(file), old(store.row), |old(history)| - 1, old(trace))
      ensures answer == Kept ==> Pending(store.row, false)
      ensures quiet && answer != Broken ==> answer == Applied && Settled(c, t) && sources == old(sources)
      ensures forall d, u | quiet && old(Settled(d, u)) :: Unchanged(d, u, c, t) && trace == old(trace) + [Look(Some(true))]
                && live == old(live) && file == old(file)
    {
      hide Rendered, PlainIds, ValidDigest, History, LiveIs, SeenLive, Stamp, Render, VerifyActs, DeliverActs, Serves;
      c, t, first := BaseOf(file), Ticket(0, false, 0, 0, ""), None;
      if file.Unreadable? { return Broken, c, t, first; }
      var base := BaseOf(file);
      Others();
      var previous := store.row;
      ghost var h := history;
      var ticket, config := Draft(base);
      if ticket.None? { return Kept, c, t, first; }
      c, t := config, ticket.value;
      ghost var h1 := history;
      var look;
      answer, look := Carry(base, config, ticket.value, previous);
      first := look;
      if answer == Applied {
        SeenFromEarlier(c, t, history, |old(history)| - 1, |h1| - 1);
        StampIsNotEmpty(c, t, old(file));
        RenderForgetsStamp(base, sources, ip, t);
        RenderServes(base, sources, ip);
        ActsSpelledOut(first, NeedsFlush(first, previous, t), base != Stamp(c, t));
      }
      forall d, u | quiet && old(Settled(d, u))
        ensures Unchanged(d, u, c, t) && trace == old(trace) + [Look(Some(true))] && live == old(live) && file == old(file)
      {
        SettledAgain(d, u, c, t, old(store.row), old(live));
        OneLook();
      }
    }
  }

  /** The same configuration under the same marker. */
  predicate Unchanged(d: Config, u: Ticket, c: Config, t: Ticket) {
    c == d && t.generation == u.generation && t.digest == u.digest && Stamp(c, t) == Stamp(d, u)
  }

  /** A core that was right before the reload may still hold old addresses, if the sources moved or the last run failed. */
  predicate NeedsFlush(first: Option<bool>, previous: Row, t: Ticket) {
    first == Some(true) && (previous.desiredRevision != t.revision || previous.lastError.Some?)
  }

  /** The desktop program does not flush again merely because the startup file could not be delivered. */
  predicate NeedsFlushDesktop(first: Option<bool>, previous: Row, t: Ticket) {
    first == Some(true) && (previous.desiredRevision != t.revision
      || (previous.lastError.Some? && previous.lastError.value !in {"delivery_failed", "write_failed"}))
  }

  /** The two programs flush alike but for that one case. */
  lemma FlushesCompared(first: Option<bool>, previous: Row, t: Ticket)
    ensures NeedsFlushDesktop(first, previous, t) ==> NeedsFlush(first, previous, t)
    ensures NeedsFlush(first, previous, t) && !NeedsFlushDesktop(first, previous, t) <==>
              first == Some(true) && previous.desiredRevision == t.revision && previous.lastError in {Some("delivery_failed"), Some("write_failed")}
  {
  }

  /** An attempt that finds the core right and fails to deliver the startup file, with the error it leaves behind. */
  function Undelivered(row: Row, digest: string, code: string): Row {
    ReadBack(Prepared(row, NextTicket(row, row.sourceRevision, false, digest)), Some("unconfirmed")).(lastError := Some(code))
  }

  /** How often n such attempts in a row flush the cache. */
  function Flushes(row: Row, digest: string, code: string, n: nat, desktop: bool): nat
    decreases n
  {
    if n == 0 then 0
    else
      var t := NextTicket(row, row.sourceRevision, false, digest);
      var flush := if desktop then NeedsFlushDesktop(Some(true), row, t) else NeedsFlush(Some(true), row, t);
      (if flush then 1 else 0) + Flushes(Undelivered(row, digest, code), digest, code, n - 1, desktop)
  }

  /** With the file undeliverable the Web program flushes on every retry, and the desktop program never again. */
  lemma {:induction false} RetriesFlush(row: Row, digest: string, code: string, n: nat)
    requires code in {"write_failed", "delivery_failed"} && row.lastError == Some(code) && row.desiredRevision == row.sourceRevision
    ensures Flushes(row, digest, code, n, false) == n && Flushes(row, digest, code, n, true) == 0
    decreases n
  {
    if n > 0 { RetriesFlush(Undelivered(row, digest, code), digest, code, n - 1); }
  }

  /**
   Whatever came before: of n + 1 attempts that fail to deliver the file the first flushes as each program's rule says, and of the
   others all do in the Web program and none in the desktop program.
   */
  lemma FlushesOverRetries(row: Row, digest: string, code: string, n: nat)
    requires code in {"write_failed", "delivery_failed"}
    ensures var t := NextTicket(row, row.sourceRevision, false, digest);
      && Flushes(row, digest, code, n + 1, false) == n + (if NeedsFlush(Some(true), row, t) then 1 else 0)
      && Flushes(row, digest, code, n + 1, true) == (if NeedsFlushDesktop(Some(true), row, t) then 1 else 0)
  {
    RetriesFlush(Undelivered(row, digest, code), digest, code, n);
  }

  lemma StampIsNotEmpty(c: Config, t: Ticket, f: File)
    requires !f.Unreadable?
    ensures BaseOf(f) == Stamp(c, t) ==> f == Holds(Stamp(c, t))
  {
  }

  lemma ActsSpelledOut(first: Option<bool>, flush: bool, write: bool)
    ensures VerifyActs(first) == if first == Some(true) then [Look(Some(true))] else [Look(first), Reload(true), Look(Some(true))]
    ensures DeliverActs(flush, write) ==
      (if flush then [Flush(true)] else []) + (if write then [Write(true)] else []) + (if flush || write then [Look(Some(true))] else [])
  {
  }

  lemma OneLook()
    ensures VerifyActs(Some(true)) + DeliverActs(false, false) == [Look(Some(true))]
  {
  }

  lemma SettledAgain(d: Config, u: Ticket, c: Config, t: Ticket, row: Row, live: Live)
    requires c == d && Current(row, u) && !Pending(row, false) && t == NextTicket(row, row.sourceRevision, false, u.digest)
    ensures Unchanged(d, u, c, t) && (LiveIs(live, d, u) <==> LiveIs(live, c, t)) && !NeedsFlush(Some(true), row, t)
  {
  }

  lemma SeenSince(c: Config, t: Ticket, h: seq<Live>, k: seq<Live>, from: nat)
    requires h <= k
    ensures SeenLive(c, t, h, from) ==> SeenLive(c, t, k, from)
  {
    hide ReadsBack;
    if SeenLive(c, t, h, from) { SeenLater(c, t, h, k, from); }
  }

  lemma LoadedIsLive(c: Config, t: Ticket)
    ensures LiveIs(Live(Loaded(c, t), Loaded(c, t)), c, t)
  {
  }

  lemma LiveRendered(h: seq<Live>, live: Live)
    requires History(h) && h != [] && h[|h| - 1] == live
    ensures Rendered(live.proxies.config) && Rendered(live.rules.config)
  {
  }

  lemma NowSeen(c: Config, t: Ticket, h: seq<Live>, k: seq<Live>, from: nat, a: nat, b: nat, first: Json, rules: Json, general: Json, second: Json)
    requires Rendered(c) && from <= a <= b < |h| && h <= k
    requires ShowsProxies(Stamp(h[a].proxies.config, h[a].proxies.ticket), first) && ShowsRules(h[b].rules.config, rules)
    requires ShowsProxies(Stamp(k[|k| - 1].proxies.config, k[|k| - 1].proxies.ticket), second)
    requires Matches(c, t, first, rules, general) && Matches(c, t, second, rules, general)
    ensures SeenLive(c, t, k, from)
  {
    WebIsStricter(c, t, first, rules, general);
    WebIsStricter(c, t, second, rules, general);
    hide Rendered, ShowsProxies, ShowsRules, Matches, MatchesDesktop, Stamp;
    assert ReadsBack(c, t, k, a, b, |k| - 1, first, rules, general, second);
  }

  lemma HistoryGrows(h: seq<Live>, next: Live)
    requires History(h) && h != [] && Loads(h[|h| - 1], next) && Rendered(next.proxies.config) && Rendered(next.rules.config)
    ensures History(h + [next])
  {
    hide Rendered;
    var k := h + [next];
    forall i | 0 <= i < |k| - 1 ensures Loads(k[i], k[i + 1]) {
      if i + 1 < |h| { assert Loads(h[i], h[i + 1]); }
    }
  }
}
