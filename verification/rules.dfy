/** Compiling a channel list and stored rules into the ordered rule list that the core reads. */
module Rules {
  import opened Common
  import opened RuleText

  datatype Rule = Rule(id: nat, channel: string, kind: Kind, pattern: string, enabled: bool)

  /** A rule that goes into the list: where it stood in the input, its channel and its normalised pattern. */
  datatype Item = Item(pos: nat, channel: string, kind: Kind, pattern: string)

  // ---------------------------------------------------------------- which rules count

  /** What the stored channels say about their rules. */
  datatype Standing = Standing(id: string, routed: bool, failed: bool, stopping: bool)

  /** No rule of a channel that is switched off, stopped, broken or about to be stopped is in force. */
  function Effective(rules: seq<Rule>, channels: seq<Standing>, routingOff: bool): (r: seq<Rule>)
    ensures |r| == |rules|
  {
    if rules == [] then []
    else [if routingOff || Dead(channels, rules[0].channel) then rules[0].(enabled := false) else rules[0]]
         + Effective(rules[1..], channels, routingOff)
  }

  predicate Dead(channels: seq<Standing>, id: string) {
    exists c | c in channels :: c.id == id && (!c.routed || c.failed || c.stopping)
  }

  // ---------------------------------------------------------------- buckets

  predicate Admits(r: Rule, kind: Kind, ip: Parser) {
    r.enabled && r.kind == kind && NormalizeStored(kind, r.pattern, ip).Some?
  }

  /** The enabled and valid rules of one kind, in input order. */
  function Bucket(rules: seq<Rule>, kind: Kind, ip: Parser, start: nat): seq<Item> {
    if rules == [] then []
    else (if Admits(rules[0], kind, ip)
          then [Item(start, rules[0].channel, kind, NormalizeStored(kind, rules[0].pattern, ip).value)] else [])
         + Bucket(rules[1..], kind, ip, start + 1)
  }

  // ---------------------------------------------------------------- sort keys

  function Dots(s: string): nat {
    if s == "" then 0 else (if s[0] == '.' then 1 else 0) + Dots(s[1..])
  }

  function NumberOf(s: string): nat {
    if s == "" then 0 else 10 * NumberOf(s[..|s| - 1]) + (if '0' <= s[|s| - 1] <= '9' then s[|s| - 1] as int - '0' as int else 0)
  }

  /** The prefix length after the last slash; a pattern without one counts as most specific. */
  function PrefixLength(pattern: string): nat {
    if '/' in pattern && Digits(AfterLast(pattern, '/')) then NumberOf(AfterLast(pattern, '/')) else 128
  }

  function Specificity(i: Item): nat {
    if i.kind == Domain then Dots(i.pattern) + 1 else PrefixLength(i.pattern)
  }

  // ---------------------------------------------------------------- the stable sort

  /** Puts an item before those that are at most as specific: later equals stay behind. */
  function InsertItem(x: Item, items: seq<Item>): (r: seq<Item>)
    ensures multiset(r) == multiset{x} + multiset(items)
  {
    if items == [] then [x]
    else if Specificity(items[0]) > Specificity(x) then
      assert items == [items[0]] + items[1..];
      [items[0]] + InsertItem(x, items[1..])
    else [x] + items
  }

  /** Most specific first, equals in input order. */
  function SortItems(items: seq<Item>): (r: seq<Item>)
    ensures multiset(r) == multiset(items)
  {
    if items == [] then []
    else
      assert items == [items[0]] + items[1..];
      InsertItem(items[0], SortItems(items[1..]))
  }

  /** x may stand before y. */
  predicate Precedes(x: Item, y: Item) {
    Specificity(x) > Specificity(y) || (Specificity(x) == Specificity(y) && x.pos < y.pos)
  }

  ghost predicate Ordered(items: seq<Item>) {
    forall i, j | 0 <= i < j < |items| :: Precedes(items[i], items[j])
  }

  ghost predicate InInputOrder(items: seq<Item>) {
    forall i, j | 0 <= i < j < |items| :: items[i].pos < items[j].pos
  }

  lemma {:induction false} InsertKeepsOrder(x: Item, items: seq<Item>)
    requires Ordered(items) && forall y | y in items :: x.pos < y.pos
    ensures Ordered(InsertItem(x, items))
  {
    if items != [] && Specificity(items[0]) > Specificity(x) {
      InsertKeepsOrder(x, items[1..]);
      var r := InsertItem(x, items[1..]);
      forall y | y in r ensures Precedes(items[0], y) {
        assert y in multiset(r);
        if y != x { var j :| 0 <= j < |items[1..]| && items[1..][j] == y; assert items[j + 1] == y; }
      }
    } else if items != [] {
      forall y | y in items ensures Precedes(x, y) {
        var j :| 0 <= j < |items| && items[j] == y;
        assert j > 0 ==> Precedes(items[0], items[j]);
      }
    }
  }

  /** The sort orders strictly, and so determines its result. */
  lemma {:induction false} SortOrders(items: seq<Item>)
    requires InInputOrder(items)
    ensures Ordered(SortItems(items))
  {
    if items != [] {
      SortOrders(items[1..]);
      forall y | y in SortItems(items[1..]) ensures items[0].pos < y.pos {
        assert y in multiset(SortItems(items[1..]));
        var j :| 0 <= j < |items[1..]| && items[1..][j] == y;
        assert items[j + 1] == y;
      }
      InsertKeepsOrder(items[0], SortItems(items[1..]));
    }
  }

  lemma {:induction false} BucketInOrder(rules: seq<Rule>, kind: Kind, ip: Parser, start: nat)
    ensures InInputOrder(Bucket(rules, kind, ip, start))
    ensures forall x | x in Bucket(rules, kind, ip, start) :: start <= x.pos && x.kind == kind
  {
    if rules != [] { BucketInOrder(rules[1..], kind, ip, start + 1); }
  }

  /** The list of one kind, in the order in which it is emitted. */
  function Emitted(rules: seq<Rule>, kind: Kind, ip: Parser): (r: seq<Item>) {
    SortItems(Bucket(rules, kind, ip, 0))
  }

  // ---------------------------------------------------------------- first match means most specific

  /** A domain rule covers the domain itself and everything under it. */
  predicate Covers(pattern: string, host: string) {
    || host == pattern
    || (|host| > |pattern| && host[|host| - |pattern| - 1] == '.' && host[|host| - |pattern|..] == pattern)
  }

  lemma {:induction false} DotsSplit(s: string, k: nat)
    requires k <= |s|
    ensures Dots(s) == Dots(s[..k]) + Dots(s[k..])
  {
    if k == 0 {
      assert s[..0] == "" && s[0..] == s;
    } else {
      DotsSplit(s[1..], k - 1);
      assert s[..k][1..] == s[1..][..k - 1] && s[1..][k - 1..] == s[k..];
    }
  }

  lemma CoverIsSuffix(p: string, host: string)
    requires Covers(p, host)
    ensures |p| <= |host| && forall i | 0 <= i < |p| :: p[i] == host[|host| - |p| + i]
    ensures |p| < |host| ==> host[|host| - |p| - 1] == '.'
  {
    if host != p {
      forall i | 0 <= i < |p| ensures p[i] == host[|host| - |p| + i] { assert p[i] == host[|host| - |p|..][i]; }
    }
  }

  /** Of two domains that cover one host the longer one has more labels. */
  lemma LongerHasMoreLabels(p: string, q: string, host: string)
    requires Covers(p, host) && Covers(q, host)
    ensures |p| < |q| ==> Dots(p) < Dots(q)
    ensures |p| == |q| ==> p == q
  {
    hide Dots, Covers;
    CoverIsSuffix(p, host);
    CoverIsSuffix(q, host);
    if |p| < |q| {
      var k := |q| - |p|;
      assert q[k - 1] == host[|host| - |q| + (k - 1)];
      forall i | 0 <= i < |p| ensures q[k..][i] == p[i] { assert q[k + i] == host[|host| - |q| + (k + i)]; }
      assert q[k..] == p;
      MoreDots(q, k);
    }
  }

  lemma MoreDots(q: string, k: nat)
    requires 0 < k <= |q| && q[k - 1] == '.'
    ensures Dots(q[k..]) < Dots(q)
  {
    hide Dots;
    DotsSplit(q, k);
    DotsSplit(q[..k], k - 1);
    assert q[..k][k - 1..] == ".";
    OneDot();
  }

  lemma OneDot()
    ensures Dots(".") == 1
  {
  }

  lemma FirstPrecedes(items: seq<Item>, i: nat, x: Item)
    requires Ordered(items) && i < |items| && x in items[i..]
    ensures x == items[i] || Precedes(items[i], x)
  {
    var j :| 0 <= j < |items[i..]| && items[i..][j] == x;
    assert items[i + j] == x;
  }

  lemma NotBefore(items: seq<Item>, i: nat, x: Item)
    requires i < |items| && x in items && x !in items[..i]
    ensures x in items[i..]
  {
    assert items == items[..i] + items[i..];
  }

  lemma EmittedOrder(rules: seq<Rule>, kind: Kind, ip: Parser)
    ensures Ordered(Emitted(rules, kind, ip))
    ensures forall x :: x in Emitted(rules, kind, ip) <==> x in Bucket(rules, kind, ip, 0)
    ensures forall x | x in Emitted(rules, kind, ip) :: x.kind == kind
  {
    var b := Bucket(rules, kind, ip, 0);
    BucketInOrder(rules, kind, ip, 0);
    SortOrders(b);
    forall x ensures x in SortItems(b) <==> x in b {
      assert x in SortItems(b) <==> x in multiset(SortItems(b));
      assert x in b <==> x in multiset(b);
    }
  }

  /**
   The first domain rule in the list that covers a host is the longest one in the input that does,
   and among rules for the same domain the one that came first.
   */
  lemma FirstDomainIsLongest(rules: seq<Rule>, ip: Parser, host: string, i: nat)
    requires i < |Emitted(rules, Domain, ip)| && Covers(Emitted(rules, Domain, ip)[i].pattern, host)
    requires forall j | 0 <= j < i :: !Covers(Emitted(rules, Domain, ip)[j].pattern, host)
    ensures var won := Emitted(rules, Domain, ip)[i];
      forall x | x in Bucket(rules, Domain, ip, 0) && Covers(x.pattern, host) ::
        |x.pattern| < |won.pattern| || (x.pattern == won.pattern && won.pos <= x.pos)
  {
    var items := Emitted(rules, Domain, ip);
    EmittedOrder(rules, Domain, ip);
    forall x | x in Bucket(rules, Domain, ip, 0) && Covers(x.pattern, host)
      ensures |x.pattern| < |items[i].pattern| || (x.pattern == items[i].pattern && items[i].pos <= x.pos)
    {
      assert x in items;
      assert x !in items[..i];
      NotBefore(items, i, x);
      FirstPrecedes(items, i, x);
      LongerHasMoreLabels(x.pattern, items[i].pattern, host);
      LongerHasMoreLabels(items[i].pattern, x.pattern, host);
    }
  }

  // ---------------------------------------------------------------- what the prefix length is

  function Zeros(k: nat): string {
    if k == 0 then "" else "0" + Zeros(k - 1)
  }

  lemma {:induction false} ZerosAtEnd(k: nat)
    ensures |Zeros(k)| == k && (forall i | 0 <= i < k :: Zeros(k)[i] == '0') && Zeros(k + 1) == Zeros(k) + "0"
  {
    if k > 0 { ZerosAtEnd(k - 1); }
  }

  /** Reading the digits of a number, with or without zeros in front, gives the number. */
  lemma {:induction false} NumberOfDecimal(k: nat, n: nat)
    ensures NumberOf(Zeros(k) + Decimal(n)) == n
    decreases n, k
  {
    var s := Zeros(k) + Decimal(n);
    if n >= 10 {
      NumberOfDecimal(k, n / 10);
      assert s[..|s| - 1] == Zeros(k) + Decimal(n / 10);
    } else {
      ZerosAtEnd(k);
      assert s[..|s| - 1] == Zeros(k);
      if k > 0 {
        ZerosAtEnd(k - 1);
        NumberOfDecimal(k - 1, 0);
      }
    }
  }

  lemma DecimalSnoc(m: nat, c: char)
    requires '0' <= c <= '9'
    ensures var d := c as int - '0' as int; Decimal(10 * m + d) == if m == 0 then [c] else Decimal(m) + [c]
  {
    var d := c as int - '0' as int;
    assert ('0' as int + d) as char == c;
    if m > 0 { assert (10 * m + d) / 10 == m && (10 * m + d) % 10 == d; }
  }

  lemma NumberSnoc(t: string, c: char)
    requires '0' <= c <= '9'
    ensures NumberOf(t + [c]) == 10 * NumberOf(t) + (c as int - '0' as int)
  {
    assert (t + [c])[..|t|] == t;
  }

  lemma DigitsSnoc(t: string, c: char, k: nat)
    requires '0' <= c <= '9' && t == Zeros(k) + Decimal(NumberOf(t))
    ensures t + [c] == Zeros(if NumberOf(t) == 0 then k + 1 else k) + Decimal(NumberOf(t + [c]))
  {
    NumberSnoc(t, c);
    DecimalSnoc(NumberOf(t), c);
    NoZeros();
    ZerosAtEnd(k);
    hide Zeros, NumberOf, Decimal;
  }

  /** And all digits are those of a number with or without zeros in front. */
  lemma {:induction false} DigitsAreNumber(s: string) returns (k: nat)
    requires Digits(s)
    ensures s == Zeros(k) + Decimal(NumberOf(s))
  {
    hide Decimal, Zeros, NumberOf;
    var t, c := s[..|s| - 1], s[|s| - 1];
    assert s == t + [c];
    if t == "" {
      k := 0;
      NoZeros();
      NumberSnoc(t, c);
      DecimalSnoc(0, c);
      assert s == Zeros(0) + [c];
    } else {
      k := DigitsAreNumber(t);
      DigitsSnoc(t, c, k);
      k := if NumberOf(t) == 0 then k + 1 else k;
    }
  }

  lemma NoZeros()
    ensures Zeros(0) == "" && NumberOf("") == 0 && Decimal(0) == "0"
  {
  }

  lemma AfterLastOf(a: string, b: string)
    requires '/' !in b
    ensures '/' in a + "/" + b && AfterLast(a + "/" + b, '/') == b
  {
    CutAfterLast(a, '/', b);
    assert (a + "/" + b)[|a|] == '/';
  }

  /** The prefix length is the number behind the slash. */
  lemma PrefixLengthIsNumber(a: string, k: nat, n: nat)
    ensures PrefixLength(a + "/" + (Zeros(k) + Decimal(n))) == n
  {
    var b := Zeros(k) + Decimal(n);
    DecimalIsDigits(n);
    ZerosAtEnd(k);
    forall i | 0 <= i < |b| ensures '0' <= b[i] <= '9' { }
    AfterLastOf(a, b);
    NumberOfDecimal(k, n);
    hide Decimal, NumberOf, AfterLast, Zeros;
  }

  /** The pattern is an address with a mask of n bits; without a mask it counts as the most specific of all. */
  ghost predicate HasBits(pattern: string, n: nat) {
    (exists a: string, k: nat :: Masked(a, k, n) == pattern) || ('/' !in pattern && n == 128)
  }

  function Masked(a: string, k: nat, n: nat): string { a + "/" + (Zeros(k) + Decimal(n)) }

  lemma BitsArePrefixLength(pattern: string, n: nat)
    requires HasBits(pattern, n)
    ensures PrefixLength(pattern) == n
  {
    if a: string, k: nat :| Masked(a, k, n) == pattern { PrefixLengthIsNumber(a, k, n); }
  }

  lemma {:induction false} FirstSlash(s: string)
    requires '/' in s
    ensures s == Before(s, '/') + "/" + AfterFirst(s, "/")
  {
    if s[0] == '/' {
      assert StartsWith(s, "/") && s == "/" + s[1..];
    } else {
      assert s == [s[0]] + s[1..];
      assert s[..1] == [s[0]] && !StartsWith(s, "/");
      FirstSlash(s[1..]);
      SlashOccurs(s[1..]);
    }
  }

  lemma {:induction false} SlashOccurs(s: string)
    requires '/' in s
    ensures Occurs(s, "/")
  {
    if s[0] == '/' { assert s[..1] == "/"; } else { SlashOccurs(s[1..]); }
  }

  /** Every address rule has a mask. */
  lemma AddressHasBits(token: string, ip: Parser) returns (n: nat)
    requires NormIp(token, ip).Some?
    ensures HasBits(NormIp(token, ip).value, n)
  {
    if '/' in token {
      FirstSlash(token);
      var k := DigitsAreNumber(AfterFirst(token, "/"));
      n := NumberOf(AfterFirst(token, "/"));
      assert Masked(Before(token, '/'), k, n) == token;
    } else {
      BeforeLacks(token, '/');
      n := if ip.version(token) == Some(6) then 128 else 32;
      DecimalOf();
      assert Masked(token, 0, n) == NormIp(token, ip).value;
    }
  }

  lemma DecimalOf()
    ensures Decimal(32) == "32" && Decimal(128) == "128"
  {
    assert Decimal(3) == "3" && Decimal(1) == "1" && Decimal(12) == "12";
  }

  /** The first address rule in the list that covers an address has the most bits in its mask, ties going to input order. */
  lemma FirstAddressIsNarrowest(rules: seq<Rule>, ip: Parser, covers: string -> bool, i: nat)
    requires i < |Emitted(rules, Ip, ip)| && covers(Emitted(rules, Ip, ip)[i].pattern)
    requires forall j | 0 <= j < i :: !covers(Emitted(rules, Ip, ip)[j].pattern)
    ensures var won := Emitted(rules, Ip, ip)[i];
      forall x, m: nat, n: nat | x in Bucket(rules, Ip, ip, 0) && covers(x.pattern) && HasBits(x.pattern, m) && HasBits(won.pattern, n) ::
        m < n || (m == n && won.pos <= x.pos)
  {
    var won := Emitted(rules, Ip, ip)[i];
    AddressOrder(rules, ip, covers, i);
    forall x, m: nat, n: nat | x in Bucket(rules, Ip, ip, 0) && covers(x.pattern) && HasBits(x.pattern, m) && HasBits(won.pattern, n)
      ensures m < n || (m == n && won.pos <= x.pos)
    {
      BitsArePrefixLength(x.pattern, m);
      BitsArePrefixLength(won.pattern, n);
    }
  }

  lemma AddressOrder(rules: seq<Rule>, ip: Parser, covers: string -> bool, i: nat)
    requires i < |Emitted(rules, Ip, ip)| && covers(Emitted(rules, Ip, ip)[i].pattern)
    requires forall j | 0 <= j < i :: !covers(Emitted(rules, Ip, ip)[j].pattern)
    ensures var won := Emitted(rules, Ip, ip)[i];
      forall x | x in Bucket(rules, Ip, ip, 0) && covers(x.pattern) ::
        PrefixLength(x.pattern) < PrefixLength(won.pattern)
        || (PrefixLength(x.pattern) == PrefixLength(won.pattern) && won.pos <= x.pos)
  {
    var items := Emitted(rules, Ip, ip);
    EmittedOrder(rules, Ip, ip);
    forall x | x in Bucket(rules, Ip, ip, 0) && covers(x.pattern)
      ensures PrefixLength(x.pattern) < PrefixLength(items[i].pattern)
           || (PrefixLength(x.pattern) == PrefixLength(items[i].pattern) && items[i].pos <= x.pos)
    {
      assert x in items;
      assert x !in items[..i];
      NotBefore(items, i, x);
      FirstPrecedes(items, i, x);
    }
  }

  // ---------------------------------------------------------------- nothing lost, nothing added

  /** The item that the rule at position k of the input gives rise to. */
  function ItemOf(rules: seq<Rule>, k: nat, kind: Kind, ip: Parser): Item
    requires k < |rules| && Admits(rules[k], kind, ip)
  {
    Item(k, rules[k].channel, kind, NormalizeStored(kind, rules[k].pattern, ip).value)
  }

  lemma {:induction false} BucketIsExact(rules: seq<Rule>, kind: Kind, ip: Parser, start: nat, x: Item)
    ensures x in Bucket(rules, kind, ip, start) <==>
      start <= x.pos < start + |rules| && Admits(rules[x.pos - start], kind, ip)
      && x == ItemOf(rules, x.pos - start, kind, ip).(pos := x.pos)
  {
    hide NormalizeStored;
    if rules != [] {
      BucketIsExact(rules[1..], kind, ip, start + 1, x);
      BucketInOrder(rules[1..], kind, ip, start + 1);
      if x.pos > start && x.pos < start + |rules| { assert rules[1..][x.pos - start - 1] == rules[x.pos - start]; }
    }
  }

  lemma SamePlaceSameItem(rules: seq<Rule>, kind: Kind, ip: Parser, x: Item, y: Item)
    requires x in Bucket(rules, kind, ip, 0) && y in Bucket(rules, kind, ip, 0) && x.pos == y.pos
    ensures x == y
  {
    hide NormalizeStored, Bucket;
    BucketIsExact(rules, kind, ip, 0, x);
    BucketIsExact(rules, kind, ip, 0, y);
  }

  lemma PositionsDiffer(rules: seq<Rule>, kind: Kind, ip: Parser)
    ensures forall i, j | 0 <= i < j < |Emitted(rules, kind, ip)| :: Emitted(rules, kind, ip)[i].pos != Emitted(rules, kind, ip)[j].pos
  {
    hide NormalizeStored, Bucket, Emitted, Specificity;
    var items := Emitted(rules, kind, ip);
    EmittedOrder(rules, kind, ip);
    forall i, j | 0 <= i < j < |items| ensures items[i].pos != items[j].pos {
      assert Precedes(items[i], items[j]) && items[i] in items && items[j] in items;
      if items[i].pos == items[j].pos { SamePlaceSameItem(rules, kind, ip, items[i], items[j]); }
    }
  }

  lemma EmittedSound(rules: seq<Rule>, kind: Kind, ip: Parser, x: Item)
    ensures x in Emitted(rules, kind, ip) <==> x.pos < |rules| && Admits(rules[x.pos], kind, ip) && x == ItemOf(rules, x.pos, kind, ip)
  {
    hide NormalizeStored, Bucket, Emitted;
    EmittedOrder(rules, kind, ip);
    BucketIsExact(rules, kind, ip, 0, x);
  }

  /** The emitted rules are the enabled valid rules of the input, each exactly once. */
  lemma EmittedIsPermutation(rules: seq<Rule>, kind: Kind, ip: Parser)
    ensures forall i, j | 0 <= i < j < |Emitted(rules, kind, ip)| :: Emitted(rules, kind, ip)[i].pos != Emitted(rules, kind, ip)[j].pos
    ensures forall k: nat | k < |rules| && Admits(rules[k], kind, ip) :: ItemOf(rules, k, kind, ip) in Emitted(rules, kind, ip)
    ensures forall x | x in Emitted(rules, kind, ip) :: x.pos < |rules| && Admits(rules[x.pos], kind, ip) && x == ItemOf(rules, x.pos, kind, ip)
  {
    hide NormalizeStored, Bucket, Emitted, Admits;
    PositionsDiffer(rules, kind, ip);
    forall k: nat | k < |rules| && Admits(rules[k], kind, ip) ensures ItemOf(rules, k, kind, ip) in Emitted(rules, kind, ip) {
      EmittedSound(rules, kind, ip, ItemOf(rules, k, kind, ip));
    }
    forall x | x in Emitted(rules, kind, ip) ensures x.pos < |rules| && Admits(rules[x.pos], kind, ip) && x == ItemOf(rules, x.pos, kind, ip) {
      EmittedSound(rules, kind, ip, x);
    }
  }

  lemma {:induction false} EffectiveIsExact(rules: seq<Rule>, channels: seq<Standing>, routingOff: bool)
    ensures forall k | 0 <= k < |rules| ::
              Effective(rules, channels, routingOff)[k] == rules[k].(enabled := rules[k].enabled && !routingOff && !Dead(channels, rules[k].channel))
  {
    if rules != [] { EffectiveIsExact(rules[1..], channels, routingOff); }
  }

  /** A channel that is stopped or about to be has no rule in the list: a requested stop closes its routes at once. */
  lemma NoRouteToStopped(rules: seq<Rule>, channels: seq<Standing>, routingOff: bool, kind: Kind, ip: Parser, x: Item)
    requires x in Emitted(Effective(rules, channels, routingOff), kind, ip)
    ensures !routingOff && !Dead(channels, x.channel)
  {
    EmittedIsPermutation(Effective(rules, channels, routingOff), kind, ip);
    EffectiveIsExact(rules, channels, routingOff);
  }

  // ---------------------------------------------------------------- the lines

  /** Address rules say no-resolve and domain rules do not; that is meant. */
  function Line(x: Item): string {
    if x.kind == Domain then "DOMAIN-SUFFIX," + x.pattern + ",ch-" + x.channel
    else "IP-CIDR," + x.pattern + ",ch-" + x.channel + ",no-resolve"
  }

  function Print(items: seq<Item>): (r: seq<string>)
    ensures |r| == |items| && forall i | 0 <= i < |r| :: r[i] == Line(items[i])
  {
    if items == [] then [] else [Line(items[0])] + Print(items[1..])
  }

  const REJECT := "IP-CIDR" + "," + "198.18.0.0/15" + "," + "REJECT" + "," + "no-resolve"
  const DIRECT := "MATCH,DIRECT"

  function Lines(rules: seq<Rule>, ip: Parser): seq<string> {
    Print(Emitted(rules, Domain, ip)) + Print(Emitted(rules, Ip, ip)) + [REJECT, DIRECT]
  }

  lemma {:induction false} BucketSnoc(rules: seq<Rule>, r: Rule, kind: Kind, ip: Parser, start: nat)
    ensures Bucket(rules + [r], kind, ip, start) == Bucket(rules, kind, ip, start)
      + (if Admits(r, kind, ip) then [Item(start + |rules|, r.channel, kind, NormalizeStored(kind, r.pattern, ip).value)] else [])
  {
    hide NormalizeStored;
    if rules == [] {
      assert rules + [r] == [r] && [r][1..] == [];
    } else {
      assert (rules + [r])[1..] == rules[1..] + [r];
      BucketSnoc(rules[1..], r, kind, ip, start + 1);
    }
  }

  /** Fills the two buckets in one pass. */
  method Sift(rules: seq<Rule>, ip: Parser) returns (domains: seq<Item>, ips: seq<Item>)
    ensures domains == Bucket(rules, Domain, ip, 0) && ips == Bucket(rules, Ip, ip, 0)
  {
    hide NormalizeStored, Bucket;
    domains, ips := [], [];
    NothingToSift(ip);
    for k := 0 to |rules|
      invariant domains == Bucket(rules[..k], Domain, ip, 0) && ips == Bucket(rules[..k], Ip, ip, 0)
    {
      var r := rules[k];
      assert rules[..k + 1] == rules[..k] + [r];
      BucketSnoc(rules[..k], r, Domain, ip, 0);
      BucketSnoc(rules[..k], r, Ip, ip, 0);
      UnknownIsInvalid(r, ip);
      if !r.enabled { continue; }
      var normalized := NormalizeStored(r.kind, r.pattern, ip);
      if normalized.None? { continue; }
      var item := Item(k, r.channel, r.kind, normalized.value);
      if r.kind == Ip { ips := ips + [item]; } else { domains := domains + [item]; }
    }
    assert rules[..|rules|] == rules;
  }

  lemma NothingToSift(ip: Parser)
    ensures Bucket([], Domain, ip, 0) == [] && Bucket([], Ip, ip, 0) == []
  {
  }

  lemma UnknownIsInvalid(r: Rule, ip: Parser)
    ensures r.kind == Unknown ==> NormalizeStored(r.kind, r.pattern, ip).None?
  {
  }

  /** The program's own way: two buckets, each sorted, then printed one line at a time. */
  method Compile(rules: seq<Rule>, ip: Parser) returns (lines: seq<string>)
    ensures lines == Lines(rules, ip)
    ensures |lines| >= 2 && lines[|lines| - 2..] == ["IP-CIDR,198.18.0.0/15,REJECT,no-resolve", "MATCH,DIRECT"]
  {
    hide Bucket, SortItems, Line, NormalizeStored, Admits;
    var domains, ips := Sift(rules, ip);
    domains, ips := SortItems(domains), SortItems(ips);
    hide Print;
    lines := PrintAll([], domains);
    lines := PrintAll(lines, ips);
    lines := lines + [REJECT];
    lines := lines + [DIRECT];
    EndOfList(Print(domains) + Print(ips));
  }

  lemma EndOfList(before: seq<string>)
    ensures var lines := before + [REJECT, DIRECT];
      |lines| >= 2 && lines[|lines| - 2..] == ["IP-CIDR,198.18.0.0/15,REJECT,no-resolve", "MATCH,DIRECT"]
    ensures before + [REJECT] + [DIRECT] == before + [REJECT, DIRECT]
  {
    assert REJECT == "IP-CIDR,198.18.0.0/15,REJECT,no-resolve";
    assert (before + [REJECT, DIRECT])[|before|..] == [REJECT, DIRECT];
  }

  method PrintAll(before: seq<string>, items: seq<Item>) returns (lines: seq<string>)
    ensures lines == before + Print(items)
  {
    hide Line;
    lines := before;
    for i := 0 to |items|
      invariant lines == before + Print(items)[..i]
    {
      lines := lines + [Line(items[i])];
    }
  }
}
