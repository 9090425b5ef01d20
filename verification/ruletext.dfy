/** Normalising the patterns of routing rules. ASCII letters, digits and blanks stand for Unicode's. */
module RuleText {
  import opened Common

  predicate Danger(c: char) {
    c in ",\"'\\" || IsSpace(c) || c as int <= 0x1f
  }

  predicate Safe(s: string) {
    forall i | 0 <= i < |s| :: !Danger(s[i])
  }

  predicate StartsWith(s: string, p: string) { |p| <= |s| && s[..|p|] == p }

  predicate Wildcard(s: string) { StartsWith(s, "+.") || StartsWith(s, "*.") }

  function Bare(s: string): string {
    if Wildcard(s) then s[2..] else s
  }

  // ---------------------------------------------------------------- cutting texts

  /** s.split(c, 1)[0] */
  function Before(s: string, c: char): string {
    if s == "" || s[0] == c then "" else [s[0]] + Before(s[1..], c)
  }

  /** s.split(p, 1)[-1] */
  function AfterFirst(s: string, p: string): string {
    if s == "" then s
    else if StartsWith(s, p) then s[|p|..]
    else if Occurs(s[1..], p) then AfterFirst(s[1..], p) else s
  }

  predicate Occurs(s: string, p: string) {
    StartsWith(s, p) || (s != "" && Occurs(s[1..], p))
  }

  /** s.rsplit(c, 1)[-1] */
  function AfterLast(s: string, c: char): string {
    if s == "" then "" else if c in s[1..] then AfterLast(s[1..], c) else if s[0] == c then s[1..] else s
  }

  function StripDotsLeft(s: string): string {
    if s != "" && s[0] == '.' then StripDotsLeft(s[1..]) else s
  }

  function StripDotsRight(s: string): string {
    if s != "" && s[|s| - 1] == '.' then StripDotsRight(s[..|s| - 1]) else s
  }

  function StripDots(s: string): string {
    StripDotsRight(StripDotsLeft(s))
  }

  function LowerChar(c: char): char {
    if 'A' <= c <= 'Z' then (c as int + 32) as char else c
  }

  function Lower(s: string): string {
    if s == "" then "" else [LowerChar(s[0])] + Lower(s[1..])
  }

  // ---------------------------------------------------------------- numbers

  function Decimal(n: nat): string {
    if n < 10 then [('0' as int + n) as char] else Decimal(n / 10) + [('0' as int + n % 10) as char]
  }

  lemma {:induction false} DecimalIsDigits(n: nat)
    ensures Decimal(n) != "" && forall i | 0 <= i < |Decimal(n)| :: '0' <= Decimal(n)[i] <= '9'
  {
    if n >= 10 { DecimalIsDigits(n / 10); }
  }

  lemma {:induction false} DecimalInjective(m: nat, n: nat)
    requires Decimal(m) == Decimal(n)
    ensures m == n
  {
    DecimalIsDigits(m / 10);
    DecimalIsDigits(n / 10);
    assert Decimal(m)[|Decimal(m)| - 1] == Decimal(n)[|Decimal(n)| - 1];
    if m >= 10 && n >= 10 {
      assert Decimal(m)[..|Decimal(m)| - 1] == Decimal(m / 10) && Decimal(n)[..|Decimal(n)| - 1] == Decimal(n / 10);
      DecimalInjective(m / 10, n / 10);
    }
  }

  // ---------------------------------------------------------------- domains

  predicate ValidDomain(host: string) {
    0 < |host| <= 253 && !Occurs(host, "..") && Safe(host)
  }

  /** The host part of a token: no scheme, path, user or port. */
  function HostPart(token: string): string {
    Before(AfterLast(Before(AfterFirst(token, "://"), '/'), '@'), ':')
  }

  function NormDomain(token: string): Option<string> {
    if !Safe(token) || token == "" then None
    else
      var host := Lower(StripDots(Bare(HostPart(token))));
      if ValidDomain(host) then Some(host) else None
  }

  // ---------------------------------------------------------------- addresses

  /** Python's ipaddress: the version of an address, and whether a network can be read. */
  datatype Parser = Parser(version: string -> Option<nat>, network: string -> bool)

  predicate Digits(s: string) {
    s != "" && forall i | 0 <= i < |s| :: '0' <= s[i] <= '9'
  }

  function NormIp(token: string, ip: Parser): Option<string> {
    if !Safe(token) || token == "" then None
    else
      var addr := Before(token, '/');
      if '%' in addr then None
      else
        match ip.version(addr)
        case None => None
        case Some(v) =>
          if '/' in token then
            (if Digits(AfterFirst(token, "/")) && ip.network(token) then Some(token) else None)
          else Some(token + (if v == 6 then "/128" else "/32"))
  }

  datatype Kind = Domain | Ip | Unknown

  /** Free text as the user types it. */
  function Classify(token: string, ip: Parser): Option<(Kind, string)> {
    if token == "" then None
    else if ip.version(Before(token, '/')).None? then
      match NormDomain(token)
      case None => None
      case Some(host) => Some((Domain, host))
    else
      match NormIp(token, ip)
      case None => None
      case Some(cidr) => Some((Ip, cidr))
  }

  /** The sole accepted form of a stored rule. */
  function NormalizeStored(kind: Kind, pattern: string, ip: Parser): Option<string> {
    match kind
    case Domain => NormDomain(pattern)
    case Ip => NormIp(pattern, ip)
    case Unknown => None
  }

  // ---------------------------------------------------------------- what normalisation guarantees

  lemma NormalizedIsSafe(kind: Kind, pattern: string, ip: Parser)
    requires NormalizeStored(kind, pattern, ip).Some?
    ensures var p := NormalizeStored(kind, pattern, ip).value;
      p != "" && ',' !in p && forall i | 0 <= i < |p| :: ' ' < p[i] && p[i] != '"' && p[i] != '\'' && p[i] != '\\' && !IsSpace(p[i])
  {
    var p := NormalizeStored(kind, pattern, ip).value;
    forall i | 0 <= i < |p| ensures p[i] != ',' && !Danger(p[i]) {
      if kind.Ip? && i < |pattern| { assert p[i] == pattern[i]; }
    }
  }

  // ---------------------------------------------------------------- normalising twice

  predicate Lacks(s: string, c: char) { c !in s }

  lemma {:induction false} BeforeLacks(s: string, c: char)
    ensures Lacks(Before(s, c), c) && (forall x | x in Before(s, c) :: x in s)
    ensures Lacks(s, c) ==> Before(s, c) == s
  {
    if s != "" && s[0] != c {
      BeforeLacks(s[1..], c);
      assert s == [s[0]] + s[1..];
    }
  }

  lemma {:induction false} AfterLastLacks(s: string, c: char)
    ensures Lacks(AfterLast(s, c), c) && (forall x | x in AfterLast(s, c) :: x in s)
    ensures Lacks(s, c) ==> AfterLast(s, c) == s
  {
    if s != "" {
      if c in s[1..] { AfterLastLacks(s[1..], c); }
      assert s == [s[0]] + s[1..];
    }
  }

  lemma {:induction false} NoScheme(s: string)
    requires Lacks(s, ':')
    ensures !Occurs(s, "://") && AfterFirst(s, "://") == s
  {
    if s != "" {
      assert s[0] in s && "://"[0] == ':';
      NoScheme(s[1..]);
    } else {
      assert !StartsWith(s, "://");
    }
  }

  lemma {:induction false} StripLeftFacts(s: string)
    ensures StripDotsLeft(s) == "" || StripDotsLeft(s)[0] != '.'
    ensures forall x | x in StripDotsLeft(s) :: x in s
  {
    if s != "" && s[0] == '.' { StripLeftFacts(s[1..]); }
  }

  lemma {:induction false} StripRightFacts(s: string)
    ensures StripDotsRight(s) <= s
    ensures StripDotsRight(s) == "" || StripDotsRight(s)[|StripDotsRight(s)| - 1] != '.'
  {
    if s != "" && s[|s| - 1] == '.' { StripRightFacts(s[..|s| - 1]); }
  }

  lemma StripFacts(s: string)
    ensures forall x | x in StripDots(s) :: x in s
    ensures StripDots(s) != "" ==> StripDots(s)[0] != '.' && StripDots(s)[|StripDots(s)| - 1] != '.'
    ensures |StripDots(s)| <= |s|
  {
    StripLeftFacts(s);
    StripRightFacts(StripDotsLeft(s));
    StripShrinks(s);
  }

  lemma {:induction false} StripShrinks(s: string)
    ensures |StripDotsLeft(s)| <= |s|
  {
    if s != "" && s[0] == '.' { StripShrinks(s[1..]); }
  }

  lemma {:induction false} LowerFacts(s: string)
    ensures |Lower(s)| == |s| && forall i | 0 <= i < |s| :: Lower(s)[i] == LowerChar(s[i])
    ensures Lower(Lower(s)) == Lower(s)
  {
    if s != "" {
      LowerFacts(s[1..]);
      assert Lower(s)[1..] == Lower(s[1..]);
    }
  }

  lemma HostPartLacks(token: string)
    ensures forall c | c in "/@:" :: c !in HostPart(token)
  {
    var a := AfterFirst(token, "://");
    BeforeLacks(a, '/');
    AfterLastLacks(Before(a, '/'), '@');
    BeforeLacks(AfterLast(Before(a, '/'), '@'), ':');
  }

  lemma HostPartOfPlain(host: string)
    requires forall c | c in "/@:" :: c !in host
    ensures HostPart(host) == host
  {
    assert '/' in "/@:" && '@' in "/@:" && ':' in "/@:";
    NoScheme(host);
    BeforeLacks(host, '/');
    AfterLastLacks(host, '@');
    BeforeLacks(host, ':');
  }

  /** What a normalised domain looks like. */
  lemma NormShape(token: string)
    requires NormDomain(token).Some?
    ensures var d := NormDomain(token).value;
      0 < |d| <= 253 && Safe(d) && !Occurs(d, "..") && Lower(d) == d && d[0] != '.' && d[|d| - 1] != '.'
      && (forall c | c in "/@:" :: c !in d) && forall i | 0 <= i < |d| :: !('A' <= d[i] <= 'Z')
  {
    var h := HostPart(token);
    var s := StripDots(Bare(h));
    HostPartLacks(token);
    StripFacts(Bare(h));
    LowerFacts(s);
    forall i | 0 <= i < |Lower(s)| ensures Lower(s)[i] !in "/@:" { assert s[i] in Bare(h) && s[i] in h; }
  }

  lemma {:induction false} CutBefore(a: string, c: char, b: string)
    requires c !in a
    ensures Before(a + [c] + b, c) == a
  {
    if a != "" {
      assert (a + [c] + b)[1..] == a[1..] + [c] + b && a == [a[0]] + a[1..];
      CutBefore(a[1..], c, b);
    }
  }

  lemma {:induction false} CutAfterLast(a: string, c: char, b: string)
    requires c !in b
    ensures AfterLast(a + [c] + b, c) == b
  {
    var s := a + [c] + b;
    assert s[|a|] == c;
    if a == "" {
      assert s[1..] == b;
      AfterLastLacks(b, c);
    } else {
      assert s[1..] == a[1..] + [c] + b;
      assert s[1..][|a| - 1] == c;
      CutAfterLast(a[1..], c, b);
    }
  }

  lemma {:induction false} CutScheme(a: string, b: string)
    requires ':' !in a
    ensures Occurs(a + "://" + b, "://") && AfterFirst(a + "://" + b, "://") == b
  {
    var s := a + "://" + b;
    if a == "" {
      assert s[..3] == "://" && s[3..] == b;
    } else {
      assert s[1..] == a[1..] + "://" + b && s[0] == a[0] && a[0] in a;
      assert s[..3][0] == a[0] && "://"[0] == ':';
      CutScheme(a[1..], b);
    }
  }

  lemma {:induction false} NoSlashNoScheme(s: string)
    requires '/' !in s
    ensures AfterFirst(s, "://") == s && !Occurs(s, "://")
  {
    if s != "" {
      assert |s| >= 3 ==> s[..3][1] == s[1] && s[1] in s;
      assert "://"[1] == '/';
      assert s == [s[0]] + s[1..];
      NoSlashNoScheme(s[1..]);
    } else {
      assert !StartsWith(s, "://");
    }
  }

  /** Of an address as users paste it only the host is kept: scheme, login, port and path go. */
  lemma HostIsFound(scheme: string, login: string, host: string, port: string, path: string)
    requires ':' !in scheme && '/' !in login && '/' !in port && '@' !in port
    requires forall c | c in "/@:" :: c !in host
    ensures HostPart(scheme + "://" + login + "@" + host + ":" + port + "/" + path) == host
    ensures HostPart(scheme + "://" + host + "/" + path) == host && HostPart(host + ":" + port) == host && HostPart(host) == host
  {
    hide Before, AfterFirst, AfterLast, Occurs;
    assert '/' in "/@:" && '@' in "/@:" && ':' in "/@:";
    HostPartOfPlain(host);
    var rest := host + [':'] + port;
    var behind := login + ['@'] + rest;
    assert scheme + "://" + login + "@" + host + ":" + port + "/" + path == scheme + "://" + (behind + ['/'] + path);
    CutScheme(scheme, behind + ['/'] + path);
    CutBefore(behind, '/', path);
    CutAfterLast(login, '@', rest);
    CutBefore(host, ':', port);
    assert scheme + "://" + host + "/" + path == scheme + "://" + (host + ['/'] + path);
    CutScheme(scheme, host + ['/'] + path);
    CutBefore(host, '/', path);
    AfterLastLacks(host, '@');
    BeforeLacks(host, ':');
    assert host + ":" + port == rest;
    NoSlashNoScheme(rest);
    BeforeLacks(rest, '/');
    AfterLastLacks(rest, '@');
  }

  lemma LowerLeavesWildcards(s: string)
    ensures Wildcard(Lower(s)) <==> Wildcard(s)
  {
    LowerFacts(s);
    if |s| >= 2 {
      assert s[..2] == [s[0], s[1]] && Lower(s)[..2] == [Lower(s)[0], Lower(s)[1]];
      assert "+." == ['+', '.'] && "*." == ['*', '.'];
    }
  }

  /**
   Normalising is stable exactly when the token's host, rid of one wildcard and of the dots around it, does not begin with
   a wildcard again.
   */
  lemma NormTwice(token: string)
    requires NormDomain(token).Some?
    ensures NormDomain(NormDomain(token).value) == NormDomain(token) <==> !Wildcard(StripDots(Bare(HostPart(token))))
  {
    LowerLeavesWildcards(StripDots(Bare(HostPart(token))));
    var d := NormDomain(token).value;
    NormShape(token);
    HostPartOfPlain(d);
    if Wildcard(d) {
      StripFacts(Bare(d));
      LowerFacts(StripDots(Bare(d)));
    } else {
      NothingToStrip(d);
    }
  }

  lemma NothingToStrip(s: string)
    requires s != "" && s[0] != '.' && s[|s| - 1] != '.'
    ensures StripDots(s) == s
  {
  }

  /** A sound host is accepted however it is pasted, rid of one wildcard in front and of capitals. */
  lemma DomainIsAccepted(scheme: string, login: string, wild: string, host: string, port: string, path: string)
    requires ':' !in scheme && '/' !in login && '/' !in port && '@' !in port && wild in {"", "*.", "+."}
    requires 0 < |host| <= 253 && !Occurs(host, "..") && host[0] != '.' && host[|host| - 1] != '.' && !Wildcard(host)
    requires forall c | c in "/@:" :: c !in host
    requires Safe(scheme + "://" + login + "@" + (wild + host) + ":" + port + "/" + path)
    ensures NormDomain(scheme + "://" + login + "@" + (wild + host) + ":" + port + "/" + path) == Some(Lower(host))
    ensures |Lower(host)| == |host| && forall i | 0 <= i < |host| ::
              Lower(host)[i] == if 'A' <= host[i] <= 'Z' then (host[i] as int + 32) as char else host[i]
  {
    hide Occurs, Danger, Safe, HostPart, StripDots, Lower, Bare;
    var front := scheme + "://" + login + "@";
    var token := front + (wild + host) + ":" + port + "/" + path;
    forall c | c in "/@:" ensures c !in wild + host { assert c !in host && c !in wild; }
    HostIsFound(scheme, login, wild + host, port, path);
    WildGoes(wild, host);
    NothingToStrip(host);
    SafeParts(front + (wild + host) + ":" + port + "/", path);
    SafeParts(front + (wild + host) + ":" + port, "/");
    SafeParts(front + (wild + host) + ":", port);
    SafeParts(front + (wild + host), ":");
    SafeParts(front, wild + host);
    SafeParts(wild, host);
    LowerIsValid(host);
    LowerFacts(host);
    assert token != "";
  }

  lemma SafeParts(a: string, b: string)
    requires Safe(a + b)
    ensures Safe(a) && Safe(b)
  {
    hide Danger;
    forall i | 0 <= i < |a| ensures !Danger(a[i]) { assert (a + b)[i] == a[i]; }
    forall i | 0 <= i < |b| ensures !Danger(b[i]) { assert (a + b)[|a| + i] == b[i]; }
  }

  lemma WildGoes(wild: string, host: string)
    requires wild in {"", "*.", "+."} && !Wildcard(host)
    ensures Bare(wild + host) == host
  {
    if wild == "" {
      assert wild + host == host;
    } else {
      assert (wild + host)[..2] == wild && (wild + host)[2..] == host;
    }
  }

  lemma LowerIsValid(host: string)
    requires Safe(host) && 0 < |host| <= 253 && !Occurs(host, "..")
    ensures ValidDomain(Lower(host))
  {
    hide Danger, Occurs, LowerChar;
    LowerFacts(host);
    LowerDots(host);
    forall i | 0 <= i < |host| ensures !Danger(Lower(host)[i]) { LowerIsNoDanger(host[i]); }
  }

  lemma LowerIsNoDanger(c: char)
    ensures Danger(LowerChar(c)) <==> Danger(c)
  {
  }

  lemma {:induction false} LowerDots(s: string)
    ensures Occurs(Lower(s), "..") <==> Occurs(s, "..")
  {
    LowerFacts(s);
    if |s| >= 2 {
      assert s[..2] == [s[0], s[1]] && Lower(s)[..2] == [Lower(s)[0], Lower(s)[1]] && ".." == ['.', '.'];
    }
    if s != "" {
      assert Lower(s)[1..] == Lower(s[1..]);
      LowerDots(s[1..]);
    }
  }

  /** An address is taken with its mask if that is a number and the network can be read, and as a network of its own without one. */
  lemma AddressIsAccepted(addr: string, mask: string, ip: Parser)
    requires '/' !in addr && addr != "" && Safe(addr) && Safe(mask)
    ensures NormIp(addr, ip) == if '%' in addr || ip.version(addr).None? then None else Some(addr + if ip.version(addr) == Some(6) then "/128" else "/32")
    ensures NormIp(addr + "/" + mask, ip) ==
      if '%' in addr || ip.version(addr).None? || !Digits(mask) || !ip.network(addr + "/" + mask) then None else Some(addr + "/" + mask)
  {
    var token := addr + "/" + mask;
    SplitAtSlash(addr, mask);
    BeforeLacks(addr, '/');
    assert token[|addr|] == '/';
    forall i | 0 <= i < |token| ensures !Danger(token[i]) {
      if i < |addr| { assert token[i] == addr[i]; } else if i > |addr| { assert token[i] == mask[i - |addr| - 1]; }
    }
    hide Before, AfterFirst, Digits;
  }

  /** What is typed is an address if what stands before its first slash is one, and a domain otherwise. */
  lemma ClassifyChooses(token: string, ip: Parser)
    requires token != ""
    ensures Classify(token, ip) ==
      if ip.version(Before(token, '/')).Some? then (if NormIp(token, ip).Some? then Some((Ip, NormIp(token, ip).value)) else None)
      else if NormDomain(token).Some? then Some((Domain, NormDomain(token).value)) else None
  {
  }

  lemma NormOf(host: string, s: string)
    requires (forall c | c in "/@:" :: c !in host) && Safe(host) && host != "" && Bare(host) == s
    requires s != "" && s[0] != '.' && s[|s| - 1] != '.' && Lower(s) == s && ValidDomain(s)
    ensures NormDomain(host) == Some(s)
  {
    HostPartOfPlain(host);
    NothingToStrip(s);
  }

  // ---------------------------------------------------------------- from what is typed to what is compiled

  /** Every address is a network of its own with the full prefix length, as Python's ipaddress has it. */
  ghost predicate Coherent(ip: Parser) {
    forall a | ip.version(a).Some? && '/' !in a :: ip.network(a + (if ip.version(a) == Some(6) then "/128" else "/32"))
  }

  lemma {:induction false} SplitAtSlash(a: string, b: string)
    requires '/' !in a
    ensures Before(a + "/" + b, '/') == a && AfterFirst(a + "/" + b, "/") == b
  {
    var s := a + "/" + b;
    if a != "" {
      assert s[1..] == a[1..] + "/" + b && s[0] == a[0] && a[0] in a;
      SplitAtSlash(a[1..], b);
      SlashInside(a[1..], b);
      assert a == [a[0]] + a[1..];
      assert s[..1] == [a[0]] && "/"[0] == '/';
    } else {
      assert s == "/" + b && s[..1] == "/" && s[1..] == b;
    }
  }

  lemma {:induction false} SlashInside(a: string, b: string)
    ensures Occurs(a + "/" + b, "/")
  {
    var s := a + "/" + b;
    if a != "" {
      assert s[1..] == a[1..] + "/" + b;
      SlashInside(a[1..], b);
    } else {
      assert s[..1] == "/";
    }
  }

  lemma AddressIsStored(token: string, ip: Parser)
    requires Coherent(ip) && NormIp(token, ip).Some?
    ensures NormIp(NormIp(token, ip).value, ip) == NormIp(token, ip)
  {
    if '/' !in token {
      BeforeLacks(token, '/');
      var bits := if ip.version(token) == Some(6) then "128" else "32";
      assert token + (if ip.version(token) == Some(6) then "/128" else "/32") == token + "/" + bits;
      WithBits(token, bits);
      hide Before, AfterFirst, Safe;
    }
  }

  lemma WithBits(addr: string, bits: string)
    requires Safe(addr) && '/' !in addr && bits in {"128", "32"}
    ensures Safe(addr + "/" + bits) && '/' in addr + "/" + bits && Digits(bits)
    ensures Before(addr + "/" + bits, '/') == addr && AfterFirst(addr + "/" + bits, "/") == bits
  {
    var v := addr + "/" + bits;
    SplitAtSlash(addr, bits);
    assert v[|addr|] == '/';
    forall i | 0 <= i < |v| ensures !Danger(v[i]) { if i < |addr| { assert v[i] == addr[i]; } }
  }

  lemma DomainIsStored(token: string)
    requires NormDomain(token).Some?
    ensures NormDomain(NormDomain(token).value).Some?
  {
    var d := NormDomain(token).value;
    NormShape(token);
    HostPartOfPlain(d);
    if Wildcard(d) {
      var x := d[2..];
      assert |d| > 2 by { assert d[|d| - 1] != '.' && d[1] == d[..2][1] == '.'; }
      if x[0] == '.' { DoubleDot(d); }
      NothingToStrip(x);
      LowerTail(d);
      ValidTail(d);
    } else {
      NothingToStrip(d);
    }
  }

  lemma DoubleDot(d: string)
    requires |d| > 2 && d[1] == '.' && d[2] == '.'
    ensures Occurs(d, "..")
  {
    assert d[1..][..2] == [d[1], d[2]] == "..";
  }

  lemma LowerTail(d: string)
    requires |d| > 2 && Lower(d) == d
    ensures Lower(d[2..]) == d[2..]
  {
    assert d[1..][1..] == d[2..];
    assert Lower(d)[1..] == Lower(d[1..]) && Lower(d[1..])[1..] == Lower(d[1..][1..]);
  }

  lemma OccursLater(d: string, p: string)
    requires |d| > 2
    ensures Occurs(d[2..], p) ==> Occurs(d, p)
  {
    assert d[1..][1..] == d[2..];
  }

  lemma ValidTail(d: string)
    requires ValidDomain(d) && |d| > 2
    ensures ValidDomain(d[2..])
  {
    OccursLater(d, "..");
    forall i | 0 <= i < |d[2..]| ensures !Danger(d[2..][i]) { assert d[2..][i] == d[i + 2]; }
  }

  /** What a user's token has been classified as is never dropped when the stored rule is compiled, and it is compiled as it was
      stored exactly if the token does not begin with two wildcards. */
  lemma ClassifiedIsCompiled(token: string, ip: Parser)
    requires Coherent(ip) && Classify(token, ip).Some?
    ensures var (kind, stored) := Classify(token, ip).value;
      && NormalizeStored(kind, stored, ip).Some?
      && (NormalizeStored(kind, stored, ip) == Some(stored) <==> kind.Ip? || !Wildcard(StripDots(Bare(HostPart(token)))))
  {
    var (kind, stored) := Classify(token, ip).value;
    if kind.Ip? { AddressIsStored(token, ip); } else {
      DomainIsStored(token);
      NormTwice(token);
    }
  }

  /** It does happen: of two wildcards in front the second is taken off only the next time. */
  lemma NormNotStable()
    ensures NormDomain("+.+.a") == Some("+.a") && NormDomain("+.a") == Some("a")
  {
    LowerFacts("+.a");
    LowerFacts("a");
    assert Lower("a") == "a" && Lower("+.a") == "+.a";
    assert !Occurs("a", "..");
    NoDoubleDot();
    hide Lower, Occurs;
    NormOf("+.+.a", "+.a");
    NormOf("+.a", "a");
  }

  lemma NoDoubleDot()
    ensures !Occurs("+.a", "..")
  {
    assert "+.a"[1..] == ".a" && ".a"[1..] == "a" && "a"[1..] == "";
    assert ".a"[..2][1] == 'a' && "+.a"[..2][0] == '+' && ".."[0] == ".."[1] == '.';
    assert !Occurs("", "..");
    assert !Occurs("a", "..");
    assert !Occurs(".a", "..");
  }
}
