/**
 The editable settings of a channel: the columns of the channels row and the mirror of
 three of them inside config_json. Encryption is the identity here.
 */
module Settings {
  import opened Common

  datatype Field = Name | Server | EcVer | Username | ProbeUrl | Password | Extra(key: string)

  /** A request: the fields a caller wants to change. Keys that are not columns are ignored. */
  type Fields = map<Field, string>

  datatype Settings = Settings(columns: map<Field, string>, config: map<Field, string>)

  predicate Mirrored(f: Field) {
    f == Server || f == Username || f == Password
  }

  function RemoveSpace(s: string): string {
    if s == "" then "" else (if IsSpace(s[0]) then "" else [s[0]]) + RemoveSpace(s[1..])
  }

  function StripLeft(s: string): string {
    if s != "" && IsSpace(s[0]) then StripLeft(s[1..]) else s
  }

  function StripRight(s: string): string {
    if s != "" && IsSpace(s[|s| - 1]) then StripRight(s[..|s| - 1]) else s
  }

  /** Gateways and accounts lose every blank, other text only the blanks at its ends. */
  function Clean(f: Field, v: string): string {
    if f == Username || f == Server then RemoveSpace(v) else StripRight(StripLeft(v))
  }

  /** What the column f holds after v is written to it: a password is stored as it was given. */
  function Stored(f: Field, v: string): string {
    if f == Password then v else Clean(f, v)
  }

  /** What the config mirror of f holds: only a field registered as secret escapes cleaning. */
  function MirrorOf(f: Field, v: string, secrets: set<Field>): string {
    if f in secrets then v else Clean(f, v)
  }

  /** One transaction's worth of column updates and mirror writes. */
  function Update(s: Settings, fields: Fields, secrets: set<Field>): Settings {
    Settings(
      map k | k in s.columns :: if k in fields && !k.Extra? then Stored(k, fields[k]) else s.columns[k],
      map k | k in s.config.Keys + fields.Keys && (k in s.config || Mirrored(k)) ::
        if k in fields && Mirrored(k) then MirrorOf(k, fields[k], secrets) else s.config[k])
  }

  /** The values an operation saves before it changes fields, so that they can be put back. */
  function Saved(s: Settings, fields: Fields): (saved: Fields)
    ensures saved.Keys == fields.Keys && forall k | k in fields && k in s.columns :: saved[k] == s.columns[k]
  {
    map k | k in fields :: if k in s.columns then s.columns[k] else ""
  }

  /** The six columns exist. */
  predicate Whole(s: Settings) {
    s.columns.Keys == {Name, Server, EcVer, Username, ProbeUrl, Password}
  }

  /** The columns named in a request hold values that a second write would not change. */
  predicate Neat(s: Settings, fields: Fields) {
    forall k | k in fields && k in s.columns :: Stored(k, s.columns[k]) == s.columns[k]
  }

  /** No column holds a value that a second write would change. */
  ghost predicate Tidy(s: Settings) {
    Whole(s) && forall k | k in s.columns :: Stored(k, s.columns[k]) == s.columns[k]
  }

  /** The mirrors of the changed fields agreed with their columns before the change. */
  predicate MirrorAgrees(s: Settings, fields: Fields, secrets: set<Field>) {
    forall k | k in fields && Mirrored(k) && k in s.columns ::
      k in s.config && s.config[k] == MirrorOf(k, s.columns[k], secrets)
  }

  lemma {:induction false} RemoveSpaceTwice(s: string)
    ensures RemoveSpace(RemoveSpace(s)) == RemoveSpace(s)
  {
    if s != "" {
      RemoveSpaceTwice(s[1..]);
      if !IsSpace(s[0]) {
        assert ([s[0]] + RemoveSpace(s[1..]))[1..] == RemoveSpace(s[1..]);
      } else {
        assert RemoveSpace(s) == RemoveSpace(s[1..]);
      }
    }
  }

  lemma {:induction false} StripLeftEdge(s: string)
    ensures StripLeft(s) == "" || !IsSpace(StripLeft(s)[0])
  {
    if s != "" && IsSpace(s[0]) { StripLeftEdge(s[1..]); }
  }

  lemma {:induction false} StripRightEdge(s: string)
    ensures StripRight(s) <= s
    ensures StripRight(s) == "" || !IsSpace(StripRight(s)[|StripRight(s)| - 1])
  {
    if s != "" && IsSpace(s[|s| - 1]) { StripRightEdge(s[..|s| - 1]); }
  }

  lemma CleanTwice(f: Field, v: string)
    ensures Clean(f, Clean(f, v)) == Clean(f, v)
  {
    RemoveSpaceTwice(v);
    StripLeftEdge(v);
    StripRightEdge(StripLeft(v));
  }

  predicate Blank(s: string) { forall i | 0 <= i < |s| :: IsSpace(s[i]) }

  predicate Solid(s: string) { forall i | 0 <= i < |s| :: !IsSpace(s[i]) }

  lemma {:induction false} SolidStays(solid: string, s: string)
    requires Solid(solid)
    ensures RemoveSpace(solid + s) == solid + RemoveSpace(s)
  {
    if solid == "" {
      assert solid + s == s;
    } else {
      assert (solid + s)[1..] == solid[1..] + s && solid == [solid[0]] + solid[1..];
      SolidStays(solid[1..], s);
    }
  }

  lemma {:induction false} BlankLeaves(blank: string, s: string)
    requires Blank(blank)
    ensures RemoveSpace(blank + s) == RemoveSpace(s)
  {
    if blank == "" {
      assert blank + s == s;
    } else {
      assert (blank + s)[1..] == blank[1..] + s;
      BlankLeaves(blank[1..], s);
    }
  }

  /** Of a gateway or an account exactly the blanks go, wherever they are, and everything else stays in order. */
  lemma ExactlyBlanksGo(f: Field, solid: string, blank: string, rest: string)
    requires (f == Server || f == Username) && Solid(solid) && Blank(blank)
    ensures Clean(f, solid + blank + rest) == solid + Clean(f, rest)
  {
    hide RemoveSpace, IsSpace;
    assert solid + blank + rest == solid + (blank + rest);
    SolidStays(solid, blank + rest);
    BlankLeaves(blank, rest);
  }

  /** Of other text exactly the blanks at both ends go. */
  lemma ExactlyEndsGo(f: Field, left: string, core: string, right: string)
    requires f != Server && f != Username && Blank(left) && Blank(right)
    requires core == "" || (!IsSpace(core[0]) && !IsSpace(core[|core| - 1]))
    ensures Clean(f, left + core + right) == core
  {
    assert left + core + right == left + (core + right);
    StripLeftOf(left, core + right);
    if core == "" {
      assert core + right == right && right == right + "";
      StripLeftOf(right, "");
    } else {
      StripRightOf(core, right);
    }
  }

  lemma {:induction false} StripLeftOf(blank: string, s: string)
    requires Blank(blank)
    ensures StripLeft(blank + s) == StripLeft(s)
  {
    if blank != "" {
      assert (blank + s)[1..] == blank[1..] + s;
      StripLeftOf(blank[1..], s);
    } else {
      assert blank + s == s;
    }
  }

  lemma {:induction false} StripRightOf(s: string, blank: string)
    requires Blank(blank) && s != "" && !IsSpace(s[|s| - 1])
    ensures StripRight(s + blank) == s
  {
    if blank != "" {
      assert (s + blank)[..|s + blank| - 1] == s + blank[..|blank| - 1];
      StripRightOf(s, blank[..|blank| - 1]);
    } else {
      assert s + blank == s;
    }
  }

  /** What a write does, field by field: the password column takes what was given; three fields are mirrored, secrets as given. */
  lemma UpdateSpelled(s: Settings, fields: Fields, secrets: set<Field>, k: Field)
    requires Whole(s)
    ensures var t := Update(s, fields, secrets);
      && Whole(t)
      && (k in s.columns && k !in fields ==> t.columns[k] == s.columns[k])
      && (k in {Name, Server, EcVer, Username, ProbeUrl} && k in fields ==> t.columns[k] == Clean(k, fields[k]))
      && (k == Password && k in fields ==> t.columns[k] == fields[k])
      && (k in {Server, Username, Password} && k in fields ==> k in t.config && t.config[k] == if k in secrets then fields[k] else Clean(k, fields[k]))
      && (k !in {Server, Username, Password} || k !in fields ==> (k in t.config <==> k in s.config) && (k in s.config ==> t.config[k] == s.config[k]))
  {
  }

  /** A write leaves a column in a form that writing again would keep, whatever the request holds; one it does not name stays as it was. */
  lemma UpdateKeepsTidy(s: Settings, fields: Fields, secrets: set<Field>)
    requires Whole(s)
    ensures Tidy(Update(s, fields, secrets)) <==> forall k | k in s.columns && k !in fields :: Stored(k, s.columns[k]) == s.columns[k]
  {
    hide Update, Stored;
    var t := Update(s, fields, secrets);
    UpdateKeepsColumns(s, fields, secrets);
    forall k | k in s.columns
      ensures k in fields ==> Stored(k, t.columns[k]) == t.columns[k]
      ensures k !in fields ==> t.columns[k] == s.columns[k]
    {
      ColumnAfter(s, fields, secrets, k);
      if k in fields { StoredTwice(k, fields[k]); }
    }
  }

  /** Writing the saved values back restores every column, unless a changed one held what no write would have left there. */
  lemma RollbackRestoresColumns(s: Settings, fields: Fields, secrets: set<Field>)
    requires Whole(s)
    ensures Update(Update(s, fields, secrets), Saved(s, fields), secrets).columns == s.columns <==> Neat(s, fields)
  {
    var back := Update(Update(s, fields, secrets), Saved(s, fields), secrets);
    assert back.columns.Keys == s.columns.Keys;
    forall k | k in s.columns ensures back.columns[k] == if k in fields then Stored(k, s.columns[k]) else s.columns[k] {
      RolledBackColumn(s, fields, secrets, k);
    }
    hide Update, Saved, Stored;
  }

  lemma RolledBackColumn(s: Settings, fields: Fields, secrets: set<Field>, k: Field)
    requires Whole(s) && k in s.columns
    ensures var back := Update(Update(s, fields, secrets), Saved(s, fields), secrets).columns;
      k in back && back[k] == if k in fields then Stored(k, s.columns[k]) else s.columns[k]
  {
    ColumnAfter(s, fields, secrets, k);
    ColumnAfter(Update(s, fields, secrets), Saved(s, fields), secrets, k);
    assert k in fields ==> Saved(s, fields)[k] == s.columns[k];
    hide Update, Stored;
  }

  /** What a rollback leaves in the config mirror, key by key. */
  lemma RollbackConfig(s: Settings, fields: Fields, secrets: set<Field>, k: Field)
    requires Whole(s)
    ensures AfterRollback(Update(Update(s, fields, secrets), Saved(s, fields), secrets).config, s, fields, secrets, k)
  {
    assert k in fields && Mirrored(k) ==> Saved(s, fields)[k] == s.columns[k];
  }

  /** The whole settings value comes back exactly when the changed columns were neat and their mirrors agreed beforehand. */
  lemma RollbackIsExact(s: Settings, fields: Fields, secrets: set<Field>)
    requires Whole(s)
    ensures Update(Update(s, fields, secrets), Saved(s, fields), secrets) == s
       <==> Neat(s, fields) && MirrorAgrees(s, fields, secrets)
  {
    var back := Update(Update(s, fields, secrets), Saved(s, fields), secrets);
    RollbackRestoresColumns(s, fields, secrets);
    forall k ensures AfterRollback(back.config, s, fields, secrets, k) {
      RollbackConfig(s, fields, secrets, k);
    }
    ConfigIsExact(back.config, s, fields, secrets);
  }

  ghost predicate AfterRollback(config: map<Field, string>, s: Settings, fields: Fields, secrets: set<Field>, k: Field)
    requires Whole(s)
  {
    && (k in config <==> k in s.config || (k in fields && Mirrored(k)))
    && (k in config ==> config[k] == if k in fields && Mirrored(k) then MirrorOf(k, s.columns[k], secrets) else s.config[k])
  }

  lemma ConfigIsExact(config: map<Field, string>, s: Settings, fields: Fields, secrets: set<Field>)
    requires Whole(s)
    requires forall k :: AfterRollback(config, s, fields, secrets, k)
    ensures config == s.config <==> MirrorAgrees(s, fields, secrets)
  {
    if MirrorAgrees(s, fields, secrets) {
      forall k ensures k in config <==> k in s.config {
        assert AfterRollback(config, s, fields, secrets, k);
      }
      forall k | k in s.config ensures config[k] == s.config[k] {
        assert AfterRollback(config, s, fields, secrets, k);
      }
    } else {
      var k :| k in fields && Mirrored(k) && k in s.columns
        && !(k in s.config && s.config[k] == MirrorOf(k, s.columns[k], secrets));
      assert AfterRollback(config, s, fields, secrets, k);
    }
  }

  lemma BlankGoes()
    ensures StripRight(StripLeft(" 7")) == "7"
  {
    assert StripLeft(" 7") == StripLeft("7") == "7";
  }

  /** A channel created with blanks around its client version loses them in a rollback. */
  lemma RollbackCanTrim(s: Settings, fields: Fields, secrets: set<Field>)
    requires Whole(s) && EcVer in fields && s.columns[EcVer] == " 7"
    ensures Update(Update(s, fields, secrets), Saved(s, fields), secrets).columns[EcVer] == "7"
  {
    hide Update, StripLeft, StripRight;
    RolledBackColumn(s, fields, secrets, EcVer);
    BlankGoes();
  }

  /** A channel created without a mirrored gateway does not get its settings back to the letter. */
  lemma RollbackCanAddMirror(s: Settings, fields: Fields)
    requires Tidy(s) && Server in fields && Server !in s.config
    ensures Update(Update(s, fields, {}), Saved(s, fields), {}).config[Server] == s.columns[Server]
  {
    RollbackConfig(s, fields, {}, Server);
    CleanTwice(Server, s.columns[Server]);
  }

  // ---------------------------------------------------------------- settings kept for later

  /** Changing these takes a new container; everything else is written at once. */
  predicate NeedsContainer(f: Field) { f in {Server, Username, Password, EcVer} }

  function Immediate(fields: Fields): (now: Fields)
    ensures now.Keys == fields.Keys - {Server, Username, Password, EcVer} && forall k | k in now :: now[k] == fields[k]
  {
    map k | k in fields && !NeedsContainer(k) :: fields[k]
  }

  /** What stays wanted: earlier wishes overlaid with new ones, without those that change nothing. */
  function Postponed(prior: Fields, fields: Fields, s: Settings): Fields {
    var wanted := prior + (map k | k in fields && NeedsContainer(k) :: Stored(k, fields[k]));
    map k | k in wanted && wanted[k] != (if k in s.columns then s.columns[k] else "") :: wanted[k]
  }

  /** What a new request does to a wish, field by field. */
  lemma PostponedSpelled(prior: Fields, fields: Fields, s: Settings, k: Field)
    requires Whole(s)
    ensures var later := Postponed(prior, fields, s);
      && (k in {Server, Username, Password, EcVer} && k in fields ==>
            (k in later <==> Stored(k, fields[k]) != s.columns[k]) && (k in later ==> later[k] == Stored(k, fields[k])))
      && (k !in {Server, Username, Password, EcVer} || k !in fields ==>
            (k in later <==> k in prior && prior[k] != (if k in s.columns then s.columns[k] else "")) && (k in later ==> later[k] == prior[k]))
  {
  }

  /** A queued wish holds cleaned values of fields that need a new container. */
  predicate IsWish(wish: Fields) {
    forall k | k in wish :: NeedsContainer(k) && Stored(k, wish[k]) == wish[k]
  }

  lemma PostponedIsWish(prior: Fields, fields: Fields, s: Settings)
    requires IsWish(prior)
    ensures IsWish(Postponed(prior, fields, s))
  {
    forall k | k in fields ensures Stored(k, Stored(k, fields[k])) == Stored(k, fields[k]) { CleanTwice(k, fields[k]); }
  }

  lemma StoredTwice(k: Field, v: string)
    ensures Stored(k, Stored(k, v)) == Stored(k, v)
  {
    CleanTwice(k, v);
  }

  lemma ColumnAfter(s: Settings, fields: Fields, secrets: set<Field>, k: Field)
    requires k in s.columns && !k.Extra?
    ensures Update(s, fields, secrets).columns.Keys == s.columns.Keys
    ensures Update(s, fields, secrets).columns[k] == if k in fields then Stored(k, fields[k]) else s.columns[k]
  {
  }

  lemma QueuedColumn(s: Settings, prior: Fields, fields: Fields, secrets: set<Field>, k: Field)
    requires Whole(s) && IsWish(prior) && k in s.columns
    ensures Update(Update(s, Immediate(fields), secrets), Postponed(prior, fields, s), secrets).columns[k]
         == Update(Update(s, prior, secrets), fields, secrets).columns[k]
  {
    hide Update;
    ColumnAfter(s, Immediate(fields), secrets, k);
    ColumnAfter(Update(s, Immediate(fields), secrets), Postponed(prior, fields, s), secrets, k);
    ColumnAfter(s, prior, secrets, k);
    ColumnAfter(Update(s, prior, secrets), fields, secrets, k);
    if k in fields { StoredTwice(k, fields[k]); }
    hide Stored;
  }

  /** Each request applied at once. */
  function AtOnce(s: Settings, requests: seq<Fields>, secrets: set<Field>): Settings {
    if requests == [] then s
    else Update(AtOnce(s, requests[..|requests| - 1], secrets), requests[|requests| - 1], secrets)
  }

  /** Each request queued: the settings so far and the wish. */
  function Queued(s: Settings, requests: seq<Fields>, secrets: set<Field>): (Settings, Fields) {
    if requests == [] then (s, map[])
    else
      var (t, wish) := Queued(s, requests[..|requests| - 1], secrets);
      var fields := requests[|requests| - 1];
      (Update(t, Immediate(fields), secrets), Postponed(wish, fields, t))
  }

  /** Queueing all and applying the wish in the end. */
  function Later(s: Settings, requests: seq<Fields>, secrets: set<Field>): Settings {
    var (t, wish) := Queued(s, requests, secrets);
    Update(t, wish, secrets)
  }

  lemma UpdateKeepsColumns(s: Settings, fields: Fields, secrets: set<Field>)
    ensures Update(s, fields, secrets).columns.Keys == s.columns.Keys
  {
  }

  lemma {:induction false} QueuedIsWish(s: Settings, requests: seq<Fields>, secrets: set<Field>)
    requires Whole(s)
    ensures Whole(Queued(s, requests, secrets).0) && IsWish(Queued(s, requests, secrets).1)
  {
    if requests != [] {
      QueuedIsWish(s, requests[..|requests| - 1], secrets);
      var (t, wish) := Queued(s, requests[..|requests| - 1], secrets);
      UpdateKeepsColumns(t, Immediate(requests[|requests| - 1]), secrets);
      PostponedIsWish(wish, requests[|requests| - 1], t);
    }
  }

  lemma SameColumns(a: Settings, b: Settings, fields: Fields, secrets: set<Field>)
    requires a.columns == b.columns
    ensures Update(a, fields, secrets).columns == Update(b, fields, secrets).columns
  {
  }

  lemma QueuedStep(t: Settings, wish: Fields, fields: Fields, secrets: set<Field>)
    requires Whole(t) && IsWish(wish)
    ensures Update(Update(t, Immediate(fields), secrets), Postponed(wish, fields, t), secrets).columns
         == Update(Update(t, wish, secrets), fields, secrets).columns
  {
    var late := Update(Update(t, Immediate(fields), secrets), Postponed(wish, fields, t), secrets).columns;
    var soon := Update(Update(t, wish, secrets), fields, secrets).columns;
    assert late.Keys == t.columns.Keys == soon.Keys;
    forall k | k in t.columns ensures late[k] == soon[k] { QueuedColumn(t, wish, fields, secrets, k); }
  }

  /** Queueing any number of requests and applying the wish later leaves the columns that applying each at once would have. */
  lemma {:induction false} QueueingLosesNothing(s: Settings, requests: seq<Fields>, secrets: set<Field>)
    requires Whole(s)
    ensures Later(s, requests, secrets).columns == AtOnce(s, requests, secrets).columns
  {
    if requests == [] {
      NothingAsked(s, secrets);
    } else {
      var before, fields := requests[..|requests| - 1], requests[|requests| - 1];
      QueueingLosesNothing(s, before, secrets);
      QueuedIsWish(s, before, secrets);
      hide Update, Postponed, Immediate;
      var (t, wish) := Queued(s, before, secrets);
      QueuedStep(t, wish, fields, secrets);
      SameColumns(Update(t, wish, secrets), AtOnce(s, before, secrets), fields, secrets);
    }
  }

  lemma NothingAsked(s: Settings, secrets: set<Field>)
    ensures Update(s, map[], secrets) == s
  {
  }

  // ---------------------------------------------------------------- and the mirror

  /** What was asked for last. */
  function Last(requests: seq<Fields>, k: Field): Option<string> {
    if requests == [] then None
    else if k in requests[|requests| - 1] then Some(requests[|requests| - 1][k])
    else Last(requests[..|requests| - 1], k)
  }

  /** Until the wish is applied neither the mirror nor what the container needs is touched, and the wish holds what was asked for last. */
  lemma {:induction false} QueuedHolds(s: Settings, requests: seq<Fields>, secrets: set<Field>, k: Field)
    requires Whole(s) && NeedsContainer(k)
    ensures var (t, wish) := Queued(s, requests, secrets); var last := Last(requests, k);
      && t.config == s.config && k in t.columns && t.columns[k] == s.columns[k]
      && (k in wish <==> last.Some? && Stored(k, last.value) != s.columns[k])
      && (k in wish ==> wish[k] == Stored(k, last.value))
  {
    if requests != [] {
      var before, fields := requests[..|requests| - 1], requests[|requests| - 1];
      QueuedHolds(s, before, secrets, k);
      var (t, wish) := Queued(s, before, secrets);
      ImmediateSpares(t, fields, secrets, k);
      PostponedHolds(t, wish, fields, k);
      hide Update, Postponed, Immediate, Stored;
    }
  }

  lemma ImmediateSpares(t: Settings, fields: Fields, secrets: set<Field>, k: Field)
    requires NeedsContainer(k) && k in t.columns
    ensures Update(t, Immediate(fields), secrets).config == t.config
    ensures k in Update(t, Immediate(fields), secrets).columns && Update(t, Immediate(fields), secrets).columns[k] == t.columns[k]
  {
  }

  lemma PostponedHolds(t: Settings, wish: Fields, fields: Fields, k: Field)
    requires NeedsContainer(k) && k in t.columns && (k in wish ==> wish[k] != t.columns[k])
    ensures k in Postponed(wish, fields, t) <==> (if k in fields then Stored(k, fields[k]) != t.columns[k] else k in wish)
    ensures k in Postponed(wish, fields, t) ==> Postponed(wish, fields, t)[k] == if k in fields then Stored(k, fields[k]) else wish[k]
  {
    hide Stored;
  }

  lemma MirrorAfter(s: Settings, fields: Fields, secrets: set<Field>, k: Field)
    ensures var t := Update(s, fields, secrets);
      && (k in t.config <==> k in s.config || (k in fields && Mirrored(k)))
      && (k in t.config ==> t.config[k] == if k in fields && Mirrored(k) then MirrorOf(k, fields[k], secrets) else s.config[k])
  {
  }

  lemma {:induction false} AtOnceMirror(s: Settings, requests: seq<Fields>, secrets: set<Field>, k: Field)
    ensures var t, last := AtOnce(s, requests, secrets), Last(requests, k);
      && (k in t.config <==> k in s.config || (last.Some? && Mirrored(k)))
      && (k in t.config ==> t.config[k] == if last.Some? && Mirrored(k) then MirrorOf(k, last.value, secrets) else s.config[k])
  {
    if requests != [] {
      var before := requests[..|requests| - 1];
      AtOnceMirror(s, before, secrets, k);
      MirrorAfter(AtOnce(s, before, secrets), requests[|requests| - 1], secrets, k);
      hide Update, MirrorOf;
    }
  }

  /**
   The mirror of k comes out the same: a value that is already in the column is mirrored as it would be written, and any other
   that is mirrored as given needs no cleaning.
   */
  predicate MirrorKept(s: Settings, k: Field, v: string, secrets: set<Field>)
    requires k in s.columns
  {
    if Stored(k, v) == s.columns[k] then k in s.config && s.config[k] == MirrorOf(k, v, secrets)
    else k in secrets ==> Stored(k, v) == v
  }

  lemma MirrorOfStored(k: Field, v: string, secrets: set<Field>)
    requires Mirrored(k)
    ensures MirrorOf(k, Stored(k, v), secrets) == MirrorOf(k, v, secrets) <==> (k in secrets ==> Stored(k, v) == v)
  {
    CleanTwice(k, v);
  }

  predicate AgreeAt(a: map<Field, string>, b: map<Field, string>, k: Field) {
    (k in a <==> k in b) && (k in a && k in b ==> a[k] == b[k])
  }

  lemma LaterMirror(s: Settings, requests: seq<Fields>, secrets: set<Field>, k: Field)
    requires Whole(s)
    ensures var a, b := Later(s, requests, secrets).config, AtOnce(s, requests, secrets).config;
      AgreeAt(a, b, k) <==> (Mirrored(k) && Last(requests, k).Some? ==> MirrorKept(s, k, Last(requests, k).value, secrets))
  {
    var (t, wish) := Queued(s, requests, secrets);
    QueuedHolds(s, requests, secrets, if Mirrored(k) then k else Server);
    AtOnceMirror(s, requests, secrets, k);
    MirrorAfter(t, wish, secrets, k);
    if Mirrored(k) && Last(requests, k).Some? { MirrorOfStored(k, Last(requests, k).value, secrets); }
    hide Update, MirrorOf, Stored, AtOnce, Queued, Last;
  }

  /** The config mirror comes out the same as well exactly if that holds of every mirrored field that was asked for. */
  lemma QueueingAndTheMirror(s: Settings, requests: seq<Fields>, secrets: set<Field>)
    requires Whole(s)
    ensures Later(s, requests, secrets) == AtOnce(s, requests, secrets) <==>
      forall k | Mirrored(k) && Last(requests, k).Some? :: MirrorKept(s, k, Last(requests, k).value, secrets)
  {
    QueueingLosesNothing(s, requests, secrets);
    hide Later, AtOnce, MirrorKept, Last;
    var a, b := Later(s, requests, secrets), AtOnce(s, requests, secrets);
    forall k ensures AgreeAt(a.config, b.config, k)
      <==> (Mirrored(k) && Last(requests, k).Some? ==> MirrorKept(s, k, Last(requests, k).value, secrets))
    {
      LaterMirror(s, requests, secrets, k);
    }
    AgreeEverywhere(a.config, b.config);
    hide AgreeAt, Mirrored;
  }

  lemma AgreeEverywhere(a: map<Field, string>, b: map<Field, string>)
    ensures a == b <==> forall k :: AgreeAt(a, b, k)
  {
    if forall k :: AgreeAt(a, b, k) {
      forall k ensures k in a <==> k in b { assert AgreeAt(a, b, k); }
      forall k | k in a ensures a[k] == b[k] { assert AgreeAt(a, b, k); }
      assert a.Keys == b.Keys;
    }
  }
}
