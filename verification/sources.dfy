/**
 Which journal writes make a rendered configuration outdated: the SQLite triggers bump the source
 revision, and a channel's routes never open or close without such a bump.
 */
module Sources {
  import opened Common
  import opened Names
  import opened Settings
  import opened Journal

  /** The rules of the channel are not in force: it is stopped, broken, or a stop has been asked for. */
  predicate Silent(db: Db) {
    db.row.None? || db.row.value.status in {Stopped, Failed} || db.intent.Some?
  }

  predicate Down(status: Status) { status in {Stopped, Failed} }

  /** The triggers on the channels table: a row comes or goes, its container changes, or it goes up or down. */
  predicate Bumps(a: Db, b: Db) {
    || a.row.Some? != b.row.Some?
    || (a.row.Some? && b.row.Some?
        && (a.row.value.container != b.row.value.container || Down(a.row.value.status) != Down(b.row.value.status)))
  }

  /** What the journal writes, a wish to stop, its confirmation, and a status set by itself. */
  datatype Write = Journals(c: Call) | Wishes(ticket: nat) | Stands(ticket: nat) | Marks(status: Status) | Probes(ok: bool)

  function Written(db: Db, w: Write): Db {
    match w
    case Journals(c) => After(db, c)
    case Wishes(ticket) => if RequestStop(db, ticket).Some? then RequestStop(db, ticket).value else db
    case Stands(ticket) => if ConfirmStop(db, ticket).Some? then ConfirmStop(db, ticket).value else db
    case Marks(status) => SetStatus(db, status)
    case Probes(ok) => if db.row.Some? && db.row.value.status in {Up, LoggedIn} then SetStatus(db, if ok then LoggedIn else Up) else db
  }

  /** No write opens or closes the channel's routes without bumping the source revision. */
  lemma RoutesChangeOnlyWithBump(db: Db, w: Write)
    requires db.row.None? ==> db.intent.None?
    requires Silent(Written(db, w)) != Silent(db)
    ensures Bumps(db, Written(db, w))
  {
    match w
    case Journals(c) => JournalKeepsIntent(db, c);
    case _ =>
  }

  lemma JournalKeepsIntent(db: Db, c: Call)
    ensures After(db, c).intent == db.intent || (c.DoDeleted? && After(db, c) == Db(None, None, None))
  {
  }

  /** A wish to stop silences the channel at once, and its routes stay closed until the wish has been carried out. */
  lemma {:induction false} SilentFromWishToConfirmation(db: Db, writes: seq<Write>, ticket: nat, n: nat)
    requires n <= |writes| && db.intent == Some(ticket)
    requires forall i | 0 <= i < n :: writes[i] != Stands(ticket)
    ensures Silent(Run(db, writes, n))
    ensures Run(db, writes, n).intent == Some(ticket) || Gone(Run(db, writes, n))
  {
    if n > 0 {
      SilentFromWishToConfirmation(db, writes, ticket, n - 1);
      StillSilent(Run(db, writes, n - 1), writes[n - 1], ticket);
    }
  }

  predicate Gone(db: Db) { db.row.None? && db.intent.None? }

  lemma StillSilent(db: Db, w: Write, ticket: nat)
    requires db.intent == Some(ticket) || Gone(db)
    requires w != Stands(ticket)
    ensures Written(db, w).intent == Some(ticket) || Gone(Written(db, w))
  {
    match w
    case Journals(c) => JournalKeepsIntent(db, c); if db.row.None? { JournalKeepsGone(db, c); }
    case _ =>
  }

  lemma JournalKeepsGone(db: Db, c: Call)
    requires db.row.None?
    ensures After(db, c).row.None?
  {
  }

  function Run(db: Db, writes: seq<Write>, n: nat): Db
    requires n <= |writes|
  {
    if n == 0 then db else Written(Run(db, writes, n - 1), writes[n - 1])
  }
}
