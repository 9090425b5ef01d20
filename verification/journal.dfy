/**
 The replacement journal: one row per channel that says which operation is under way and how
 far it got, beside the channel's own row and its stop intent.

 Each function below is one SQLite transaction: None means that it raised and was rolled back.
 The class Store of module ReplacementStore holds the rows and updates them in place.
 */
module Journal {
  import opened Common
  import opened Names
  import opened Settings

  datatype Phase =
    | Queued | Preparing | Prepared | Switching | Validating | AwaitingLogin
    | Committed | RollingBack | RolledBack | Deleting

  datatype Kind = Replacement | Initial

  /** A queued intent holds less than a plan that has begun. */
  datatype Payload =
    | Intent(fields: Fields, oldId: Option<nat>, oldVolume: Volume)
    | Plan(fields: Fields, oldId: Option<nat>, oldVolume: Volume, kind: Kind, oldFields: Fields,
           secrets: set<Field>, sourceExists: bool, oldRunning: bool, oldPolicy: Policy,
           start: bool, configApplied: bool, newId: Option<nat>)

  datatype Record = Record(op: nat, phase: Phase, payload: Payload)

  datatype Status = Creating | Up | LoggedIn | Stopped | Failed

  datatype Runtime = Runtime(container: nat, volume: Volume, port: Option<nat>, status: Status, latency: Option<nat>)

  datatype Row = Row(container: Option<nat>, volume: Volume, port: Option<nat>, status: Status,
                     latency: Option<nat>, settings: Settings)

  datatype Db = Db(row: Option<Row>, record: Option<Record>, intent: Option<nat>)

  // ---------------------------------------------------------------- transactions

  /** The compare half of every write: the record in the table is still the one the caller read. */
  predicate Holds(db: Db, op: nat, phase: Phase) {
    db.record.Some? && db.record.value.op == op && db.record.value.phase == phase
  }

  function Begin(db: Db, op: nat, payload: Payload, queued: Option<Record>): Option<Db> {
    if db.row.None? then None
    else match queued
      case Some(q) =>
        if q.phase == Queued && Holds(db, q.op, Queued)
        then Some(db.(record := Some(Record(op, Preparing, payload)))) else None
      case None =>
        if db.record.None? then Some(db.(record := Some(Record(op, Preparing, payload)))) else None
  }

  /** Keep connection settings as an intent while metadata is written at once. */
  function Queue(db: Db, prior: Option<Record>, op: nat, now: Fields, later: Payload, secrets: set<Field>): Option<Db> {
    if prior.Some? && prior.value.phase != Queued then None
    else if db.row.None? then None
    else if (if prior.Some? then !Holds(db, prior.value.op, Queued) else db.record.Some?) then None
    else
      var row := db.row.value.(settings := Update(db.row.value.settings, now, secrets));
      Some(db.(row := Some(row), record := if later.fields == map[] then None else Some(Record(op, Queued, later))))
  }

  function CancelQueued(db: Db, r: Record): Option<Db> {
    if r.phase == Queued && Holds(db, r.op, Queued) then Some(db.(record := None)) else None
  }

  predicate Legal(from: Phase, to: Phase) {
    && (to == from || (from, to) in {
        (Preparing, Prepared), (Preparing, RollingBack), (Prepared, Switching), (Prepared, RollingBack),
        (Switching, Validating), (Switching, RollingBack), (Validating, RollingBack), (AwaitingLogin, RollingBack)})
    && to != Committed && to != RolledBack
  }

  function Advance(db: Db, r: Record, next: Phase, payload: Payload): Option<Db> {
    if Legal(r.phase, next) && Holds(db, r.op, r.phase)
    then Some(db.(record := Some(Record(r.op, next, payload)))) else None
  }

  predicate ValidRuntime(runtime: Runtime) {
    runtime.status == Up || runtime.status == LoggedIn || runtime.status == Stopped
  }

  function Applied(row: Row, runtime: Runtime): Row {
    row.(container := Some(runtime.container), volume := runtime.volume, port := runtime.port,
         status := runtime.status, latency := runtime.latency)
  }

  function Written(row: Row, fields: Option<Fields>, secrets: set<Field>): Row {
    if fields.Some? then row.(settings := Update(row.settings, fields.value, secrets)) else row
  }

  function SetPhase(db: Db, phase: Phase): Db
    requires db.record.Some?
  {
    db.(record := Some(db.record.value.(phase := phase)))
  }

  /** Settings, runtime and outcome change in one transaction. */
  function Commit(db: Db, r: Record, fields: Fields, secrets: set<Field>, runtime: Runtime, awaiting: bool): Option<Db> {
    if Holds(db, r.op, Validating) && ValidRuntime(runtime) && db.row.Some?
    then Some(SetPhase(db.(row := Some(Applied(Written(db.row.value, Some(fields), secrets), runtime))),
                       if awaiting then AwaitingLogin else Committed))
    else None
  }

  function Confirm(db: Db, r: Record): Option<Db> {
    if Holds(db, r.op, AwaitingLogin) then Some(SetPhase(db, Committed)) else None
  }

  function Resumed(db: Db, r: Record, runtime: Runtime): Option<Db> {
    if Holds(db, r.op, AwaitingLogin) && ValidRuntime(runtime) && db.row.Some?
    then Some(db.(row := Some(Applied(db.row.value, runtime)))) else None
  }

  function RollBack(db: Db, r: Record, runtime: Runtime, fields: Option<Fields>, secrets: set<Field>): Option<Db> {
    if Holds(db, r.op, RollingBack) && ValidRuntime(runtime) && db.row.Some?
    then Some(SetPhase(db.(row := Some(Applied(Written(db.row.value, fields, secrets), runtime))), RolledBack))
    else None
  }

  /** The compensation when there was no old instance: settings and volume only. */
  function RestoreAbsent(db: Db, r: Record, volume: Volume, fields: Option<Fields>, secrets: set<Field>, stopped: bool): Option<Db> {
    if r.payload.Plan? && r.payload.kind == Initial && Holds(db, r.op, RollingBack) && db.row.Some?
    then
      var row := Written(db.row.value, fields, secrets).(container := None, port := None, latency := None,
                   status := if stopped then Stopped else Failed, volume := volume);
      Some(SetPhase(db.(row := Some(row)), RolledBack))
    else None
  }

  /** Deleting the row of a finished operation; absent already is not an error. */
  function Finish(db: Db, op: nat): Option<Db> {
    if db.record.None? then Some(db)
    else if db.record.value.op == op && (db.record.value.phase == Committed || db.record.value.phase == RolledBack)
    then Some(db.(record := None)) else None
  }

  function RequestDelete(db: Db, r: Record): Option<Db> {
    if Holds(db, r.op, r.phase) then Some(SetPhase(db, Deleting)) else None
  }

  function Deleted(db: Db, r: Record): Option<Db> {
    if Holds(db, r.op, Deleting) then Some(Db(None, None, None)) else None
  }

  /** Saving the wish to stop: the intent row keeps its first ticket. */
  function RequestStop(db: Db, ticket: nat): Option<Db> {
    if db.row.None? || (db.record.Some? && db.record.value.phase == Deleting) then None
    else
      var row := db.row.value.(status := Stopped, latency := None);
      var intent := if (db.row.value.container.Some? || db.record.Some?) && db.intent.None? then Some(ticket) else db.intent;
      Some(db.(row := Some(row), intent := intent))
  }

  function ConfirmStop(db: Db, ticket: nat): Option<Db> {
    if db.intent == Some(ticket) && db.row.Some?
    then Some(db.(row := Some(db.row.value.(status := Stopped, latency := None)), intent := None)) else None
  }

  function SetStatus(db: Db, status: Status): Db {
    if db.row.Some? then db.(row := Some(db.row.value.(status := status))) else db
  }

  // ---------------------------------------------------------------- runs of journal calls

  datatype Call =
    | DoBegin(op: nat, payload: Payload, queued: Option<Record>)
    | DoQueue(prior: Option<Record>, op: nat, now: Fields, payload: Payload, secrets: set<Field>)
    | DoCancel(r: Record)
    | DoAdvance(r: Record, next: Phase, payload: Payload)
    | DoCommit(r: Record, fields: Fields, secrets: set<Field>, runtime: Runtime, awaiting: bool)
    | DoConfirm(r: Record)
    | DoResumed(r: Record, runtime: Runtime)
    | DoRollBack(r: Record, runtime: Runtime, undo: Option<Fields>, secrets: set<Field>)
    | DoRestoreAbsent(r: Record, volume: Volume, undo: Option<Fields>, secrets: set<Field>, stopped: bool)
    | DoFinish(op: nat)
    | DoRequestDelete(r: Record)
    | DoDeleted(r: Record)

  function Exec(db: Db, c: Call): Option<Db> {
    match c
    case DoBegin(op, payload, queued) => Begin(db, op, payload, queued)
    case DoQueue(prior, op, now, payload, secrets) => Queue(db, prior, op, now, payload, secrets)
    case DoCancel(r) => CancelQueued(db, r)
    case DoAdvance(r, next, payload) => Advance(db, r, next, payload)
    case DoCommit(r, fields, secrets, runtime, awaiting) => Commit(db, r, fields, secrets, runtime, awaiting)
    case DoConfirm(r) => Confirm(db, r)
    case DoResumed(r, runtime) => Resumed(db, r, runtime)
    case DoRollBack(r, runtime, undo, secrets) => RollBack(db, r, runtime, undo, secrets)
    case DoRestoreAbsent(r, volume, undo, secrets, stopped) => RestoreAbsent(db, r, volume, undo, secrets, stopped)
    case DoFinish(op) => Finish(db, op)
    case DoRequestDelete(r) => RequestDelete(db, r)
    case DoDeleted(r) => Deleted(db, r)
  }

  function After(db: Db, c: Call): Db {
    var next := Exec(db, c);
    if next.Some? then next.value else db
  }

  /** The rows after the first n calls, whatever stale records the callers were holding. */
  function At(db: Db, calls: seq<Call>, n: nat): Db
    requires n <= |calls|
  {
    if n == 0 then db else After(At(db, calls, n - 1), calls[n - 1])
  }

  predicate Introduces(c: Call, op: nat) {
    (c.DoBegin? || c.DoQueue?) && c.op == op
  }

  /** Operation identifiers are random: no call introduces one that was in use before. */
  ghost predicate FreshOps(db: Db, calls: seq<Call>) {
    && (forall i | 0 <= i < |calls| :: db.record.Some? ==> !Introduces(calls[i], db.record.value.op))
    && (forall i, j, op | 0 <= i < j < |calls| && Introduces(calls[i], op) :: !Introduces(calls[j], op))
  }

  predicate Running(db: Db, op: nat) {
    db.record.Some? && db.record.value.op == op
  }

  /** One step of the transition graph. */
  predicate Edge(p: Phase, q: Phase) {
    || p == q
    || Legal(p, q)
    || (p == Validating && (q == AwaitingLogin || q == Committed))
    || (p == AwaitingLogin && q == Committed)
    || (p == RollingBack && q == RolledBack)
    || q == Deleting
  }

  predicate Follows(a: Db, b: Db) {
    a.record.Some? && b.record.Some? && Edge(a.record.value.phase, b.record.value.phase)
  }

  lemma CallFollowsGraph(db: Db, c: Call, op: nat)
    requires !Introduces(c, op)
    requires Running(After(db, c), op)
    ensures Running(db, op)
    ensures Edge(db.record.value.phase, After(db, c).record.value.phase)
  {
  }

  /** The record a call carries, if it carries one. */
  function Carried(c: Call): Option<Record> {
    match c
    case DoBegin(_, _, queued) => queued
    case DoQueue(prior, _, _, _, _) => prior
    case DoFinish(_) => None
    case _ => Some(c.r)
  }

  /** The phase a call compares the stored row with: its record's own, or one fixed by the call. */
  function Compared(c: Call): Phase
    requires Carried(c).Some?
  {
    match c
    case DoBegin(_, _, _) => Queued
    case DoQueue(_, _, _, _, _) => Queued
    case DoCancel(_) => Queued
    case DoCommit(_, _, _, _, _) => Validating
    case DoConfirm(_) => AwaitingLogin
    case DoResumed(_, _) => AwaitingLogin
    case DoRollBack(_, _, _, _) => RollingBack
    case DoRestoreAbsent(_, _, _, _, _) => RollingBack
    case DoDeleted(_) => Deleting
    case _ => Carried(c).value.phase
  }

  /** Nothing is written unless the stored row has the record's operation and the compared phase. */
  lemma WritesOnlyWhenCompared(db: Db, c: Call)
    requires Carried(c).Some?
    requires Exec(db, c).Some?
    ensures Holds(db, Carried(c).value.op, Compared(c))
  {
    match c
    case DoBegin(_, _, _) =>
    case DoQueue(_, _, _, _, _) =>
    case _ =>
  }

  /** A record whose operation is over never writes. */
  lemma OverNeverWrites(db: Db, c: Call)
    requires Carried(c).Some? && !Running(db, Carried(c).value.op)
    ensures After(db, c) == db
  {
    if Exec(db, c).Some? { WritesOnlyWhenCompared(db, c); }
  }

  /** What a call demands of its arguments, whatever is in the tables. */
  predicate Able(c: Call)
    requires Carried(c).Some?
  {
    match c
    case DoBegin(_, _, queued) => queued.value.phase == Queued
    case DoQueue(prior, _, _, _, _) => prior.value.phase == Queued
    case DoCancel(r) => r.phase == Queued
    case DoAdvance(r, next, _) => Legal(r.phase, next)
    case DoCommit(_, _, _, runtime, _) => ValidRuntime(runtime)
    case DoResumed(_, runtime) => ValidRuntime(runtime)
    case DoRollBack(_, runtime, _, _) => ValidRuntime(runtime)
    case DoRestoreAbsent(r, _, _, _, _) => r.payload.Plan? && r.payload.kind == Initial
    case _ => true
  }

  /** The operation is on record, but no longer in the phase in which the call's record was read. */
  predicate Stale(db: Db, c: Call)
    requires Carried(c).Some?
  {
    Running(db, Carried(c).value.op) && db.record.value.phase != Carried(c).value.phase
  }

  /** Tables in which the call finds the phase it compares, with a row that differs from whatever it may write. */
  function InComparedPhase(c: Call): Db
    requires Carried(c).Some?
  {
    var container := match c
      case DoResumed(_, runtime) => Some(runtime.container + 1)
      case _ => None;
    Db(Some(Row(container, Original, None, Stopped, None, Settings(map[], map[]))),
       Some(Record(Carried(c).value.op, Compared(c), Carried(c).value.payload)), None)
  }

  lemma ComparedPhaseWrites(c: Call)
    requires Carried(c).Some? && Able(c)
    ensures Exec(InComparedPhase(c), c).Some?
    ensures !c.DoBegin? && !c.DoQueue? && !c.DoCancel? && !c.DoAdvance? && !c.DoRequestDelete? ==> After(InComparedPhase(c), c) != InComparedPhase(c)
  {
    var db := InComparedPhase(c);
    match c
    case DoResumed(_, runtime) => assert After(db, c).row.value.container == Some(runtime.container);
    case DoCommit(_, _, _, _, awaiting) => assert After(db, c).record.value.phase == if awaiting then AwaitingLogin else Committed;
    case DoConfirm(_) => assert After(db, c).record.value.phase == Committed;
    case DoRollBack(_, _, _, _) => assert After(db, c).record.value.phase == RolledBack;
    case DoRestoreAbsent(_, _, _, _, _) => assert After(db, c).record.value.phase == RolledBack;
    case DoDeleted(_) => assert After(db, c).row.None?;
    case _ =>
  }

  /** These demands are all a call makes: whoever meets them gets through in some state of the tables, and nobody else ever does. */
  lemma AbleIsExact(c: Call)
    requires Carried(c).Some?
    ensures Able(c) <==> exists db :: Exec(db, c).Some?
  {
    if Able(c) { ComparedPhaseWrites(c); }
  }

  /**
   A record whose phase has passed never writes if, and only if, it was read in the phase that the call compares: commit,
   confirm, resume, both rollbacks and the end of a deletion compare a phase of their own and ignore the record's.
   */
  lemma StaleRecordNeverWrites(c: Call)
    requires Carried(c).Some? && Able(c)
    ensures (forall db | Stale(db, c) :: After(db, c) == db) <==> Carried(c).value.phase == Compared(c)
  {
    if Carried(c).value.phase == Compared(c) {
      forall db | Stale(db, c) ensures After(db, c) == db {
        if Exec(db, c).Some? { WritesOnlyWhenCompared(db, c); }
      }
    } else {
      ComparedPhaseWrites(c);
      assert Stale(InComparedPhase(c), c);
    }
  }

  /** The plainest case: a record read before the switch still confirms the login that is awaited now. */
  lemma OldPhaseCanStillConfirm(db: Db, r: Record)
    requires Holds(db, r.op, AwaitingLogin) && r.phase == Prepared
    ensures After(db, DoConfirm(r)) != db
  {
    assert After(db, DoConfirm(r)).record.value.phase == Committed;
  }

  /** If an operation is on record at two moments it was on record in between, one edge at a time. */
  lemma {:induction false} OperationIsOnePath(db: Db, calls: seq<Call>, op: nat, i: nat, j: nat)
    requires FreshOps(db, calls) && i <= j <= |calls|
    requires Running(At(db, calls, i), op) && Running(At(db, calls, j), op)
    ensures forall k | i <= k <= j :: Running(At(db, calls, k), op)
    ensures forall k | i <= k < j :: Follows(At(db, calls, k), At(db, calls, k + 1))
  {
    if i < j {
      Introduced(db, calls, op, i);
      CallFollowsGraph(At(db, calls, j - 1), calls[j - 1], op);
      OperationIsOnePath(db, calls, op, i, j - 1);
    }
  }

  /** An operation on record was there from the start or introduced by an earlier call. */
  lemma {:induction false} Introduced(db: Db, calls: seq<Call>, op: nat, i: nat)
    requires FreshOps(db, calls) && i <= |calls| && Running(At(db, calls, i), op)
    ensures forall j | i <= j < |calls| :: !Introduces(calls[j], op)
  {
    if i > 0 && !Introduces(calls[i - 1], op) {
      CallFollowsGraph(At(db, calls, i - 1), calls[i - 1], op);
      Introduced(db, calls, op, i - 1);
    }
  }

  /** Outcomes exclude each other and are left only by deletion (or by the row going away). */
  lemma {:induction false} OneOutcome(db: Db, calls: seq<Call>, op: nat, i: nat, j: nat)
    requires FreshOps(db, calls) && i <= j <= |calls|
    requires Running(At(db, calls, i), op) && Running(At(db, calls, j), op)
    ensures At(db, calls, i).record.value.phase == Committed
        ==> At(db, calls, j).record.value.phase in {Committed, Deleting}
    ensures At(db, calls, i).record.value.phase == RolledBack
        ==> At(db, calls, j).record.value.phase in {RolledBack, Deleting}
    ensures At(db, calls, i).record.value.phase == Deleting
        ==> At(db, calls, j).record.value.phase == Deleting
  {
    if i < j {
      OperationIsOnePath(db, calls, op, i, j);
      assert Running(At(db, calls, j - 1), op);
      OneOutcome(db, calls, op, i, j - 1);
      assert Follows(At(db, calls, j - 1), At(db, calls, j - 1 + 1));
    }
  }

  /** Settings and volume change hands together: no single call moves one without the other. */
  lemma SidesMoveTogether(db: Db, c: Call)
    requires db.row.Some? && After(db, c).row.Some?
    requires db.record.Some? && db.record.value.phase != Queued
    requires After(db, c).row.value.settings != db.row.value.settings
    ensures c.DoCommit? || c.DoRollBack? || c.DoRestoreAbsent?
    ensures After(db, c).record.Some? && After(db, c).record.value.phase != db.record.value.phase
    ensures After(db, c).row.value.volume == (if c.DoRestoreAbsent? then c.volume else c.runtime.volume)
  {
  }
}
