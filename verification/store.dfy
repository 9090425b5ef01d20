/** The journal rows of one channel, updated in place as the SQL statements do. */
module ReplacementStore {
  import opened Common
  import opened Names
  import opened Settings
  import opened Journal

  class Store {
    var row: Option<Row>
    var record: Option<Record>
    var intent: Option<nat>

    ghost function Rows(): Db
      reads this
    {
      Db(row, record, intent)
    }

    /** The two ways a transaction can end. */
    ghost predicate Result(before: Db, next: Option<Db>, ok: bool)
      reads this
    {
      ok == next.Some? && Rows() == (if ok then next.value else before)
    }

    constructor (row: Row)
      ensures Rows() == Db(Some(row), None, None)
    {
      this.row := Some(row);
      record := None;
      intent := None;
    }

    /** Compares operation and phase with the stored row before a write. */
    method Check(op: nat, phase: Phase) returns (ok: bool)
      ensures ok == Holds(Rows(), op, phase)
    {
      ok := record.Some? && record.value.op == op && record.value.phase == phase;
    }

    method BeginPlan(op: nat, payload: Payload, queued: Option<Record>) returns (ok: bool)
      modifies this
      ensures Result(old(Rows()), Begin(old(Rows()), op, payload, queued), ok)
      ensures ok <==> old(row).Some? && old(record).Some? == queued.Some?
                      && (queued.Some? ==> queued.value.phase == Queued && old(record).value.op == queued.value.op && old(record).value.phase == Queued)
      ensures row == old(row) && intent == old(intent) && record == if ok then Some(Record(op, Preparing, payload)) else old(record)
    {
      if row.None? { return false; }
      if queued.Some? {
        if queued.value.phase != Queued { return false; }
        ok := Check(queued.value.op, Queued);
        if !ok { return; }
        record := Some(record.value.(op := op, phase := Preparing, payload := payload));
      } else {
        if record.Some? { return false; }
        record := Some(Record(op, Preparing, payload));
      }
      ok := true;
    }

    method QueueIntent(prior: Option<Record>, op: nat, now: Fields, later: Payload, secrets: set<Field>) returns (ok: bool)
      modifies this
      ensures Result(old(Rows()), Queue(old(Rows()), prior, op, now, later, secrets), ok)
      ensures intent == old(intent) && (!ok ==> row == old(row) && record == old(record))
      ensures ok ==> row.Some? && row == Some(old(row).value.(settings := Update(old(row).value.settings, now, secrets)))
      ensures ok ==> (old(record).Some? ==> old(record).value.phase == Queued) && record == if later.fields == map[] then None else Some(Record(op, Queued, later))
    {
      if prior.Some? && prior.value.phase != Queued { return false; }
      if row.None? { return false; }
      if prior.Some? {
        ok := Check(prior.value.op, Queued);
        if !ok { return; }
      } else if record.Some? {
        return false;
      }
      row := Some(row.value.(settings := Update(row.value.settings, now, secrets)));
      if later.fields == map[] {
        record := None;
      } else if record.Some? {
        record := Some(record.value.(op := op, payload := later));
      } else {
        record := Some(Record(op, Queued, later));
      }
      ok := true;
    }

    method Cancel(r: Record) returns (ok: bool)
      modifies this
      ensures Result(old(Rows()), CancelQueued(old(Rows()), r), ok)
      ensures ok <==> old(record).Some? && old(record).value.op == r.op && old(record).value.phase == r.phase == Queued
      ensures row == old(row) && intent == old(intent) && record == if ok then None else old(record)
    {
      if r.phase != Queued { return false; }
      ok := Check(r.op, Queued);
      if ok { record := None; }
    }

    method AdvanceTo(r: Record, next: Phase, payload: Payload) returns (ok: bool)
      modifies this
      ensures Result(old(Rows()), Advance(old(Rows()), r, next, payload), ok)
      ensures ok <==> Legal(r.phase, next) && old(record).Some? && old(record).value.op == r.op && old(record).value.phase == r.phase
      ensures row == old(row) && intent == old(intent) && record == if ok then Some(Record(r.op, next, payload)) else old(record)
    {
      if !Legal(r.phase, next) { return false; }
      ok := Check(r.op, r.phase);
      if ok { record := Some(record.value.(phase := next, payload := payload)); }
    }

    /** The runtime half of a commit or a rollback; false leaves the transaction to be undone. */
    method ApplyRuntime(runtime: Runtime) returns (ok: bool)
      modifies this`row
      ensures ok == (ValidRuntime(runtime) && old(row).Some?)
      ensures row == if ok then Some(Applied(old(row).value, runtime)) else old(row)
      ensures ok ==> row.value.container == Some(runtime.container) && row.value.volume == runtime.volume && row.value.port == runtime.port
      ensures ok ==> row.value.status == runtime.status && row.value.latency == runtime.latency && row.value.settings == old(row).value.settings
    {
      if !(runtime.status == Up || runtime.status == LoggedIn || runtime.status == Stopped) || row.None? { return false; }
      row := Some(row.value.(container := Some(runtime.container), port := runtime.port,
                             status := runtime.status, latency := runtime.latency));
      row := Some(row.value.(volume := runtime.volume));
      ok := true;
    }

    method CommitPlan(r: Record, fields: Fields, secrets: set<Field>, runtime: Runtime, awaiting: bool) returns (ok: bool)
      modifies this
      ensures Result(old(Rows()), Commit(old(Rows()), r, fields, secrets, runtime, awaiting), ok)
      ensures intent == old(intent) && (!ok ==> row == old(row) && record == old(record))
      ensures ok <==> old(row).Some? && old(record).Some? && old(record).value.op == r.op && old(record).value.phase == Validating
                      && runtime.status in {Up, LoggedIn, Stopped}
      ensures ok ==> row == Some(Row(Some(runtime.container), runtime.volume, runtime.port, runtime.status, runtime.latency,
                                     Update(old(row).value.settings, fields, secrets)))
      ensures ok ==> record == Some(Record(r.op, if awaiting then AwaitingLogin else Committed, old(record).value.payload))
    {
      ok := Check(r.op, Validating);
      if !ok { return; }
      var saved := row;
      if row.Some? { row := Some(row.value.(settings := Update(row.value.settings, fields, secrets))); }
      ok := ApplyRuntime(runtime);
      if !ok { row := saved; return; }
      record := Some(record.value.(phase := if awaiting then AwaitingLogin else Committed));
    }

    method ConfirmLogin(r: Record) returns (ok: bool)
      modifies this
      ensures Result(old(Rows()), Confirm(old(Rows()), r), ok)
      ensures ok <==> old(record).Some? && old(record).value.op == r.op && old(record).value.phase == AwaitingLogin
      ensures row == old(row) && intent == old(intent)
      ensures record == if ok then Some(Record(r.op, Committed, old(record).value.payload)) else old(record)
    {
      ok := Check(r.op, AwaitingLogin);
      if ok { record := Some(record.value.(phase := Committed)); }
    }

    method Resume(r: Record, runtime: Runtime) returns (ok: bool)
      modifies this
      ensures Result(old(Rows()), Resumed(old(Rows()), r, runtime), ok)
      ensures record == old(record) && intent == old(intent) && (!ok ==> row == old(row))
      ensures ok <==> old(row).Some? && old(record).Some? && old(record).value.op == r.op && old(record).value.phase == AwaitingLogin
                      && runtime.status in {Up, LoggedIn, Stopped}
      ensures ok ==> row == Some(Row(Some(runtime.container), runtime.volume, runtime.port, runtime.status, runtime.latency, old(row).value.settings))
    {
      ok := Check(r.op, AwaitingLogin);
      if ok { ok := ApplyRuntime(runtime); }
    }

    method RollBackPlan(r: Record, runtime: Runtime, fields: Option<Fields>, secrets: set<Field>) returns (ok: bool)
      modifies this
      ensures Result(old(Rows()), RollBack(old(Rows()), r, runtime, fields, secrets), ok)
      ensures intent == old(intent) && (!ok ==> row == old(row) && record == old(record))
      ensures ok <==> old(row).Some? && old(record).Some? && old(record).value.op == r.op && old(record).value.phase == RollingBack
                      && runtime.status in {Up, LoggedIn, Stopped}
      ensures ok ==> row == Some(Row(Some(runtime.container), runtime.volume, runtime.port, runtime.status, runtime.latency,
                                     if fields.Some? then Update(old(row).value.settings, fields.value, secrets) else old(row).value.settings))
      ensures ok ==> record == Some(Record(r.op, RolledBack, old(record).value.payload))
    {
      ok := Check(r.op, RollingBack);
      if !ok { return; }
      var saved := row;
      if fields.Some? && row.Some? { row := Some(row.value.(settings := Update(row.value.settings, fields.value, secrets))); }
      ok := ApplyRuntime(runtime);
      if !ok { row := saved; return; }
      record := Some(record.value.(phase := RolledBack));
    }

    method RestoreWithout(r: Record, volume: Volume, fields: Option<Fields>, secrets: set<Field>, stopped: bool) returns (ok: bool)
      modifies this
      ensures Result(old(Rows()), RestoreAbsent(old(Rows()), r, volume, fields, secrets, stopped), ok)
      ensures intent == old(intent) && (!ok ==> row == old(row) && record == old(record))
      ensures ok <==> r.payload.Plan? && r.payload.kind == Initial && old(row).Some?
                      && old(record).Some? && old(record).value.op == r.op && old(record).value.phase == RollingBack
      ensures ok ==> row == Some(Row(None, volume, None, if stopped then Stopped else Failed, None,
                                     if fields.Some? then Update(old(row).value.settings, fields.value, secrets) else old(row).value.settings))
      ensures ok ==> record == Some(Record(r.op, RolledBack, old(record).value.payload))
    {
      if !(r.payload.Plan? && r.payload.kind == Initial) { return false; }
      ok := Check(r.op, RollingBack);
      if !ok { return; }
      if row.None? { return false; }
      if fields.Some? { row := Some(row.value.(settings := Update(row.value.settings, fields.value, secrets))); }
      row := Some(row.value.(container := None, port := None, latency := None, status := if stopped then Stopped else Failed));
      row := Some(row.value.(volume := volume));
      record := Some(record.value.(phase := RolledBack));
    }

    method FinishPlan(op: nat) returns (ok: bool)
      modifies this
      ensures Result(old(Rows()), Finish(old(Rows()), op), ok)
      ensures ok <==> old(record).None? || (old(record).value.op == op && old(record).value.phase in {Committed, RolledBack})
      ensures row == old(row) && intent == old(intent) && record == if ok then None else old(record)
    {
      if record.Some? {
        if record.value.op != op || (record.value.phase != Committed && record.value.phase != RolledBack) { return false; }
        record := None;
      }
      ok := true;
    }

    method AskDelete(r: Record) returns (ok: bool)
      modifies this
      ensures Result(old(Rows()), RequestDelete(old(Rows()), r), ok)
      ensures ok <==> old(record).Some? && old(record).value.op == r.op && old(record).value.phase == r.phase
      ensures row == old(row) && intent == old(intent)
      ensures record == if ok then Some(Record(r.op, Deleting, old(record).value.payload)) else old(record)
    {
      ok := Check(r.op, r.phase);
      if ok { record := Some(record.value.(phase := Deleting)); }
    }

    method DeleteAll(r: Record) returns (ok: bool)
      modifies this
      ensures Result(old(Rows()), Deleted(old(Rows()), r), ok)
      ensures ok <==> old(record).Some? && old(record).value.op == r.op && old(record).value.phase == Deleting
      ensures if ok then row.None? && record.None? && intent.None? else row == old(row) && record == old(record) && intent == old(intent)
    {
      ok := Check(r.op, Deleting);
      if ok { row, intent, record := None, None, None; }
    }

    method AskStop(ticket: nat) returns (ok: bool)
      modifies this
      ensures Result(old(Rows()), RequestStop(old(Rows()), ticket), ok)
      ensures ok <==> old(row).Some? && !(old(record).Some? && old(record).value.phase == Deleting)
      ensures record == old(record) && row == if ok then Some(old(row).value.(status := Stopped, latency := None)) else old(row)
      ensures intent == if ok && old(intent).None? && (old(row).value.container.Some? || old(record).Some?) then Some(ticket) else old(intent)
    {
      if row.None? { return false; }
      if record.Some? && record.value.phase == Deleting { return false; }
      if row.value.container.Some? || record.Some? {
        if intent.None? { intent := Some(ticket); }
      }
      row := Some(row.value.(status := Stopped, latency := None));
      ok := true;
    }

    method StopConfirmed(ticket: nat) returns (ok: bool)
      modifies this
      ensures Result(old(Rows()), ConfirmStop(old(Rows()), ticket), ok)
      ensures ok <==> old(intent) == Some(ticket) && old(row).Some?
      ensures record == old(record) && intent == if ok then None else old(intent)
      ensures row == if ok then Some(old(row).value.(status := Stopped, latency := None)) else old(row)
    {
      if intent != Some(ticket) { return false; }
      if row.None? { return false; }
      intent := None;
      row := Some(row.value.(status := Stopped, latency := None));
      ok := true;
    }

    method MarkStatus(status: Status)
      modifies this`row
      ensures Rows() == SetStatus(old(Rows()), status)
    {
      if row.Some? { row := Some(row.value.(status := status)); }
    }
  }
}
