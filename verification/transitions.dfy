/** The journal transactions seen against Docker: when each may happen, and that it keeps the invariant. */
module Transitions {
  import opened Common
  import opened Names
  import opened Settings
  import opened Journal
  import opened World
  import opened Drift
  import opened Renames

  /** Only the rows (and the bookkeeping that goes with them) differ. */
  predicate RowsOnly(a: State, b: State) {
    && b == a.(db := b.db, nextOp := b.nextOp, base := b.base, stored := b.stored, past := b.past)
    && a.nextOp <= b.nextOp
  }

  lemma RowsFrame(a: State, b: State)
    requires Frame(a) && RowsOnly(a, b) && RowsOwn(b) && Census(b) && VolumeCensus(b) && DataKept(b)
    ensures Frame(b)
  {
    hide RowsOwn, Census, VolumeCensus, DataKept;
    forall i | i in b.containers ensures ContainerBounded(b, i, b.containers[i]) {
      assert ContainerBounded(a, i, a.containers[i]);
    }
    assert Bounded(b) && DistinctNames(b) && DistinctTags(b) && ForeignIntact(b) && Quiet(b) && SeedsAgree(b);
  }

  /** The record's operation, volumes and old container stay the same, and so does the row. */
  lemma SameReferences(a: State, b: State)
    requires Frame(a) && RowsOnly(a, b) && b.stored == a.stored
    requires a.db.record.Some? && b.db.record.Some? && b.db.row == a.db.row
    requires b.db.record.value.op == a.db.record.value.op && Underway(a) && Underway(b)
    requires b.db.record.value.payload.oldId == a.db.record.value.payload.oldId
    requires b.db.record.value.payload.oldVolume == a.db.record.value.payload.oldVolume
    requires b.db.record.value.payload.Plan? && b.db.record.value.payload.newId.Some? ==>
               b.db.record.value.payload.newId.value < a.nextId && b.db.record.value.payload.newId.value !in a.foreign
    requires a.db.record.value.phase == Deleting ==> b.db.record.value.phase == Deleting
    ensures Frame(b)
  {
    assert RowsOwn(b) by { forall i: nat | Referenced(b, i) ensures i < b.nextId && i !in b.foreign {
      if !Referenced(a, i) { assert b.db.record.value.payload.Plan? && b.db.record.value.payload.newId == Some(i); } } }
    assert Census(b);
    assert VolumeCensus(b) by { assert forall v :: VolumeReferenced(b, v) <==> VolumeReferenced(a, v); }
    assert DataKept(b);
    RowsFrame(a, b);
  }

  // ---------------------------------------------------------------- the promise

  /** The record, if there still is a plan, remembers the same old container. */
  predicate SamePlan(a: State, b: State) {
    && Planned(a) && Planned(b)
    && var r, q := a.db.record.value, b.db.record.value;
       && q.op == r.op && q.payload.kind == r.payload.kind && q.payload.oldId == r.payload.oldId && q.payload.oldRunning == r.payload.oldRunning
  }

  /** With a rollback newly on record the channel runs exactly if the old container did. */
  predicate RunsBack(a: State, b: State) {
    Planned(b) && b.db.record.value.phase == RolledBack && (b.past.still && !b.past.lowered) ==>
      (Planned(a) && a.db.record.value.phase == RolledBack && a.db.row.Some? && b.db.row.Some? && b.db.row.value.container == a.db.row.value.container)
      || (b.db.record.value.payload.kind == Replacement && b.db.row.Some? && b.db.row.value.container.Some?
          && b.db.row.value.container.value in b.containers ==>
            (b.containers[b.db.row.value.container.value].life == Running <==> b.db.record.value.payload.oldRunning))
  }

  lemma SamePlanTrap(a: State, b: State)
    requires SamePlan(a, b) && b.containers == a.containers
    ensures Trap(a) <==> Trap(b)
  {
  }

  /** Rows may change as long as they remember the plan, and no outcome is written from within the trap. */
  lemma RowsPromise(a: State, b: State)
    requires Promise(a) && b.containers == a.containers
    requires b.past.still == a.past.still && b.drift == a.drift && b.past.lowered == a.past.lowered && b.past.trapped == a.past.trapped
    requires Planned(b) ==> SamePlan(a, b) && (b.db.record.value.phase in {Committed, RolledBack} ==> !Trap(a)) && RunsBack(a, b)
    ensures Promise(b)
  {
    if Planned(b) {
      SamePlanTrap(a, b);
      hide Trap;
    }
  }

  /** Only a recovery makes recovery containers. */
  lemma NoTrapBefore(s: State)
    requires RecordHolds(s) && Planned(s) && s.db.record.value.phase !in {RollingBack, RolledBack}
    ensures !Trap(s)
  {
    hide PhaseHolds;
    var r := s.db.record.value;
    forall i | i in s.containers ensures !IsRecovery(s.containers[i], r.op) {
      assert OfOperation(s.containers[i], r.op) ==> OperationShape(s.containers[i], r);
    }
  }

  // ---------------------------------------------------------------- begin

  function Begun(s: State, payload: Payload): State {
    s.(db := s.db.(record := Some(Record(s.nextOp, Preparing, payload))), nextOp := s.nextOp + 1,
       past := s.past.(still := !s.drift, lowered := false, trapped := false))
  }

  /** What replace has checked, and what it writes down, before the journal row appears. */
  ghost predicate MayBegin(s: State, p: Payload) {
    && p.Plan? && s.db.row.Some? && (s.db.record.Some? ==> s.db.record.value.phase == Queued)
    && p.oldVolume == s.db.row.value.volume && p.oldFields == Saved(s.db.row.value.settings, p.fields)
    && !p.configApplied && p.newId == None && p.sourceExists == (p.oldVolume in s.volumes)
    && (if p.kind == Replacement then
          && p.oldId.Some? && p.oldId == s.db.row.value.container && p.oldId.value in s.containers
          && (!s.drift ==> (s.containers[p.oldId.value].life == Running <==> p.oldRunning))
          && s.containers[p.oldId.value].name == Canonical && p.oldVolume in s.containers[p.oldId.value].mounts
        else
          && p.oldId == None && NameFree(s, Canonical)
          && (s.db.row.value.container.Some? ==> s.db.row.value.container.value !in s.containers))
  }

  lemma BeginKeepsInv(s: State, p: Payload)
    requires Inv(s) && MayBegin(s, p)
    ensures Inv(Begun(s, p))
  {
    InvParts(s);
    hide Promise;
    var b := Begun(s, p);
    NoTraceOf(s, s.nextOp);
    BeginFrame(s, p);
    BeginRecord(s, p);
    BeginPromise(s, p);
    hide Frame, RecordHolds, Promise;
    InvFromParts(s, b);
  }

  lemma BeginPromise(s: State, p: Payload)
    requires MayBegin(s, p) && forall i | i in s.containers :: !OfOperation(s.containers[i], s.nextOp)
    ensures Promise(Begun(s, p))
  {
  }

  /** An operation that has not begun owns nothing. */
  lemma NoTraceOf(s: State, op: nat)
    requires Bounded(s) && op >= s.nextOp
    ensures Fresh(op) !in s.volumes && op !in s.seeds
    ensures forall i | i in s.containers :: !OfOperation(s.containers[i], op)
    ensures forall i | i in s.containers :: s.containers[i].name != Previous(op)
  {
    forall i | i in s.containers ensures ContainerBounded(s, i, s.containers[i]) { }
  }

  lemma BeginFrame(s: State, p: Payload)
    requires Inv(s) && MayBegin(s, p) && Fresh(s.nextOp) !in s.volumes
    ensures Frame(Begun(s, p))
  {
    hide Inv, RowsOwn, Census, VolumeCensus, Bounded, DistinctNames, DistinctTags, ForeignIntact, Quiet, SeedsAgree;
    InvParts(s);
    BeginRows(s, p);
    RowsFrame(s, Begun(s, p));
  }

  lemma BeginRows(s: State, p: Payload)
    requires RowsOwn(s) && Census(s) && VolumeCensus(s) && RecordHolds(s) && MayBegin(s, p) && Fresh(s.nextOp) !in s.volumes
    ensures RowsOwn(Begun(s, p)) && Census(Begun(s, p)) && VolumeCensus(Begun(s, p))
  {
    hide RecordHolds;
    if s.db.record.Some? { QueuedPlain(s); }
    var b := Begun(s, p);
    assert forall i: nat :: Referenced(b, i) ==> Referenced(s, i);
    assert forall v | v in s.volumes :: VolumeReferenced(b, v) <==> VolumeReferenced(s, v);
  }

  lemma BeginRecord(s: State, p: Payload)
    requires Inv(s) && MayBegin(s, p) && Fresh(s.nextOp) !in s.volumes && s.nextOp !in s.seeds
    requires forall i | i in s.containers :: !OfOperation(s.containers[i], s.nextOp)
    requires forall i | i in s.containers :: s.containers[i].name != Previous(s.nextOp)
    ensures RecordHolds(Begun(s, p))
  {
  }

  // ---------------------------------------------------------------- advancing

  function Advanced(s: State, phase: Phase, payload: Payload): State
    requires s.db.record.Some?
  {
    s.(db := s.db.(record := Some(Record(s.db.record.value.op, phase, payload))))
  }

  predicate RecoverablePhase(p: Phase) {
    p in {Preparing, Prepared, Switching, Validating, AwaitingLogin}
  }

  predicate IsCandidateId(s: State, r: Record, id: Option<nat>) {
    id.Some? && id.value in s.containers && IsCandidate(s.containers[id.value], r.op)
  }

  /** The advances that replace, recover, resume and before_stop make. */
  ghost predicate MayAdvance(s: State, phase: Phase, p: Payload) {
    && s.db.record.Some? && s.db.record.value.payload.Plan? && p.Plan?
    && var r := s.db.record.value;
       || (r.phase == Preparing && phase == Prepared && p == r.payload.(newId := p.newId) && IsCandidateId(s, r, p.newId))
       || (r.phase == Prepared && phase == Switching && p == r.payload)
       || (r.phase == Switching && phase == Validating && p == r.payload
           && CandidateUp(s, r) && OldAway(s, r) && Copied(s, r) && NoCopier(s, r))
       || (RecoverablePhase(r.phase) && phase == RollingBack && p == r.payload.(configApplied := r.phase == AwaitingLogin))
       || (r.phase == AwaitingLogin && phase == AwaitingLogin && p == r.payload.(newId := p.newId) && IsCandidateId(s, r, p.newId))
       || ((r.phase in {Preparing, Prepared, Switching, Validating, RollingBack}) && phase == r.phase
           && p == r.payload.(oldRunning := p.oldRunning, start := p.start))
  }

  lemma AdvanceFrame(s: State, phase: Phase, p: Payload)
    requires Frame(s) && MayAdvance(s, phase, p)
    requires s.db.record.value.phase != Deleting
    ensures Frame(Advanced(s, phase, p))
  {
    AdvancedId(s, p);
    AdvanceShape(s, phase, p);
    hide Frame, MayAdvance, RowsOwn, Bounded, ForeignIntact, DistinctNames, DistinctTags, Census, VolumeCensus, Quiet, SeedsAgree, DataKept;
    SameReferences(s, Advanced(s, phase, p));
  }

  lemma AdvanceShape(s: State, phase: Phase, p: Payload)
    requires MayAdvance(s, phase, p)
    ensures var r := s.db.record.value;
      r.phase != Queued && phase != Queued && p.oldId == r.payload.oldId && p.oldVolume == r.payload.oldVolume && r.phase != Deleting
  {
    hide Copied, OldAway, CandidateUp, NoCopier, IsCandidateId;
  }

  lemma AdvancedId(s: State, p: Payload)
    requires RowsOwn(s) && Bounded(s) && ForeignIntact(s) && s.db.record.Some? && s.db.record.value.payload.Plan? && p.Plan?
    requires p.newId == s.db.record.value.payload.newId || IsCandidateId(s, s.db.record.value, p.newId)
    ensures p.newId.Some? ==> p.newId.value < s.nextId && p.newId.value !in s.foreign
  {
    if p.newId.Some? {
      if p.newId == s.db.record.value.payload.newId { assert Referenced(s, p.newId.value); }
      else { assert ContainerBounded(s, p.newId.value, s.containers[p.newId.value]); }
    }
  }

  /** What an advance cannot affect: it rewrites the record only. */
  lemma AdvanceKeepsDocker(s: State, phase: Phase, p: Payload, r: Record, q: Record)
    requires s.db.record == Some(r) && q == Record(r.op, phase, p) && r.payload.Plan? && p.Plan?
    requires p == r.payload.(newId := p.newId, configApplied := p.configApplied, oldRunning := p.oldRunning, start := p.start)
    ensures var b := Advanced(s, phase, p);
      && (RowBefore(b, q) <==> RowBefore(s, r)) && (RowAfter(b, q) <==> RowAfter(s, r))
      && (OldThere(b, q) <==> OldThere(s, r)) && (OldAway(b, q) <==> OldAway(s, r)) && (Moved(b, q) <==> Moved(s, r))
      && (Copied(b, q) <==> Copied(s, r)) && (CandidatesCreated(b, q) <==> CandidatesCreated(s, r))
      && (CandidatesAside(b, q) <==> CandidatesAside(s, r))
      && (p.newId == r.payload.newId ==> (CandidateIs(b, q) <==> CandidateIs(s, r)) && (CandidateUp(b, q) <==> CandidateUp(s, r)))
      && (IsCandidateId(s, r, p.newId) ==> CandidateIs(b, q))
  {
  }

  lemma AdvanceShapes(s: State, phase: Phase, p: Payload, r: Record, q: Record)
    requires s.db.record == Some(r) && q == Record(r.op, phase, p) && r.payload.Plan? && p.Plan? && OperationShapes(s, r)
    requires p.kind == r.payload.kind && p.oldVolume == r.payload.oldVolume
    requires phase == r.phase || phase == RollingBack || (r.phase in {Preparing, Prepared}) || (r.phase == Switching && NoCopier(s, r))
    ensures OperationShapes(Advanced(s, phase, p), q)
  {
  }

  lemma OneCandidate(s: State, r: Record, id: Option<nat>, q: Record)
    requires DistinctTags(s) && IsCandidateId(s, r, id) && q.op == r.op && q.payload.Plan? && q.payload.newId == id
    ensures StartedIsRecorded(s, q)
  {
  }

  lemma AdvancePhase(s: State, phase: Phase, p: Payload, r: Record, q: Record)
    requires s.db.record == Some(r) && q == Record(r.op, phase, p) && MayAdvance(s, phase, p) && DistinctTags(s) && PhaseHolds(s, r)
    ensures PhaseHolds(Advanced(s, phase, p), q)
  {
    hide RowBefore, RowAfter, OldThere, OldAway, Moved, Copied, CandidatesCreated, CandidatesAside, CandidateIs, CandidateUp,
      StartedIsRecorded, DistinctTags, NoCopier, IsCandidateId;
    AdvanceKeepsDocker(s, phase, p, r, q);
    if r.phase == AwaitingLogin && phase == AwaitingLogin { OneCandidate(s, r, p.newId, q); StartedElsewhere(s, phase, p, q); }
    if r.phase == Switching && phase == Switching && Moved(s, r) { assert Copied(Advanced(s, phase, p), q); }
  }

  lemma StartedElsewhere(s: State, phase: Phase, p: Payload, q: Record)
    requires s.db.record.Some? && q.payload.Plan? && StartedIsRecorded(s, q)
    ensures StartedIsRecorded(Advanced(s, phase, p), q)
  {
  }

  lemma AdvanceRecord(s: State, phase: Phase, p: Payload)
    requires RecordHolds(s) && DistinctTags(s) && MayAdvance(s, phase, p)
    ensures RecordHolds(Advanced(s, phase, p))
  {
    hide PhaseHolds, OperationShapes, DistinctTags, Copied, CandidateUp, OldAway, NoCopier, IsCandidateId;
    var r := s.db.record.value;
    AdvancePhase(s, phase, p, r, Record(r.op, phase, p));
    AdvanceShapes(s, phase, p, r, Record(r.op, phase, p));
  }

  lemma AdvanceKeepsInv(s: State, phase: Phase, p: Payload)
    requires Inv(s) && MayAdvance(s, phase, p) && p.oldRunning == s.db.record.value.payload.oldRunning
    ensures Inv(Advanced(s, phase, p))
  {
    InvParts(s);
    hide Inv, Promise, Frame, RecordHolds, DistinctTags, Copied, CandidateUp, OldAway, NoCopier, IsCandidateId, DistinctNames, Bounded,
      ForeignIntact, Quiet, RowsOwn, Census, VolumeCensus, SeedsAgree, DataKept;
    AdvanceFrame(s, phase, p);
    AdvanceRecord(s, phase, p);
    AdvancePromise(s, phase, p);
    InvFromParts(s, Advanced(s, phase, p));
  }

  lemma AdvancePromise(s: State, phase: Phase, p: Payload)
    requires Promise(s) && MayAdvance(s, phase, p) && p.oldRunning == s.db.record.value.payload.oldRunning
    ensures Promise(Advanced(s, phase, p))
  {
    AdvanceShape(s, phase, p);
    AdvanceKeepsPlan(s, phase, p);
    hide MayAdvance, Promise, Trap;
    RowsPromise(s, Advanced(s, phase, p));
  }

  lemma AdvanceKeepsPlan(s: State, phase: Phase, p: Payload)
    requires MayAdvance(s, phase, p)
    ensures p.kind == s.db.record.value.payload.kind && phase !in {Committed, RolledBack, Deleting}
  {
    hide Copied, OldAway, CandidateUp, NoCopier, IsCandidateId;
  }

  // ---------------------------------------------------------------- lowering the flag

  /** A stop notes that the channel is not to run; the history notes what that does to a recovery under way. */
  function Lowered(s: State): State
    requires s.db.record.Some? && s.db.record.value.payload.Plan?
  {
    var r := s.db.record.value;
    var b := Advanced(s, r.phase, r.payload.(oldRunning := false, start := false));
    b.(past := s.past.(lowered := s.past.lowered || r.payload.oldRunning, trapped := Trap(b)))
  }

  predicate MayLower(s: State) {
    && s.db.record.Some? && s.db.record.value.payload.Plan?
    && s.db.record.value.phase in {Preparing, Prepared, Switching, Validating, RollingBack}
  }

  lemma LoweringIsAdvance(s: State)
    requires MayLower(s)
    ensures MayAdvance(s, s.db.record.value.phase, s.db.record.value.payload.(oldRunning := false, start := false))
  {
  }

  lemma LowerKeepsInv(s: State)
    requires Inv(s) && MayLower(s)
    ensures Inv(Lowered(s))
  {
    hide Inv, Promise, LeftAlone, Frame, RecordHolds, Trap, MayAdvance, DistinctNames, DistinctTags, Bounded, ForeignIntact, Quiet, RowsOwn, Census,
      VolumeCensus, SeedsAgree, DataKept;
    InvParts(s);
    var r := s.db.record.value;
    var p := r.payload.(oldRunning := false, start := false);
    LoweringIsAdvance(s);
    AdvanceFrame(s, r.phase, p);
    AdvanceRecord(s, r.phase, p);
    HistoryOnlyFrame(Advanced(s, r.phase, p), Lowered(s));
    HistoryOnlyRecord(Advanced(s, r.phase, p), Lowered(s));
    LowerPromise(s);
    InvFromParts(s, Lowered(s));
  }

  /** Notes about whether the world moves and what a stop has done are no part of the rest. */
  predicate HistoryOnly(a: State, b: State) {
    b == a.(past := b.past.(rested := a.past.rested), drift := b.drift)
  }

  lemma HistoryOnlyFrame(a: State, b: State)
    requires Frame(a) && HistoryOnly(a, b)
    ensures Frame(b)
  {
    forall i | i in b.containers ensures ContainerBounded(b, i, b.containers[i]) { assert ContainerBounded(a, i, a.containers[i]); }
    assert forall i: nat :: Referenced(b, i) <==> Referenced(a, i);
    assert forall v :: VolumeReferenced(b, v) <==> VolumeReferenced(a, v);
    assert DistinctNames(b) && DistinctTags(b) && Bounded(b) && ForeignIntact(b) && Quiet(b);
    assert RowsOwn(b) && Census(b) && VolumeCensus(b) && SeedsAgree(b) && DataKept(b);
  }

  lemma HistoryOnlyRecord(a: State, b: State)
    requires RecordHolds(a) && HistoryOnly(a, b)
    ensures RecordHolds(b)
  {
  }

  lemma HistoryOnlyTrap(a: State, b: State)
    requires HistoryOnly(a, b)
    ensures Trap(a) <==> Trap(b)
  {
  }

  lemma LowerPromise(s: State)
    requires Promise(s) && MayLower(s)
    ensures Promise(Lowered(s))
  {
    var r := s.db.record.value;
    var b := Advanced(s, r.phase, r.payload.(oldRunning := false, start := false));
    HistoryOnlyTrap(b, Lowered(s));
    hide Trap;
    if !Lowered(s).past.lowered {
      assert b.db.record == s.db.record.(value := Record(r.op, r.phase, r.payload.(oldRunning := false, start := false)));
    }
  }

  // ---------------------------------------------------------------- the weather

  /** The world begins to move or comes to rest. */
  function Weathered(s: State, drift: bool): State {
    s.(drift := drift, past := s.past.(still := s.past.still && !drift, calm := s.past.calm && !drift))
  }

  lemma WeatherKeepsInv(s: State, drift: bool)
    requires Inv(s)
    ensures Inv(Weathered(s, drift))
  {
    InvParts(s);
    hide Inv, Promise, Frame, RecordHolds;
    HistoryOnlyFrame(s, Weathered(s, drift));
    HistoryOnlyRecord(s, Weathered(s, drift));
    WeatherPromise(s, drift);
    InvFromParts(s, Weathered(s, drift));
  }

  lemma WeatherPromise(s: State, drift: bool)
    requires Promise(s)
    ensures Promise(Weathered(s, drift))
  {
    HistoryOnlyTrap(s, Weathered(s, drift));
    hide Trap;
  }

  // ---------------------------------------------------------------- commit and confirm

  function WithDb(s: State, db: Db): State {
    s.(db := db)
  }

  function Committing(s: State, fields: Fields, secrets: set<Field>, runtime: Runtime, awaiting: bool): State
    requires s.db.row.Some? && s.db.record.Some?
  {
    s.(db := SetPhase(s.db.(row := Some(Applied(Written(s.db.row.value, Some(fields), secrets), runtime))),
                      if awaiting then AwaitingLogin else Committed),
       stored := true)
  }

  predicate MayCommit(s: State, fields: Fields, secrets: set<Field>, runtime: Runtime) {
    && s.db.row.Some? && s.db.record.Some? && s.db.record.value.payload.Plan?
    && var r := s.db.record.value;
       && r.phase == Validating && fields == r.payload.fields && secrets == r.payload.secrets
       && r.payload.newId == Some(runtime.container) && runtime.volume == Fresh(r.op)
  }

  lemma CommitFrame(s: State, fields: Fields, secrets: set<Field>, runtime: Runtime, awaiting: bool)
    requires Frame(s) && MayCommit(s, fields, secrets, runtime) && CandidateUp(s, s.db.record.value)
    requires Fresh(s.db.record.value.op) in s.volumes && s.db.record.value.op < s.nextOp
    requires RowBefore(s, s.db.record.value) && (s.db.record.value.payload.kind == Initial ==> s.db.record.value.payload.oldId.None?)
    ensures Frame(Committing(s, fields, secrets, runtime, awaiting))
  {
    hide RowsOwn, Census, VolumeCensus, Bounded, DistinctNames, DistinctTags, ForeignIntact, Quiet, SeedsAgree, CandidateUp, RowBefore;
    CommitRows(s, fields, secrets, runtime, awaiting);
    RowsFrame(s, Committing(s, fields, secrets, runtime, awaiting));
  }

  lemma CommitRows(s: State, fields: Fields, secrets: set<Field>, runtime: Runtime, awaiting: bool)
    requires RowsOwn(s) && Census(s) && VolumeCensus(s) && MayCommit(s, fields, secrets, runtime) && CandidateUp(s, s.db.record.value)
    requires s.db.record.value.op < s.nextOp
    requires RowBefore(s, s.db.record.value) && (s.db.record.value.payload.kind == Initial ==> s.db.record.value.payload.oldId.None?)
    ensures var b := Committing(s, fields, secrets, runtime, awaiting); RowsOwn(b) && Census(b) && VolumeCensus(b)
  {
    hide Update;
    var b := Committing(s, fields, secrets, runtime, awaiting);
    assert Referenced(s, runtime.container);
    assert forall i: nat :: Referenced(b, i) ==> Referenced(s, i);
    assert forall v :: VolumeReferenced(b, v) <==> VolumeReferenced(s, v);
  }

  lemma CommitRecord(s: State, fields: Fields, secrets: set<Field>, runtime: Runtime, awaiting: bool)
    requires RecordHolds(s) && DistinctTags(s) && MayCommit(s, fields, secrets, runtime)
    requires Fresh(s.db.record.value.op) in s.volumes && NoCopier(s, s.db.record.value)
    ensures RecordHolds(Committing(s, fields, secrets, runtime, awaiting))
  {
  }

  lemma ValidatingFacts(s: State)
    requires Inv(s) && s.db.record.Some? && s.db.record.value.phase == Validating
    ensures var r := s.db.record.value;
      && r.payload.Plan? && CandidateUp(s, r) && Fresh(r.op) in s.volumes && r.op < s.nextOp && NoCopier(s, r) && RowBefore(s, r)
      && (r.payload.kind == Initial ==> r.payload.oldId.None?)
  {
    var r := s.db.record.value;
    assert Fresh(r.op) in s.containers[r.payload.newId.value].mounts;
    hide Quiet, RowsOwn, Census, VolumeCensus, DistinctNames, ForeignIntact;
  }

  /** A commit hands settings, volume and container over to the new side together. */
  lemma CommitKeepsInv(s: State, fields: Fields, secrets: set<Field>, runtime: Runtime, awaiting: bool)
    requires Inv(s) && MayCommit(s, fields, secrets, runtime)
    ensures Inv(Committing(s, fields, secrets, runtime, awaiting))
  {
    InvParts(s);
    hide Inv, Promise, Frame, RecordHolds, NoCopier, CandidateUp, RowBefore, DistinctTags, Trap;
    ValidatingFacts(s);
    NoTrapBefore(s);
    RowsPromise(s, Committing(s, fields, secrets, runtime, awaiting));
    CommitFrame(s, fields, secrets, runtime, awaiting);
    CommitRecord(s, fields, secrets, runtime, awaiting);
    InvFromParts(s, Committing(s, fields, secrets, runtime, awaiting));
  }

  function Confirming(s: State): State
    requires s.db.record.Some?
  {
    WithDb(s, SetPhase(s.db, Committed))
  }

  /** A login is confirmed only for the container on record, which then holds the channel's name. */
  predicate MayConfirm(s: State) {
    && s.db.row.Some? && s.db.record.Some? && s.db.record.value.payload.Plan?
    && s.db.record.value.phase == AwaitingLogin && ChannelIsCandidate(s, s.db.record.value)
  }

  lemma ConfirmKeepsInv(s: State)
    requires Inv(s) && MayConfirm(s)
    ensures Inv(Confirming(s))
  {
    InvParts(s);
    hide Inv, Promise, Frame, RecordHolds, ChannelIsCandidate, Trap;
    NoTrapBefore(s);
    RowsPromise(s, Confirming(s));
    ConfirmFrame(s);
    ConfirmRecord(s);
    InvFromParts(s, Confirming(s));
  }

  lemma ConfirmFrame(s: State)
    requires Frame(s) && MayConfirm(s)
    ensures Frame(Confirming(s))
  {
    var b := Confirming(s);
    assert RowsOwn(b) by { assert forall i: nat :: Referenced(b, i) <==> Referenced(s, i); }
    assert VolumeCensus(b) by { assert forall v :: VolumeReferenced(b, v) <==> VolumeReferenced(s, v); }
    assert Census(b);
    RowsFrame(s, b);
  }

  lemma ConfirmRecord(s: State)
    requires RecordHolds(s) && MayConfirm(s)
    ensures RecordHolds(Confirming(s))
  {
  }

  function Resuming(s: State, runtime: Runtime): State
    requires s.db.row.Some?
  {
    WithDb(s, s.db.(row := Some(Applied(s.db.row.value, runtime))))
  }

  predicate MayResume(s: State, runtime: Runtime) {
    && s.db.row.Some? && s.db.record.Some? && s.db.record.value.payload.Plan?
    && s.db.record.value.phase == AwaitingLogin
    && runtime.container in s.containers && IsCandidate(s.containers[runtime.container], s.db.record.value.op)
    && runtime.volume == Fresh(s.db.record.value.op)
  }

  lemma ResumeFrame(s: State, runtime: Runtime)
    requires Frame(s) && MayResume(s, runtime) && RowAfter(s, s.db.record.value)
    ensures Frame(Resuming(s, runtime))
  {
    var b := Resuming(s, runtime);
    assert ContainerBounded(s, runtime.container, s.containers[runtime.container]);
    assert RowsOwn(b) by { assert forall i: nat :: Referenced(b, i) ==> Referenced(s, i) || i == runtime.container; }
    assert VolumeCensus(b) by { assert forall v :: VolumeReferenced(b, v) <==> VolumeReferenced(s, v); }
    assert Census(b) by { ResumeCensus(s, runtime); }
    RowsFrame(s, b);
  }

  /** While a login is awaited every container but the old one carries the operation's label. */
  lemma ResumeCensus(s: State, runtime: Runtime)
    requires Frame(s) && MayResume(s, runtime) && RowAfter(s, s.db.record.value)
    ensures Census(Resuming(s, runtime))
  {
  }

  lemma ResumeRecord(s: State, runtime: Runtime)
    requires RecordHolds(s) && MayResume(s, runtime)
    ensures RecordHolds(Resuming(s, runtime))
  {
  }

  lemma ResumeKeepsInv(s: State, runtime: Runtime)
    requires Inv(s) && MayResume(s, runtime)
    ensures Inv(Resuming(s, runtime))
  {
    InvParts(s);
    hide Inv, Promise, Frame, RecordHolds, RowAfter, Trap;
    AwaitingFacts(s);
    RowsPromise(s, Resuming(s, runtime));
    ResumeFrame(s, runtime);
    ResumeRecord(s, runtime);
    InvFromParts(s, Resuming(s, runtime));
  }

  lemma AwaitingFacts(s: State)
    requires RecordHolds(s) && s.db.record.Some? && s.db.record.value.phase == AwaitingLogin
    ensures s.db.record.value.payload.Plan? && RowAfter(s, s.db.record.value)
  {
    hide OperationShapes, Copied, OldThere, RowAfter;
  }

  // ---------------------------------------------------------------- rolling back

  function Undo(r: Record): Option<Fields>
    requires r.payload.Plan?
  {
    if r.payload.configApplied then Some(r.payload.oldFields) else None
  }

  function RollingBackTo(s: State, runtime: Runtime): State
    requires s.db.row.Some? && s.db.record.Some? && s.db.record.value.payload.Plan?
  {
    var r := s.db.record.value;
    WithDb(s, SetPhase(s.db.(row := Some(Applied(Written(s.db.row.value, Undo(r), r.payload.secrets), runtime))), RolledBack))
  }

  ghost predicate MayRollBack(s: State, runtime: Runtime) {
    && s.db.row.Some? && s.db.record.Some? && s.db.record.value.payload.Plan?
    && var r := s.db.record.value;
       && r.phase == RollingBack && r.payload.kind == Replacement
       && CandidatesAside(s, r) && NoCopier(s, r)
       && runtime.volume == r.payload.oldVolume && runtime.container in s.containers
       && var c := s.containers[runtime.container];
          c.name == Canonical && r.payload.oldVolume in c.mounts
          && (r.payload.oldId == Some(runtime.container) || (IsRecovery(c, r.op) && r.payload.oldRunning))
          && (s.past.still && !s.past.lowered ==> (c.life == Running <==> r.payload.oldRunning))
  }

  /** Whoever becomes the channel again shows that there is no trap. */
  lemma RollBackTrap(s: State, runtime: Runtime)
    requires MayRollBack(s, runtime) && DistinctNames(s)
    ensures !Trap(s)
  {
    hide CandidatesAside, NoCopier;
  }

  lemma RollBackFrame(s: State, runtime: Runtime)
    requires Frame(s) && MayRollBack(s, runtime) && s.db.record.value.payload.oldVolume in s.volumes
    requires if s.db.record.value.payload.configApplied then RowAfter(s, s.db.record.value) else RowBefore(s, s.db.record.value)
    ensures Frame(RollingBackTo(s, runtime))
  {
    hide RowsOwn, Census, VolumeCensus, Bounded, DistinctNames, DistinctTags, ForeignIntact, Quiet, SeedsAgree, RowAfter, RowBefore, ChannelIsBack;
    RollBackRows(s, runtime);
    RowsFrame(s, RollingBackTo(s, runtime));
  }

  lemma RollBackOwn(s: State, runtime: Runtime)
    requires RowsOwn(s) && Bounded(s) && ForeignIntact(s) && MayRollBack(s, runtime)
    ensures RowsOwn(RollingBackTo(s, runtime))
  {
    hide CandidatesAside, NoCopier;
    var b := RollingBackTo(s, runtime);
    assert ContainerBounded(s, runtime.container, s.containers[runtime.container]);
    assert runtime.container !in s.foreign by { if s.db.record.value.payload.oldId == Some(runtime.container) { assert Referenced(s, runtime.container); } }
    assert forall i: nat :: Referenced(b, i) ==> Referenced(s, i) || i == runtime.container;
  }

  lemma RollBackRows(s: State, runtime: Runtime)
    requires RowsOwn(s) && Census(s) && VolumeCensus(s) && Bounded(s) && ForeignIntact(s) && MayRollBack(s, runtime)
    requires if s.db.record.value.payload.configApplied then RowAfter(s, s.db.record.value) else RowBefore(s, s.db.record.value)
    ensures RowsOwn(RollingBackTo(s, runtime)) && Census(RollingBackTo(s, runtime)) && VolumeCensus(RollingBackTo(s, runtime))
  {
    var b := RollingBackTo(s, runtime);
    RollBackOwn(s, runtime);
    hide RowsOwn, Bounded, ForeignIntact, CandidatesAside, NoCopier, NameFree;
    assert forall i: nat :: Referenced(b, i) ==> Referenced(s, i) || i == runtime.container;
    assert forall v :: VolumeReferenced(b, v) <==> VolumeReferenced(s, v);
  }

  lemma RollBackRecord(s: State, runtime: Runtime)
    requires RecordHolds(s) && MayRollBack(s, runtime)
    ensures RecordHolds(RollingBackTo(s, runtime))
  {
  }

  lemma RollingBackFacts(s: State)
    requires RecordHolds(s) && Bounded(s) && s.db.record.Some? && s.db.record.value.phase == RollingBack
    ensures var r := s.db.record.value;
      && r.payload.Plan? && (if r.payload.configApplied then RowAfter(s, r) else RowBefore(s, r))
      && (r.payload.sourceExists ==> r.payload.oldVolume in s.volumes)
      && (!r.payload.sourceExists ==> r.payload.kind == Initial)
      && r.payload.oldVolume != Fresh(r.op)
      && (r.payload.kind == Replacement <==> r.payload.oldId.Some?)
  {
    hide OperationShapes, OldThere, RowBefore, RowAfter;
  }

  lemma RollBackKeepsInv(s: State, runtime: Runtime)
    requires Inv(s) && MayRollBack(s, runtime)
    ensures Inv(RollingBackTo(s, runtime))
  {
    InvParts(s);
    hide Inv, Promise, Frame, RecordHolds, RowBefore, RowAfter, Bounded, CandidatesAside, NoCopier, DistinctNames, Trap;
    RollingBackFacts(s);
    RollBackTrap(s, runtime);
    RowsPromise(s, RollingBackTo(s, runtime));
    RollBackFrame(s, runtime);
    RollBackRecord(s, runtime);
    InvFromParts(s, RollingBackTo(s, runtime));
  }

  function RestoringAbsent(s: State): State
    requires s.db.row.Some? && s.db.record.Some? && s.db.record.value.payload.Plan?
  {
    var r := s.db.record.value;
    var row := Written(s.db.row.value, Undo(r), r.payload.secrets).(container := None, port := None, latency := None,
                 status := if !r.payload.start then Stopped else Failed, volume := r.payload.oldVolume);
    s.(db := SetPhase(s.db.(row := Some(row)), RolledBack), stored := r.payload.sourceExists)
  }

  ghost predicate MayRestoreAbsent(s: State) {
    && s.db.row.Some? && s.db.record.Some? && s.db.record.value.payload.Plan?
    && var r := s.db.record.value;
       && r.phase == RollingBack && r.payload.kind == Initial && NoCopier(s, r)
       && (forall i | i in s.containers :: !IsCandidate(s.containers[i], r.op))
  }

  lemma RestoreAbsentFrame(s: State)
    requires Frame(s) && MayRestoreAbsent(s)
    requires s.db.record.value.payload.sourceExists ==> s.db.record.value.payload.oldVolume in s.volumes
    requires if s.db.record.value.payload.configApplied then RowAfter(s, s.db.record.value) else RowBefore(s, s.db.record.value)
    ensures Frame(RestoringAbsent(s))
  {
    hide RowsOwn, Census, VolumeCensus, Bounded, DistinctNames, DistinctTags, ForeignIntact, Quiet, SeedsAgree, RowAfter, RowBefore;
    RestoreAbsentRows(s);
    RowsFrame(s, RestoringAbsent(s));
  }

  lemma RestoreAbsentRows(s: State)
    requires RowsOwn(s) && Census(s) && VolumeCensus(s) && MayRestoreAbsent(s)
    requires if s.db.record.value.payload.configApplied then RowAfter(s, s.db.record.value) else RowBefore(s, s.db.record.value)
    ensures RowsOwn(RestoringAbsent(s)) && Census(RestoringAbsent(s)) && VolumeCensus(RestoringAbsent(s))
  {
    var b := RestoringAbsent(s);
    assert forall i: nat :: Referenced(b, i) ==> Referenced(s, i);
    assert forall v :: VolumeReferenced(b, v) <==> VolumeReferenced(s, v);
  }

  lemma RestoreAbsentRecord(s: State)
    requires RecordHolds(s) && MayRestoreAbsent(s)
    ensures RecordHolds(RestoringAbsent(s))
  {
  }

  lemma RestoreAbsentKeepsInv(s: State)
    requires Inv(s) && MayRestoreAbsent(s)
    ensures Inv(RestoringAbsent(s))
  {
    InvParts(s);
    hide Inv, Promise, Frame, RecordHolds, RowBefore, RowAfter, Bounded, NoCopier;
    RollingBackFacts(s);
    RowsPromise(s, RestoringAbsent(s));
    RestoreAbsentFrame(s);
    RestoreAbsentRecord(s);
    InvFromParts(s, RestoringAbsent(s));
  }

  // ---------------------------------------------------------------- finishing and deleting

  /** The row goes; the settings it leaves are the base for whatever comes next. */
  function Finishing(s: State): State
    requires s.db.row.Some?
  {
    s.(db := s.db.(record := None), base := s.db.row.value.settings)
  }

  /** Nothing of the operation is left but the container and the volume that the row names. */
  ghost predicate MayFinish(s: State) {
    && s.db.row.Some? && s.db.record.Some? && s.db.record.value.payload.Plan?
    && var r := s.db.record.value;
       && r.phase in {Committed, RolledBack}
       && (forall i | i in s.containers && OfOperation(s.containers[i], r.op) :: IsChannel(s, i))
       && (r.payload.oldId.Some? && r.payload.oldId.value in s.containers ==> IsChannel(s, r.payload.oldId.value))
       && (forall v | v in {r.payload.oldVolume, Fresh(r.op)} && v in s.volumes :: v == s.db.row.value.volume)
  }

  lemma FinishFrame(s: State)
    requires Frame(s) && MayFinish(s)
    ensures Frame(Finishing(s))
  {
    var b := Finishing(s);
    assert RowsOwn(b) by { assert forall i: nat :: Referenced(b, i) ==> Referenced(s, i); }
    assert Census(b);
    assert VolumeCensus(b) by { assert forall v | v in s.volumes :: VolumeReferenced(b, v) <==> VolumeReferenced(s, v); }
    assert DataKept(b);
    hide Frame, MayFinish, Census, VolumeCensus, RowsOwn, DataKept;
    RowsFrame(s, b);
  }

  lemma FinishKeepsInv(s: State)
    requires Inv(s) && MayFinish(s)
    ensures Inv(Finishing(s))
  {
    InvParts(s);
    hide Inv, Promise, Frame, MayFinish, Census, VolumeCensus, RowsOwn, DataKept;
    FinishFrame(s);
    UnplannedPromise(s, Finishing(s));
    assert RecordHolds(Finishing(s));
    InvFromParts(s, Finishing(s));
  }

  lemma UnplannedPromise(a: State, b: State)
    requires Promise(a) && !Planned(b) && b.past.still == a.past.still && b.drift == a.drift
    ensures Promise(b)
  {
  }

  function Condemned(s: State): State
    requires s.db.record.Some?
  {
    WithDb(s, SetPhase(s.db, Deleting))
  }

  lemma CondemnFrame(s: State)
    requires Frame(s) && s.db.record.Some? && Underway(s)
    ensures Frame(Condemned(s))
  {
    var b := Condemned(s);
    assert RowsOwn(b) by { assert forall i: nat :: Referenced(b, i) <==> Referenced(s, i); }
    assert Census(b);
    assert VolumeCensus(b) by { assert forall v :: VolumeReferenced(b, v) <==> VolumeReferenced(s, v); }
    RowsFrame(s, b);
  }

  /** A queued intent owns nothing, so the operation it turns into a deletion adds no references. */
  lemma CondemnQueuedFrame(s: State)
    requires Frame(s) && s.db.record.Some? && s.db.record.value.phase == Queued && Fresh(s.db.record.value.op) !in s.volumes
    ensures Frame(Condemned(s))
  {
    var b := Condemned(s);
    assert RowsOwn(b) by { assert forall i: nat :: Referenced(b, i) <==> Referenced(s, i); }
    assert Census(b);
    assert VolumeCensus(b) by { assert forall v | v in s.volumes :: VolumeReferenced(b, v) <==> VolumeReferenced(s, v); }
    RowsFrame(s, b);
  }

  lemma CondemnRecord(s: State)
    requires RecordHolds(s) && s.db.record.Some?
    ensures RecordHolds(Condemned(s))
  {
  }

  /** Once a deletion has taken everything, the rows go; an unlabelled volume stays behind as nobody's. */
  function Erased(s: State): State {
    s.(db := Db(None, None, None), elsewhere := map v | v in s.volumes :: s.volumes[v].tag)
  }

  ghost predicate MayErase(s: State) {
    && s.db.record.Some? && s.db.record.value.phase == Deleting
    && (forall i | i in s.containers :: i in s.foreign)
    && (forall v | v in s.volumes :: s.volumes[v].tag == Unlabelled)
  }

  lemma EraseFrame(s: State)
    requires Frame(s) && MayErase(s)
    ensures Frame(Erased(s))
  {
    var b := Erased(s);
    assert forall i: nat :: !Referenced(b, i);
    assert forall v :: !VolumeReferenced(b, v);
    assert DistinctNames(b) && DistinctTags(b) && Quiet(b) && SeedsAgree(b) && RowsOwn(b) && Census(b) && VolumeCensus(b);
    assert Bounded(b) by { forall i | i in b.containers ensures ContainerBounded(b, i, b.containers[i]) { assert ContainerBounded(s, i, s.containers[i]); } }
    assert ForeignIntact(b);
  }

  lemma EraseKeepsInv(s: State)
    requires Inv(s) && MayErase(s)
    ensures Inv(Erased(s))
  {
    InvParts(s);
    hide Inv, Promise, Frame, RecordHolds, MayErase;
    UnplannedPromise(s, Erased(s));
    EraseFrame(s);
    NothingOnRecord(Erased(s));
    InvFromParts(s, Erased(s));
  }

  lemma NothingOnRecord(s: State)
    requires s.db == Db(None, None, None)
    ensures RecordHolds(s)
  {
  }

  // ---------------------------------------------------------------- wishes for later

  /** Metadata is written at once; what needs a new container waits under an operation of its own. */
  function Queueing(s: State, now: Fields, later: Payload, secrets: set<Field>): State
    requires s.db.row.Some?
  {
    var settings := Update(s.db.row.value.settings, now, secrets);
    s.(db := s.db.(row := Some(s.db.row.value.(settings := settings)),
                   record := if later.fields == map[] then None else Some(Record(s.nextOp, Queued, later))),
       nextOp := s.nextOp + 1, base := settings)
  }

  predicate MayQueue(s: State, later: Payload) {
    && s.db.row.Some? && (s.db.record.Some? ==> s.db.record.value.phase == Queued)
    && later.Intent? && later.oldId == s.db.row.value.container && later.oldVolume == s.db.row.value.volume
  }

  lemma QueueKeepsInv(s: State, now: Fields, later: Payload, secrets: set<Field>)
    requires Inv(s) && MayQueue(s, later)
    ensures Inv(Queueing(s, now, later, secrets))
  {
    InvParts(s);
    NoTraceOf(s, s.nextOp);
    QueueFrame(s, now, later, secrets);
    assert RecordHolds(Queueing(s, now, later, secrets)) by { assert s.birth <= s.nextOp; }
    UnplannedPromise(s, Queueing(s, now, later, secrets));
    hide Frame, RecordHolds, Promise;
    InvFromParts(s, Queueing(s, now, later, secrets));
  }

  lemma QueuedPlain(s: State)
    requires RecordHolds(s) && s.db.record.Some? && s.db.record.value.phase == Queued
    ensures s.db.record.value.payload.Intent? && s.db.row.Some?
    ensures s.db.record.value.payload.oldId == s.db.row.value.container && s.db.record.value.payload.oldVolume == s.db.row.value.volume
    ensures s.db.row.value.settings == s.base
  {
    hide OperationHolds, PhaseHolds;
  }

  lemma QueueFrame(s: State, now: Fields, later: Payload, secrets: set<Field>)
    requires Frame(s) && RecordHolds(s) && MayQueue(s, later)
    ensures Frame(Queueing(s, now, later, secrets))
  {
    hide RecordHolds, Update, RowsOwn, Census, VolumeCensus, Bounded, DistinctNames, DistinctTags, ForeignIntact, Quiet, SeedsAgree;
    QueueRows(s, now, later, secrets);
    RowsFrame(s, Queueing(s, now, later, secrets));
  }

  lemma QueueRows(s: State, now: Fields, later: Payload, secrets: set<Field>)
    requires RowsOwn(s) && Census(s) && VolumeCensus(s) && RecordHolds(s) && MayQueue(s, later)
    ensures var b := Queueing(s, now, later, secrets); RowsOwn(b) && Census(b) && VolumeCensus(b)
  {
    hide RecordHolds, Update;
    if s.db.record.Some? { QueuedPlain(s); }
    var b := Queueing(s, now, later, secrets);
    assert forall i: nat :: Referenced(b, i) ==> Referenced(s, i);
    assert forall v | v in s.volumes :: VolumeReferenced(b, v) <==> VolumeReferenced(s, v);
  }

  function Cancelling(s: State): State {
    WithDb(s, s.db.(record := None))
  }

  lemma CancelKeepsInv(s: State)
    requires Inv(s) && s.db.record.Some? && s.db.record.value.phase == Queued
    ensures Inv(Cancelling(s))
  {
    InvParts(s);
    QueuedPlain(s);
    CancelFrame(s);
    UnplannedPromise(s, Cancelling(s));
    hide Frame, Promise;
    InvFromParts(s, Cancelling(s));
  }

  lemma CancelFrame(s: State)
    requires Frame(s) && s.db.record.Some? && s.db.record.value.phase == Queued && s.db.row.Some?
    requires s.db.record.value.payload.oldId == s.db.row.value.container && s.db.record.value.payload.oldVolume == s.db.row.value.volume
    ensures Frame(Cancelling(s))
  {
    var b := Cancelling(s);
    assert RowsOwn(b) by { assert forall i: nat :: Referenced(b, i) ==> Referenced(s, i); }
    assert Census(b);
    assert VolumeCensus(b) by { assert forall v | v in s.volumes :: VolumeReferenced(b, v) <==> VolumeReferenced(s, v); }
    RowsFrame(s, b);
  }

  // ---------------------------------------------------------------- status and stop intents

  /** Status, port, latency and stop intents are free of the invariant. */
  predicate SameBinding(a: Db, b: Db) {
    && b.record == a.record
    && a.row.Some? == b.row.Some?
    && (a.row.Some? ==> b.row.value == a.row.value.(status := b.row.value.status, latency := b.row.value.latency, port := b.row.value.port))
  }

  lemma StatusKeepsInv(s: State, db: Db)
    requires Inv(s) && SameBinding(s.db, db)
    ensures Inv(WithDb(s, db))
  {
    InvParts(s);
    hide Inv, Promise, Frame, RecordHolds;
    StatusPromise(s, db);
    StatusFrame(s, db);
    StatusRecord(s, db);
    InvFromParts(s, WithDb(s, db));
  }

  lemma StatusPromise(s: State, db: Db)
    requires Promise(s) && SameBinding(s.db, db)
    ensures Promise(WithDb(s, db))
  {
    OutcomeNotTrapped(s);
    hide Promise, Trap;
    RowsPromise(s, WithDb(s, db));
  }

  lemma OutcomeNotTrapped(s: State)
    requires Promise(s)
    ensures Planned(s) && s.db.record.value.phase in {Committed, RolledBack} ==> !Trap(s)
  {
    hide Trap;
  }

  lemma StatusFrame(s: State, db: Db)
    requires Frame(s) && SameBinding(s.db, db)
    ensures Frame(WithDb(s, db))
  {
    var b := WithDb(s, db);
    assert RowsOwn(b) by { assert forall i: nat :: Referenced(b, i) <==> Referenced(s, i); }
    assert Census(b);
    assert VolumeCensus(b) by { assert forall v :: VolumeReferenced(b, v) <==> VolumeReferenced(s, v); }
    RowsFrame(s, b);
  }

  lemma StatusRecord(s: State, db: Db)
    requires RecordHolds(s) && SameBinding(s.db, db)
    ensures RecordHolds(WithDb(s, db))
  {
  }
}
