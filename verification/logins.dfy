/** While a login is awaited: confirming it, re-attaching the candidate, starting it again. */
module Logins {
  import opened Common
  import opened Names
  import opened Settings
  import opened Journal
  import opened ReplacementStore
  import opened World
  import opened Drift
  import opened Renames
  import opened Resources
  import opened Transitions
  import opened Effects
  import opened Hosts
  import opened Closing
  import opened Recovery
  import opened Replacing

  ghost predicate Awaiting(s: State, r: Record) {
    Inv(s) && InPhase(s, r, AwaitingLogin)
  }

  lemma AwaitingView(s: State, r: Record)
    requires Awaiting(s, r)
    ensures Cast(s, r) && RowAfter(s, r) && OldAway(s, r)
    ensures forall i | i in s.containers && s.containers[i].name == Canonical :: IsCandidate(s.containers[i], r.op)
    ensures forall i | i in s.containers && IsCandidate(s.containers[i], r.op) :: i !in s.foreign && Fresh(r.op) in s.containers[i].mounts
  {
    hide Inv, RowAfter, OldAway;
    CastHolds(s, r);
    CastShapes(s, r) by { InvParts(s); }
    AwaitingPhase(s, r);
    AwaitingKind(s, r);
    forall i | i in s.containers
      ensures s.containers[i].name == Canonical ==> IsCandidate(s.containers[i], r.op)
      ensures IsCandidate(s.containers[i], r.op) ==> i !in s.foreign && Fresh(r.op) in s.containers[i].mounts
    {
      assert CastEntry(s, r, i);
      assert OfOperation(s.containers[i], r.op) ==> OperationShape(s.containers[i], r);
    }
  }

  lemma AwaitingPhase(s: State, r: Record)
    requires Awaiting(s, r)
    ensures RowAfter(s, r) && OldAway(s, r)
  {
    hide Frame, OperationHolds, OldAway, RowAfter, OldThere, Unstarted, StartedIsRecorded;
  }

  lemma AwaitingKind(s: State, r: Record)
    requires Awaiting(s, r)
    ensures r.payload.oldId.Some? && r.payload.oldId.value in s.containers ==> s.containers[r.payload.oldId.value].name == Previous(r.op)
  {
    hide Frame, OldThere, Unstarted, StartedIsRecorded, OperationShapes, RowAfter;
  }

  /** The candidate holds the channel's name and the row names it. */
  predicate Attached(s: State, r: Record) {
    ChannelIsCandidate(s, r) && s.db.row.value.volume == Fresh(r.op)
  }

  /** A change waits for its login. */
  predicate AwaitsLogin(s: State) {
    s.db.record.Some? && s.db.record.value.phase == AwaitingLogin
  }

  /** The row shows whether the channel runs, and Docker is to keep it running if it does. */
  predicate Shown(s: State) {
    && ChannelUp(s)
    && var c := s.containers[s.db.row.value.container.value];
       s.db.row.value.status == (if c.life == Running then Up else Stopped) && (c.life == Running ==> c.policy == UnlessStopped)
  }

  // ---------------------------------------------------------------- confirming

  /**
   Called after a probe through the channel has succeeded, so the container in the row is there
   under the channel's name.
   */
  method Confirmed(h: Host) returns (end: Outcome)
    requires Inv(h.S())
    requires h.store.record.Some? && h.store.record.value.phase == AwaitingLogin ==> ChannelUp(h.S())
    modifies h.store
    ensures Inv(h.S()) && h.S().db.row == old(h.S()).db.row
    ensures h.S() != old(h.S()) ==> old(h.store.record).Some? && old(h.store.record).value.phase == AwaitingLogin
    ensures h.S() != old(h.S()) ==> h.store.record == Some(old(h.store.record).value.(phase := Committed))
    ensures h.S() != old(h.S()) ==> old(h.store.record).value.payload.Plan? && old(h.store.row).value.container == old(h.store.record).value.payload.newId
    ensures end == Done && old(h.store.record).Some? ==> h.store.record.Some? && h.store.record.value.phase != AwaitingLogin
    ensures !h.faults && AwaitsLogin(old(h.S())) ==> (end == Done <==> old(h.store.row).value.container == old(h.store.record).value.payload.newId)
  {
    hide Inv;
    RecordShape(h.S());
    if AwaitsLogin(h.S()) { AwaitingView(h.S(), h.store.record.value); }
    var found;
    end, found := h.ReadJournal();
    if end != Done || found.None? || found.value.phase != AwaitingLogin { return; }
    var r := found.value;
    RecordShape(h.S());
    AwaitingView(h.S(), r);
    if h.store.row.value.container != r.payload.newId { return Raised; }
    end := h.Confirm(r);
  }

  // ---------------------------------------------------------------- attaching

  lemma CandidateMayReturn(s: State, r: Record, i: nat)
    requires Awaiting(s, r) && i in s.containers && IsCandidate(s.containers[i], r.op)
    ensures MayRename(s, i, Canonical) && i !in s.foreign && Fresh(r.op) in s.containers[i].mounts
    ensures s.containers[i].name in {Canonical, Next(r.op, false)}
    ensures s.containers[i].name != Canonical ==> NameFree(s, Canonical)
  {
    AwaitingView(s, r);
    InvParts(s);
    assert CastEntry(s, r, i);
    hide Inv, Frame, RecordHolds, RowAfter;
  }

  lemma MayRenew(s: State, r: Record, i: nat)
    requires InPhase(s, r, AwaitingLogin) && i in s.containers && IsCandidate(s.containers[i], r.op)
    ensures MayAdvance(s, AwaitingLogin, r.payload.(newId := Some(i)))
  {
  }

  lemma MayAttach(s: State, r: Record, runtime: Runtime)
    requires Awaiting(s, r) && runtime.container in s.containers && IsCandidate(s.containers[runtime.container], r.op)
    requires runtime.volume == Fresh(r.op)
    ensures MayResume(s, runtime)
  {
    AwaitingView(s, r);
    hide Inv;
  }

  method ReconcileWaiting(h: Host) returns (end: Outcome)
    requires Inv(h.S())
    modifies h`containers, h`volumes, h`seeds, h`nextId, h.store
    ensures Inv(h.S()) && h.store.intent == old(h.store.intent)
    ensures old(h.store.record).None? || old(h.store.record).value.phase != AwaitingLogin ==> h.S() == old(h.S())
    ensures old(h.store.record).Some? && old(h.store.record).value.phase == AwaitingLogin ==>
              old(h.store.record).value.payload.Plan? && h.store.record.Some? && SameOperation(old(h.store.record).value, h.store.record.value)
    ensures end == Done && h.store.record.Some? && h.store.record.value.phase == AwaitingLogin ==> Attached(h.S(), h.store.record.value)
    ensures end == Done && !h.drift && h.store.record.Some? && h.store.record.value.phase == AwaitingLogin ==>
              forall i: nat | IsChannel(h.S(), i) :: i in h.containers && i in old(h.containers)
                && IsCandidate(old(h.containers)[i], h.store.record.value.op) && h.containers[i].life == old(h.containers)[i].life
    ensures end == Done && !h.drift && AwaitsLogin(h.S()) ==> Shown(h.S())
    ensures h.Calm() && old(h.store.record).Some? && old(h.store.record).value.phase == AwaitingLogin ==>
              (end == Done <==> exists i :: i in old(h.containers) && IsCandidate(old(h.containers)[i], old(h.store.record).value.op))
  {
    hide Inv, Evolves, Attached, MayRename, MayAdvance, MayResume, NameFree, Cast, Shifted;
    RecordShape(h.S());
    var found;
    end, found := h.ReadJournal();
    if end != Done || found.None? || found.value.phase != AwaitingLogin { return; }
    var r := found.value;
    var c;
    end, c := h.FindOwned(r, false, true);
    EvolvesShape(old(h.S()), h.S());
    if end != Done { return; }
    if c.None? { return Raised; }
    end := Reattach(h, r, c.value);
  }

  /** Only the candidate on record may have been replaced. */
  predicate SameOperation(r: Record, q: Record) {
    r.payload.Plan? && q.payload.Plan? && q == r.(payload := r.payload.(newId := q.payload.newId))
  }

  method Reattach(h: Host, r: Record, i: nat) returns (end: Outcome)
    requires Awaiting(h.S(), r) && i in h.containers && IsCandidate(h.containers[i], r.op)
    modifies h`containers, h`volumes, h`seeds, h`nextId, h.store
    ensures Inv(h.S()) && h.store.intent == old(h.store.intent) && h.store.record.Some? && SameOperation(r, h.store.record.value)
    ensures end == Done ==> Attached(h.S(), h.store.record.value) && IsChannel(h.S(), i) && i in h.containers
    ensures end == Done && !h.drift ==> h.containers[i].life == old(h.containers)[i].life
    ensures end == Done && !h.drift ==> Shown(h.S())
    ensures h.Calm() ==> end == Done
  {
    hide Inv, Attached, MayAdvance;
    end := Return(h, r, i);
    if end != Done { return; }
    if Fresh(r.op) !in h.containers[i].mounts { return Raised; }
    MayRenew(h.S(), r, i);
    var q;
    end, q := h.Advance(r, AwaitingLogin, r.payload.(newId := Some(i)));
    if end != Done { return; }
    end := Attach(h, q, i);
  }

  /** The candidate takes the channel's name again, if it has lost it. */
  method Return(h: Host, r: Record, i: nat) returns (end: Outcome)
    requires Awaiting(h.S(), r) && i in h.containers && IsCandidate(h.containers[i], r.op)
    modifies h`containers, h`volumes, h`seeds, h`nextId
    ensures Awaiting(h.S(), r)
    ensures end == Done ==> i in h.containers && IsCandidate(h.containers[i], r.op) && h.containers[i].name == Canonical && i !in h.foreign
    ensures end == Done ==> Fresh(r.op) in h.containers[i].mounts
    ensures end == Done && !h.drift ==> h.containers[i].life == old(h.containers)[i].life
    ensures h.Calm() ==> end == Done
  {
    hide Inv, Evolves, MayRename, NameFree, Cast, Shifted;
    CandidateMayReturn(h.S(), r, i);
    ghost var s := h.S();
    end := h.Rename(i, Next(r.op, false), Canonical);
    if end != Done { return; }
    ShiftedTag(s, h.S(), i);
    if !h.drift { LifeStays(s, h.S(), i); }
  }

  /** The row takes the candidate that holds the channel's name. */
  method Attach(h: Host, q: Record, i: nat) returns (end: Outcome)
    requires Awaiting(h.S(), q) && i in h.containers && IsCandidate(h.containers[i], q.op) && h.containers[i].name == Canonical && i !in h.foreign
    modifies h`containers, h`volumes, h`seeds, h`nextId, h.store
    ensures Inv(h.S()) && h.store.intent == old(h.store.intent) && h.store.record == old(h.store.record)
    ensures end == Done ==> Attached(h.S(), q) && IsChannel(h.S(), i) && i in h.containers
    ensures end == Done && !h.drift ==> h.containers[i].life == old(h.containers)[i].life
    ensures end == Done && !h.drift ==> Shown(h.S())
    ensures h.Calm() ==> end == Done
  {
    hide Inv, Evolves, Attached, MayResume, NameFree, Cast, Touched;
    ghost var s := h.S();
    var runtime;
    end, runtime := h.ReadRuntime(i, Fresh(q.op), false, None);
    DriftKeepsInv(s, h.S());
    EvolvesShape(s, h.S());
    if end != Done { return; }
    MayAttach(h.S(), q, runtime);
    end := h.Resumed(q, runtime);
    if end != Done { return; }
    NowAttached(h.S(), q, i);
    if h.containers[i].life == Running {
      s := h.S();
      end := h.SetPolicy(i, UnlessStopped);
      StillAttached(s, h.S(), q, i);
    }
  }

  lemma ShiftedTag(a: State, b: State, i: nat)
    requires Shifted(a, b, i)
    ensures b.containers[i].tag == a.containers[i].tag && b.containers[i].mounts == a.containers[i].mounts && b.db == a.db
    ensures b.foreign == a.foreign
  {
  }

  lemma NowAttached(s: State, r: Record, i: nat)
    requires i in s.containers && IsCandidate(s.containers[i], r.op) && s.containers[i].name == Canonical && IsChannel(s, i)
    requires s.db.row.value.volume == Fresh(r.op)
    ensures Attached(s, r) && ChannelUp(s)
  {
  }

  lemma StillAttached(a: State, b: State, r: Record, i: nat)
    requires Attached(a, r) && IsChannel(a, i) && Touched(a, b, i)
    ensures Attached(b, r) && ChannelUp(b) && b.db == a.db
  {
  }

  // ---------------------------------------------------------------- starting again

  lemma MayCreateAgain(s: State, r: Record)
    requires Awaiting(s, r) && Fresh(r.op) in s.volumes
    requires forall i | i in s.containers :: !IsCandidate(s.containers[i], r.op)
    ensures MayAdd(s, Blueprint(r, false, Fresh(r.op)))
  {
    CastHolds(s, r);
    hide Inv;
    forall i | i in s.containers ensures s.containers[i].name != Next(r.op, false) { assert CastEntry(s, r, i); }
  }

  lemma NameIsFree(s: State, r: Record)
    requires MayAdd(s, Blueprint(r, false, Fresh(r.op)))
    ensures NameFree(s, Next(r.op, false))
  {
  }

  lemma VolumeIsThere(s: State, r: Record)
    requires Awaiting(s, r)
    ensures Fresh(r.op) in s.volumes && s.volumes[Fresh(r.op)].tag == Owned(r.op, false, Candidate)
  {
    AwaitingPhase(s, r);
    FreshIsOurs(s, r.op);
    hide Inv;
  }

  lemma CandidateMayLeave(s: State, r: Record, i: nat)
    requires Awaiting(s, r) && i in s.containers && IsCandidate(s.containers[i], r.op)
    ensures MayRemove(s, i)
  {
    AwaitingView(s, r);
    hide Inv;
  }

  lemma NoneLeft(a: State, b: State, r: Record, i: nat)
    requires Inv(a) && Others(a, b, i) && i in a.containers && i !in b.containers && IsCandidate(a.containers[i], r.op)
    ensures forall j | j in b.containers :: !IsCandidate(b.containers[j], r.op)
    ensures b.volumes.Keys == a.volumes.Keys
  {
    CandidateGone(a, b, r, i);
  }

  /** A candidate that can be started for the first time: the one at hand, or a new one on the same volume. */
  method Renew(h: Host, r: Record, c: Option<nat>) returns (end: Outcome, id: nat)
    requires Awaiting(h.S(), r)
    requires c.Some? ==> c.value in h.containers && IsCandidate(h.containers[c.value], r.op)
    requires c.None? ==> forall i | i in h.containers :: !IsCandidate(h.containers[i], r.op)
    modifies h`containers, h`volumes, h`seeds, h`nextId
    ensures Inv(h.S())
    ensures end == Done ==> id in h.containers && IsCandidate(h.containers[id], r.op) && h.containers[id].life == Created
    ensures h.Calm() ==> end == Done
  {
    hide Inv, Evolves, MayAdd, MayRemove, Others, NameFree;
    VolumeIsThere(h.S(), r);
    id := if c.Some? then c.value else 0;
    var created := c.Some? && h.containers[c.value].life == Created;
    end := h.Ask();
    DriftKeepsInv(old(h.S()), h.S());
    EvolvesShape(old(h.S()), h.S());
    if end != Done { return; }
    if Fresh(r.op) !in h.volumes || h.volumes[Fresh(r.op)].tag != Owned(r.op, false, Candidate) { return Raised, id; }
    if created { return; }
    if c.Some? {
      ghost var s := h.S();
      CandidateMayLeave(s, r, id);
      end := h.Remove(id);
      if end != Done { return; }
      NoneLeft(s, h.S(), r, id);
    }
    MayCreateAgain(h.S(), r);
    NameIsFree(h.S(), r);
    end, id := h.CreateCandidate(r, false, Fresh(r.op));
  }

  lemma MayStartAgain(s: State, r: Record, i: nat)
    requires Awaiting(s, r) && r.payload.newId == Some(i) && i in s.containers && IsCandidate(s.containers[i], r.op)
    requires s.containers[i].name == Canonical
    ensures MayStart(s, i) && i !in s.foreign
  {
    AwaitingView(s, r);
    hide Inv;
  }

  /** Gives the candidate the channel's name and starts it. */
  method StartAgain(h: Host, r: Record, i: nat) returns (end: Outcome)
    requires Awaiting(h.S(), r) && i in h.containers && IsCandidate(h.containers[i], r.op) && r.payload.newId == Some(i)
    modifies h`containers, h`volumes, h`seeds, h`nextId
    ensures Inv(h.S())
    ensures end == Done ==> i in h.containers && IsCandidate(h.containers[i], r.op) && h.containers[i].name == Canonical && i !in h.foreign
    ensures end == Done && !h.drift ==> h.containers[i].life == Running
    ensures h.Calm() ==> end == Done
  {
    hide Inv, Evolves, MayRename, MayStart, Shifted, NameFree;
    CandidateMayReturn(h.S(), r, i);
    ghost var s := h.S();
    end := h.Rename(i, Next(r.op, false), Canonical);
    if end != Done { return; }
    ShiftedTag(s, h.S(), i);
    MayStartAgain(h.S(), r, i);
    end := h.SetRunning(i, true);
    if end != Done { return; }
    s := h.S();
    end := h.Ask();
    DriftKeepsInv(s, h.S());
    EvolvesShape(s, h.S());
  }

  method Restart(h: Host, r: Record, c: Option<nat>) returns (end: Outcome)
    requires Awaiting(h.S(), r)
    requires c.Some? ==> c.value in h.containers && IsCandidate(h.containers[c.value], r.op)
    requires c.None? ==> forall i | i in h.containers :: !IsCandidate(h.containers[i], r.op)
    modifies h`containers, h`volumes, h`seeds, h`nextId, h.store
    ensures Inv(h.S())
    ensures end == Done ==> h.store.record.Some? && SameOperation(r, h.store.record.value) && Attached(h.S(), h.store.record.value)
    ensures end == Done ==> h.containers[h.store.row.value.container.value].policy == UnlessStopped
    ensures end == Done && !h.drift ==> RunsAsChannel(h.S(), h.store.row.value.container.value) && Shown(h.S())
    ensures end == Done ==> h.store.row.value.status == Up
    ensures h.Calm() ==> end == Done
  {
    hide Inv, Evolves, MayAdvance, MayResume, Cast, Touched;
    var id;
    end, id := Renew(h, r, c);
    if end != Done { return; }
    MayRenew(h.S(), r, id);
    var q;
    end, q := h.Advance(r, AwaitingLogin, r.payload.(newId := Some(id)));
    if end != Done { return; }
    end := StartAgain(h, q, id);
    if end != Done { return; }
    ghost var s := h.S();
    var runtime;
    end, runtime := h.ReadRuntime(id, Fresh(r.op), false, None);
    DriftKeepsInv(s, h.S());
    EvolvesShape(s, h.S());
    if end != Done { return; }
    if runtime.status == Stopped { return Raised; }
    MayAttach(h.S(), q, runtime);
    end := h.Resumed(q, runtime);
    if end != Done { return; }
    NowAttached(h.S(), q, id);
    s := h.S();
    end := h.SetPolicy(id, UnlessStopped);
    StillAttached(s, h.S(), q, id);
  }

  /** What was under way has been taken up: the queued settings are in force, or the candidate is the running channel. */
  predicate GoneOn(a: State, b: State, secrets: set<Field>) {
    && a.db.record.Some?
    && var r := a.db.record.value;
       && r.phase in {Queued, AwaitingLogin}
       && (r.phase == Queued ==> NewSide(a, b, r.payload.fields, secrets) && b.db.row.value.status in {Up, LoggedIn})
       && (r.phase == AwaitingLogin ==>
             && b.db.record.Some? && SameOperation(r, b.db.record.value) && Attached(b, b.db.record.value)
             && (!a.drift ==> RunsAsChannel(b, b.db.row.value.container.value) && Shown(b) && RunnerStays(a, b, r.op)))
  }

  /** A candidate that runs already, and may be logged in, is left running and is the channel. */
  predicate RunnerStays(a: State, b: State, op: nat) {
    forall i | i in a.containers && IsCandidate(a.containers[i], op) && a.containers[i].life == Running :: IsChannel(b, i)
  }

  /** Starting a channel: goes on with what was under way instead of starting something else. */
  method Resume(h: Host, secrets: set<Field>, selfInstalled: bool, mustPass: bool) returns (end: Outcome, resumed: bool)
    requires Inv(h.S())
    modifies h`containers, h`volumes, h`seeds, h`nextId, h`nextOp, h`base, h`stored, h`past, h`answers, h.store
    ensures Inv(h.S())
    ensures end == Done && resumed ==> GoneOn(old(h.S()), h.S(), secrets)
    ensures end == Done && !resumed ==> h.store.record.None? && (old(h.store.record).Some? ==> HasOutcome(old(h.S())))
    ensures old(h.store.record).Some? && old(h.store.record).value.phase !in {Queued, AwaitingLogin, Committed, Phase.RolledBack} ==>
              end != Done && h.S() == old(h.S())
    ensures h.Calm() && old(h.store.record).Some? && old(h.store.record).value.phase == AwaitingLogin ==> end == Done && resumed
  {
    hide Inv, Evolves, Attached, NewSide, Closed, Closable, Cast, CastEntry;
    resumed := false;
    RecordShape(h.S());
    var found;
    end, found := h.ReadJournal();
    if end != Done || found.None? { return; }
    var r := found.value;
    if r.phase == Queued {
      assert r.payload.fields + map[] == r.payload.fields;
      end := Replace(h, map[], secrets, true, selfInstalled, mustPass);
      resumed := true;
      return;
    }
    if r.phase in {Committed, Phase.RolledBack} {
      end := Cleanup(h);
      return;
    }
    if r.phase != AwaitingLogin { end := Raised; return; }
    resumed := true;
    end := ResumeWaiting(h, r, secrets);
  }

  method ResumeWaiting(h: Host, r: Record, secrets: set<Field>) returns (end: Outcome)
    requires Awaiting(h.S(), r)
    modifies h`containers, h`volumes, h`seeds, h`nextId, h.store
    ensures Inv(h.S())
    ensures end == Done ==> GoneOn(old(h.S()), h.S(), secrets)
    ensures h.Calm() ==> end == Done
  {
    hide Inv, Evolves, Attached, NewSide, Cast, CastEntry, GoneOn;
    var c;
    end, c := h.FindOwned(r, false, true);
    EvolvesShape(old(h.S()), h.S());
    if end != Done { return; }
    ghost var s := h.S();
    if c.Some? && h.containers[c.value].life == Running {
      end := ReconcileWaiting(h);
      if end == Done { Reconciled(s, h.S(), r, c.value); NowGoneOn(old(h.S()), h.S(), r, secrets); }
    } else {
      NobodyRuns(s, r, c);
      end := Restart(h, r, c);
      if end == Done { NowGoneOn(old(h.S()), h.S(), r, secrets); }
    }
  }

  /** If the candidate that was found does not run, none does. */
  lemma NobodyRuns(s: State, r: Record, c: Option<nat>)
    requires Inv(s)
    requires c.Some? ==> c.value in s.containers && s.containers[c.value].tag == Owned(r.op, false, Candidate) && s.containers[c.value].life != Running
    requires c.None? ==> forall i | i in s.containers :: !IsCandidate(s.containers[i], r.op)
    ensures forall i | i in s.containers && IsCandidate(s.containers[i], r.op) :: s.containers[i].life != Running
  {
    InvParts(s);
    hide Inv, Frame, RecordHolds;
  }

  lemma NowGoneOn(a: State, b: State, r: Record, secrets: set<Field>)
    requires InPhase(a, r, AwaitingLogin) && b.db.record.Some? && SameOperation(r, b.db.record.value) && Attached(b, b.db.record.value)
    requires !a.drift ==> RunsAsChannel(b, b.db.row.value.container.value) && Shown(b) && RunnerStays(a, b, r.op)
    ensures GoneOn(a, b, secrets)
  {
    hide Attached, RunsAsChannel, Shown, RunnerStays;
  }

  lemma Reconciled(a: State, b: State, r: Record, i: nat)
    requires Inv(a) && i in a.containers && IsCandidate(a.containers[i], r.op) && a.containers[i].life == Running
    requires b.db.record.Some? && SameOperation(r, b.db.record.value) && Attached(b, b.db.record.value)
    requires !a.drift ==> forall j: nat | IsChannel(b, j) :: j in b.containers && j in a.containers
                            && IsCandidate(a.containers[j], b.db.record.value.op) && b.containers[j].life == a.containers[j].life
    ensures !a.drift ==> RunsAsChannel(b, b.db.row.value.container.value) && RunnerStays(a, b, r.op)
  {
    assert IsChannel(b, b.db.row.value.container.value);
    InvParts(a);
    hide Inv, Frame, RecordHolds;
  }
}
