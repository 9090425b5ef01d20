/** Stopping a channel: a wish that is saved first, carried out against whatever is under way, and confirmed last. */
module Stopping {
  import opened Common
  import opened Names
  import opened Settings
  import opened Journal
  import opened ReplacementStore
  import opened World
  import opened Drift
  import opened Renames
  import opened Resources
  import opened Transitions
  import opened Effects
  import opened Hosts
  import opened Closing
  import opened Recovery
  import opened Replacing
  import opened Logins

  /** An operation without an outcome, other than one that waits for a login. */
  predicate Midway(s: State, r: Record) {
    s.db.record == Some(r) && r.payload.Plan? && r.phase in {Preparing, Prepared, Switching, Validating, RollingBack}
  }

  /** The trap but for the flag: a stop that comes now will fall into it. */
  predicate Caught(s: State) {
    && s.db.record.Some? && s.db.record.value.payload.Plan?
    && var r := s.db.record.value;
       && r.payload.kind == Replacement && r.payload.oldId.Some? && r.payload.oldId.value in s.containers
       && s.containers[r.payload.oldId.value].name == Previous(r.op)
       && exists i :: i in s.containers && IsRecovery(s.containers[i], r.op) && s.containers[i].name == Canonical
  }

  /** The channel's name is the row's container's, or nobody's while that container does not exist. */
  predicate Belongs(s: State) {
    && s.db.row.Some?
    && (if s.db.row.value.container.Some? && s.db.row.value.container.value in s.containers
        then s.containers[s.db.row.value.container.value].name == Canonical else NameFree(s, Canonical))
  }

  /** From here whatever is under way lets itself be stopped when nothing fails. */
  predicate Stoppable(s: State) {
    match s.db.record
    case None => true
    case Some(r) =>
      match r.phase
      case Queued => true
      case Deleting => false
      case AwaitingLogin => exists i :: i in s.containers && IsCandidate(s.containers[i], r.op)
      case Committed => r.payload.Plan? && Closable(s)
      case RolledBack => true
      case _ => !Caught(s)
  }

  lemma ClosedBelongs(a: State, b: State)
    requires HasOutcome(a) && a.db.record.value.payload.Plan? && Closed(a, b)
    requires WentBackToNothing(a.db.record.value) ==> a.db.row.Some? && a.db.row.value.container == None
    ensures Belongs(b)
  {
  }

  lemma RestoredBelongs(a: State, b: State, r: Record, applied: bool)
    requires r.payload.Plan? && Restored(a, b, r, applied)
    ensures Belongs(b)
  {
    hide SettingsAfter;
  }

  lemma MidwayOld(s: State, r: Record)
    requires Inv(s) && Midway(s, r) && r.payload.kind == Replacement
    ensures r.payload.oldId.Some? && r.payload.oldId.value in s.containers && r.payload.oldId.value !in s.foreign
    ensures OldShape(s.containers[r.payload.oldId.value], r)
  {
    MidwayOldThere(s, r);
    InvParts(s);
    assert Referenced(s, r.payload.oldId.value);
    hide Inv, Frame, RecordHolds, DistinctNames, DistinctTags, Bounded, ForeignIntact, Quiet, Census, VolumeCensus, SeedsAgree, DataKept;
  }

  lemma MidwayOldThere(s: State, r: Record)
    requires Inv(s) && Midway(s, r)
    ensures OldThere(s, r) && (r.payload.kind == Replacement <==> r.payload.oldId.Some?)
  {
    hide Frame, OldThere, OperationShapes, RowBefore, RowAfter, CandidatesCreated, CandidatesAside, CandidateIs, CandidateUp, Moved, Copied, Unstarted, OldAway;
  }

  lemma MayForget(s: State, r: Record)
    requires Midway(s, r)
    ensures MayAdvance(s, r.phase, r.payload.(start := false)) && Legal(r.phase, r.phase) && MayLower(s)
  {
  }

  method BeforeStop(h: Host) returns (end: Outcome)
    requires Inv(h.S())
    modifies h`containers, h`volumes, h`seeds, h`nextId, h`base, h`stored, h`past, h.store
    ensures Inv(h.S()) && h.store.intent == old(h.store.intent)
    ensures h.Calm() ==> (end == Done <==> Stoppable(old(h.S())))
    ensures h.Calm() && old(h.store.record).Some? && Midway(old(h.S()), old(h.store.record).value) ==> (end == Raised <==> Stuck(h.S()))
    ensures end == Done && old(h.store.record).Some? && old(h.store.record).value.phase != Queued ==> Belongs(h.S())
    ensures (end == Done && (old(h.store.record).None? || old(h.store.record).value.phase == Queued)) ==> h.S() == old(h.S())
    ensures end == Done && !h.drift && old(h.store.record).Some? && Midway(old(h.S()), old(h.store.record).value) ==>
              h.store.record.None? && forall i | i in h.containers && IsChannel(h.S(), i) :: h.containers[i].life != Running
    ensures end == Done && !h.drift && old(h.store.record).Some? && Midway(old(h.S()), old(h.store.record).value) ==>
              h.store.row.Some? && h.store.row.value.status == Stopped
    ensures end == Done && h.store.record.Some? ==> h.store.record.value.phase in {Queued, AwaitingLogin}
    ensures !Caught(old(h.S())) ==> !Trap(h.S())
  {
    hide Inv, Caught, Stuck, Closed, Closable, Cast, Restored, Trap, Belongs, NameFree, Attached;
    RecordShape(h.S());
    TrapIsCaught(h.S());
    var found;
    end, found := h.ReadJournal();
    if end != Done || found.None? || found.value.phase == Queued { return; }
    var r := found.value;
    if r.phase == AwaitingLogin {
      end := ReconcileWaiting(h);
      NoTrapAlong(h.S(), h.store.record.value);
      if end == Done { AttachedBelongs(h.S(), h.store.record.value); }
    } else if r.phase == Deleting {
      end := Raised;
    } else if r.phase in {Committed, Phase.RolledBack} {
      end := StopSettled(h, r);
    } else if r.payload.kind == Initial {
      end := GiveUpInitial(h, r);
    } else {
      end := StopAndRecover(h, r);
    }
  }

  lemma AttachedBelongs(s: State, r: Record)
    requires Attached(s, r)
    ensures Belongs(s)
  {
  }

  lemma TrapIsCaught(s: State)
    ensures Trap(s) ==> Caught(s)
  {
  }

  method StopSettled(h: Host, r: Record) returns (end: Outcome)
    requires Inv(h.S()) && h.store.record == Some(r) && HasOutcome(h.S())
    modifies h`containers, h`volumes, h`seeds, h`nextId, h`base, h`stored, h`past, h.store
    ensures Inv(h.S()) && h.store.intent == old(h.store.intent)
    ensures h.Calm() ==> (end == Done <==> r.payload.Plan? && Closable(old(h.S()))) && (r.phase == Phase.RolledBack ==> end == Done)
    ensures end == Done ==> h.store.record.None? && Belongs(h.S())
    ensures !Trap(h.S())
  {
    hide Inv, Closed, Closable, Belongs, NameFree, Trap;
    OutcomeIsPlan(h.S());
    OutcomeChannel(h.S(), r);
    if r.phase == Phase.RolledBack { RolledBackClosable(h.S()); }
    end := Cleanup(h);
    StandsStill(h.S());
    TrapNeedsPlan(h.S());
    if end == Done { ClosedBelongs(old(h.S()), h.S()); }
  }

  method GiveUpInitial(h: Host, r: Record) returns (end: Outcome)
    requires Inv(h.S()) && Midway(h.S(), r) && r.payload.kind == Initial
    modifies h`containers, h`volumes, h`seeds, h`nextId, h`base, h`stored, h`past, h.store
    ensures Inv(h.S()) && h.store.intent == old(h.store.intent)
    ensures h.Calm() ==> end == Done && !Caught(old(h.S())) && !Stuck(h.S())
    ensures end == Done ==> h.store.record.None? && h.store.row.Some? && h.store.row.value.container.None? && Belongs(h.S())
    ensures end == Done ==> h.store.row.value.status == Stopped
    ensures !Trap(h.S())
  {
    hide Inv, MayAdvance, Trap, Recovered, Belongs, Recoverable, Caught, Stuck, GoesOn;
    MayForget(h.S(), r);
    InitialIsFree(h.S(), r);
    var q;
    end, q := h.Advance(r, r.phase, r.payload.(start := false));
    InitialNoTrap(h.S());
    if end != Done { return; }
    ghost var s := h.S();
    InitialIsFree(s, q);
    end := Recover(h);
    if end == Done {
      RecoveredBelongs(s, h.S(), q);
      RecoveredStopped(s, h.S(), q);
      NothingStuck(h.S());
    }
  }

  lemma InitialIsFree(s: State, r: Record)
    requires Midway(s, r) && r.payload.kind == Initial
    ensures Recoverable(s) && !Caught(s)
  {
  }

  lemma NothingStuck(s: State)
    requires s.db.record.None?
    ensures !Stuck(s)
  {
  }

  lemma RecoveredStopped(a: State, b: State, r: Record)
    requires Recovered(a, b) && Midway(a, r) && r.payload.kind == Initial && !r.payload.start
    ensures b.db.row.Some? && b.db.row.value.status == Stopped && b.db.row.value.container == None
  {
    hide SettingsAfter;
  }

  lemma RecoveredBelongs(a: State, b: State, r: Record)
    requires Recovered(a, b) && Midway(a, r)
    ensures Belongs(b)
  {
    hide Restored, Closed, Belongs;
    RestoredBelongs(a, b, r, r.phase == RollingBack && r.payload.configApplied);
  }

  lemma InitialNoTrap(s: State)
    requires s.db.record.Some? && s.db.record.value.payload.Plan? && s.db.record.value.payload.kind == Initial
    ensures !Trap(s)
  {
  }

  lemma TouchedTrap(a: State, b: State, i: nat)
    requires Touched(a, b, i)
    ensures Trap(a) <==> Trap(b)
  {
    forall j | j in a.containers ensures j in b.containers && b.containers[j].name == a.containers[j].name && b.containers[j].tag == a.containers[j].tag {
      if j != i { assert Passes(a.drift, a.containers[j], b.containers[j]); }
    }
  }

  lemma ForgottenTrap(s: State, r: Record)
    requires Midway(s, r)
    ensures Caught(s) <==> Trap(Lowered(s))
  {
  }

  lemma DriftCaught(a: State, b: State)
    requires Evolves(a, b)
    ensures (Caught(a) <==> Caught(b)) && (Trap(a) <==> Trap(b))
  {
    EvolvesShape(a, b);
    hide Evolves;
  }

  method StopAndRecover(h: Host, r: Record) returns (end: Outcome)
    requires Inv(h.S()) && Midway(h.S(), r) && r.payload.kind == Replacement
    modifies h`containers, h`volumes, h`seeds, h`nextId, h`base, h`stored, h`past, h.store
    ensures Inv(h.S()) && h.store.intent == old(h.store.intent)
    ensures h.Calm() ==> (end == Done <==> !Caught(old(h.S()))) && (end == Raised <==> Stuck(h.S()))
    ensures end == Done ==> h.store.record.None? && Belongs(h.S())
    ensures end == Done && !h.drift ==> forall i | i in h.containers && IsChannel(h.S(), i) :: h.containers[i].life != Running
    ensures end == Done && !h.drift ==> h.store.row.Some? && h.store.row.value.status == Stopped
    ensures !Caught(old(h.S())) ==> !Trap(h.S())
  {
    hide Inv, Caught, Trap, Evolves, Touched, Closed, Closable, Restored;
    MidwayOld(h.S(), r);
    var old_, here := r.payload.oldId.value, false;
    end, here := h.Identity(old_);
    DriftKeepsInv(old(h.S()), h.S());
    EvolvesShape(old(h.S()), h.S());
    DriftCaught(old(h.S()), h.S());
    TrapIsCaught(h.S());
    if end != Done { return; }
    MidwayOld(h.S(), r);
    if !here || h.containers[old_].name !in {Canonical, Previous(r.op)} || r.payload.oldVolume !in h.containers[old_].mounts { return Raised; }
    ghost var s := h.S();
    ForgottenTrap(s, r);
    var q;
    end, q := h.Lower(r);
    if end != Done { return; }
    end := HaltOldAndRecover(h, q, old_);
  }

  method HaltOldAndRecover(h: Host, q: Record, old_: nat) returns (end: Outcome)
    requires Inv(h.S()) && Midway(h.S(), q) && q.payload.kind == Replacement && !q.payload.oldRunning && q.payload.oldId == Some(old_)
    modifies h`containers, h`volumes, h`seeds, h`nextId, h`base, h`stored, h`past, h.store
    ensures Inv(h.S()) && h.store.intent == old(h.store.intent)
    ensures h.Calm() ==> (end == Done <==> !Trap(old(h.S()))) && (end == Raised <==> Stuck(h.S()))
    ensures end == Done ==> h.store.record.None? && Belongs(h.S())
    ensures end == Done && !h.drift ==> forall i | i in h.containers && IsChannel(h.S(), i) :: h.containers[i].life != Running
    ensures end == Done && !h.drift ==> h.store.row.Some? && h.store.row.value.status == Stopped
    ensures !Trap(old(h.S())) ==> !Trap(h.S())
  {
    hide Inv, Trap, Evolves, MayAdvance, Touched, Closed, Closable, Restored;
    MidwayOld(h.S(), q);
    ghost var s := h.S();
    end := h.SetPolicy(old_, No);
    TouchedTrap(s, h.S(), old_);
    if end != Done { return; }
    MidwayOld(h.S(), q);
    s := h.S();
    end := h.SetRunning(old_, false);
    TouchedTrap(s, h.S(), old_);
    if end != Done { return; }
    s := h.S();
    end := Recover(h);
    if end == Done { NotRunning(s, h.S(), q); RecoveredBelongs(s, h.S(), q); }
  }

  lemma NotRunning(a: State, b: State, q: Record)
    requires Midway(a, q) && q.payload.kind == Replacement && !q.payload.oldRunning && Recovered(a, b)
    requires q.payload.oldId.Some? && q.payload.oldId.value in a.containers && a.containers[q.payload.oldId.value].life != Running
    ensures b.db.record.None?
    ensures !a.drift ==> forall i | i in b.containers && IsChannel(b, i) :: b.containers[i].life != Running
    ensures !a.drift ==> b.db.row.Some? && b.db.row.value.status == Stopped
  {
    hide SettingsAfter;
  }

  // ---------------------------------------------------------------- carrying out the wish

  /** No container runs under the channel's name. */
  predicate Stands(s: State) {
    forall i | i in s.containers && s.containers[i].name == Canonical :: s.containers[i].life != Running
  }

  /** No operation is under way. */
  predicate Undisturbed(s: State) {
    s.db.record.None? || s.db.record.value.phase == Queued
  }

  lemma BelongsHasRow(s: State)
    requires Belongs(s)
    ensures s.db.row.Some?
  {
  }

  /**
   Stops the channel for a saved wish. The wish goes only in a state in which nothing runs under
   the channel's name; every other ending leaves it in place.
   */
  method Apply(h: Host) returns (end: Outcome)
    requires Inv(h.S())
    modifies h`containers, h`volumes, h`seeds, h`nextId, h`base, h`stored, h`past, h.store
    ensures Inv(h.S())
    ensures h.store.intent != old(h.store.intent) ==> h.store.intent.None? && Stands(h.S())
    ensures end == Done ==> h.store.intent.None?
    ensures end == Done && old(h.store.intent).Some? ==> Stands(h.S()) && h.store.row.Some? && h.store.row.value.status == Stopped
    ensures h.Calm() && old(h.store.intent).Some? ==>
              (end == Done <==> Stoppable(old(h.S())) && (Undisturbed(old(h.S())) ==> Belongs(old(h.S()))))
  {
    hide Inv, Evolves, Stands, Caught, Stuck, NameFree, Belongs, Stoppable;
    var wish;
    end, wish := h.ReadIntent();
    if end != Done || wish.None? { return; }
    end := BeforeStop(h);
    if end != Done { return; }
    if Belongs(h.S()) { BelongsHasRow(h.S()); }
    if h.store.row.None? { return Raised; }
    end := Halt(h, h.store.row.value.container);
    if end != Done { return; }
    ghost var s := h.S();
    end := h.ConfirmStop(wish.value);
    SameStand(s, h.S());
  }

  lemma SameStand(a: State, b: State)
    requires Stands(a) && b.containers == a.containers
    ensures Stands(b)
  {
  }

  /** Stops what holds the channel's name, which must be the container the row expects, and looks again. */
  method Halt(h: Host, expected: Option<nat>) returns (end: Outcome)
    requires Inv(h.S()) && h.store.row.Some? && h.store.row.value.container == expected
    requires h.store.record.Some? ==> h.store.record.value.phase != Phase.RolledBack
    modifies h`containers, h`volumes, h`seeds, h`nextId
    ensures Inv(h.S())
    ensures end == Done ==> Stands(h.S())
    ensures h.Calm() ==> (end == Done <==> Belongs(old(h.S())))
  {
    hide Inv, Evolves, NameFree, Touched;
    WhoseName(h.S());
    var current;
    end, current := h.Get(Canonical);
    DriftKeepsInv(old(h.S()), h.S());
    EvolvesShape(old(h.S()), h.S());
    if end != Done { return; }
    ghost var s := h.S();
    if current.None? {
      if expected.Some? {
        var here;
        end, here := h.Identity(expected.value);
        DriftKeepsInv(s, h.S());
        EvolvesShape(s, h.S());
        if end == Done && here { end := Raised; }
      }
      if end == Done { NobodyStands(h.S()); }
      return;
    }
    if expected != current { return Raised; }
    var id := current.value;
    ChannelOwn(s, id);
    if h.containers[id].life == Running {
      end := h.CallStop(id);
      TouchedHas(s, h.S(), id);
      if end == Crashed { return; }
      s := h.S();
    }
    var after;
    end, after := h.Identity(id);
    DriftKeepsInv(s, h.S());
    EvolvesShape(s, h.S());
    if end != Done { return; }
    if after && h.containers[id].life == Running { return Raised; }
    OneStands(h.S(), id);
  }

  lemma WhoseName(s: State)
    requires Inv(s)
    ensures Belongs(s) ==> forall i | i in s.containers && s.containers[i].name == Canonical :: IsChannel(s, i)
    ensures s.db.row.Some? && !NameFree(s, Canonical) && (forall i | i in s.containers && s.containers[i].name == Canonical :: IsChannel(s, i)) ==> Belongs(s)
    ensures Belongs(s) && NameFree(s, Canonical) ==> forall i: nat | IsChannel(s, i) :: i !in s.containers
  {
    InvParts(s);
    hide Inv, Frame, RecordHolds, DistinctTags, Bounded, ForeignIntact, Quiet, Census, VolumeCensus, RowsOwn, SeedsAgree, DataKept;
  }

  lemma NobodyStands(s: State)
    requires NameFree(s, Canonical)
    ensures Stands(s)
  {
  }

  lemma OneStands(s: State, i: nat)
    requires Inv(s) && i in s.containers && s.containers[i].name == Canonical && s.containers[i].life != Running
    ensures Stands(s)
  {
    InvParts(s);
    hide Inv, Frame, RecordHolds;
  }

  lemma ChannelOwn(s: State, i: nat)
    requires Inv(s) && IsChannel(s, i)
    ensures i !in s.foreign
  {
    InvParts(s);
    assert Referenced(s, i);
    hide Inv, Frame, RecordHolds, DistinctNames, DistinctTags, Bounded, ForeignIntact, Quiet, Census, VolumeCensus, SeedsAgree, DataKept;
  }
}
