/** Undoing an operation: from any point at which it may have stopped, back to the old side. */
module Recovery {
  import opened Common
  import opened Names
  import opened Settings
  import opened Journal
  import opened ReplacementStore
  import opened World
  import opened Drift
  import opened Renames
  import opened Resources
  import opened Transitions
  import opened Effects
  import opened Hosts
  import opened Closing

  ghost predicate Undoing(s: State, r: Record) {
    Inv(s) && s.db.record == Some(r) && r.phase == RollingBack && r.payload.Plan?
  }

  /** Neither the copier nor a candidate stands in the way. */
  ghost predicate Apart(s: State, r: Record) {
    CandidatesAside(s, r) && NoCopier(s, r)
  }

  lemma UndoingView(s: State, r: Record)
    requires Undoing(s, r)
    ensures Cast(s, r) && s.db.row.Some? && (r.payload.kind == Replacement <==> r.payload.oldId.Some?)
    ensures r.payload.kind == Replacement ==>
      && r.payload.oldId.value in s.containers && OldShape(s.containers[r.payload.oldId.value], r)
      && r.payload.oldId.value !in s.foreign && r.payload.oldVolume in s.volumes
    ensures r.payload.kind == Initial ==> forall i | i in s.containers :: !IsRecovery(s.containers[i], r.op)
  {
    CastHolds(s, r);
    InvParts(s);
    RollingBackFacts(s);
    UndoingOld(s, r);
    CastShapes(s, r);
    hide Inv, Frame, RecordHolds, DistinctNames, DistinctTags, Bounded, ForeignIntact, Quiet, Census, VolumeCensus, SeedsAgree, DataKept, OldShape, CastEntry;
    if r.payload.oldId.Some? { assert Referenced(s, r.payload.oldId.value); }
    if r.payload.kind == Initial {
      forall i | i in s.containers ensures !IsRecovery(s.containers[i], r.op) { assert OfOperation(s.containers[i], r.op) ==> OperationShape(s.containers[i], r); }
    }
  }

  lemma UndoingOld(s: State, r: Record)
    requires RecordHolds(s) && s.db.record == Some(r) && r.phase == RollingBack && r.payload.Plan?
    ensures OldThere(s, r)
  {
    hide OperationHolds, OldThere, RowBefore, RowAfter;
  }

  lemma StillApart(a: State, b: State, i: nat, r: Record)
    requires Others(a, b, i) && Apart(a, r)
    requires i in b.containers ==> !IsCandidate(b.containers[i], r.op) && !IsCopier(b.containers[i], r.op)
    ensures Apart(b, r)
  {
    forall j | j in b.containers && j != i ensures Passes(a.drift, a.containers[j], b.containers[j]) { }
  }

  lemma EvolvesApart(a: State, b: State, r: Record)
    requires Evolves(a, b) && Apart(a, r)
    ensures Apart(b, r)
  {
    EvolvesShape(a, b);
  }

  // ---------------------------------------------------------------- the copier

  method StopCopier(h: Host, r: Record) returns (end: Outcome)
    requires Undoing(h.S(), r)
    modifies h`containers, h`volumes, h`seeds, h`nextId
    ensures Inv(h.S()) && Shrinks(old(h.S()), h.S())
    ensures forall i | i in old(h.containers) && !IsCopier(old(h.containers)[i], r.op) :: i in h.containers
    ensures end == Done ==> NoCopier(h.S(), r)
    ensures h.Calm() ==> end == Done
  {
    hide Inv, Evolves, Shrinks, NameFree, MayRemove, Others;
    var helper;
    end, helper := h.Get(CopyOf(r.op));
    DriftKeepsInv(old(h.S()), h.S());
    EvolvesShrinks(old(h.S()), h.S());
    EvolvesShape(old(h.S()), h.S());
    if end != Done { return; }
    ghost var s := h.S();
    CastHolds(s, r);
    if helper.None? { NoCopierByName(s, r); return; }
    assert CastEntry(s, r, helper.value);
    if h.containers[helper.value].tag != Owned(r.op, false, Copier) { return Raised; }
    CopierMayGo(s, r, helper.value);
    end := h.Remove(helper.value);
    RemovalShrinks(s, h.S(), helper.value);
    ShrinksThen(old(h.S()), s, h.S());
    if end == Done { CopierGone(s, h.S(), r, helper.value); }
  }

  lemma NoCopierByName(s: State, r: Record)
    requires Cast(s, r) && NameFree(s, CopyOf(r.op))
    ensures NoCopier(s, r)
  {
    forall i | i in s.containers ensures !IsCopier(s.containers[i], r.op) { assert CastEntry(s, r, i); }
  }

  lemma CopierMayGo(s: State, r: Record, i: nat)
    requires s.db.record == Some(r) && r.payload.Plan? && r.phase in {Switching, RollingBack} && Cast(s, r)
    requires i in s.containers && IsCopier(s.containers[i], r.op)
    ensures MayRemove(s, i)
  {
    assert CastEntry(s, r, i);
  }

  lemma CopierGone(a: State, b: State, r: Record, i: nat)
    requires Inv(a) && Shrinks(a, b) && i in a.containers && i !in b.containers && IsCopier(a.containers[i], r.op)
    ensures NoCopier(b, r)
  {
    InvParts(a);
    hide Inv, Frame, RecordHolds;
    forall j | j in b.containers ensures !IsCopier(b.containers[j], r.op) {
      assert Passes(a.drift, a.containers[j], b.containers[j]);
    }
  }

  // ---------------------------------------------------------------- the candidate

  /** Everything but the container labelled t lives on; that one keeps its labels and mounts. */
  ghost predicate Untouched(a: State, b: State, t: Label) {
    && b == a.(containers := b.containers, volumes := b.volumes, seeds := b.seeds)
    && b.containers.Keys == a.containers.Keys
    && (forall i | i in a.containers && a.containers[i].tag != t :: Passes(a.drift, a.containers[i], b.containers[i]))
    && (forall i | i in a.containers && a.containers[i].tag == t :: b.containers[i].tag == t)
    && b.volumes.Keys == a.volumes.Keys
  }

  lemma UntouchedThen(a: State, b: State, c: State, t: Label)
    requires Untouched(a, b, t) && Untouched(b, c, t)
    ensures Untouched(a, c, t)
  {
    forall i | i in a.containers && a.containers[i].tag != t ensures Passes(a.drift, a.containers[i], c.containers[i]) {
      PassesThen(a.drift, a.containers[i], b.containers[i], c.containers[i]);
    }
  }

  lemma EvolvesUntouched(a: State, b: State, t: Label)
    requires Evolves(a, b)
    ensures Untouched(a, b, t)
  {
  }

  lemma OneUntouched(a: State, b: State, i: nat)
    requires Touched(a, b, i) || Shifted(a, b, i)
    ensures Untouched(a, b, a.containers[i].tag)
  {
  }

  method SetAside(h: Host, r: Record) returns (end: Outcome, candidate: Option<nat>)
    requires Undoing(h.S(), r)
    modifies h`containers, h`volumes, h`seeds, h`nextId
    ensures Inv(h.S()) && Untouched(old(h.S()), h.S(), Owned(r.op, false, Candidate))
    ensures end == Done ==> CandidatesAside(h.S(), r)
    ensures end == Done && candidate.Some? ==> candidate.value in h.containers && IsCandidate(h.containers[candidate.value], r.op)
    ensures end == Done && candidate.None? ==> forall i | i in h.containers :: !IsCandidate(h.containers[i], r.op)
    ensures h.Calm() ==> end == Done
  {
    hide Inv, Evolves, Untouched, NameFree, MayRename, Others, CastEntry;
    end, candidate := h.FindOwned(r, false, true);
    EvolvesUntouched(old(h.S()), h.S(), Owned(r.op, false, Candidate));
    if end != Done || candidate.None? { return; }
    var i := candidate.value;
    ghost var s := h.S();
    CandidateIsOurs(s, r, i);
    end := h.SetPolicy(i, No);
    OneUntouched(s, h.S(), i);
    UntouchedThen(old(h.S()), s, h.S(), Owned(r.op, false, Candidate));
    if end != Done { return; }
    s := h.S();
    end := h.SetRunning(i, false);
    OneUntouched(s, h.S(), i);
    UntouchedThen(old(h.S()), s, h.S(), Owned(r.op, false, Candidate));
    if end != Done { return; }
    s := h.S();
    if h.containers[i].name == Canonical {
      AsideIsFree(s, r, i);
      end := h.Rename(i, Canonical, Next(r.op, false));
      OneUntouched(s, h.S(), i);
      UntouchedThen(old(h.S()), s, h.S(), Owned(r.op, false, Candidate));
      if end != Done { return; }
    }
    AllAside(h.S(), r, i);
  }

  lemma CandidateIsOurs(s: State, r: Record, i: nat)
    requires Undoing(s, r) && i in s.containers && IsCandidate(s.containers[i], r.op)
    ensures i !in s.foreign && s.containers[i].name in {Canonical, Next(r.op, false)}
  {
    CastHolds(s, r);
    assert CastEntry(s, r, i);
  }

  /** Of all containers only the candidate may be called as the candidate is. */
  lemma AsideIsFree(s: State, r: Record, i: nat)
    requires Undoing(s, r) && i in s.containers && IsCandidate(s.containers[i], r.op) && s.containers[i].name == Canonical
    requires Dormant(s.containers[i])
    ensures NameFree(s, Next(r.op, false)) && MayRename(s, i, Next(r.op, false))
  {
    CastHolds(s, r);
    InvParts(s);
    hide Inv, Frame, RecordHolds;
    assert CastEntry(s, r, i);
    forall j | j in s.containers ensures s.containers[j].name != Next(r.op, false) { assert CastEntry(s, r, j); }
  }

  lemma AllAside(s: State, r: Record, i: nat)
    requires Undoing(s, r) && i in s.containers && IsCandidate(s.containers[i], r.op) && s.containers[i].name != Canonical
    ensures CandidatesAside(s, r)
  {
    CastHolds(s, r);
    InvParts(s);
    hide Inv, Frame, RecordHolds;
    forall j | j in s.containers && IsCandidate(s.containers[j], r.op) ensures s.containers[j].name == Next(r.op, false) {
      assert CastEntry(s, r, j);
    }
  }

  // ---------------------------------------------------------------- the old container

  /** Stops the old container for good and moves it out of the way. */
  method PutAway(h: Host, r: Record, old_: nat) returns (end: Outcome)
    requires Undoing(h.S(), r) && Apart(h.S(), r) && r.payload.oldId == Some(old_)
    modifies h`containers, h`volumes, h`seeds, h`nextId
    ensures Inv(h.S()) && Apart(h.S(), r) && old_ in h.containers
    ensures end == Done ==> h.containers[old_].name == Previous(r.op)
    ensures h.Calm() ==> end == Done
  {
    hide Inv, Evolves, NameFree, MayRename, Others, Apart, Passes;
    UndoingView(h.S(), r);
    ghost var s := h.S();
    end := h.SetPolicy(old_, No);
    UndoingView(h.S(), r);
    StillApart(s, h.S(), old_, r);
    if end != Done { return; }
    s := h.S();
    end := h.SetRunning(old_, false);
    UndoingView(h.S(), r);
    StillApart(s, h.S(), old_, r);
    if end != Done { return; }
    s := h.S();
    PreviousIsFree(s, r, old_);
    end := h.Rename(old_, Canonical, Previous(r.op));
    UndoingView(h.S(), r);
    StillApart(s, h.S(), old_, r);
  }

  lemma PreviousIsFree(s: State, r: Record, i: nat)
    requires Undoing(s, r) && r.payload.oldId == Some(i) && i in s.containers && Dormant(s.containers[i]) && i !in s.foreign
    ensures s.containers[i].name == Canonical ==> NameFree(s, Previous(r.op))
    ensures MayRename(s, i, Previous(r.op))
  {
    CastHolds(s, r);
    forall j | j in s.containers && j != i ensures s.containers[j].name != Previous(r.op) { assert CastEntry(s, r, j); }
    hide Inv;
  }

  /** Makes the channel anew on its old volume; a leftover of an interrupted attempt goes first. */
  method Rebuild(h: Host, r: Record, old_: nat) returns (end: Outcome, id: nat)
    requires Undoing(h.S(), r) && Apart(h.S(), r) && r.payload.oldId == Some(old_) && r.payload.kind == Replacement
    requires old_ in h.containers && h.containers[old_].name == Previous(r.op) && r.payload.oldRunning
    modifies h`containers, h`volumes, h`seeds, h`nextId
    ensures Inv(h.S())
    ensures end == Done ==> Apart(h.S(), r) && id in h.containers && IsRecovery(h.containers[id], r.op) && h.containers[id].name == Canonical
    ensures end == Done && !h.drift ==> h.containers[id].life == Running
    ensures h.Calm() ==> end == Done
  {
    hide Inv, Evolves, NameFree, MayRename, MayRemove, MayAdd, MayStart, Others, Apart, Passes;
    id := 0;
    var leftover;
    end, leftover := h.FindOwned(r, true, true);
    EvolvesApart(old(h.S()), h.S(), r);
    EvolvesShape(old(h.S()), h.S());
    if end != Done { return; }
    if leftover.Some? {
      UndoingView(h.S(), r);
      end := RemoveLeftover(h, r, old_, leftover.value);
      if end != Done { return; }
    }
    ghost var s := h.S();
    MayRebuild(s, r);
    end, id := h.CreateCandidate(r, true, r.payload.oldVolume);
    if end != Done { return; }
    StillApart(s, h.S(), s.nextId, r);
    OldStays(s, h.S(), s.nextId, old_);
    end := StartRebuilt(h, r, old_, id);
  }

  lemma OldStays(a: State, b: State, i: nat, old_: nat)
    requires Others(a, b, i) && old_ in a.containers && old_ != i
    ensures old_ in b.containers && b.containers[old_].name == a.containers[old_].name
  {
  }

  method StartRebuilt(h: Host, r: Record, old_: nat, id: nat) returns (end: Outcome)
    requires Undoing(h.S(), r) && Apart(h.S(), r) && r.payload.oldId == Some(old_) && r.payload.kind == Replacement
    requires old_ in h.containers && h.containers[old_].name == Previous(r.op) && r.payload.oldRunning
    requires id in h.containers && IsRecovery(h.containers[id], r.op) && h.containers[id].name == Next(r.op, true)
    modifies h`containers, h`volumes, h`seeds, h`nextId
    ensures Inv(h.S())
    ensures end == Done ==> Apart(h.S(), r) && id in h.containers && IsRecovery(h.containers[id], r.op) && h.containers[id].name == Canonical
    ensures end == Done && !h.drift ==> h.containers[id].life == Running
    ensures h.Calm() ==> end == Done
  {
    hide Inv, Evolves, NameFree, MayRename, MayRemove, MayAdd, MayStart, Others, Apart, Passes, CastEntry, Cast;
    RebuiltMayBecomeChannel(h.S(), r, old_, id);
    ghost var s := h.S();
    end := h.Rename(id, Next(r.op, true), Canonical);
    RecoveryTag(s, h.S(), id, r);
    StillApart(s, h.S(), id, r);
    if end != Done { return; }
    s := h.S();
    RebuiltMayStart(s, r, id);
    end := h.SetRunning(id, true);
    StillApart(s, h.S(), id, r);
    if end != Done { return; }
    s := h.S();
    end := h.Ask();
    DriftKeepsInv(s, h.S());
    EvolvesApart(s, h.S(), r);
    EvolvesShape(s, h.S());
  }

  lemma RecoveryTag(a: State, b: State, i: nat, r: Record)
    requires Shifted(a, b, i) && IsRecovery(a.containers[i], r.op)
    ensures IsRecovery(b.containers[i], r.op)
  {
  }

  lemma RebuiltMayBecomeChannel(s: State, r: Record, old_: nat, id: nat)
    requires Undoing(s, r) && Apart(s, r) && r.payload.oldId == Some(old_) && r.payload.oldRunning
    requires old_ in s.containers && s.containers[old_].name == Previous(r.op)
    requires id in s.containers && IsRecovery(s.containers[id], r.op) && s.containers[id].name == Next(r.op, true)
    ensures MayRename(s, id, Canonical) && NameFree(s, Canonical)
  {
    CastHolds(s, r);
    InvParts(s);
    hide Inv, Frame, RecordHolds;
    assert CastEntry(s, r, id);
    forall j | j in s.containers ensures s.containers[j].name != Canonical { assert CastEntry(s, r, j); }
  }

  lemma RebuiltMayStart(s: State, r: Record, id: nat)
    requires Undoing(s, r) && id in s.containers && IsRecovery(s.containers[id], r.op) && s.containers[id].name == Canonical
    ensures MayStart(s, id) && id !in s.foreign
  {
    CastHolds(s, r);
    assert CastEntry(s, r, id);
    hide Inv;
  }

  method RemoveLeftover(h: Host, r: Record, old_: nat, i: nat) returns (end: Outcome)
    requires Undoing(h.S(), r) && Apart(h.S(), r) && i in h.containers && IsRecovery(h.containers[i], r.op)
    requires old_ in h.containers && old_ != i && h.containers[old_].name == Previous(r.op) && r.payload.oldRunning
    modifies h`containers, h`volumes, h`seeds, h`nextId
    ensures Inv(h.S())
    ensures end == Done ==> Apart(h.S(), r) && old_ in h.containers && h.containers[old_].name == Previous(r.op)
    ensures end == Done ==> forall j | j in h.containers :: !IsRecovery(h.containers[j], r.op)
    ensures h.Calm() ==> end == Done
  {
    hide Inv, Evolves, NameFree, MayRename, MayRemove, Others, Apart, Passes;
    LeftoverMayGo(h.S(), r, i);
    end := h.Remove(i);
    if end != Done { return; }
    StillApart(old(h.S()), h.S(), i, r);
    LeftoverGone(old(h.S()), h.S(), r, i, old_);
  }

  lemma LeftoverMayGo(s: State, r: Record, i: nat)
    requires Undoing(s, r) && i in s.containers && IsRecovery(s.containers[i], r.op) && r.payload.oldRunning
    ensures MayRemove(s, i)
  {
    CastHolds(s, r);
    assert CastEntry(s, r, i);
    hide Inv;
  }

  lemma LeftoverGone(a: State, b: State, r: Record, i: nat, old_: nat)
    requires Inv(a) && Others(a, b, i) && i in a.containers && i !in b.containers && IsRecovery(a.containers[i], r.op)
    requires old_ in a.containers && old_ != i
    ensures forall j | j in b.containers :: !IsRecovery(b.containers[j], r.op)
    ensures old_ in b.containers && b.containers[old_].name == a.containers[old_].name
  {
    InvParts(a);
    hide Inv, Frame, RecordHolds;
    forall j | j in b.containers ensures !IsRecovery(b.containers[j], r.op) {
      assert Passes(a.drift, a.containers[j], b.containers[j]);
    }
  }

  lemma MayRebuild(s: State, r: Record)
    requires Undoing(s, r) && r.payload.kind == Replacement && r.payload.oldRunning
    requires forall i | i in s.containers :: !IsRecovery(s.containers[i], r.op)
    ensures NameFree(s, Next(r.op, true)) && MayAdd(s, Blueprint(r, true, r.payload.oldVolume))
  {
    UndoingView(s, r);
    forall j | j in s.containers ensures s.containers[j].name != Next(r.op, true) { assert CastEntry(s, r, j); }
    hide Inv;
  }

  // ---------------------------------------------------------------- which container becomes the channel again

  predicate RunsAsChannel(s: State, i: nat) {
    i in s.containers && s.containers[i].life == Running && s.containers[i].name == Canonical
  }

  method GiveBack(h: Host, r: Record) returns (end: Outcome, restored: nat)
    requires Undoing(h.S(), r) && Apart(h.S(), r) && r.payload.kind == Replacement
    modifies h`containers, h`volumes, h`seeds, h`nextId
    ensures Inv(h.S())
    ensures end == Done ==> Apart(h.S(), r) && restored in h.containers && h.containers[restored].name == Canonical
    ensures end == Done ==> r.payload.oldId == Some(restored) || (IsRecovery(h.containers[restored], r.op) && r.payload.oldRunning)
    ensures end == Done && OldItself(old(h.S()), r) ==> r.payload.oldId == Some(restored)
    ensures end == Done && !h.drift ==>
              (h.containers[restored].life == Running <==> r.payload.oldRunning || RunsAsChannel(old(h.S()), r.payload.oldId.value))
    ensures h.Calm() ==> (end == Done <==> !Trap(old(h.S())))
    ensures h.Calm() && Trap(old(h.S())) ==> end == Raised && Trap(h.S()) && h.store.record == old(h.store.record)
  {
    hide Inv, Evolves, NameFree, MayRename, Others, Apart, Passes, Cast, Trap;
    UndoingView(h.S(), r);
    var old_, here := r.payload.oldId.value, false;
    restored := old_;
    end, here := h.Identity(old_);
    DriftKeepsInv(old(h.S()), h.S());
    EvolvesApart(old(h.S()), h.S(), r);
    EvolvesShape(old(h.S()), h.S());
    if end != Done { return; }
    UndoingView(h.S(), r);
    if !here || h.containers[old_].name !in {Canonical, Previous(r.op)} { return Raised, old_; }
    WhetherTrapped(old(h.S()), r, old_);
    if h.containers[old_].life == Running && h.containers[old_].name == Canonical { return; }
    ghost var s := h.S();
    if !r.payload.oldRunning {
      end := TakeBack(h, r, old_);
      if h.Calm() && end != Done { HaltedTrap(s, old_); }
    } else {
      end := PutAway(h, r, old_);
      if end != Done { return; }
      end, restored := Rebuild(h, r, old_);
    }
  }

  lemma WhetherTrapped(s: State, r: Record, old_: nat)
    requires Undoing(s, r) && Apart(s, r) && r.payload.kind == Replacement && r.payload.oldId == Some(old_) && old_ in s.containers
    ensures Trap(s) <==> !r.payload.oldRunning && s.containers[old_].name == Previous(r.op) && !NameFree(s, Canonical)
  {
    CastHolds(s, r);
    hide Inv;
    if !NameFree(s, Canonical) && s.containers[old_].name == Previous(r.op) {
      var j :| j in s.containers && s.containers[j].name == Canonical;
      assert CastEntry(s, r, j);
    }
  }

  /** The channel was not running: the old container itself takes its name back. */
  method TakeBack(h: Host, r: Record, old_: nat) returns (end: Outcome)
    requires Undoing(h.S(), r) && Apart(h.S(), r) && r.payload.oldId == Some(old_) && r.payload.kind == Replacement && old_ in h.containers
    modifies h`containers, h`volumes, h`seeds, h`nextId
    ensures Inv(h.S())
    ensures end == Done ==> Apart(h.S(), r) && old_ in h.containers && h.containers[old_].name == Canonical
    ensures end == Done && !h.drift ==> h.containers[old_].life != Running
    ensures h.Calm() ==> (end == Done <==> old(h.containers)[old_].name == Canonical || NameFree(old(h.S()), Canonical))
    ensures h.Calm() && end != Done ==> end == Raised && h.S() == Put(old(h.S()), old_, Halted(old(h.containers)[old_]))
  {
    hide Inv, Evolves, NameFree, MayRename, Others, Apart, Passes, Cast;
    UndoingView(h.S(), r);
    ghost var s := h.S();
    end := h.SetRunning(old_, false);
    UndoingView(h.S(), r);
    StillApart(s, h.S(), old_, r);
    if end != Done { return; }
    NameStays(s, h.S(), old_);
    s := h.S();
    OldMayReturn(s, r, old_);
    end := h.Rename(old_, Previous(r.op), Canonical);
    if !h.drift { LifeStays(s, h.S(), old_); }
    UndoingView(h.S(), r);
    StillApart(s, h.S(), old_, r);
  }

  lemma HaltedTrap(s: State, i: nat)
    requires i in s.containers && Trap(s)
    ensures Trap(Put(s, i, Halted(s.containers[i])))
  {
    var b := Put(s, i, Halted(s.containers[i]));
    var j :| j in s.containers && IsRecovery(s.containers[j], s.db.record.value.op) && s.containers[j].name == Canonical;
    assert j in b.containers && IsRecovery(b.containers[j], b.db.record.value.op) && b.containers[j].name == Canonical;
  }

  lemma OldMayReturn(s: State, r: Record, i: nat)
    requires Undoing(s, r) && r.payload.oldId == Some(i) && i in s.containers && i !in s.foreign
    ensures MayRename(s, i, Canonical)
  {
    hide Inv;
  }

  lemma NameStays(a: State, b: State, i: nat)
    requires Touched(a, b, i)
    ensures i in b.containers && b.containers[i].name == a.containers[i].name
    ensures forall n: Name :: NameFree(a, n) <==> NameFree(b, n)
  {
    forall j | j in a.containers ensures j in b.containers && b.containers[j].name == a.containers[j].name {
      if j != i { assert Passes(a.drift, a.containers[j], b.containers[j]); }
    }
  }

  lemma LifeStays(a: State, b: State, i: nat)
    requires Shifted(a, b, i) && !a.drift
    ensures b.containers[i].life == a.containers[i].life
  {
  }

  // ---------------------------------------------------------------- recovery as a whole

  /** The settings an undone operation leaves: untouched, or rewritten from the saved values. */
  function SettingsAfter(base: Settings, p: Payload, applied: bool): Settings
    requires p.Plan?
  {
    if applied then Update(Update(base, p.fields, p.secrets), Saved(base, p.fields), p.secrets) else base
  }

  /** Everything is back on the old side and nothing of the operation r is left but the channel itself. */
  ghost predicate Restored(a: State, b: State, r: Record, applied: bool)
    requires r.payload.Plan?
  {
    && b.db.record.None? && b.db.row.Some?
    && b.db.row.value.volume == r.payload.oldVolume
    && b.db.row.value.settings == SettingsAfter(a.base, r.payload, applied)
    && Fresh(r.op) !in b.volumes
    && (forall i | i in b.containers && OfOperation(b.containers[i], r.op) :: IsChannel(b, i))
    && (r.payload.oldId.Some? && r.payload.oldId.value in b.containers ==> IsChannel(b, r.payload.oldId.value))
    && b.db.row.value.latency == None
    && (if r.payload.kind == Initial then
          && b.db.row.value.container == None && NameFree(b, Canonical)
          && b.db.row.value.status == (if r.payload.start then Failed else Stopped)
        else
          && ChannelUp(b) && r.payload.oldId.Some? && RunShown(a.drift, b)
          && var c := b.containers[b.db.row.value.container.value];
             && r.payload.oldVolume in c.mounts && c.policy == r.payload.oldPolicy
             && (!a.drift ==> (c.life == Running <==> r.payload.oldRunning || RunsAsChannel(a, r.payload.oldId.value)))
             && (OldItself(a, r) ==> b.db.row.value.container == r.payload.oldId))
  }

  /** The old container itself becomes the channel again: it has never been stopped, or it was not to run. */
  predicate OldItself(s: State, r: Record)
    requires r.payload.Plan? && r.payload.oldId.Some?
  {
    !r.payload.oldRunning || (!s.drift && RunsAsChannel(s, r.payload.oldId.value))
  }

  /** The row tells whether the channel's container runs: as up, since a login is not proved by coming back. */
  predicate RunShown(drift: bool, s: State)
    requires ChannelUp(s)
  {
    var row := s.db.row.value;
    row.status in {Up, Stopped} && row.latency == None && (!drift ==> (row.status == Up <==> s.containers[row.container.value].life == Running))
  }

  lemma MayRollBackNow(s: State, r: Record, runtime: Runtime)
    requires Undoing(s, r) && Apart(s, r) && r.payload.kind == Replacement
    requires runtime.volume == r.payload.oldVolume && runtime.container in s.containers && s.containers[runtime.container].name == Canonical
    requires r.payload.oldId == Some(runtime.container) || (IsRecovery(s.containers[runtime.container], r.op) && r.payload.oldRunning)
    requires s.past.still && !s.past.lowered ==> (s.containers[runtime.container].life == Running <==> r.payload.oldRunning)
    ensures MayRollBack(s, runtime) && runtime.container !in s.foreign
  {
    UndoingView(s, r);
    CastShapes(s, r) by { InvParts(s); }
    hide Inv;
    assert CastEntry(s, r, runtime.container);
  }

  /** With a rollback on record the channel's settings are back. */
  lemma RolledBackSettings(s: State, r: Record)
    requires Inv(s) && s.db.record == Some(r) && r.payload.Plan? && r.phase == RolledBack
    ensures s.db.row.Some? && s.db.row.value.settings == SettingsAfter(s.base, r.payload, r.payload.configApplied)
    ensures s.db.row.value.volume == r.payload.oldVolume
  {
    hide Frame, OperationShapes, OldBackOrAway, CandidatesAside, ChannelIsBack;
  }

  /** In a world that stands still the old container runs only if it ran before. */
  lemma RanBefore(s: State, r: Record)
    requires Undoing(s, r) && s.past.still && !s.past.lowered && r.payload.oldId.Some? && RunsAsChannel(s, r.payload.oldId.value)
    ensures r.payload.oldRunning
  {
    hide Frame, RecordHolds;
  }

  lemma StandsStill(s: State)
    requires Inv(s)
    ensures s.past.still ==> !s.drift
    ensures Planned(s) ==> (s.past.trapped <==> Trap(s)) && (s.db.record.value.phase in {Committed, RolledBack} ==> !s.past.trapped)
  {
    hide Frame, RecordHolds, Trap;
  }

  /** The record, as long as there is one, is that of the same operation with the same plan. */
  predicate Ongoing(r: Record, record: Option<Record>) {
    record.Some? ==>
      && r.payload.Plan? && record.value.op == r.op && record.value.payload.Plan?
      && record.value.payload == r.payload.(configApplied := record.value.payload.configApplied)
  }

  method UndoReplacement(h: Host, r: Record) returns (end: Outcome)
    requires Undoing(h.S(), r) && Apart(h.S(), r) && r.payload.kind == Replacement
    modifies h`containers, h`volumes, h`seeds, h`nextId, h`base, h`stored, h.store
    ensures Inv(h.S()) && h.store.intent == old(h.store.intent)
    ensures end == Done ==> h.store.record.None?
    ensures h.store.record.None? ==> Restored(old(h.S()), h.S(), r, r.payload.configApplied)
    ensures h.store.record.Some? ==> Ongoing(r, h.store.record) && h.base == old(h.base) && h.store.record.value.phase in {RollingBack, Phase.RolledBack}
    ensures h.store.record.Some? ==> h.store.record.value.payload == r.payload
    ensures h.Calm() ==> (end == Done <==> !Trap(old(h.S())))
    ensures h.Calm() && Trap(old(h.S())) ==> end == Raised && Trap(h.S()) && h.store.record == old(h.store.record)
    ensures h.past.trapped ==> h.store.record == Some(r) && end != Done
  {
    hide Inv, Evolves, NameFree, Others, Apart, Passes, Cast, Trap, MayRollBack, Restored, Tidied, RunsAsChannel;
    UndoingView(h.S(), r);
    StandsStill(h.S());
    hide OldShape;
    var restored;
    end, restored := BackOnRecord(h, r);
    if end != Done { return; }
    ghost var s := h.S();
    end := AfterRollBack(h, r, restored);
    if h.store.record.None? { NowRestored(old(h.S()), s, h.S(), r); }
  }

  /** The old container or a new one is the channel again, and that is on record. */
  method BackOnRecord(h: Host, r: Record) returns (end: Outcome, restored: nat)
    requires Undoing(h.S(), r) && Apart(h.S(), r) && r.payload.kind == Replacement && r.payload.oldId.Some?
    modifies h`containers, h`volumes, h`seeds, h`nextId, h`base, h`stored, h.store
    ensures Inv(h.S()) && h.store.intent == old(h.store.intent) && h.base == old(h.base)
    ensures h.store.record in {Some(r), Some(r.(phase := Phase.RolledBack))}
    ensures end == Done ==> h.store.record == Some(r.(phase := Phase.RolledBack))
    ensures end == Done ==> IsChannel(h.S(), restored) && restored in h.containers && h.containers[restored].name == Canonical && restored !in h.foreign
    ensures end == Done ==> ChannelUp(h.S()) && RunShown(h.drift, h.S())
    ensures end == Done && OldItself(old(h.S()), r) ==> r.payload.oldId == Some(restored)
    ensures end == Done && !h.drift ==>
              (h.containers[restored].life == Running <==> r.payload.oldRunning || RunsAsChannel(old(h.S()), r.payload.oldId.value))
    ensures h.Calm() ==> (end == Done <==> !Trap(old(h.S())))
    ensures h.Calm() && Trap(old(h.S())) ==> end == Raised && Trap(h.S()) && h.store.record == old(h.store.record)
    ensures h.past.trapped ==> h.store.record == Some(r) && end != Done
  {
    hide Inv, Evolves, NameFree, Others, Apart, Passes, Cast, Trap, MayRollBack, RunsAsChannel;
    if h.past.still && !h.past.lowered && RunsAsChannel(h.S(), r.payload.oldId.value) { RanBefore(h.S(), r); }
    StandsStill(h.S());
    end, restored := GiveBack(h, r);
    if end != Done { return; }
    end := RecordRollBack(h, r, restored);
    StandsStill(h.S());
  }

  /** Reads the channel that is back and records the rollback with its runtime. */
  method RecordRollBack(h: Host, r: Record, restored: nat) returns (end: Outcome)
    requires Undoing(h.S(), r) && Apart(h.S(), r) && r.payload.kind == Replacement
    requires restored in h.containers && h.containers[restored].name == Canonical
    requires r.payload.oldId == Some(restored) || (IsRecovery(h.containers[restored], r.op) && r.payload.oldRunning)
    requires h.past.still && !h.past.lowered ==> (h.containers[restored].life == Running <==> r.payload.oldRunning)
    modifies h`containers, h`volumes, h`base, h`stored, h.store
    ensures Inv(h.S()) && h.store.intent == old(h.store.intent)
    ensures end != Done ==> h.base == old(h.base) && h.store.record in {Some(r), Some(r.(phase := Phase.RolledBack))}
    ensures end == Done ==> h.store.record == Some(r.(phase := Phase.RolledBack)) && h.base == old(h.base)
    ensures end == Done ==> IsChannel(h.S(), restored) && restored in h.containers && h.containers[restored].name == Canonical
    ensures end == Done ==> restored !in h.foreign && (!h.drift ==> h.containers[restored].life == old(h.containers)[restored].life)
    ensures end == Done ==> ChannelUp(h.S()) && RunShown(h.drift, h.S())
    ensures h.Calm() ==> end == Done
  {
    hide Inv, Evolves, NameFree, Others, Apart, Passes, Cast, Trap, MayRollBack;
    StandsStill(h.S());
    var runtime;
    end, runtime := h.ReadRuntime(restored, r.payload.oldVolume, false, None);
    DriftKeepsInv(old(h.S()), h.S());
    EvolvesApart(old(h.S()), h.S(), r);
    EvolvesShape(old(h.S()), h.S());
    if end != Done { return; }
    MayRollBackNow(h.S(), r, runtime);
    end := h.RolledBack(r, runtime);
  }

  /** The rollback is on record: the old policy comes back and what is left of the candidate goes. */
  method AfterRollBack(h: Host, r: Record, restored: nat) returns (end: Outcome)
    requires Inv(h.S()) && r.payload.Plan? && r.payload.kind == Replacement && h.store.record == Some(r.(phase := Phase.RolledBack))
    requires IsChannel(h.S(), restored) && restored in h.containers && h.containers[restored].name == Canonical && restored !in h.foreign
    modifies h`containers, h`volumes, h`seeds, h`nextId, h`base, h`stored, h.store
    ensures Inv(h.S()) && h.store.intent == old(h.store.intent)
    ensures end == Done ==> h.store.record.None?
    ensures h.store.record.None? ==> Tidied(old(h.S()), h.S(), r)
    ensures h.store.record.Some? ==> h.store.record == old(h.store.record) && h.base == old(h.base)
    ensures h.Calm() ==> end == Done
  {
    hide Inv, Evolves, NameFree, Others, Passes, Closed, Closable, ChannelUp;
    end := h.SetPolicy(restored, r.payload.oldPolicy);
    if end != Done { return; }
    ghost var s := h.S();
    RolledBackSettings(s, r.(phase := Phase.RolledBack));
    end := Cleanup(h);
    if h.Calm() { assert Closable(s) by { RolledBackClosable(s); } }
    if h.store.record.None? { TidiedNow(old(h.S()), s, h.S(), r, restored); }
  }

  /** The end of a rollback: as restored, and the channel lives as it did when the rollback was recorded. */
  ghost predicate Tidied(a: State, b: State, r: Record)
    requires r.payload.Plan?
  {
    && b.db.record.None? && b.db.row.Some?
    && b.db.row.value.volume == r.payload.oldVolume
    && b.db.row.value.settings == SettingsAfter(a.base, r.payload, r.payload.configApplied)
    && Fresh(r.op) !in b.volumes
    && (forall i | i in b.containers && OfOperation(b.containers[i], r.op) :: IsChannel(b, i))
    && (r.payload.oldId.Some? && r.payload.oldId.value in b.containers ==> IsChannel(b, r.payload.oldId.value))
    && ChannelUp(b) && b.db.row == a.db.row
    && var i := b.db.row.value.container.value;
       && r.payload.oldVolume in b.containers[i].mounts && b.containers[i].policy == r.payload.oldPolicy
       && (!a.drift && i in a.containers ==> b.containers[i].life == a.containers[i].life)
  }

  lemma RolledBackClosable(s: State)
    requires s.db.record.Some? && s.db.record.value.phase == RolledBack && s.db.record.value.payload.Plan?
    ensures HasOutcome(s) && Closable(s)
  {
  }

  lemma TidiedNow(a: State, m: State, b: State, r: Record, i: nat)
    requires r.payload.Plan? && r.payload.kind == Replacement && IsChannel(m, i)
    requires Touched(a, m, i) && HasOutcome(m) && m.db.record == Some(r.(phase := RolledBack)) && m.db.row.Some? && Closed(m, b)
    requires !a.drift ==> m.containers[i].life == a.containers[i].life
    requires m.db.row.value.settings == SettingsAfter(m.base, r.payload, r.payload.configApplied)
    requires m.db.row.value.volume == r.payload.oldVolume
    ensures Tidied(a, b, r)
  {
    hide SettingsAfter;
  }

  lemma NowRestored(a: State, m: State, b: State, r: Record)
    requires r.payload.Plan? && r.payload.kind == Replacement && r.payload.oldId.Some? && Tidied(m, b, r)
    requires m.base == a.base && m.drift == a.drift && m.db.row.Some?
    requires ChannelUp(m) && RunShown(m.drift, m) && (OldItself(a, r) ==> m.db.row.value.container == r.payload.oldId)
    requires (!a.drift ==> (m.containers[m.db.row.value.container.value].life == Running
                <==> r.payload.oldRunning || RunsAsChannel(a, r.payload.oldId.value)))
    ensures Restored(a, b, r, r.payload.configApplied)
  {
    hide RunsAsChannel, SettingsAfter;
  }

  method UndoInitial(h: Host, r: Record, candidate: Option<nat>) returns (end: Outcome)
    requires Undoing(h.S(), r) && Apart(h.S(), r) && r.payload.kind == Initial
    requires candidate.Some? ==> candidate.value in h.containers && IsCandidate(h.containers[candidate.value], r.op)
    requires candidate.None? ==> forall i | i in h.containers :: !IsCandidate(h.containers[i], r.op)
    modifies h`containers, h`volumes, h`seeds, h`nextId, h`base, h`stored, h.store
    ensures Inv(h.S()) && h.store.intent == old(h.store.intent)
    ensures end == Done ==> h.store.record.None?
    ensures h.store.record.None? ==> Restored(old(h.S()), h.S(), r, r.payload.configApplied)
    ensures h.store.record.Some? ==> Ongoing(r, h.store.record) && h.base == old(h.base) && h.store.record.value.phase in {RollingBack, Phase.RolledBack}
    ensures h.store.record.Some? ==> h.store.record.value.payload == r.payload
    ensures h.Calm() ==> end == Done
  {
    hide Inv, Evolves, NameFree, Others, Apart, Passes, Cast, MayRemove, Restored, Closed, Closable;
    var holder;
    end, holder := h.Get(Canonical);
    DriftKeepsInv(old(h.S()), h.S());
    EvolvesApart(old(h.S()), h.S(), r);
    EvolvesShape(old(h.S()), h.S());
    InitialFree(h.S(), r);
    if end != Done { return; }
    if holder.Some? { return Raised; }
    ghost var s := h.S();
    if candidate.Some? {
      CandidateMayGo(s, r, candidate.value);
      end := h.Remove(candidate.value);
      if end != Done { return; }
      CandidateGone(s, h.S(), r, candidate.value);
      StillApart(s, h.S(), candidate.value, r);
    }
    NothingStands(h.S(), r);
    end := h.RestoreWithout(r);
    if end != Done { return; }
    s := h.S();
    RolledBackSettings(s, r.(phase := Phase.RolledBack));
    end := Cleanup(h);
    if h.Calm() { assert Closable(s) by { RolledBackClosable(s); } }
    if h.store.record.None? { NothingRestored(s, h.S(), r); RestoredSince(old(h.S()), s, h.S(), r); }
  }

  lemma InitialFree(s: State, r: Record)
    requires Undoing(s, r) && Apart(s, r) && r.payload.kind == Initial
    ensures NameFree(s, Canonical) && r.payload.oldId.None?
  {
    UndoingView(s, r);
    forall i | i in s.containers ensures s.containers[i].name != Canonical { assert CastEntry(s, r, i); }
  }

  lemma CandidateMayGo(s: State, r: Record, i: nat)
    requires Undoing(s, r) && i in s.containers && IsCandidate(s.containers[i], r.op)
    ensures MayRemove(s, i)
  {
    CandidateIsOurs(s, r, i);
    hide Inv;
  }

  lemma CandidateGone(a: State, b: State, r: Record, i: nat)
    requires Inv(a) && Others(a, b, i) && i in a.containers && i !in b.containers && IsCandidate(a.containers[i], r.op)
    ensures forall j | j in b.containers :: !IsCandidate(b.containers[j], r.op)
  {
    InvParts(a);
    hide Inv, Frame, RecordHolds;
    forall j | j in b.containers ensures !IsCandidate(b.containers[j], r.op) {
      assert Passes(a.drift, a.containers[j], b.containers[j]);
    }
  }

  lemma NothingStands(s: State, r: Record)
    requires Undoing(s, r) && Apart(s, r) && r.payload.kind == Initial
    requires forall i | i in s.containers :: !IsCandidate(s.containers[i], r.op)
    ensures MayRestoreAbsent(s)
  {
    UndoingView(s, r);
  }

  lemma NothingRestored(m: State, b: State, r: Record)
    requires r.payload.Plan? && r.payload.kind == Initial && m.db.row.Some? && m.db.row.value.container == None
    requires HasOutcome(m) && m.db.record == Some(r.(phase := RolledBack)) && Closed(m, b)
    requires m.db.row.value.settings == SettingsAfter(m.base, r.payload, r.payload.configApplied)
    requires m.db.row.value.volume == r.payload.oldVolume && m.db.row.value.latency == None
    requires m.db.row.value.status == (if r.payload.start then Failed else Stopped)
    ensures Restored(m, b, r, r.payload.configApplied)
  {
    hide SettingsAfter;
  }

  /** What a completed recovery has reached, from whatever the record said. */
  ghost predicate Recovered(a: State, b: State) {
    match a.db.record
    case None => b == a
    case Some(r) =>
      && r.payload.Plan?
      && (r.phase in {Committed, RolledBack} ==> Closed(a, b))
      && (r.phase !in {Committed, RolledBack} ==>
            Restored(a, b, r, r.phase == AwaitingLogin || (r.phase == RollingBack && r.payload.configApplied)))
  }

  /** From here recovery gets through when nothing fails. */
  predicate Recoverable(s: State) {
    match s.db.record
    case None => true
    case Some(r) =>
      && r.payload.Plan? && r.phase != Deleting
      && (r.phase == Committed ==> Closable(s))
      && (r.phase !in {Committed, RolledBack} ==> !Trap(s))
  }

  /** An operation that has no outcome yet is in the trap. */
  predicate Stuck(s: State) {
    s.db.record.Some? && s.db.record.value.phase !in {Committed, RolledBack, Deleting} && Trap(s)
  }

  method Recover(h: Host) returns (end: Outcome)
    requires Inv(h.S())
    modifies h`containers, h`volumes, h`seeds, h`nextId, h`base, h`stored, h.store
    ensures Inv(h.S()) && h.store.intent == old(h.store.intent)
    ensures end == Done ==> h.store.record.None?
    ensures h.store.record.None? ==> Recovered(old(h.S()), h.S())
    ensures h.store.record.Some? ==> GoesOn(old(h.S()), h.S())
    ensures old(h.store.record).Some? && old(h.store.record).value.payload.Intent? ==> h.S().db == old(h.S()).db
    ensures h.Calm() ==> (end == Done <==> Recoverable(old(h.S())))
    ensures h.Calm() ==> (end == Done <==> h.store.record.None?)
    ensures h.Calm() && Stuck(old(h.S())) ==> end == Raised
    ensures Stuck(old(h.S())) ==> Stuck(h.S()) && end != Done
    ensures !Trap(old(h.S())) ==> !Trap(h.S())
  {
    hide Inv, Evolves, NameFree, Apart, Passes, Cast, Trap, Restored, Closed, Closable, GoesOn;
    RecordShape(h.S());
    StandsStill(h.S());
    GoesOnReflexive(h.S());
    var found;
    end, found := h.ReadJournal();
    if end != Done || found.None? { return; }
    var r := found.value;
    if r.phase == Deleting { return Raised; }
    if r.phase in {Committed, Phase.RolledBack} {
      if r.phase == Phase.RolledBack { RolledBackClosable(h.S()) by { OutcomeIsPlan(h.S()); } }
      end := Cleanup(h);
      NowGoesOn(old(h.S()), h.S());
    } else if r.phase == RollingBack {
      end := Unwind(h, r);
      NowGoesOn(old(h.S()), h.S());
    } else {
      end := Withdraw(h, r);
      NowGoesOn(old(h.S()), h.S());
    }
    TrapGoesOn(old(h.S()), h.S());
  }

  /** A plan that is still on record is trapped exactly if it was. */
  lemma TrapGoesOn(a: State, b: State)
    requires Inv(a) && Inv(b) && b.past.trapped == a.past.trapped && (b.db.record.Some? ==> GoesOn(a, b))
    requires a.db.record.Some? && a.db.record.value.phase != Deleting
    ensures !Trap(a) ==> !Trap(b)
    ensures Stuck(a) && b.db.record.Some? ==> Stuck(b)
  {
    hide Inv, Trap;
    RecordShape(a);
    StandsStill(a);
    StandsStill(b);
    TrapNeedsPlan(a);
    TrapNeedsPlan(b);
  }

  lemma TrapNeedsPlan(s: State)
    ensures Trap(s) ==> s.db.record.Some? && s.db.record.value.payload.Plan?
  {
  }

  /** The operation is still on record, with the same plan; once undone it stays so, and settings saved for the way back stay saved. */
  predicate GoesOn(a: State, b: State) {
    && a.db.record.Some? && b.db.record.Some? && b.base == a.base
    && var r, q := a.db.record.value, b.db.record.value;
       && (q != r ==> Ongoing(r, b.db.record) && r.phase !in {Committed, RolledBack, Deleting, Queued} && q.phase in {RollingBack, RolledBack})
       && (q != r ==> q.payload.configApplied == (r.phase == AwaitingLogin || (r.phase == RollingBack && r.payload.configApplied)))
  }

  lemma GoesOnReflexive(s: State)
    ensures s.db.record.Some? ==> GoesOn(s, s)
  {
  }

  lemma NowGoesOn(a: State, b: State)
    requires a.db.record.Some? && (b.db.record.Some? ==> b.base == a.base)
    requires var r := a.db.record.value;
      b.db.record.Some? && b.db.record != a.db.record ==>
        && Ongoing(r, b.db.record) && r.phase !in {Committed, RolledBack, Deleting, Queued} && b.db.record.value.phase in {RollingBack, RolledBack}
        && b.db.record.value.payload.configApplied == (r.phase == AwaitingLogin || (r.phase == RollingBack && r.payload.configApplied))
    ensures b.db.record.Some? ==> GoesOn(a, b)
  {
  }

  /** Records that the operation is being undone, which a queued intent does not allow, and undoes it. */
  method Withdraw(h: Host, r: Record) returns (end: Outcome)
    requires Inv(h.S()) && h.store.record == Some(r) && r.phase !in {RollingBack, Committed, Phase.RolledBack, Deleting}
    modifies h`containers, h`volumes, h`seeds, h`nextId, h`base, h`stored, h.store
    ensures Inv(h.S()) && h.store.intent == old(h.store.intent)
    ensures end == Done ==> h.store.record.None?
    ensures h.store.record.None? ==> r.payload.Plan? && Restored(old(h.S()), h.S(), r, r.phase == AwaitingLogin)
    ensures h.store.record.Some? && h.store.record != Some(r) ==> Ongoing(r, h.store.record)
    ensures h.store.record.Some? && h.store.record != Some(r) ==>
              h.store.record.value.phase in {RollingBack, Phase.RolledBack} && h.store.record.value.payload.configApplied == (r.phase == AwaitingLogin)
    ensures h.store.record.Some? ==> h.base == old(h.base)
    ensures r.payload.Intent? ==> h.S().db == old(h.S()).db
    ensures h.Calm() ==> (end == Done <==> r.payload.Plan? && !Trap(old(h.S())))
    ensures h.Calm() && Trap(old(h.S())) ==> end == Raised && Stuck(h.S())
    ensures h.past.trapped && Trap(old(h.S())) ==> Stuck(h.S()) && end != Done
  {
    hide Inv, Evolves, Trap, Restored, MayAdvance;
    RecordShape(h.S());
    StandsStill(h.S());
    MayWithdraw(h.S(), r);
    var q;
    end, q := h.Advance(r, RollingBack, if r.payload.Plan? then r.payload.(configApplied := r.phase == AwaitingLogin) else r.payload);
    if end != Done { return; }
    ghost var s := h.S();
    end := Unwind(h, q);
    StandsStill(h.S());
    if h.store.record.None? { RestoredFromStart(old(h.S()), s, h.S(), r, q.payload.configApplied); }
  }

  lemma MayWithdraw(s: State, r: Record)
    requires s.db.record == Some(r)
    ensures r.payload.Plan? && RecoverablePhase(r.phase) ==> MayAdvance(s, RollingBack, r.payload.(configApplied := r.phase == AwaitingLogin))
    ensures r.payload.Plan? ==> (Trap(s) <==> Trap(Advanced(s, RollingBack, r.payload.(configApplied := r.phase == AwaitingLogin))))
    ensures Trap(s) ==> r.payload.Plan?
  {
    if r.payload.Plan? { AdvancedSituation(s, r); }
  }

  /** All but the operation's copier and candidate live on; whoever is left was there. */
  ghost predicate Bystanders(a: State, b: State, r: Record) {
    && b == a.(containers := b.containers, volumes := b.volumes, seeds := b.seeds, nextId := b.nextId)
    && (forall i | i in a.containers && !IsCopier(a.containers[i], r.op) && !IsCandidate(a.containers[i], r.op) ::
          i in b.containers && Passes(a.drift, a.containers[i], b.containers[i]))
    && (forall i | i in b.containers :: i in a.containers && b.containers[i].tag == a.containers[i].tag)
  }

  lemma ShrinksBystanders(a: State, b: State, r: Record)
    requires Shrinks(a, b)
    requires forall i | i in a.containers && !IsCopier(a.containers[i], r.op) :: i in b.containers
    ensures Bystanders(a, b, r)
  {
  }

  lemma UntouchedBystanders(a: State, b: State, c: State, r: Record)
    requires Bystanders(a, b, r) && Untouched(b, c, Owned(r.op, false, Candidate))
    ensures Bystanders(a, c, r)
  {
    forall i | i in a.containers && !IsCopier(a.containers[i], r.op) && !IsCandidate(a.containers[i], r.op)
      ensures i in c.containers && Passes(a.drift, a.containers[i], c.containers[i])
    {
      PassesThen(a.drift, a.containers[i], b.containers[i], c.containers[i]);
    }
  }

  lemma SameSituation(a: State, b: State, r: Record)
    requires Undoing(a, r) && Bystanders(a, b, r)
    ensures Trap(a) <==> Trap(b)
    ensures b.base == a.base && b.drift == a.drift
    ensures r.payload.oldId.Some? && !a.drift ==> (RunsAsChannel(a, r.payload.oldId.value) <==> RunsAsChannel(b, r.payload.oldId.value))
  {
    hide Inv, Cast, OldShape;
    assert a.db.record == Some(r);
    UndoingView(a, r);
    if r.payload.oldId.Some? { OldLivesOn(a, b, r); }
    RecoveriesStay(a, b, r);
    hide Bystanders, Undoing;
  }

  lemma OldLivesOn(a: State, b: State, r: Record)
    requires Bystanders(a, b, r) && r.payload.oldId.Some? && r.payload.oldId.value in a.containers
    requires OldShape(a.containers[r.payload.oldId.value], r)
    ensures r.payload.oldId.value in b.containers
    ensures Passes(a.drift, a.containers[r.payload.oldId.value], b.containers[r.payload.oldId.value])
  {
  }

  lemma RecoveriesStay(a: State, b: State, r: Record)
    requires Bystanders(a, b, r)
    ensures b.db == a.db && b.base == a.base && b.drift == a.drift
    ensures forall i | i in a.containers && IsRecovery(a.containers[i], r.op) :: i in b.containers && b.containers[i].name == a.containers[i].name
                       && IsRecovery(b.containers[i], r.op)
    ensures forall i | i in b.containers && IsRecovery(b.containers[i], r.op) :: i in a.containers && IsRecovery(a.containers[i], r.op)
  {
    forall i | i in a.containers && IsRecovery(a.containers[i], r.op)
      ensures i in b.containers && b.containers[i].name == a.containers[i].name && IsRecovery(b.containers[i], r.op)
    {
      assert Passes(a.drift, a.containers[i], b.containers[i]);
    }
  }

  lemma AdvancedSituation(s: State, r: Record)
    requires s.db.record == Some(r) && r.payload.Plan?
    ensures var b := Advanced(s, RollingBack, r.payload.(configApplied := r.phase == AwaitingLogin)); (Trap(s) <==> Trap(b))
  {
  }

  lemma RestoredFromStart(a: State, m: State, b: State, r: Record, applied: bool)
    requires r.payload.Plan? && a.db.record.Some? && m == Advanced(a, RollingBack, r.payload.(configApplied := applied))
    requires Restored(m, b, Record(r.op, RollingBack, r.payload.(configApplied := applied)), applied)
    ensures Restored(a, b, r, applied)
  {
  }

  lemma RestoredSince(a: State, m: State, b: State, r: Record)
    requires r.payload.Plan? && Restored(m, b, r, r.payload.configApplied) && m.base == a.base && m.drift == a.drift
    requires (r.payload.oldId.Some? && !a.drift) ==> (RunsAsChannel(a, r.payload.oldId.value) <==> RunsAsChannel(m, r.payload.oldId.value))
    ensures Restored(a, b, r, r.payload.configApplied)
  {
    hide SettingsAfter, RunsAsChannel;
  }

  lemma ShrinksNoCopier(a: State, b: State, r: Record)
    requires NoCopier(a, r) && Untouched(a, b, Owned(r.op, false, Candidate))
    ensures NoCopier(b, r)
  {
    forall i | i in b.containers ensures !IsCopier(b.containers[i], r.op) {
      assert a.containers[i].tag != Owned(r.op, false, Candidate) ==> Passes(a.drift, a.containers[i], b.containers[i]);
    }
  }

  /** The body of a recovery, once the record says that the operation is being undone. */
  method Unwind(h: Host, r: Record) returns (end: Outcome)
    requires Undoing(h.S(), r)
    modifies h`containers, h`volumes, h`seeds, h`nextId, h`base, h`stored, h.store
    ensures Inv(h.S()) && h.store.intent == old(h.store.intent)
    ensures end == Done ==> h.store.record.None?
    ensures h.store.record.None? ==> Restored(old(h.S()), h.S(), r, r.payload.configApplied)
    ensures h.store.record.Some? ==> Ongoing(r, h.store.record) && h.base == old(h.base) && h.store.record.value.phase in {RollingBack, Phase.RolledBack}
    ensures h.store.record.Some? ==> h.store.record.value.payload == r.payload
    ensures h.Calm() ==> (end == Done <==> !Trap(old(h.S())))
    ensures h.Calm() && Trap(old(h.S())) ==> end == Raised && Trap(h.S()) && h.store.record == old(h.store.record)
    ensures h.past.trapped ==> h.store.record == Some(r) && end != Done
  {
    hide Inv, Evolves, NameFree, Shrinks, Untouched, Bystanders, CandidatesAside, NoCopier, Passes, Cast, Trap, Restored, RunsAsChannel;
    StandsStill(h.S());
    end := StopCopier(h, r);
    ghost var s := h.S();
    ShrinksBystanders(old(h.S()), s, r);
    SameSituation(old(h.S()), s, r);
    if end != Done { return; }
    var candidate;
    end, candidate := SetAside(h, r);
    UntouchedBystanders(old(h.S()), s, h.S(), r);
    SameSituation(old(h.S()), h.S(), r);
    if end != Done { return; }
    ShrinksNoCopier(s, h.S(), r);
    s := h.S();
    if r.payload.kind == Initial {
      NoTrapWithoutOld(old(h.S()), r);
      end := UndoInitial(h, r, candidate);
    } else {
      end := UndoReplacement(h, r);
    }
    if h.store.record.None? { RestoredSince(old(h.S()), s, h.S(), r); }
  }

  lemma NoTrapWithoutOld(s: State, r: Record)
    requires s.db.record == Some(r) && r.payload.Plan? && r.payload.kind == Initial
    ensures !Trap(s)
  {
  }

  /** A record without a plan is queued or being deleted; a plan is never queued. */
  lemma RecordShape(s: State)
    requires Inv(s)
    ensures s.db.record.Some? && s.db.record.value.payload.Intent? ==> s.db.record.value.phase in {Queued, Deleting}
    ensures s.db.record.Some? && s.db.record.value.payload.Plan? ==> s.db.record.value.phase != Queued
  {
    hide Frame, OperationHolds, PhaseHolds;
  }
}
