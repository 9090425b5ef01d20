/** Closing an operation that has an outcome: nothing stays but the container and volume of the winning side. */
module Closing {
  import opened Common
  import opened Names
  import opened Settings
  import opened Journal
  import opened ReplacementStore
  import opened World
  import opened Drift
  import opened Renames
  import opened Resources
  import opened Transitions
  import opened Effects
  import opened Hosts

  // ---------------------------------------------------------------- what the invariant says once there is an outcome

  predicate HasOutcome(s: State) {
    s.db.record.Some? && s.db.record.value.phase in {Committed, RolledBack}
  }

  /** There was no old container and there is none now. */
  predicate WentBackToNothing(r: Record) {
    r.payload.Plan? && r.payload.kind == Initial && r.phase == RolledBack
  }

  lemma OutcomeIsPlan(s: State)
    requires Inv(s) && HasOutcome(s)
    ensures s.db.record.value.payload.Plan? && s.db.row.Some?
  {
    hide Frame, OperationHolds, ChannelIsCandidate, OldBackOrAway, CandidatesAside, ChannelIsBack;
  }

  lemma OutcomeChannel(s: State, r: Record)
    requires Inv(s) && HasOutcome(s) && s.db.record == Some(r) && r.payload.Plan?
    ensures s.db.row.Some?
    ensures WentBackToNothing(r) ==> s.db.row.value.container == None
    ensures !WentBackToNothing(r) ==>
      && ChannelUp(s) && s.db.row.value.volume in s.containers[s.db.row.value.container.value].mounts
      && s.db.row.value.container.value !in s.foreign
    ensures r.phase == RolledBack ==> s.db.row.value.volume == r.payload.oldVolume && CandidatesAside(s, r)
    ensures r.phase == Committed ==> s.db.row.value.volume == Fresh(r.op) && ChannelIsCandidate(s, r)
    ensures OperationShapes(s, r)
    ensures r.payload.oldVolume != Fresh(r.op) && (r.payload.kind == Replacement <==> r.payload.oldId.Some?)
    ensures r.phase == Committed && !r.payload.sourceExists ==> r.payload.oldVolume !in s.volumes
  {
    InvParts(s);
    hide Frame, DistinctNames, DistinctTags, Bounded, ForeignIntact, Quiet, Census, VolumeCensus, SeedsAgree, DataKept, Inv, CandidatesAside, SettingsBack;
    assert s.db.row.value.container.Some? ==> Referenced(s, s.db.row.value.container.value);
  }

  /** The old container, when it is not the channel, waits stopped under its backup name. */
  lemma OutcomeOld(s: State, r: Record)
    requires Inv(s) && HasOutcome(s) && s.db.record == Some(r) && r.payload.Plan? && r.payload.oldId.Some?
    requires r.payload.oldId.value in s.containers && !IsChannel(s, r.payload.oldId.value)
    ensures s.containers[r.payload.oldId.value].name == Previous(r.op) && Dormant(s.containers[r.payload.oldId.value])
    ensures r.payload.oldId.value !in s.foreign
  {
    OutcomeChannel(s, r);
    CastHolds(s, r);
    InvParts(s);
    hide Frame, RecordHolds, DistinctTags, Bounded, ForeignIntact, Census, VolumeCensus, SeedsAgree, DataKept, Inv, CandidatesAside, OperationShapes;
    assert Referenced(s, r.payload.oldId.value);
    assert CastEntry(s, r, r.payload.oldId.value);
  }

  /** After a commit nothing of the operation is called by a candidate's name. */
  lemma CommittedNames(s: State, r: Record)
    requires Inv(s) && s.db.record == Some(r) && r.payload.Plan? && r.phase == Committed
    ensures NameFree(s, Next(r.op, false)) && NameFree(s, Next(r.op, true))
  {
    OutcomeChannel(s, r);
    CastHolds(s, r);
    InvParts(s);
    hide Frame, RecordHolds, DistinctNames, Bounded, ForeignIntact, Census, VolumeCensus, SeedsAgree, DataKept, Inv, RowsOwn, Quiet;
    forall i | i in s.containers ensures s.containers[i].name != Next(r.op, false) && s.containers[i].name != Next(r.op, true) {
      assert CastEntry(s, r, i);
    }
  }

  // ---------------------------------------------------------------- only removals

  /** Containers may be gone and volumes may be gone; what is left lives on. */
  ghost predicate Shrinks(a: State, b: State) {
    && b == a.(containers := b.containers, volumes := b.volumes, seeds := b.seeds, nextId := b.nextId)
    && (forall i | i in b.containers :: i in a.containers && Passes(a.drift, a.containers[i], b.containers[i]))
    && (forall v | v in b.volumes :: v in a.volumes && b.volumes[v].tag == a.volumes[v].tag)
  }

  /** The channel's container is not among those that are gone. */
  predicate KeepsChannel(a: State, b: State) {
    forall i: nat | IsChannel(a, i) && i in a.containers :: i in b.containers
  }

  /** Only the old container and the operation's own containers may be gone. */
  ghost predicate Spares(a: State, b: State, r: Record) {
    forall i | i in a.containers && i !in b.containers :: r.payload.oldId == Some(i) || OfOperation(a.containers[i], r.op)
  }

  lemma ShrinksThen(a: State, b: State, c: State)
    requires Shrinks(a, b) && Shrinks(b, c)
    ensures Shrinks(a, c)
  {
    forall i | i in c.containers ensures Passes(a.drift, a.containers[i], c.containers[i]) {
      assert Passes(a.drift, a.containers[i], b.containers[i]) && Passes(a.drift, b.containers[i], c.containers[i]);
    }
  }

  lemma EvolvesShrinks(a: State, b: State)
    requires Evolves(a, b)
    ensures Shrinks(a, b) && b.containers.Keys == a.containers.Keys && b.volumes.Keys == a.volumes.Keys && b.db == a.db
  {
  }

  lemma ShrinksNames(a: State, b: State, n: Name)
    requires Shrinks(a, b) && NameFree(a, n)
    ensures NameFree(b, n)
  {
    forall i | i in b.containers ensures b.containers[i].name != n {
      assert Passes(a.drift, a.containers[i], b.containers[i]);
    }
  }

  lemma RemovalShrinks(a: State, b: State, i: nat)
    requires Others(a, b, i)
    requires i in b.containers ==> i in a.containers && Passes(a.drift, a.containers[i], b.containers[i])
    ensures Shrinks(a, b) && b.volumes.Keys == a.volumes.Keys
    ensures forall j | j in a.containers && j != i :: j in b.containers
  {
  }

  lemma VolumeShrinks(a: State, b: State, v: Volume)
    requires OtherVolumes(a, b, v) && (v in b.volumes ==> v in a.volumes && b.volumes[v].tag == a.volumes[v].tag)
    ensures Shrinks(a, b) && b.containers.Keys == a.containers.Keys
  {
  }

  // ---------------------------------------------------------------- the steps

  /** Takes away what is found under one of the operation's names. */
  method RemoveExtra(h: Host, r: Record, restore: bool) returns (end: Outcome)
    requires Inv(h.S()) && h.store.record == Some(r) && HasOutcome(h.S()) && r.payload.Plan?
    modifies h`containers, h`volumes, h`seeds, h`nextId
    ensures Inv(h.S()) && Shrinks(old(h.S()), h.S()) && KeepsChannel(old(h.S()), h.S())
    ensures end == Done ==> NameFree(h.S(), Next(r.op, restore))
    ensures Spares(old(h.S()), h.S(), r) && h.volumes.Keys == old(h.volumes.Keys)
    ensures h.Calm() ==> end == Done
  {
    hide Inv, Evolves, Shrinks, NameFree, MayRemove, Others;
    var found;
    end, found := h.FindOwned(r, restore, false);
    EvolvesShrinks(old(h.S()), h.S());
    EvolvesShape(old(h.S()), h.S());
    if end != Done || found.None? { return; }
    ghost var s := h.S();
    OutcomeChannel(s, r);
    if found == h.store.row.value.container { return; }
    ExtraMayGo(s, r, restore, found.value);
    end := h.Remove(found.value);
    RemovalShrinks(s, h.S(), found.value);
    ShrinksThen(old(h.S()), s, h.S());
    if end == Done { NowFree(s, h.S(), found.value); }
  }

  lemma ExtraMayGo(s: State, r: Record, restore: bool, i: nat)
    requires Inv(s) && HasOutcome(s) && s.db.record == Some(r) && r.payload.Plan? && i in s.containers && !IsChannel(s, i)
    requires s.containers[i].tag == Owned(r.op, restore, Candidate) && s.containers[i].name == Next(r.op, restore)
    ensures MayRemove(s, i)
  {
    if r.phase == Committed { CommittedNames(s, r); }
    CastHolds(s, r);
    hide Inv;
    assert CastEntry(s, r, i);
  }

  lemma NowFree(a: State, b: State, i: nat)
    requires Inv(a) && Shrinks(a, b) && i in a.containers && i !in b.containers
    ensures NameFree(b, a.containers[i].name)
  {
    InvParts(a);
    hide Frame, RecordHolds, Inv;
    forall j | j in b.containers ensures b.containers[j].name != a.containers[i].name {
      assert Passes(a.drift, a.containers[j], b.containers[j]);
    }
  }

  method RemoveOld(h: Host, r: Record) returns (end: Outcome)
    requires Inv(h.S()) && h.store.record == Some(r) && HasOutcome(h.S()) && r.payload.Plan?
    modifies h`containers, h`volumes, h`seeds, h`nextId
    ensures Inv(h.S()) && Shrinks(old(h.S()), h.S()) && KeepsChannel(old(h.S()), h.S())
    ensures end == Done && r.payload.oldId.Some? && r.payload.oldId.value in h.containers ==> IsChannel(h.S(), r.payload.oldId.value)
    ensures h.Calm() ==> end == Done
    ensures Spares(old(h.S()), h.S(), r) && h.volumes.Keys == old(h.volumes.Keys)
  {
    hide Inv, Evolves, Shrinks, NameFree, MayRemove, Others;
    end := Done;
    EvolvesReflexive(h.S());
    EvolvesShrinks(h.S(), h.S());
    if r.payload.oldId.None? { return; }
    var id, here := r.payload.oldId.value, false;
    end, here := h.Identity(id);
    DriftKeepsInv(old(h.S()), h.S());
    EvolvesShrinks(old(h.S()), h.S());
    EvolvesShape(old(h.S()), h.S());
    OutcomeChannel(h.S(), r);
    if end != Done || !here || h.store.row.value.container == Some(id) { return; }
    ghost var s := h.S();
    OutcomeOld(s, r);
    if h.containers[id].name != Previous(r.op) { return Raised; }
    if h.containers[id].life == Running { return Raised; }
    OldMayGo(s, r, id);
    end := h.Remove(id);
    RemovalShrinks(s, h.S(), id);
    ShrinksThen(old(h.S()), s, h.S());
  }

  lemma OldMayGo(s: State, r: Record, i: nat)
    requires HasOutcome(s) && s.db.record == Some(r) && r.payload.Plan? && i in s.containers && !IsChannel(s, i) && i !in s.foreign
    requires r.payload.oldId == Some(i)
    ensures MayRemove(s, i)
  {
  }

  function Losing(r: Record): Volume {
    if r.phase == Committed then r.payload.oldVolume else Fresh(r.op)
  }

  lemma Finishable(s: State, r: Record)
    requires Inv(s) && HasOutcome(s) && s.db.record == Some(r) && r.payload.Plan?
    requires NameFree(s, Next(r.op, false)) && NameFree(s, Next(r.op, true)) && Losing(r) !in s.volumes
    requires r.payload.oldId.Some? && r.payload.oldId.value in s.containers ==> IsChannel(s, r.payload.oldId.value)
    ensures MayFinish(s) && forall i | i in s.containers && OfOperation(s.containers[i], r.op) :: IsChannel(s, i)
  {
    hide Inv, Frame, RecordHolds, DistinctTags, Bounded, ForeignIntact, Quiet, Census, VolumeCensus, SeedsAgree, DataKept, RowsOwn;
    OutcomeChannel(s, r);
    CastHolds(s, r);
    InvParts(s);
    forall i | i in s.containers && OfOperation(s.containers[i], r.op) ensures IsChannel(s, i) {
      assert CastEntry(s, r, i);
      assert s.containers[i].name == Canonical;
    }
  }

  lemma AllPass(s: State)
    ensures forall i | i in s.containers :: Passes(s.drift, s.containers[i], s.containers[i])
  {
  }

  method DropAndFinish(h: Host, r: Record) returns (end: Outcome)
    requires Inv(h.S()) && h.store.record == Some(r) && HasOutcome(h.S()) && r.payload.Plan?
    requires NameFree(h.S(), Next(r.op, false)) && NameFree(h.S(), Next(r.op, true))
    requires r.payload.oldId.Some? && r.payload.oldId.value in h.containers ==> IsChannel(h.S(), r.payload.oldId.value)
    modifies h`containers, h`volumes, h`seeds, h`nextId, h`base, h.store
    ensures Inv(h.S()) && h.store.row == old(h.store.row) && h.store.intent == old(h.store.intent)
    ensures h.store.record in {old(h.store.record), None}
    ensures end == Done ==> h.store.record.None?
    ensures h.store.record.None? ==> Losing(r) !in h.volumes
    ensures h.store.record.Some? ==> h.base == old(h.base)
    ensures h.store.record.None? ==> forall i | i in h.containers && OfOperation(h.containers[i], r.op) :: IsChannel(h.S(), i)
    ensures h.containers.Keys == old(h.containers.Keys)
    ensures forall i | i in h.containers :: Passes(h.drift, old(h.containers)[i], h.containers[i])
    ensures h.Calm() ==> (end == Done <==> (Losing(r) in old(h.volumes) ==> Unused(old(h.S()), Losing(r))))
    ensures h.Calm() ==> end != Crashed && (h.store.record.None? ==> end == Done)
  {
    hide Inv, NameFree, MayFinish, Passes, Unused;
    end := DropLosing(h, r);
    if end != Done { return; }
    Finishable(h.S(), r);
    end := h.Finish(r);
  }

  /** The loser's volume goes, if there is one. */
  method DropLosing(h: Host, r: Record) returns (end: Outcome)
    requires Inv(h.S()) && h.store.record == Some(r) && HasOutcome(h.S()) && r.payload.Plan?
    requires NameFree(h.S(), Next(r.op, false)) && NameFree(h.S(), Next(r.op, true))
    requires r.payload.oldId.Some? && r.payload.oldId.value in h.containers ==> IsChannel(h.S(), r.payload.oldId.value)
    modifies h`containers, h`volumes, h`seeds, h`nextId
    ensures Inv(h.S())
    ensures end == Done ==> Losing(r) !in h.volumes && NameFree(h.S(), Next(r.op, false)) && NameFree(h.S(), Next(r.op, true))
    ensures h.containers.Keys == old(h.containers.Keys)
    ensures forall i | i in h.containers :: Passes(h.drift, old(h.containers)[i], h.containers[i])
    ensures h.Calm() ==> (end == Done <==> (Losing(r) in old(h.volumes) ==> Unused(old(h.S()), Losing(r)))) && end != Crashed
  {
    hide Inv, Evolves, NameFree, Passes, Unused, ChannelUp;
    end := Done;
    if r.phase == Phase.RolledBack && Fresh(r.op) in h.volumes { FreshIsOurs(h.S(), r.op); }
    OutcomeChannel(h.S(), r);
    if r.phase == Phase.RolledBack || r.payload.sourceExists {
      end := h.RemoveVolume(Losing(r), if r.phase == Phase.RolledBack then Some(r.op) else None);
      VolumeShrinks(old(h.S()), h.S(), Losing(r));
      ShrinksNames(old(h.S()), h.S(), Next(r.op, false));
      ShrinksNames(old(h.S()), h.S(), Next(r.op, true));
    } else {
      AllPass(h.S());
    }
  }

  // ---------------------------------------------------------------- cleanup

  /** What is left when an operation is over: the winner under the channel's name, nothing of the loser. */
  ghost predicate Closed(a: State, b: State)
    requires HasOutcome(a) && a.db.record.value.payload.Plan?
  {
    var r := a.db.record.value;
    && b.db == a.db.(record := None)
    && Losing(r) !in b.volumes
    && (forall i | i in b.containers && OfOperation(b.containers[i], r.op) :: IsChannel(b, i))
    && (r.payload.oldId.Some? && r.payload.oldId.value in b.containers ==> IsChannel(b, r.payload.oldId.value))
    && (if WentBackToNothing(r) then NameFree(b, Canonical) else
          && ChannelUp(a) && ChannelUp(b)
          && var i := b.db.row.value.container.value;
             && b.db.row.value.volume in b.containers[i].mounts
             && b.containers[i].policy == (if r.phase == Committed then UnlessStopped else r.payload.oldPolicy)
             && (!a.drift ==> b.containers[i].life == a.containers[i].life))
  }

  /** The loser's volume can go: the winner's containers do not use it, and neither does anybody else. */
  predicate Closable(s: State)
    requires HasOutcome(s) && s.db.record.value.payload.Plan?
  {
    var r := s.db.record.value;
    r.phase == Committed && r.payload.oldVolume in s.volumes ==>
      forall i | i in s.containers && r.payload.oldVolume in s.containers[i].mounts :: r.payload.oldId == Some(i)
  }

  method Cleanup(h: Host) returns (end: Outcome)
    requires Inv(h.S())
    modifies h`containers, h`volumes, h`seeds, h`nextId, h`base, h.store
    ensures Inv(h.S()) && h.store.row == old(h.store.row) && h.store.intent == old(h.store.intent)
    ensures h.store.record in {old(h.store.record), None}
    ensures !HasOutcome(old(h.S())) ==> h.S() == old(h.S()) && (!h.faults ==> end == Done)
    ensures HasOutcome(old(h.S())) ==> old(h.store.record).value.payload.Plan?
    ensures HasOutcome(old(h.S())) && end == Done ==> h.store.record.None?
    ensures HasOutcome(old(h.S())) && h.store.record.None? ==> Closed(old(h.S()), h.S())
    ensures h.store.record.Some? ==> h.base == old(h.base)
    ensures HasOutcome(old(h.S())) && h.Calm() ==> (end == Done <==> Closable(old(h.S())))
    ensures h.Calm() ==> end != Crashed && (h.store.record.None? ==> end == Done)
  {
    hide Inv, Evolves, Closed, Closable, NameFree;
    if HasOutcome(h.S()) { OutcomeIsPlan(h.S()); }
    var found;
    end, found := h.ReadJournal();
    if end != Done || found.None? || found.value.phase !in {Committed, Phase.RolledBack} { return; }
    var r := found.value;
    if r.payload.kind == Initial && r.phase == Phase.RolledBack {
      end := CleanupNothing(h, r);
    } else {
      end := CleanupChannel(h, r);
    }
  }

  method CleanupNothing(h: Host, r: Record) returns (end: Outcome)
    requires Inv(h.S()) && h.store.record == Some(r) && HasOutcome(h.S()) && WentBackToNothing(r)
    modifies h`containers, h`volumes, h`seeds, h`nextId, h`base, h.store
    ensures Inv(h.S()) && h.store.row == old(h.store.row) && h.store.intent == old(h.store.intent)
    ensures h.store.record in {old(h.store.record), None}
    ensures end == Done ==> h.store.record.None?
    ensures h.store.record.None? ==> Closed(old(h.S()), h.S())
    ensures h.store.record.Some? ==> h.base == old(h.base)
    ensures h.Calm() ==> end == Done && Closable(old(h.S()))
  {
    hide Inv, Evolves, NameFree, Shrinks;
    OutcomeChannel(h.S(), r);
    if h.store.row.value.container.Some? { return Raised; }
    var holder;
    end, holder := h.Get(Canonical);
    DriftKeepsInv(old(h.S()), h.S());
    EvolvesShrinks(old(h.S()), h.S());
    NothingLeft(h.S(), r);
    if end != Done { return; }
    if holder.Some? { return Raised; }
    ghost var s := h.S();
    end := RemoveExtra(h, r, false);
    if end != Done { return; }
    ShrinksNames(s, h.S(), Next(r.op, true));
    ShrinksNames(s, h.S(), Canonical);
    s := h.S();
    FreshUnused(s, r);
    end := DropAndFinish(h, r);
    NamesPass(s, h.S(), Canonical);
  }

  lemma NamesPass(a: State, b: State, n: Name)
    requires b.containers.Keys == a.containers.Keys && NameFree(a, n)
    requires forall i | i in b.containers :: Passes(a.drift, a.containers[i], b.containers[i])
    ensures NameFree(b, n)
  {
  }

  /** Nothing but a candidate that never became the channel can be left. */
  lemma NothingLeft(s: State, r: Record)
    requires Inv(s) && HasOutcome(s) && s.db.record == Some(r) && WentBackToNothing(r)
    ensures NameFree(s, Canonical) && NameFree(s, Next(r.op, true)) && r.payload.oldId.None?
  {
    OutcomeChannel(s, r);
    CastHolds(s, r);
    hide Inv;
    forall i | i in s.containers ensures s.containers[i].name != Canonical && s.containers[i].name != Next(r.op, true) {
      assert CastEntry(s, r, i);
      assert !IsRecovery(s.containers[i], r.op);
    }
  }

  /** With no candidate left nobody holds the operation's volume. */
  lemma FreshUnused(s: State, r: Record)
    requires Inv(s) && HasOutcome(s) && s.db.record == Some(r) && r.payload.Plan? && r.phase == RolledBack
    requires NameFree(s, Next(r.op, false))
    requires r.payload.oldId.Some? && r.payload.oldId.value in s.containers ==> IsChannel(s, r.payload.oldId.value)
    ensures Unused(s, Fresh(r.op))
  {
    hide Inv;
    OutcomeChannel(s, r);
    CastHolds(s, r);
    forall i | i in s.containers ensures Fresh(r.op) !in s.containers[i].mounts {
      assert CastEntry(s, r, i);
      if i in s.foreign { ForeignMounts(s, i, r.op); }
    }
  }

  lemma ForeignMounts(s: State, i: nat, op: nat)
    requires Inv(s) && s.db.record.Some? && s.db.record.value.op == op && s.db.record.value.payload.Plan? && i in s.foreign
    ensures i in s.containers && Fresh(op) !in s.containers[i].mounts
  {
    InvParts(s);
    CastShapes(s, s.db.record.value);
    hide Inv, Frame, RecordHolds, OperationShapes;
  }

  method CleanupChannel(h: Host, r: Record) returns (end: Outcome)
    requires Inv(h.S()) && h.store.record == Some(r) && HasOutcome(h.S()) && r.payload.Plan? && !WentBackToNothing(r)
    modifies h`containers, h`volumes, h`seeds, h`nextId, h`base, h.store
    ensures Inv(h.S()) && h.store.row == old(h.store.row) && h.store.intent == old(h.store.intent)
    ensures h.store.record in {old(h.store.record), None}
    ensures end == Done ==> h.store.record.None?
    ensures h.store.record.None? ==> Closed(old(h.S()), h.S())
    ensures h.store.record.Some? ==> h.base == old(h.base)
    ensures h.Calm() ==> (end == Done <==> Closable(old(h.S())))
    ensures h.Calm() ==> end != Crashed && (h.store.record.None? ==> end == Done)
  {
    hide Inv, Evolves, NameFree, Shrinks, Closed, Closable, Passes;
    OutcomeChannel(h.S(), r);
    var id, here := h.store.row.value.container.value, false;
    end, here := h.Identity(id);
    DriftKeepsInv(old(h.S()), h.S());
    EvolvesShrinks(old(h.S()), h.S());
    EvolvesShape(old(h.S()), h.S());
    if end != Done { return; }
    OutcomeChannel(h.S(), r);
    if !here || h.containers[id].name != Canonical { return Raised; }
    if h.store.row.value.volume !in h.containers[id].mounts { return Raised; }
    ghost var s := h.S();
    end := h.SetPolicy(id, if r.phase == Committed then UnlessStopped else r.payload.oldPolicy);
    if end != Done { return; }
    ClosableEarlier(old(h.S()), s, h.S(), id);
    s := h.S();
    end := Strip(h, r);
    if h.store.record.None? { NowClosed(old(h.S()), s, h.S(), r, id); }
  }

  lemma NowClosed(a: State, b: State, c: State, r: Record, i: nat)
    requires HasOutcome(a) && a.db.record == Some(r) && r.payload.Plan? && !WentBackToNothing(r) && ChannelUp(a) && ChannelUp(b)
    requires IsChannel(a, i) && b.db == a.db && c.db == a.db.(record := None) && Losing(r) !in c.volumes
    requires forall j | j in c.containers && OfOperation(c.containers[j], r.op) :: IsChannel(c, j)
    requires r.payload.oldId.Some? && r.payload.oldId.value in c.containers ==> IsChannel(c, r.payload.oldId.value)
    requires forall j: nat | IsChannel(c, j) && j in b.containers :: j in c.containers && Passes(a.drift, b.containers[j], c.containers[j])
    requires c.db.row.value.volume in b.containers[i].mounts
    requires b.containers[i].policy == (if r.phase == Committed then UnlessStopped else r.payload.oldPolicy)
    requires !a.drift ==> b.containers[i].life == a.containers[i].life
    ensures Closed(a, c)
  {
    assert IsChannel(c, i);
  }

  lemma ClosableEarlier(a: State, b: State, c: State, i: nat)
    requires Evolves(a, b) && Touched(b, c, i) && HasOutcome(a) && a.db.record.value.payload.Plan?
    ensures HasOutcome(c) && (Closable(a) <==> Closable(c))
  {
  }

  /** Removes the loser's containers and volume, and then the record. */
  method Strip(h: Host, r: Record) returns (end: Outcome)
    requires Inv(h.S()) && h.store.record == Some(r) && HasOutcome(h.S()) && r.payload.Plan?
    modifies h`containers, h`volumes, h`seeds, h`nextId, h`base, h.store
    ensures Inv(h.S()) && h.store.row == old(h.store.row) && h.store.intent == old(h.store.intent)
    ensures h.store.record in {old(h.store.record), None}
    ensures end == Done ==> h.store.record.None?
    ensures h.store.record.None? ==> Losing(r) !in h.volumes
    ensures h.store.record.Some? ==> h.base == old(h.base)
    ensures h.store.record.None? ==> forall i | i in h.containers && OfOperation(h.containers[i], r.op) :: IsChannel(h.S(), i)
    ensures h.store.record.None? && r.payload.oldId.Some? && r.payload.oldId.value in h.containers ==> IsChannel(h.S(), r.payload.oldId.value)
    ensures forall i: nat | IsChannel(h.S(), i) && i in old(h.containers) ::
              i in h.containers && Passes(h.drift, old(h.containers)[i], h.containers[i])
    ensures h.Calm() ==> (end == Done <==> Closable(old(h.S())))
    ensures h.Calm() ==> end != Crashed && (h.store.record.None? ==> end == Done)
  {
    hide Inv, Evolves, NameFree, Shrinks, Passes, Spares, Closable;
    ghost var s := h.S();
    end := RemoveOld(h, r);
    ghost var s1 := h.S();
    KeptPasses(s, s1);
    if end != Done { return; }
    end := RemoveExtra(h, r, false);
    ghost var s2 := h.S();
    ShrinksThen(s, s1, s2);
    KeptPasses(s, s2);
    if end != Done { return; }
    end := RemoveExtra(h, r, true);
    ghost var s3 := h.S();
    ShrinksThen(s, s2, s3);
    KeptPasses(s, s3);
    if end != Done { return; }
    ShrinksNames(s2, s3, Next(r.op, false));
    ShrinksThen(s1, s2, s3);
    SparesThen(s, s1, s2, r);
    SparesThen(s, s2, s3, r);
    ShrinksKeys(s1, s3);
    WhetherClosable(s, s3, r);
    end := DropAndFinish(h, r);
    PassesOn(s, s3, h.S());
  }

  lemma KeptPasses(a: State, b: State)
    requires Shrinks(a, b) && KeepsChannel(a, b)
    ensures forall i: nat | IsChannel(b, i) && i in a.containers :: i in b.containers && Passes(a.drift, a.containers[i], b.containers[i])
  {
  }

  lemma ShrinksKeys(a: State, b: State)
    requires Shrinks(a, b)
    ensures forall i | i in b.containers :: i in a.containers
  {
  }

  lemma SparesThen(a: State, b: State, c: State, r: Record)
    requires Shrinks(a, b) && Spares(a, b, r) && Spares(b, c, r)
    ensures Spares(a, c, r)
  {
    forall i | i in a.containers && i in b.containers ensures b.containers[i].tag == a.containers[i].tag {
      assert Passes(a.drift, a.containers[i], b.containers[i]);
    }
  }

  lemma PassesOn(a: State, b: State, c: State)
    requires forall i: nat | IsChannel(b, i) && i in a.containers :: i in b.containers && Passes(a.drift, a.containers[i], b.containers[i])
    requires c.containers.Keys == b.containers.Keys && c.db.row == b.db.row
    requires forall i | i in c.containers :: Passes(a.drift, b.containers[i], c.containers[i])
    ensures forall i: nat | IsChannel(c, i) && i in a.containers :: i in c.containers && Passes(a.drift, a.containers[i], c.containers[i])
  {
    forall i: nat | IsChannel(c, i) && i in a.containers ensures i in c.containers && Passes(a.drift, a.containers[i], c.containers[i]) {
      assert IsChannel(b, i);
      PassesThen(a.drift, a.containers[i], b.containers[i], c.containers[i]);
    }
  }

  lemma WhetherClosable(a: State, b: State, r: Record)
    requires Inv(a) && Inv(b) && Shrinks(a, b) && Spares(a, b, r) && b.volumes.Keys == a.volumes.Keys && b.db == a.db
    requires HasOutcome(a) && a.db.record == Some(r) && r.payload.Plan? && NameFree(b, Next(r.op, false))
    requires r.payload.oldId.Some? && r.payload.oldId.value in b.containers ==> IsChannel(b, r.payload.oldId.value)
    ensures Closable(a) <==> (Losing(r) in b.volumes ==> Unused(b, Losing(r)))
  {
    hide Inv, Shrinks, Spares, NameFree, Unused;
    if r.phase == RolledBack { FreshUnused(b, r); }
    else if r.payload.oldVolume in b.volumes {
      CommittedUsers(a, r);
      CommittedUsers(b, r);
      if Closable(a) { ThenUnused(a, b, r); }
      if Unused(b, r.payload.oldVolume) { OnlyOldUsed(a, b, r); }
    }
  }

  /** After a commit the operation's containers keep off the old volume, and the channel is not the old container. */
  lemma CommittedUsers(s: State, r: Record)
    requires Inv(s) && s.db.record == Some(r) && r.payload.Plan? && r.phase == Committed
    ensures forall i | i in s.containers && OfOperation(s.containers[i], r.op) :: r.payload.oldVolume !in s.containers[i].mounts
    ensures r.payload.oldId.Some? && r.payload.oldId.value in s.containers ==> !IsChannel(s, r.payload.oldId.value)
  {
    hide Inv;
    OutcomeChannel(s, r);
    CastHolds(s, r);
    forall i | i in s.containers && OfOperation(s.containers[i], r.op) ensures r.payload.oldVolume !in s.containers[i].mounts {
      assert CastEntry(s, r, i);
    }
    if r.payload.oldId.Some? && r.payload.oldId.value in s.containers { assert CastEntry(s, r, r.payload.oldId.value); }
  }

  lemma ThenUnused(a: State, b: State, r: Record)
    requires Shrinks(a, b) && b.volumes.Keys == a.volumes.Keys && r.payload.oldVolume in b.volumes
    requires HasOutcome(a) && a.db.record == Some(r) && r.payload.Plan? && r.phase == Committed && Closable(a)
    requires r.payload.oldId.Some? ==> r.payload.oldId.value !in b.containers
    ensures Unused(b, r.payload.oldVolume)
  {
    forall i | i in b.containers ensures r.payload.oldVolume !in b.containers[i].mounts {
      assert Passes(a.drift, a.containers[i], b.containers[i]);
    }
  }

  lemma OnlyOldUsed(a: State, b: State, r: Record)
    requires Shrinks(a, b) && Spares(a, b, r) && HasOutcome(a) && a.db.record == Some(r) && r.payload.Plan?
    requires forall i | i in a.containers && OfOperation(a.containers[i], r.op) :: r.payload.oldVolume !in a.containers[i].mounts
    requires Unused(b, r.payload.oldVolume)
    ensures Closable(a)
  {
    forall i | i in a.containers && r.payload.oldVolume in a.containers[i].mounts ensures r.payload.oldId == Some(i) {
      assert i in b.containers ==> Passes(a.drift, a.containers[i], b.containers[i]);
    }
  }
}
