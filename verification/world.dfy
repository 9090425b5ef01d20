/**
 The world a replacement works in: Docker's containers and volumes beside the journal rows,
 the ways in which that world moves by itself, and the invariant that every step keeps.
 */
module World {
  import opened Common
  import opened Names
  import opened Settings
  import opened Journal

  datatype Life = Created | Running | Exited

  datatype Container = Container(name: Name, tag: Label, life: Life, policy: Policy,
                                 mounts: set<Volume>, writes: set<Volume>)

  /** A volume's labels and an abstract value for its contents. */
  datatype Disk = Disk(tag: Label, data: nat)

  /**
   What a candidate's volume and the old volume held when that candidate first started, and what the
   old volume had held when the old container had come to rest.
   */
  datatype Seed = Seed(own: nat, source: nat, rested: nat)

  /**
   What each operation's old volume held when its old container had come to rest; whether the world has
   stood still since the operation on record began; whether a stop has lowered that operation's
   flag, and in doing so set the trap; and whether the world has stood still all along.
   */
  datatype Past = Past(rested: map<nat, nat>, still: bool, lowered: bool, trapped: bool, calm: bool)

  /**
   Containers, volumes and rows, followed by history: the settings before the operation, the seeds,
   the containers and volumes that are not the channel's, the first operation of this history, whether
   a volume has been stored, whether the world moves, and what else is to be remembered.
   */
  datatype State = State(
    containers: map<nat, Container>, volumes: map<Volume, Disk>, db: Db, nextId: nat, nextOp: nat,
    base: Settings, seeds: map<nat, Seed>, foreign: map<nat, Container>, elsewhere: map<Volume, Label>,
    birth: nat, stored: bool, drift: bool, past: Past)

  // ---------------------------------------------------------------- spontaneous change

  /** Docker may restart it, or it runs already: it may write to its volumes at any moment. */
  predicate Active(c: Container) {
    c.life == Running || (c.policy != No && c.life != Created)
  }

  /** Stopped for good: nothing but an explicit start brings it back. */
  predicate Dormant(c: Container) {
    c.policy == No && c.life != Running
  }

  predicate SameShape(c: Container, d: Container) {
    d == c.(life := d.life)
  }

  ghost predicate Unwritten(s: State, v: Volume) {
    forall i | i in s.containers && v in s.containers[i].writes :: !Active(s.containers[i])
  }

  ghost predicate LifeDrifts(c: Container, d: Container) {
    && SameShape(c, d)
    && (!Active(c) ==> d == c)
    && (Active(c) ==> d.life != Created)
  }

  /**
   What may happen between two effects: active containers exit or are restarted, and write to the
   volumes they hold. Nothing else changes, and nothing at all when drift is off.
   */
  ghost predicate Evolves(a: State, b: State) {
    && b == a.(containers := b.containers, volumes := b.volumes)
    && (!a.drift ==> b == a)
    && b.containers.Keys == a.containers.Keys
    && (forall i | i in a.containers :: LifeDrifts(a.containers[i], b.containers[i]))
    && b.volumes.Keys == a.volumes.Keys
    && (forall v | v in a.volumes :: b.volumes[v].tag == a.volumes[v].tag)
    && (forall v | v in a.volumes && Unwritten(a, v) :: b.volumes[v] == a.volumes[v])
  }

  lemma EvolvesReflexive(a: State)
    ensures Evolves(a, a)
  {
  }

  lemma EvolvesTransitive(a: State, b: State, c: State)
    requires Evolves(a, b) && Evolves(b, c)
    ensures Evolves(a, c)
  {
    forall v | v in a.volumes && Unwritten(a, v) ensures Unwritten(b, v) {
    }
  }

  // ---------------------------------------------------------------- vocabulary

  /** The operation in a name, if there is one, is older than k. */
  predicate NamedBefore(n: Name, k: nat) {
    match n
    case Next(op, _) => op < k
    case Previous(op) => op < k
    case CopyOf(op) => op < k
    case _ => true
  }

  predicate IsCandidate(c: Container, op: nat) { c.tag == Owned(op, false, Candidate) }
  predicate IsRecovery(c: Container, op: nat) { c.tag == Owned(op, true, Candidate) }
  predicate IsCopier(c: Container, op: nat) { c.tag == Owned(op, false, Copier) }
  predicate OfOperation(c: Container, op: nat) { c.tag.Owned? && c.tag.op == op }

  /** The row names container i as the channel's. */
  predicate IsChannel(s: State, i: nat) {
    s.db.row.Some? && s.db.row.value.container == Some(i)
  }

  predicate Underway(s: State) {
    s.db.record.Some? && s.db.record.value.phase != Queued
  }

  // ---------------------------------------------------------------- the invariant: Docker

  ghost predicate DistinctNames(s: State) {
    forall i, j | i in s.containers && j in s.containers && i != j :: s.containers[i].name != s.containers[j].name
  }

  ghost predicate DistinctTags(s: State) {
    forall i, j | i in s.containers && j in s.containers && i != j && s.containers[i].tag.Owned? ::
      s.containers[i].tag != s.containers[j].tag
  }

  predicate ContainerBounded(s: State, i: nat, c: Container) {
    && i < s.nextId
    && NamedBefore(c.name, s.nextOp)
    && (c.tag.Owned? ==> c.tag.op < s.nextOp)
    && c.writes <= c.mounts
  }

  /** Identifiers and operations still to come are unused, and mounted volumes exist. */
  ghost predicate Bounded(s: State) {
    && s.birth <= s.nextOp
    && (forall i | i in s.containers :: ContainerBounded(s, i, s.containers[i]))
    && (forall i, v | i in s.containers && v in s.containers[i].mounts :: v in s.volumes)
    && (forall op: nat | Fresh(op) in s.volumes :: op < s.nextOp)
    && (forall op | op in s.seeds :: op < s.nextOp)
  }

  /** Containers of others keep their name, labels, policy and mounts; their volumes keep their labels. */
  ghost predicate ForeignIntact(s: State) {
    && (forall i | i in s.foreign ::
          && i in s.containers
          && SameShape(s.foreign[i], s.containers[i])
          && s.foreign[i].tag == Unlabelled
          && NamedBefore(s.foreign[i].name, s.birth))
    && (forall i, op: nat | i in s.foreign && Fresh(op) in s.foreign[i].mounts :: op < s.birth)
    && (forall v | v in s.elsewhere :: v in s.volumes && s.volumes[v].tag == s.elsewhere[v])
    && (forall op: nat | Fresh(op) in s.elsewhere :: op < s.birth)
    && (forall op: nat | Fresh(op) in s.volumes && s.birth <= op :: s.volumes[Fresh(op)].tag == Owned(op, false, Candidate))
  }

  /** Only the container under the canonical name may run or be restarted; copiers are not channels. */
  ghost predicate Quiet(s: State) {
    forall i | i in s.containers && i !in s.foreign && s.containers[i].name != Canonical && !s.containers[i].name.CopyOf? ::
      Dormant(s.containers[i])
  }

  // ---------------------------------------------------------------- the invariant: rows

  predicate Referenced(s: State, i: nat) {
    || (s.db.row.Some? && s.db.row.value.container == Some(i))
    || (s.db.record.Some? && s.db.record.value.payload.oldId == Some(i))
    || (s.db.record.Some? && s.db.record.value.payload.Plan? && s.db.record.value.payload.newId == Some(i))
  }

  /** The rows speak of the channel's own containers only. */
  ghost predicate RowsOwn(s: State) {
    && (forall i: nat | Referenced(s, i) :: i < s.nextId && i !in s.foreign)
    && (s.db.row.Some? && s.db.row.value.volume.Fresh? ==> s.db.row.value.volume.op < s.nextOp)
    && (s.db.record.Some? && s.db.record.value.payload.oldVolume.Fresh? ==> s.db.record.value.payload.oldVolume.op < s.nextOp)
  }

  /** Nothing is left over: every container is foreign, the channel's, or part of the operation. */
  ghost predicate Census(s: State) {
    forall i | i in s.containers && i !in s.foreign ::
      || (s.db.row.Some? && s.db.row.value.container == Some(i))
      || (s.db.record.Some? && s.db.record.value.payload.oldId == Some(i))
      || (Underway(s) && OfOperation(s.containers[i], s.db.record.value.op))
  }

  predicate VolumeReferenced(s: State, v: Volume) {
    || (s.db.row.Some? && s.db.row.value.volume == v)
    || (s.db.record.Some? && s.db.record.value.payload.oldVolume == v)
    || (Underway(s) && v == Fresh(s.db.record.value.op))
  }

  /** The same for volumes; a labelled volume is the one its label names. */
  ghost predicate VolumeCensus(s: State) {
    && (forall v | v in s.volumes :: v in s.elsewhere <==> !VolumeReferenced(s, v))
    && (forall v | v in s.volumes && s.volumes[v].tag != Unlabelled ::
          v !in s.elsewhere && v.Fresh? && s.birth <= v.op && s.volumes[v].tag == Owned(v.op, false, Candidate))
  }

  /** Whenever a candidate first started, its volume held what the old volume held and had held since the old container came to rest. */
  ghost predicate SeedsAgree(s: State) {
    forall op | op in s.seeds :: s.seeds[op].own == s.seeds[op].source == s.seeds[op].rested
  }

  /** Once the channel has had a data volume, the one its row names is never missing. */
  predicate DataKept(s: State) {
    (s.stored && s.db.row.Some? && !(s.db.record.Some? && s.db.record.value.phase == Deleting)) ==>
      s.db.row.value.volume in s.volumes
  }

  // ---------------------------------------------------------------- the invariant: an operation

  /** What the labels of an operation's containers promise about them. */
  predicate OperationShape(c: Container, r: Record)
    requires r.payload.Plan?
  {
    match c.tag
    case Unlabelled => true
    case Owned(_, false, Candidate) =>
      c.mounts == {Fresh(r.op)} && c.writes == {Fresh(r.op)} && c.name in {Next(r.op, false), Canonical}
    case Owned(_, true, Candidate) =>
      && r.payload.kind == Replacement && r.phase in {RollingBack, RolledBack, Deleting}
      && c.mounts == {r.payload.oldVolume} && c.writes == {r.payload.oldVolume} && c.name in {Next(r.op, true), Canonical}
    case Owned(_, false, Copier) =>
      && r.phase in {Switching, RollingBack, Deleting}
      && c.name == CopyOf(r.op) && c.mounts == {r.payload.oldVolume, Fresh(r.op)} && c.writes == {Fresh(r.op)}
    case Owned(_, true, Copier) => false
  }

  ghost predicate OperationShapes(s: State, r: Record)
    requires r.payload.Plan?
  {
    forall i | i in s.containers && OfOperation(s.containers[i], r.op) :: OperationShape(s.containers[i], r)
  }

  ghost predicate NoCopier(s: State, r: Record) {
    forall i | i in s.containers :: !IsCopier(s.containers[i], r.op)
  }

  predicate OldShape(c: Container, r: Record) {
    && c.name in {Canonical, Previous(r.op)}
    && r.payload.oldVolume in c.mounts && Fresh(r.op) !in c.mounts
    && !OfOperation(c, r.op)
  }

  /** The old container is still there, under its own name or its backup name. */
  predicate OldThere(s: State, r: Record)
    requires r.payload.Plan?
  {
    r.payload.kind == Replacement ==>
      r.payload.oldId.Some? && r.payload.oldId.value in s.containers && OldShape(s.containers[r.payload.oldId.value], r)
  }

  predicate OldAway(s: State, r: Record)
    requires r.payload.Plan?
  {
    r.payload.kind == Replacement && r.payload.oldId.Some? && r.payload.oldId.value in s.containers ==>
      s.containers[r.payload.oldId.value].name == Previous(r.op)
  }

  /** The row still describes the channel as it was before the operation. */
  predicate RowBefore(s: State, r: Record)
    requires r.payload.Plan?
  {
    && s.db.row.Some?
    && s.db.row.value.volume == r.payload.oldVolume
    && s.db.row.value.settings == s.base
    && (if r.payload.kind == Replacement then s.db.row.value.container == r.payload.oldId
        else s.db.row.value.container.Some? ==> s.db.row.value.container.value !in s.containers)
  }

  function NewSettings(s: State, r: Record): Settings
    requires r.payload.Plan?
  {
    Update(s.base, r.payload.fields, r.payload.secrets)
  }

  /** The row describes the channel with the new settings on the new volume. */
  predicate RowAfter(s: State, r: Record)
    requires r.payload.Plan?
  {
    && s.db.row.Some?
    && s.db.row.value.volume == Fresh(r.op)
    && Fresh(r.op) in s.volumes
    && s.db.row.value.settings == NewSettings(s, r)
    && (s.db.row.value.container.Some? && s.db.row.value.container.value in s.containers ==>
          IsCandidate(s.containers[s.db.row.value.container.value], r.op))
  }

  /** The settings are back: untouched, or rewritten from the saved values. */
  predicate SettingsBack(s: State, r: Record)
    requires r.payload.Plan? && s.db.row.Some?
  {
    s.db.row.value.settings == if r.payload.configApplied
      then Update(NewSettings(s, r), r.payload.oldFields, r.payload.secrets) else s.base
  }

  /** The candidate's volume is a faithful copy, and nobody else can touch either volume. */
  ghost predicate Copied(s: State, r: Record)
    requires r.payload.Plan?
  {
    && (r.payload.sourceExists ==>
          && r.payload.oldVolume in s.volumes && Fresh(r.op) in s.volumes
          && s.volumes[r.payload.oldVolume].data == s.volumes[Fresh(r.op)].data
          && r.op in s.past.rested && s.past.rested[r.op] == s.volumes[r.payload.oldVolume].data
          && (forall i | i in s.containers && (r.payload.oldVolume in s.containers[i].mounts || Fresh(r.op) in s.containers[i].mounts) ::
                r.payload.oldId == Some(i) || IsCandidate(s.containers[i], r.op)))
  }

  /** Nobody who holds the two volumes can write to them. */
  ghost predicate Sealed(s: State, r: Record)
    requires r.payload.Plan?
  {
    OldAway(s, r) && CandidatesCreated(s, r) && (r.payload.kind == Replacement <==> r.payload.oldId.Some?)
  }

  /** The old container, if it exists, is stopped for good. */
  predicate OldStill(s: State, r: Record) {
    r.payload.oldId.Some? && r.payload.oldId.value in s.containers ==> Dormant(s.containers[r.payload.oldId.value])
  }

  /** Until the candidate has been started it is as created and its volume is as copied. */
  ghost predicate Unstarted(s: State, r: Record)
    requires r.payload.Plan?
  {
    r.op !in s.seeds ==>
      && Copied(s, r)
      && CandidatesCreated(s, r)
  }

  /** The old container has made way: its name is free for the candidate. */
  ghost predicate Moved(s: State, r: Record)
    requires r.payload.Plan?
  {
    if r.payload.kind == Replacement
    then r.payload.oldId.Some? && r.payload.oldId.value in s.containers && s.containers[r.payload.oldId.value].name == Previous(r.op)
    else exists i :: i in s.containers && IsCandidate(s.containers[i], r.op) && s.containers[i].name == Canonical
  }

  predicate CandidateIs(s: State, r: Record)
    requires r.payload.Plan?
  {
    r.payload.newId.Some? && r.payload.newId.value in s.containers && IsCandidate(s.containers[r.payload.newId.value], r.op)
  }

  ghost predicate CandidatesCreated(s: State, r: Record) {
    forall i | i in s.containers && IsCandidate(s.containers[i], r.op) :: s.containers[i].life == Created
  }

  ghost predicate CandidatesAside(s: State, r: Record) {
    forall i | i in s.containers && IsCandidate(s.containers[i], r.op) :: s.containers[i].name == Next(r.op, false)
  }

  /** A candidate that has been started is the one on record. */
  ghost predicate StartedIsRecorded(s: State, r: Record)
    requires r.payload.Plan?
  {
    forall i | i in s.containers && IsCandidate(s.containers[i], r.op) && s.containers[i].life != Created ::
      r.payload.newId == Some(i)
  }

  predicate CandidateUp(s: State, r: Record)
    requires r.payload.Plan?
  {
    CandidateIs(s, r) && s.containers[r.payload.newId.value].name == Canonical
  }

  /** The container in the row exists under the channel's name. */
  predicate ChannelUp(s: State) {
    && s.db.row.Some? && s.db.row.value.container.Some? && s.db.row.value.container.value in s.containers
    && s.containers[s.db.row.value.container.value].name == Canonical
  }

  predicate ChannelIsCandidate(s: State, r: Record) {
    ChannelUp(s) && IsCandidate(s.containers[s.db.row.value.container.value], r.op)
  }

  predicate ChannelIsBack(s: State, r: Record)
    requires r.payload.Plan?
  {
    if r.payload.kind == Initial then s.db.row.Some? && s.db.row.value.container == None
    else
      && ChannelUp(s)
      && r.payload.oldVolume in s.containers[s.db.row.value.container.value].mounts
      && (r.payload.oldId == s.db.row.value.container || IsRecovery(s.containers[s.db.row.value.container.value], r.op))
  }

  /** The old container, if it still exists, is the channel again or waits under its backup name. */
  predicate OldBackOrAway(s: State, r: Record) {
    r.payload.oldId.Some? && r.payload.oldId.value in s.containers ==>
      OldShape(s.containers[r.payload.oldId.value], r)
  }

  /** The row describes the channel on its old volume with its settings back. */
  predicate RowBack(s: State, r: Record)
    requires r.payload.Plan?
  {
    s.db.row.Some? && s.db.row.value.volume == r.payload.oldVolume && SettingsBack(s, r)
  }

  /** The container in the row, if it exists, takes part in the operation. */
  predicate ChannelKnown(s: State, r: Record) {
    s.db.row.Some? && s.db.row.value.container.Some? && s.db.row.value.container.value in s.containers ==>
      s.db.row.value.container == r.payload.oldId || OfOperation(s.containers[s.db.row.value.container.value], r.op)
  }

  /** What holds in each phase of an operation. */
  ghost predicate PhaseHolds(s: State, r: Record)
    requires r.payload.Plan?
  {
    match r.phase
    case Queued => false
    case Preparing =>
      RowBefore(s, r) && OldThere(s, r) && !Moved(s, r) && r.op !in s.seeds && CandidatesCreated(s, r) && CandidatesAside(s, r)
    case Prepared =>
      && RowBefore(s, r) && OldThere(s, r) && !Moved(s, r) && r.op !in s.seeds && CandidatesCreated(s, r) && CandidatesAside(s, r)
      && CandidateIs(s, r)
    case Switching =>
      && RowBefore(s, r) && OldThere(s, r) && r.op !in s.seeds && CandidatesCreated(s, r)
      && CandidateIs(s, r) && (Moved(s, r) ==> Copied(s, r))
    case Validating =>
      RowBefore(s, r) && OldThere(s, r) && OldAway(s, r) && Unstarted(s, r) && CandidateUp(s, r)
    case AwaitingLogin =>
      RowAfter(s, r) && OldThere(s, r) && OldAway(s, r) && Unstarted(s, r) && StartedIsRecorded(s, r)
    case Committed =>
      RowAfter(s, r) && OldBackOrAway(s, r) && OldAway(s, r) && ChannelIsCandidate(s, r)
    case RollingBack =>
      OldThere(s, r) && (if r.payload.configApplied then RowAfter(s, r) else RowBefore(s, r))
    case RolledBack =>
      RowBack(s, r) && OldBackOrAway(s, r) && CandidatesAside(s, r) && ChannelIsBack(s, r)
    case Deleting =>
      s.db.row.Some? && OldBackOrAway(s, r) && ChannelKnown(s, r)
  }

  /** What holds of an operation in every phase. */
  ghost predicate OperationHolds(s: State, r: Record)
    requires r.payload.Plan?
  {
    && s.birth <= r.op < s.nextOp
    && (r.payload.kind == Replacement <==> r.payload.oldId.Some?)
    && r.payload.oldVolume != Fresh(r.op)
    && r.payload.oldFields == Saved(s.base, r.payload.fields)
    && (r.payload.configApplied ==> r.phase in {RollingBack, RolledBack, Deleting})
    && (forall i | i in s.foreign :: s.foreign[i].name != Canonical)
    && OperationShapes(s, r)
    && (r.phase !in {Committed, Deleting} && r.payload.sourceExists ==> r.payload.oldVolume in s.volumes)
    && (r.phase != Deleting && !r.payload.sourceExists ==> r.payload.oldVolume !in s.volumes && r.payload.kind == Initial)
  }

  ghost predicate RecordHolds(s: State) {
    match s.db.record
    case None => s.db.row.Some? ==> s.db.row.value.settings == s.base
    case Some(r) =>
      match r.payload
      case Intent(_, _, _) =>
        && (r.phase == Queued || r.phase == Deleting)
        && s.db.row.Some? && s.db.row.value.settings == s.base && r.payload.oldId == s.db.row.value.container
        && r.payload.oldVolume == s.db.row.value.volume
        && (r.phase == Queued ==> Fresh(r.op) !in s.volumes)
        && s.birth <= r.op < s.nextOp && (forall i | i in s.containers :: !OfOperation(s.containers[i], r.op))
      case Plan(_, _, _, _, _, _, _, _, _, _, _, _) =>
        r.phase != Queued && OperationHolds(s, r) && PhaseHolds(s, r)
  }

  /** Everything that does not depend on the operation's phase. */
  ghost predicate Frame(s: State) {
    && DistinctNames(s) && DistinctTags(s) && Bounded(s) && ForeignIntact(s) && Quiet(s)
    && RowsOwn(s) && Census(s) && VolumeCensus(s) && SeedsAgree(s) && DataKept(s)
  }

  // ---------------------------------------------------------------- the invariant: the way back

  /**
   The known trap: the channel was not to be running, its old container waits under its backup name,
   and a recovery container left by an interrupted attempt holds the channel's name.
   */
  predicate Trap(s: State) {
    && s.db.record.Some? && s.db.record.value.payload.Plan?
    && var r := s.db.record.value;
       && r.payload.kind == Replacement && !r.payload.oldRunning
       && r.payload.oldId.Some? && r.payload.oldId.value in s.containers
       && s.containers[r.payload.oldId.value].name == Previous(r.op)
       && exists i :: i in s.containers && IsRecovery(s.containers[i], r.op) && s.containers[i].name == Canonical
  }

  /** A plan is on record, and not for deletion. */
  predicate Planned(s: State) {
    s.db.record.Some? && s.db.record.value.payload.Plan? && s.db.record.value.phase != Deleting
  }

  /** The old container does not run unless it ran before, and after a rollback the channel runs exactly if it did. */
  predicate RunsAsPlanned(s: State, r: Record)
    requires r.payload.Plan?
  {
    && (r.payload.oldId.Some? && r.payload.oldId.value in s.containers && s.containers[r.payload.oldId.value].life == Running ==>
          r.payload.oldRunning)
    && (r.phase == RolledBack && r.payload.kind == Replacement && s.db.row.Some? && s.db.row.value.container.Some?
        && s.db.row.value.container.value in s.containers ==>
          (s.containers[s.db.row.value.container.value].life == Running <==> r.payload.oldRunning))
  }

  /**
   Only a stop that lowers the flag sets the trap, and no outcome is reached from it. In a world that
   stands still nothing but the operation decides what runs.
   */
  predicate Promise(s: State) {
    && (s.past.still ==> !s.drift)
    && (Planned(s) ==>
          && (s.past.trapped <==> Trap(s))
          && (s.db.record.value.phase in {Committed, RolledBack} ==> !s.past.trapped)
          && (s.past.still && !s.past.lowered ==> RunsAsPlanned(s, s.db.record.value)))
  }

  /** As long as only the program acts, nothing at all happens to the containers of others. */
  ghost predicate LeftAlone(s: State) {
    s.past.calm ==> !s.drift && forall i | i in s.foreign :: i in s.containers && s.containers[i] == s.foreign[i]
  }

  ghost predicate Inv(s: State) {
    Frame(s) && RecordHolds(s) && Promise(s) && LeftAlone(s)
  }
}
