/** Every effect that the program has on the world, as one step; and a run of such steps that ends in the trap. */
module Descent {
  import opened Common
  import opened Names
  import opened Settings
  import opened Journal
  import opened World
  import opened Drift
  import opened Renames
  import opened Resources
  import opened Transitions
  import opened Hosts
  import opened Recovery
  import opened Stopping
  import opened Safety

  datatype Act =
    | Begins(p: Payload) | Advances(phase: Phase, p: Payload) | Lowers
    | Commits(runtime: Runtime, awaiting: bool) | Confirms | Resumes(runtime: Runtime)
    | RollsBack(runtime: Runtime) | RestoresAbsent | Finishes | Condemns | Erases
    | Queues(now: Fields, later: Payload, secrets: set<Field>) | Cancels | Marks(db: Db)
    | MakesVolume(data: nat) | Drops(v: Volume) | Makes(c: Container) | Removes(i: nat)
    | Renames(i: nat, n: Name) | SetsPolicy(i: nat, policy: Policy) | Starts(i: nat) | Stops(i: nat)
    | RunsCopier(i: nat, life: Life) | Copies(data: nat) | Rests

  /** The program makes this step in this state. */
  ghost predicate Admissible(s: State, e: Act) {
    match e
    case Begins(p) => MayBegin(s, p)
    case Advances(phase, p) => MayAdvance(s, phase, p) && p.oldRunning == s.db.record.value.payload.oldRunning
    case Lowers => MayLower(s)
    case Commits(runtime, _) =>
      s.db.record.Some? && s.db.record.value.payload.Plan? && MayCommit(s, s.db.record.value.payload.fields, s.db.record.value.payload.secrets, runtime)
    case Confirms => MayConfirm(s)
    case Resumes(runtime) => MayResume(s, runtime)
    case RollsBack(runtime) => MayRollBack(s, runtime)
    case RestoresAbsent => MayRestoreAbsent(s)
    case Finishes => MayFinish(s)
    case Condemns => s.db.record.Some? && s.db.record.value.phase != Deleting
    case Erases => MayErase(s)
    case Queues(_, later, _) => MayQueue(s, later)
    case Cancels => s.db.record.Some? && s.db.record.value.phase == Queued
    case Marks(db) => SameBinding(s.db, db)
    case MakesVolume(_) => s.db.record.Some? && s.db.record.value.phase == Preparing && Fresh(s.db.record.value.op) !in s.volumes
    case Drops(v) => MayDrop(s, v)
    case Makes(c) => MayAdd(s, c)
    case Removes(i) => MayRemove(s, i)
    case Renames(i, n) => MayRename(s, i, n) && NameFree(s, n)
    case SetsPolicy(i, policy) => i in s.containers && i !in s.foreign && (policy == No || s.containers[i].name == Canonical)
    case Starts(i) => MayStart(s, i)
    case Stops(i) => i in s.containers && i !in s.foreign && !(s.db.record.Some? && s.db.record.value.phase == RolledBack)
    case RunsCopier(i, _) =>
      && s.db.record.Some? && s.db.record.value.phase == Switching && s.db.record.value.payload.Plan?
      && i in s.containers && i !in s.foreign && IsCopier(s.containers[i], s.db.record.value.op) && s.containers[i].name.CopyOf?
    case Copies(_) =>
      && s.db.record.Some? && s.db.record.value.phase == Switching && s.db.record.value.payload.Plan?
      && !Moved(s, s.db.record.value) && Fresh(s.db.record.value.op) in s.volumes
    case Rests =>
      s.db.record.Some? && s.db.record.value.phase == Switching && s.db.record.value.payload.Plan? && !Moved(s, s.db.record.value)
  }

  ghost function Result(s: State, e: Act): State
    requires Admissible(s, e)
  {
    match e
    case Begins(p) => Begun(s, p)
    case Advances(phase, p) => Advanced(s, phase, p)
    case Lowers => Lowered(s)
    case Commits(runtime, awaiting) => Committing(s, s.db.record.value.payload.fields, s.db.record.value.payload.secrets, runtime, awaiting)
    case Confirms => Confirming(s)
    case Resumes(runtime) => Resuming(s, runtime)
    case RollsBack(runtime) => RollingBackTo(s, runtime)
    case RestoresAbsent => RestoringAbsent(s)
    case Finishes => Finishing(s)
    case Condemns => Condemned(s)
    case Erases => Erased(s)
    case Queues(now, later, secrets) => Queueing(s, now, later, secrets)
    case Cancels => Cancelling(s)
    case Marks(db) => WithDb(s, db)
    case MakesVolume(data) => VolumeAdded(s, s.db.record.value.op, data)
    case Drops(v) => VolumeRemoved(s, v)
    case Makes(c) => Added(s, c)
    case Removes(i) => Removed(s, i)
    case Renames(i, n) => Renamed(s, i, n)
    case SetsPolicy(i, policy) => WithPolicy(s, i, policy)
    case Starts(i) => Started(s, i)
    case Stops(i) => Put(s, i, Halted(s.containers[i]))
    case RunsCopier(i, life) => Put(s, i, s.containers[i].(life := life))
    case Copies(data) => Refilled(s, Fresh(s.db.record.value.op), data)
    case Rests => Rested(s, s.db.record.value)
  }

  /** Every effect of the program keeps the invariant. */
  lemma EveryActKeepsInv(s: State, e: Act)
    requires Inv(s) && Admissible(s, e)
    ensures Inv(Result(s, e))
  {
    hide Inv, MayBegin, MayAdvance, MayLower, MayCommit, MayConfirm, MayResume, MayRollBack, MayRestoreAbsent, MayFinish, MayErase, MayQueue,
      SameBinding, MayDrop, MayAdd, MayRemove, MayRename, NameFree, MayStart, Moved;
    match e
    case Begins(p) => BeginKeepsInv(s, p);
    case Advances(phase, p) => AdvanceKeepsInv(s, phase, p);
    case Lowers => LowerKeepsInv(s);
    case Commits(runtime, awaiting) =>
      CommitKeepsInv(s, s.db.record.value.payload.fields, s.db.record.value.payload.secrets, runtime, awaiting);
    case Confirms => ConfirmKeepsInv(s);
    case Resumes(runtime) => ResumeKeepsInv(s, runtime);
    case RollsBack(runtime) => RollBackKeepsInv(s, runtime);
    case RestoresAbsent => RestoreAbsentKeepsInv(s);
    case Finishes => FinishKeepsInv(s);
    case Condemns => CondemnKeepsInv(s);
    case Erases => EraseKeepsInv(s);
    case Queues(now, later, secrets) => QueueKeepsInv(s, now, later, secrets);
    case Cancels => CancelKeepsInv(s);
    case Marks(db) => StatusKeepsInv(s, db);
    case MakesVolume(data) => VolumeAddKeepsInv(s, data);
    case Drops(v) => DropKeepsInv(s, v);
    case Makes(c) => AddKeepsInv(s, c);
    case Removes(i) => RemoveKeepsInv(s, i);
    case Renames(i, n) => RenameKeepsInv(s, i, n);
    case SetsPolicy(i, policy) => PolicyKeepsInv(s, i, policy);
    case Starts(i) => StartKeepsInv(s, i);
    case Stops(i) => StopKeepsInv(s, i);
    case RunsCopier(i, life) => CopierLifeKeepsInv(s, s.db.record.value, i, life);
    case Copies(data) => RefillKeepsInv(s, data);
    case Rests => RestKeepsInv(s, s.db.record.value);
  }

  /** From a the program can get to b by n effects. */
  ghost predicate Reaches(a: State, b: State, n: nat)
    decreases n
  {
    if n == 0 then b == a else exists m: State, e: Act :: StepsTo(m, e, b) && Reaches(a, m, n - 1)
  }

  ghost predicate StepsTo(m: State, e: Act, b: State) {
    Admissible(m, e) && b == Result(m, e)
  }

  lemma OneFurther(a: State, m: State, e: Act, n: nat)
    requires Reaches(a, m, n) && Admissible(m, e)
    ensures Reaches(a, Result(m, e), n + 1)
  {
    hide Admissible, Result;
    assert StepsTo(m, e, Result(m, e));
  }

  lemma {:induction false} ReachesSound(a: State, b: State, n: nat)
    requires Inv(a) && Reaches(a, b, n)
    ensures Inv(b)
    decreases n
  {
    hide Inv, Admissible, Result;
    if n > 0 {
      var m: State, e: Act :| StepsTo(m, e, b) && Reaches(a, m, n - 1);
      ReachesSound(a, m, n - 1);
      EveryActKeepsInv(m, e);
    }
  }

  // ---------------------------------------------------------------- the run into the trap

  /** The world of a channel that is alone on its host, with Docker at rest. */
  function Alone(containers: map<nat, Container>, nextId: nat, volumes: map<Volume, Disk>, row: Row, record: Option<Record>, nextOp: nat,
                 seeds: map<nat, Seed>, stored: bool, past: Past): State
  {
    State(containers, volumes, Db(Some(row), record, None), nextId, nextOp, row.settings, seeds, map[], map[], 0, stored, false, past)
  }

  function NewRow(settings: Settings): Row { Row(None, Original, None, Failed, None, settings) }
  function UpRow(settings: Settings): Row { Row(Some(0), Fresh(0), None, Up, None, settings) }

  const Still: Past := Past(map[], true, false, false, true)

  function Disk0(): Disk { Disk(Owned(0, false, Candidate), 7) }

  /** The first operation builds an instance where there was none. */
  function FirstPlan(id: Option<nat>): Payload {
    Plan(map[], None, Original, Initial, map[], {}, false, false, No, true, false, id)
  }

  function First(phase: Phase, id: Option<nat>): Record { Record(0, phase, FirstPlan(id)) }

  function Candidate0(name: Name, life: Life, policy: Policy): Container {
    Container(name, Owned(0, false, Candidate), life, policy, {Fresh(0)}, {Fresh(0)})
  }

  /** Nothing but the new row. */
  function Entered(settings: Settings): State {
    Newborn(settings, map[], map[], 0, 0, false)
  }

  function Begun0(settings: Settings, volumes: map<Volume, Disk>): State {
    Alone(map[], 0, volumes, NewRow(settings), Some(First(Preparing, None)), 1, map[], false, Still)
  }

  function Built(settings: Settings, name: Name, life: Life, phase: Phase, id: Option<nat>): State {
    Alone(map[0 := Candidate0(name, life, No)], 1, map[Fresh(0) := Disk0()], NewRow(settings), Some(First(phase, id)), 1,
          if life == Running then map[0 := Seed(0, 0, 0)] else map[], false, Still)
  }

  function Kept(settings: Settings, policy: Policy, record: Option<Record>): State {
    Alone(map[0 := Candidate0(Canonical, Running, policy)], 1, map[Fresh(0) := Disk0()], UpRow(settings), record, 1,
          map[0 := Seed(0, 0, 0)], true, Still)
  }

  lemma Step1(settings: Settings)
    ensures StepsTo(Entered(settings), Begins(FirstPlan(None)), Begun0(settings, map[]))
    ensures StepsTo(Begun0(settings, map[]), MakesVolume(7), Begun0(settings, map[Fresh(0) := Disk0()]))
  {
  }

  lemma Step3(settings: Settings)
    ensures StepsTo(Begun0(settings, map[Fresh(0) := Disk0()]), Makes(Candidate0(Next(0, false), Created, No)), Built(settings, Next(0, false), Created, Preparing, None))
  {
  }

  lemma Step4(settings: Settings)
    ensures StepsTo(Built(settings, Next(0, false), Created, Preparing, None), Advances(Prepared, FirstPlan(Some(0))),
                    Built(settings, Next(0, false), Created, Prepared, Some(0)))
    ensures StepsTo(Built(settings, Next(0, false), Created, Prepared, Some(0)), Advances(Switching, FirstPlan(Some(0))),
                    Built(settings, Next(0, false), Created, Switching, Some(0)))
  {
  }

  lemma Step6(settings: Settings)
    ensures StepsTo(Built(settings, Next(0, false), Created, Switching, Some(0)), Renames(0, Canonical),
                    Built(settings, Canonical, Created, Switching, Some(0)))
  {
  }

  lemma Step7(settings: Settings)
    ensures StepsTo(Built(settings, Canonical, Created, Switching, Some(0)), Advances(Validating, FirstPlan(Some(0))),
                    Built(settings, Canonical, Created, Validating, Some(0)))
  {
  }

  lemma Step8(settings: Settings)
    ensures StepsTo(Built(settings, Canonical, Created, Validating, Some(0)), Starts(0), Built(settings, Canonical, Running, Validating, Some(0)))
  {
  }

  lemma Step9(settings: Settings)
    ensures StepsTo(Built(settings, Canonical, Running, Validating, Some(0)), Commits(Runtime(0, Fresh(0), None, Up, None), false),
                    Kept(settings, No, Some(First(Committed, Some(0)))))
  {
    NothingAsked(settings, {});
  }

  lemma Step10(settings: Settings)
    ensures StepsTo(Kept(settings, No, Some(First(Committed, Some(0)))), SetsPolicy(0, UnlessStopped), Kept(settings, UnlessStopped, Some(First(Committed, Some(0)))))
  {
  }

  lemma Step11(settings: Settings)
    ensures StepsTo(Kept(settings, UnlessStopped, Some(First(Committed, Some(0)))), Finishes, Kept(settings, UnlessStopped, None))
  {
  }

  /** The second operation changes the channel, which runs by now. */
  function SecondPlan(id: Option<nat>): Payload {
    Plan(map[], Some(0), Fresh(0), Replacement, map[], {}, true, true, UnlessStopped, true, false, id)
  }

  function Second(phase: Phase, id: Option<nat>): Record { Record(1, phase, SecondPlan(id)) }

  function Candidate1(): Container {
    Container(Next(1, false), Owned(1, false, Candidate), Created, No, {Fresh(1)}, {Fresh(1)})
  }

  function Copier1(life: Life): Container {
    Container(CopyOf(1), Owned(1, false, Copier), life, No, {Fresh(0), Fresh(1)}, {Fresh(1)})
  }

  function Disks(data: nat): map<Volume, Disk> { map[Fresh(0) := Disk0(), Fresh(1) := Disk(Owned(1, false, Candidate), data)] }

  function Changing(settings: Settings, containers: map<nat, Container>, nextId: nat, volumes: map<Volume, Disk>, phase: Phase, id: Option<nat>,
                    past: Past): State
  {
    Alone(containers, nextId, volumes, UpRow(settings), Some(Second(phase, id)), 2, map[0 := Seed(0, 0, 0)], true, past)
  }

  function Pair(name: Name, life: Life, policy: Policy): map<nat, Container> {
    map[0 := Candidate0(name, life, policy), 1 := Candidate1()]
  }

  const AtRest: Past := Past(map[1 := 7], true, false, false, true)

  function Transferring(settings: Settings, life: Life, data: nat): State {
    Changing(settings, map[0 := Candidate0(Canonical, Exited, No), 1 := Candidate1(), 2 := Copier1(life)], 3, Disks(data), Switching, Some(1), AtRest)
  }

  function Single(settings: Settings, volumes: map<Volume, Disk>): State {
    Changing(settings, map[0 := Candidate0(Canonical, Running, UnlessStopped)], 1, volumes, Preparing, None, Still)
  }

  function Both(settings: Settings, life: Life, policy: Policy, phase: Phase, id: Option<nat>, past: Past): State {
    Changing(settings, Pair(Canonical, life, policy), 2, Disks(9), phase, id, past)
  }

  /** Copied, with the old container moved away. */
  function Cleared(settings: Settings, name: Name, phase: Phase): State {
    Changing(settings, Pair(name, Exited, No), 3, Disks(7), phase, Some(1), AtRest)
  }

  /** The old container still has the channel's name. */
  lemma NotMovedYet(settings: Settings)
    ensures !Moved(Both(settings, Exited, No, Switching, Some(1), Still), Second(Switching, Some(1)))
    ensures !Moved(Both(settings, Exited, No, Switching, Some(1), AtRest), Second(Switching, Some(1)))
    ensures !Moved(Transferring(settings, Running, 9), Second(Switching, Some(1)))
  {
  }

  lemma ClearedIsCopied(settings: Settings)
    ensures var s, r := Cleared(settings, Canonical, Switching), Second(Switching, Some(1)); Copied(s, r) && OldStill(s, r)
  {
  }

  lemma OldMayGoAway(settings: Settings)
    ensures MayRename(Cleared(settings, Canonical, Switching), 0, Previous(1)) && NameFree(Cleared(settings, Canonical, Switching), Previous(1))
  {
    hide Copied, OldStill;
    ClearedIsCopied(settings);
  }

  lemma CopierFits(settings: Settings)
    ensures MayAdd(Both(settings, Exited, No, Switching, Some(1), AtRest), Copier1(Created))
  {
    hide Moved;
    NotMovedYet(settings);
  }

  lemma Step12(settings: Settings)
    ensures StepsTo(Kept(settings, UnlessStopped, None), Begins(SecondPlan(None)), Single(settings, map[Fresh(0) := Disk0()]))
  {
  }

  lemma Step13(settings: Settings)
    ensures StepsTo(Single(settings, map[Fresh(0) := Disk0()]), MakesVolume(9), Single(settings, Disks(9)))
  {
  }

  lemma Step14(settings: Settings)
    ensures StepsTo(Single(settings, Disks(9)), Makes(Candidate1()), Both(settings, Running, UnlessStopped, Preparing, None, Still))
  {
  }

  lemma Step15(settings: Settings)
    ensures StepsTo(Both(settings, Running, UnlessStopped, Preparing, None, Still), Advances(Prepared, SecondPlan(Some(1))),
                    Both(settings, Running, UnlessStopped, Prepared, Some(1), Still))
  {
  }

  lemma Step16(settings: Settings)
    ensures StepsTo(Both(settings, Running, UnlessStopped, Prepared, Some(1), Still), Advances(Switching, SecondPlan(Some(1))),
                    Both(settings, Running, UnlessStopped, Switching, Some(1), Still))
  {
  }

  lemma Step17(settings: Settings)
    ensures StepsTo(Both(settings, Running, UnlessStopped, Switching, Some(1), Still), SetsPolicy(0, No), Both(settings, Running, No, Switching, Some(1), Still))
  {
  }

  lemma Step18(settings: Settings)
    ensures StepsTo(Both(settings, Running, No, Switching, Some(1), Still), Stops(0), Both(settings, Exited, No, Switching, Some(1), Still))
  {
  }

  lemma Step19(settings: Settings)
    ensures StepsTo(Both(settings, Exited, No, Switching, Some(1), Still), Rests, Both(settings, Exited, No, Switching, Some(1), AtRest))
  {
    hide Moved;
    NotMovedYet(settings);
  }

  lemma Step20(settings: Settings)
    ensures StepsTo(Both(settings, Exited, No, Switching, Some(1), AtRest), Makes(Copier1(Created)), Transferring(settings, Created, 9))
  {
    hide MayAdd;
    CopierFits(settings);
  }

  lemma Step21(settings: Settings)
    ensures StepsTo(Transferring(settings, Created, 9), RunsCopier(2, Running), Transferring(settings, Running, 9))
  {
  }

  lemma Step22(settings: Settings)
    ensures StepsTo(Transferring(settings, Running, 9), Copies(7), Transferring(settings, Running, 7))
  {
    hide Moved;
    NotMovedYet(settings);
  }

  lemma Step23(settings: Settings)
    ensures StepsTo(Transferring(settings, Running, 7), RunsCopier(2, Exited), Transferring(settings, Exited, 7))
  {
  }

  lemma Step24(settings: Settings)
    ensures StepsTo(Transferring(settings, Exited, 7), Removes(2), Cleared(settings, Canonical, Switching))
  {
  }

  lemma Step25(settings: Settings)
    ensures StepsTo(Cleared(settings, Canonical, Switching), Renames(0, Previous(1)), Cleared(settings, Previous(1), Switching))
  {
    hide MayRename, NameFree;
    OldMayGoAway(settings);
  }

  lemma Step26(settings: Settings)
    ensures StepsTo(Cleared(settings, Previous(1), Switching), Advances(RollingBack, SecondPlan(Some(1))), Cleared(settings, Previous(1), RollingBack))
  {
  }

  // ---------------------------------------------------------------- put together

  lemma BuiltFirst(settings: Settings)
    ensures Reaches(Entered(settings), Kept(settings, UnlessStopped, None), 11)
  {
    hide StepsTo, Entered, Begun0, Built, Kept, Reaches;
    var s := Entered(settings);
    NoFurther(s);
    Step1(settings);
    Further(s, s, Begun0(settings, map[]), 0);
    Further(s, Begun0(settings, map[]), Begun0(settings, map[Fresh(0) := Disk0()]), 1);
    Step3(settings);
    Further(s, Begun0(settings, map[Fresh(0) := Disk0()]), Built(settings, Next(0, false), Created, Preparing, None), 2);
    Step4(settings);
    Further(s, Built(settings, Next(0, false), Created, Preparing, None), Built(settings, Next(0, false), Created, Prepared, Some(0)), 3);
    Further(s, Built(settings, Next(0, false), Created, Prepared, Some(0)), Built(settings, Next(0, false), Created, Switching, Some(0)), 4);
    Step6(settings);
    Further(s, Built(settings, Next(0, false), Created, Switching, Some(0)), Built(settings, Canonical, Created, Switching, Some(0)), 5);
    Step7(settings);
    Further(s, Built(settings, Canonical, Created, Switching, Some(0)), Built(settings, Canonical, Created, Validating, Some(0)), 6);
    Step8(settings);
    Further(s, Built(settings, Canonical, Created, Validating, Some(0)), Built(settings, Canonical, Running, Validating, Some(0)), 7);
    Step9(settings);
    Further(s, Built(settings, Canonical, Running, Validating, Some(0)), Kept(settings, No, Some(First(Committed, Some(0)))), 8);
    Step10(settings);
    Further(s, Kept(settings, No, Some(First(Committed, Some(0)))), Kept(settings, UnlessStopped, Some(First(Committed, Some(0)))), 9);
    Step11(settings);
    Further(s, Kept(settings, UnlessStopped, Some(First(Committed, Some(0)))), Kept(settings, UnlessStopped, None), 10);
  }

  lemma NoFurther(s: State)
    ensures Reaches(s, s, 0)
  {
  }

  lemma Further(a: State, m: State, b: State, n: nat)
    requires Reaches(a, m, n) && exists e :: StepsTo(m, e, b)
    ensures Reaches(a, b, n + 1)
  {
    hide StepsTo;
  }

  lemma Stopped1(settings: Settings)
    ensures Reaches(Entered(settings), Both(settings, Exited, No, Switching, Some(1), AtRest), 19)
  {
    hide StepsTo, Entered, Kept, Single, Both, Reaches;
    var s := Entered(settings);
    BuiltFirst(settings);
    Step12(settings);
    Further(s, Kept(settings, UnlessStopped, None), Single(settings, map[Fresh(0) := Disk0()]), 11);
    Step13(settings);
    Further(s, Single(settings, map[Fresh(0) := Disk0()]), Single(settings, Disks(9)), 12);
    Step14(settings);
    Further(s, Single(settings, Disks(9)), Both(settings, Running, UnlessStopped, Preparing, None, Still), 13);
    Step15(settings);
    Further(s, Both(settings, Running, UnlessStopped, Preparing, None, Still), Both(settings, Running, UnlessStopped, Prepared, Some(1), Still), 14);
    Step16(settings);
    Further(s, Both(settings, Running, UnlessStopped, Prepared, Some(1), Still), Both(settings, Running, UnlessStopped, Switching, Some(1), Still), 15);
    Step17(settings);
    Further(s, Both(settings, Running, UnlessStopped, Switching, Some(1), Still), Both(settings, Running, No, Switching, Some(1), Still), 16);
    Step18(settings);
    Further(s, Both(settings, Running, No, Switching, Some(1), Still), Both(settings, Exited, No, Switching, Some(1), Still), 17);
    Step19(settings);
    Further(s, Both(settings, Exited, No, Switching, Some(1), Still), Both(settings, Exited, No, Switching, Some(1), AtRest), 18);
  }

  lemma PutAway1(settings: Settings)
    ensures Reaches(Entered(settings), Cleared(settings, Previous(1), RollingBack), 26)
  {
    hide StepsTo, Entered, Both, Transferring, Cleared, Reaches;
    var s := Entered(settings);
    Stopped1(settings);
    Step20(settings);
    Further(s, Both(settings, Exited, No, Switching, Some(1), AtRest), Transferring(settings, Created, 9), 19);
    Step21(settings);
    Further(s, Transferring(settings, Created, 9), Transferring(settings, Running, 9), 20);
    Step22(settings);
    Further(s, Transferring(settings, Running, 9), Transferring(settings, Running, 7), 21);
    Step23(settings);
    Further(s, Transferring(settings, Running, 7), Transferring(settings, Exited, 7), 22);
    Step24(settings);
    Further(s, Transferring(settings, Exited, 7), Cleared(settings, Canonical, Switching), 23);
    Step25(settings);
    Further(s, Cleared(settings, Canonical, Switching), Cleared(settings, Previous(1), Switching), 24);
    Step26(settings);
    Further(s, Cleared(settings, Previous(1), Switching), Cleared(settings, Previous(1), RollingBack), 25);
  }

  lemma ClearedIsAbout(settings: Settings)
    requires Inv(Cleared(settings, Previous(1), RollingBack))
    ensures AboutToRebuild(Cleared(settings, Previous(1), RollingBack), Second(RollingBack, Some(1)))
  {
    hide Inv;
  }

  lemma LastSteps(s: State, r: Record)
    requires AboutToRebuild(s, r)
    ensures StepsTo(s, Makes(Blueprint(r, true, r.payload.oldVolume)), Added(s, Blueprint(r, true, r.payload.oldVolume)))
    ensures StepsTo(Added(s, Blueprint(r, true, r.payload.oldVolume)), Renames(s.nextId, Canonical), RebuiltFrom(s, r))
    ensures StepsTo(RebuiltFrom(s, r), Lowers, Lowered(RebuiltFrom(s, r)))
  {
    hide Inv, MayAdd, MayRename, NameFree, Apart, Lowered;
    MayRebuild(s, r);
    AddedStillAbout(s, r);
    assert RebuiltFrom(s, r) == Renamed(Added(s, Blueprint(r, true, r.payload.oldVolume)), s.nextId, Canonical);
  }

  /**
   The trap is reached from a channel that has just been entered, on a host that is otherwise empty and does nothing by itself: an
   instance is built; a change stops it, copies its data and moves it away; a recovery builds the channel anew; the process dies
   after each of the last two; and a stop comes before the recovery is tried again.
   */
  lemma TrapIsReached(settings: Settings) returns (b: State)
    ensures Reaches(Newborn(settings, map[], map[], 0, 0, false), b, 29)
    ensures Inv(b) && Stuck(b) && !Recoverable(b)
  {
    hide Inv, StepsTo, Cleared, Reaches, AboutToRebuild, RebuiltFrom, Lowered, Stuck, Recoverable, Admissible, Result;
    var a, s, r := Entered(settings), Cleared(settings, Previous(1), RollingBack), Second(RollingBack, Some(1));
    PutAway1(settings);
    NewbornIsSound(settings, map[], map[], 0, 0, false);
    ReachesSound(a, s, 26);
    ClearedIsAbout(settings);
    LastSteps(s, r);
    Further(a, s, Added(s, Blueprint(r, true, r.payload.oldVolume)), 26);
    Further(a, Added(s, Blueprint(r, true, r.payload.oldVolume)), RebuiltFrom(s, r), 27);
    RebuiltIsSound(s, r);
    EveryRebuildCanTrap(s, r);
    b := Lowered(RebuiltFrom(s, r));
    Further(a, RebuiltFrom(s, r), b, 28);
  }
}
