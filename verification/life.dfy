/** The whole life of a channel: any operations in any order, with a crash after any step, and what always holds. */
module Life {
  import opened Common
  import opened Names
  import opened Settings
  import opened Journal
  import opened ReplacementStore
  import opened World
  import opened Drift
  import opened Renames
  import opened Resources
  import opened Transitions
  import opened Effects
  import opened Hosts
  import opened Closing
  import opened Recovery
  import opened Replacing
  import opened Logins
  import opened Stopping
  import opened Deletion

  /** Saves new settings: metadata at once, the rest as a wish for the next container. */
  method QueueSettings(h: Host, fields: Fields, secrets: set<Field>) returns (end: Outcome)
    requires Inv(h.S())
    modifies h, h.store
    ensures Inv(h.S())
    ensures end == Done ==> old(h.store.row).Some? && h.store.row.Some?
    ensures end == Done ==> h.store.row.value.settings == Update(old(h.store.row).value.settings, Immediate(fields), secrets)
    ensures end == Done ==> Wished(h.store.record) == Postponed(Wished(old(h.store.record)), fields, old(h.store.row).value.settings)
  {
    hide Inv, Update, Postponed, Immediate;
    var prior;
    end, prior := h.ReadJournal();
    if end != Done { return; }
    if prior.Some? && prior.value.phase != Queued { return Raised; }
    if h.store.row.None? { return Raised; }
    var row := h.store.row.value;
    var later := Postponed(Wished(prior), fields, row.settings);
    end := h.QueueIntent(prior, Immediate(fields), Intent(later, row.container, row.volume), secrets);
  }

  /** The fields that a queued record still wants. */
  function Wished(record: Option<Record>): Fields {
    if record.Some? then record.value.payload.fields else map[]
  }

  /**
   What the process does about its records when it starts. When nothing fails, an operation under way is brought to an end unless
   recovery is barred, a candidate whose login is awaited is the channel again if it still exists, and a deletion goes through.
   */
  method Boot(h: Host) returns (end: Outcome)
    requires Inv(h.S())
    modifies h, h.store
    ensures Inv(h.S()) && end != Raised
    ensures !Underway(old(h.S())) ==> h.S() == old(h.S())
    ensures h.Calm() && Underway(old(h.S())) ==>
      var r := old(h.store.record).value;
      match r.phase
      case AwaitingLogin => (exists i :: i in old(h.containers) && IsCandidate(old(h.containers)[i], r.op)) ==> Shown(h.S())
      case Deleting => r.payload.Plan? ==> h.store.Rows() == Db(None, None, None) && forall i | i in h.containers :: i in h.foreign
      case _ => Recoverable(old(h.S())) <==> h.store.record.None?
  {
    hide Inv, Closed, Closable, Trap, Restored, Attached, Recovered, Recoverable, Stuck, Shown;
    var record;
    end, record := h.ReadJournal();
    if end == Done && record.Some? && record.value.phase != Queued {
      if record.value.phase == AwaitingLogin { end := ReconcileWaiting(h); }
      else if record.value.phase == Deleting { var found; end, found := Discard(h); }
      else { end := Recover(h); }
    }
    if end == Raised { end := Done; }
  }

  /** The container in the row runs under the channel's name. */
  predicate RunsNow(s: State) {
    ChannelUp(s) && s.containers[s.db.row.value.container.value].life == Running
  }

  /** A probe gets an answer only through the running container in the row, under the channel's name. */
  method ProbeChannel(h: Host) returns (end: Outcome, connected: bool)
    requires Inv(h.S())
    modifies h`containers, h`volumes, h`answers
    ensures Inv(h.S()) && h.S().db == old(h.S()).db
    ensures connected ==> ChannelUp(h.S()) && Vouched(old(h.answers), h.answers)
    ensures !h.faults ==> end == Done
    ensures end == Done && Vouched(old(h.answers), h.answers) && !h.drift && RunsNow(old(h.S())) ==> connected
  {
    hide Inv, Evolves;
    var latency;
    end, connected, latency := h.Probe();
    DriftKeepsInv(old(h.S()), h.S());
    EvolvesShape(old(h.S()), h.S());
    connected := connected && h.store.row.Some? && h.store.row.value.container.Some?
      && h.store.row.value.container.value in h.containers
      && h.containers[h.store.row.value.container.value].name == Canonical
      && h.containers[h.store.row.value.container.value].life == Running;
  }

  /** The container in the row is the candidate whose login is awaited. */
  predicate MayConfirmLogin(s: State) {
    AwaitsLogin(s) && s.db.record.value.payload.Plan? && s.db.row.Some? && s.db.row.value.container == s.db.record.value.payload.newId
  }

  /** A probe through the channel that has succeeded confirms a login that is awaited. */
  method ProbeAndConfirm(h: Host) returns (end: Outcome)
    requires Inv(h.S())
    modifies h`containers, h`volumes, h`answers, h.store
    ensures Inv(h.S()) && h.S().db.row == old(h.S()).db.row
    ensures h.S().db != old(h.S()).db ==> old(h.store.record).Some? && old(h.store.record).value.phase == AwaitingLogin
    ensures h.S().db != old(h.S()).db ==> h.store.record == Some(old(h.store.record).value.(phase := Committed))
    ensures h.S().db != old(h.S()).db ==> old(h.store.record).value.payload.Plan? && old(h.store.row).value.container == old(h.store.record).value.payload.newId
    ensures h.S().db != old(h.S()).db ==> Vouched(old(h.answers), h.answers)
    ensures h.Calm() && Vouched(old(h.answers), h.answers) && RunsNow(old(h.S())) && MayConfirmLogin(old(h.S())) ==>
              h.store.record == Some(old(h.store.record).value.(phase := Committed))
  {
    hide Inv;
    var connected;
    end, connected := ProbeChannel(h);
    if connected && end == Done { end := Confirmed(h); }
  }

  /** One operation of the caller's choice; how it ends is the world's choice. */
  method Step(h: Host, fields: Fields, secrets: set<Field>) returns (end: Outcome)
    requires Inv(h.S())
    modifies h, h.store
    ensures Inv(h.S())
  {
    hide Inv, Closed, Closable, Trap, Restored, Attached, Recovered, Recoverable, Stuck, Caught, GoneOn, NewSide, OldSide, Stands;
    var choice, byo, must, again: bool := *, *, *, *;
    var done;
    if choice == 0 { end := Replace(h, fields, secrets, again, byo, must); }
    else if choice == 1 { end := Recover(h); }
    else if choice == 2 { end := Cleanup(h); }
    else if choice == 3 { end, done := Resume(h, secrets, byo, must); }
    else if choice == 4 { end := Apply(h); }
    else if choice == 5 { end := ReconcileWaiting(h); }
    else if choice == 6 { end, done := Discard(h); }
    else if choice == 7 { end := QueueSettings(h, fields, secrets); }
    else if choice == 8 { var ticket: nat := *; end := h.RequestStop(ticket); }
    else if choice == 9 { end := ProbeAndConfirm(h); }
    else if choice == 10 { end := BeforeStop(h); }
    else { end := Boot(h); }
  }

  /**
   Any number of operations in changing weather, each of which may be cut short after any of its effects
   and followed by a restart.
   */
  method Live(h: Host, wishes: seq<Fields>, secrets: set<Field>)
    requires Inv(h.S())
    modifies h, h.store
    ensures Inv(h.S())
  {
    hide Inv;
    for i := 0 to |wishes|
      invariant Inv(h.S())
    {
      var faults, drift := *, *;
      h.Weather(faults, drift);
      var end := Step(h, wishes[i], secrets);
      if end == Crashed { end := Boot(h); }
    }
  }
}
