/** Write-ahead-journalled fault drills: every change is journalled before it is made, and recovery undoes exactly that. */
module FaultDrill {
  import opened Prelude

  type Settings = map<string, string>

  /** null removes a key, as in the settings API. */
  type Patch = map<string, Option<string>>

  datatype Scenario =
    | NodeStop | NodeCrash | MasterFailover | TooManyReplicas | AllocationDisabled | AllocationFilter
    | WriteBlock | DrainNode | DiskWatermark | ZoneAwareness | RebalanceDisabled

  /** What a drill can disturb: both settings scopes, the seed indices' settings, stopped nodes, and other indices by owner. */
  datatype World = World(persistent: Settings, transient: Settings, indices: map<string, Settings>,
                         down: set<string>, canaries: map<string, string>)

  datatype Status = Preparing | Injected | Observed | Recovering | RecoveryFailed | Recovered

  datatype Journal = Journal(scenario: Scenario, runId: string, canary: string, node: string, index: string,
                             persistentOriginal: Patch, transientOriginal: Patch, indexOriginal: map<string, Patch>,
                             restartNeeded: bool, status: Status)

  const ALLOCATION := "cluster.routing.allocation.enable"
  const EXCLUDE := "cluster.routing.allocation.exclude._name"
  const AWARENESS := "cluster.routing.allocation.awareness.attributes"
  const REBALANCE := "cluster.routing.rebalance.enable"
  const DISK_KEYS := {"cluster.routing.allocation.disk.watermark.low", "cluster.routing.allocation.disk.watermark.high",
                      "cluster.routing.allocation.disk.watermark.flood_stage",
                      "cluster.routing.allocation.disk.threshold_enabled", "cluster.info.update.interval"}
  const REPLICAS := "index.number_of_replicas"

  predicate StopsNode(s: Scenario) { s.NodeStop? || s.NodeCrash? || s.MasterFailover? }

  /** The cluster settings a scenario is going to change. */
  function Keys(s: Scenario): set<string> {
    match s
    case AllocationDisabled => {ALLOCATION}
    case DrainNode => {EXCLUDE}
    case ZoneAwareness => {AWARENESS}
    case RebalanceDisabled => {REBALANCE}
    case DiskWatermark => DISK_KEYS
    case _ => {}
  }

  /** The cluster settings a scenario applies; exclude and thresholds depend on the cluster as it is. */
  function Values(s: Scenario, exclude: string, thresholds: Patch): Patch {
    match s
    case AllocationDisabled => map["cluster.routing.allocation.enable" := Some("none")]
    case DrainNode => map["cluster.routing.allocation.exclude._name" := Some(exclude)]
    case ZoneAwareness => map["cluster.routing.allocation.awareness.attributes" := Some("zone")]
    case RebalanceDisabled => map["cluster.routing.rebalance.enable" := Some("none")]
    case DiskWatermark => thresholds
    case _ => map[]
  }

  /** A scenario journals exactly the settings it applies. */
  lemma ValuesKeys(s: Scenario, exclude: string, thresholds: Patch)
    requires thresholds.Keys == DISK_KEYS
    ensures Values(s, exclude, thresholds).Keys == Keys(s)
  {
  }

  function Get(s: Settings, k: string): Option<string> { if k in s then Some(s[k]) else None }

  function Apply(s: Settings, p: Patch): Settings {
    map k | k in s.Keys + p.Keys && (if k in p then p[k].Some? else true) :: if k in p then p[k].value else s[k]
  }

  lemma ApplyGet(s: Settings, p: Patch, k: string)
    ensures Get(Apply(s, p), k) == if k in p then p[k] else Get(s, k)
  {
  }

  function Originals(s: Settings, keys: set<string>): Patch { map k | k in keys :: Get(s, k) }
  function Nulls(keys: set<string>): Patch { map k | k in keys :: None }

  predicate Holds(s: Settings, p: Patch) { forall k :: k in p ==> Get(s, k) == p[k] }

  /** Some settings differ from others only in keys the patch remembers, with the value to go back to. */
  ghost predicate Remembered(base: Settings, now: Settings, p: Patch) {
    forall k :: Get(now, k) != Get(base, k) ==> k in p && p[k] == Get(base, k)
  }

  /** Every remembered value is the one the setting had at the start. */
  ghost predicate Faithful(base: Settings, p: Patch) { forall k :: k in p ==> p[k] == Get(base, k) }

  /** An index under the canary's name that this run does not own. */
  predicate Foreign(canaries: map<string, string>, canary: string, runId: string) {
    canary in canaries && canaries[canary] != runId
  }

  /** A fresh run id marks no index yet; an index of another owner may well be under the canary's name. */
  predicate Unmarked(canaries: map<string, string>, canary: string, runId: string) {
    canary in canaries ==> canaries[canary] != runId
  }

  /** Indices other than this run's own canary are as they were, and the canary is only there if its name was free. */
  ghost predicate CanaryOnly(base: World, now: World, j: Journal) {
    && Unmarked(base.canaries, j.canary, j.runId)
    && (now.canaries == base.canaries || (j.canary !in base.canaries && now.canaries == base.canaries[j.canary := j.runId]))
  }

  ghost predicate IndexRemembered(base: World, now: World, j: Journal, index: string)
    requires base.indices.Keys == now.indices.Keys && index in base.indices
  {
    var p := if index in j.indexOriginal then j.indexOriginal[index] else map[];
    Remembered(base.indices[index], now.indices[index], p) && Faithful(base.indices[index], p)
  }

  /** Whatever differs from the baseline is in the saved journal with the value to go back to; without a journal nothing differs. */
  ghost predicate Covered(base: World, now: World, journal: Option<Journal>) {
    match journal
    case None => now == base
    case Some(j) =>
      && Remembered(base.persistent, now.persistent, j.persistentOriginal) && Faithful(base.persistent, j.persistentOriginal)
      && Remembered(base.transient, now.transient, j.transientOriginal) && Faithful(base.transient, j.transientOriginal)
      && base.indices.Keys == now.indices.Keys && j.indexOriginal.Keys <= base.indices.Keys
      && (forall index :: index in base.indices ==> IndexRemembered(base, now, j, index))
      && base.down == {} && now.down <= (if j.restartNeeded then {j.node} else {})
      && CanaryOnly(base, now, j)
  }

  lemma {:induction false} PatchRemembered(base: Settings, now: Settings, p: Patch, q: Patch)
    requires Remembered(base, now, p) && Faithful(base, p) && q.Keys <= p.Keys
    ensures Remembered(base, Apply(now, q), p)
  {
    forall k ensures Get(Apply(now, q), k) != Get(base, k) ==> k in p && p[k] == Get(base, k) { ApplyGet(now, q, k); }
    hide Apply;
  }

  lemma {:induction false} SettingsEqual(a: Settings, b: Settings)
    requires forall k :: Get(a, k) == Get(b, k)
    ensures a == b
  {
    forall k ensures k in a <==> k in b { assert Get(a, k) == Get(b, k); }
    forall k | k in a ensures a[k] == b[k] { assert Get(a, k) == Get(b, k); }
  }

  /** Remembered differences that all hold their original value again are no differences. */
  lemma {:induction false} Restored(base: Settings, now: Settings, p: Patch)
    requires Remembered(base, now, p) && Faithful(base, p) && Holds(now, p)
    ensures now == base
  {
    forall k ensures Get(now, k) == Get(base, k) {}
    SettingsEqual(now, base);
  }

  // ---- the drill ----

  /** How one external call ends; Crash ends the process with it. */
  datatype Fate = Fine | Fails(applied: bool) | Crash(applied: bool)

  predicate Applied(fate: Fate) { fate.Fine? || fate.applied }

  datatype Ending = Finished | Raised | Died

  /** The external calls of a drill, in the order it makes them. */
  datatype Call =
    | Preflight | SaveJournal | CreateCanary | SaveRestart | StopNode | ChangeSettings | SaveInjected | CheckFault | SaveObserved
    | Hold | SaveProblem
    | Guard | SaveStarted | StartNode | RestoreSettings | RestoreIndex(index: string) | LookBack | DeleteCanary
    | SaveResult | WriteArchive | Unlink

  /** The scenario's fault, and nothing else, is in the world: read key by key, node by node. */
  ghost predicate Faulted(before: World, after: World, scenario: Scenario, node: string, index: string, values: Patch, replicas: string) {
    && after == before.(persistent := after.persistent, transient := after.transient, indices := after.indices, down := after.down)
    && after.down == before.down + (if scenario.NodeStop? || scenario.NodeCrash? || scenario.MasterFailover? then {node} else {})
    && (forall k :: Get(after.persistent, k) == if k in values then values[k] else Get(before.persistent, k))
    && (forall k :: Get(after.transient, k) == if k in values then None else Get(before.transient, k))
    && after.indices.Keys == before.indices.Keys
    && forall i, k :: i in before.indices ==>
        Get(after.indices[i], k) == if scenario.TooManyReplicas? && i == index && k == REPLICAS then Some(replicas) else Get(before.indices[i], k)
  }

  ghost predicate AllFine(fates: Call -> Fate) { forall call :: fates(call).Fine? }

  /** state is what the process knows, journal the file active.json. */
  class Drill {
    var world: World
    var state: Option<Journal>
    var journal: Option<Journal>
    var archive: map<string, Journal>

    /** A new process finds the world and the files as the last one left them, and knows nothing. */
    constructor (world: World, journal: Option<Journal>, archive: map<string, Journal>)
      ensures this.world == world && this.journal == journal && this.archive == archive && state == None
    {
      this.world, this.journal, this.archive, state := world, journal, archive, None;
    }

    /** Every deviation from the baseline is covered by the file, and by what the process knows. */
    ghost predicate Held(base: World)
      reads this
    {
      Covered(base, world, journal) && (state.Some? ==> Covered(base, world, state))
    }

    /** What recover works from. */
    function Subject(): Option<Journal>
      reads this
    {
      if state.Some? then state else journal
    }

    /** Another owner's index sits under the canary's name. */
    predicate Obstructed()
      reads this
    {
      Subject().Some? && Foreign(world.canaries, Subject().value.canary, Subject().value.runId)
    }

    method PutCluster(p: Patch, t: Patch, fate: Fate)
      modifies this`world
      ensures world == if Applied(fate)
        then old(world).(persistent := Apply(old(world).persistent, p), transient := Apply(old(world).transient, t)) else old(world)
    {
      if Applied(fate) { world := world.(persistent := Apply(world.persistent, p), transient := Apply(world.transient, t)); }
    }

    method PutIndex(index: string, p: Patch, fate: Fate)
      requires index in world.indices
      modifies this`world
      ensures world == if Applied(fate)
        then old(world).(indices := old(world).indices[index := Apply(old(world).indices[index], p)]) else old(world)
    {
      if Applied(fate) { world := world.(indices := world.indices[index := Apply(world.indices[index], p)]); }
    }

    /** event: the change of status is known at once, and on file if the write happens. */
    method Save(ghost base: World, status: Status, fate: Fate)
      requires state.Some? && Held(base)
      modifies this`state, this`journal
      ensures state == Some(old(state).value.(status := status)) && Held(base)
      ensures journal == if Applied(fate) then state else old(journal)
    {
      hide Covered;
      StatusSaved(base, world, state.value, status);
      state := Some(state.value.(status := status));
      if Applied(fate) { journal := state; }
    }

    /**
     * begin: journal first, then the canary, then the fault. exclude, thresholds and replicas are computed from what
     * the cluster reports, node is the target it settled on; the first call that does not end well ends the method.
     */
    method Begin(scenario: Scenario, node: string, index: string, runId: string, canary: string,
                 exclude: string, thresholds: Patch, replicas: string, fates: Call -> Fate) returns (end: Ending)
      requires thresholds.Keys == DISK_KEYS && index in world.indices && world.down == {}
      requires state.None? && Unmarked(world.canaries, canary, runId)
      modifies this`world, this`state, this`journal
      ensures old(journal).Some? ==> end == Raised && world == old(world) && journal == old(journal) && state.None?
      ensures old(journal).None? ==> Held(old(world))
      ensures state.None? ==> world == old(world) && journal == old(journal) && !end.Finished?
      ensures state.Some? ==> state.value.canary == canary && state.value.runId == runId
      ensures Foreign(old(world).canaries, canary, runId) ==> world == old(world) && !end.Finished?
      ensures end.Finished? ==> journal == state && journal.Some? && journal.value.status.Observed?
      ensures end.Finished? ==> Faulted(old(world).(canaries := old(world).canaries[canary := runId]), world, scenario, node, index,
        Values(scenario, exclude, thresholds), replicas)
      ensures old(journal).None? && canary !in old(world).canaries && AllFine(fates) ==> end.Finished?
    {
      hide Covered, Originals, Nulls, Keys, Faulted, Values;
      if journal.Some? { return Raised; }
      ghost var base := world;
      NothingChanged(base);
      if !fates(Preflight).Fine? { return Bad(fates(Preflight)); }
      var j := Journal(scenario, runId, canary, node, index,
                       Originals(world.persistent, Keys(scenario)), Originals(world.transient, Keys(scenario)),
                       if scenario.TooManyReplicas? then map[index := Originals(world.indices[index], {REPLICAS})] else map[],
                       false, Preparing);
      BaselineCovered(base, j);
      state := Some(j);
      Save(base, Preparing, fates(SaveJournal));
      if !fates(SaveJournal).Fine? { return Bad(fates(SaveJournal)); }

      // Elasticsearch creates no index under a name that is taken.
      if canary in world.canaries { return Bad(fates(CreateCanary)); }
      CanaryAdded(base, world, j);
      if Applied(fates(CreateCanary)) { world := world.(canaries := world.canaries[canary := runId]); }
      if !fates(CreateCanary).Fine? { return Bad(fates(CreateCanary)); }
      var values := Values(scenario, exclude, thresholds);
      ValuesKeys(scenario, exclude, thresholds);
      var broken := Break(base, index, values, replicas, fates);
      if !broken.Finished? { return broken; }

      Save(base, Injected, fates(SaveInjected));
      if !fates(SaveInjected).Fine? { return Bad(fates(SaveInjected)); }
      if !fates(CheckFault).Fine? { return Bad(fates(CheckFault)); }
      Save(base, Observed, fates(SaveObserved));
      if !fates(SaveObserved).Fine? { return Bad(fates(SaveObserved)); }
      end := Finished;
    }

    /** The fault itself. */
    method Break(ghost base: World, index: string, values: Patch, replicas: string, fates: Call -> Fate) returns (end: Ending)
      requires state.Some? && journal == state && Held(base)
      requires var j := state.value;
        && values.Keys == Keys(j.scenario) == j.persistentOriginal.Keys == j.transientOriginal.Keys
        && (j.scenario.TooManyReplicas? ==> index in j.indexOriginal && j.indexOriginal[index].Keys == {REPLICAS})
      modifies this`world, this`state, this`journal
      ensures Held(base) && state.Some? && journal.Some?
      ensures state.value == old(state).value.(restartNeeded := state.value.restartNeeded)
      ensures end.Finished? ==> journal == state && Faulted(old(world), world, state.value.scenario, state.value.node, index, values, replicas)
      ensures AllFine(fates) ==> end.Finished?
    {
      hide Covered, Nulls, Keys, Apply;
      var j := state.value;
      if StopsNode(j.scenario) {
        RestartNoted(base, world, j);
        j := j.(restartNeeded := true);
        state := Some(j);
        if Applied(fates(SaveRestart)) { journal := state; }
        if !fates(SaveRestart).Fine? { return Bad(fates(SaveRestart)); }
        NodeStopped(base, world, j);
        if Applied(fates(StopNode)) { world := world.(down := world.down + {j.node}); }
        if !fates(StopNode).Fine? { return Bad(fates(StopNode)); }
        assert values == map[] by { NoKeys(j.scenario, values); }
      } else if j.scenario.TooManyReplicas? {
        IndexChanged(base, world, j, map[REPLICAS := Some(replicas)], index);
        PutIndex(index, map[REPLICAS := Some(replicas)], fates(ChangeSettings));
        if !fates(ChangeSettings).Fine? { return Bad(fates(ChangeSettings)); }
        assert values == map[] by { NoKeys(j.scenario, values); }
        ReplicasFaulted(old(world), world, j.scenario, j.node, index, values, replicas);
      } else if values != map[] {
        PatchKeys(world.persistent, values.Keys);
        ClusterChanged(base, world, j, values, Nulls(values.Keys));
        PutCluster(values, Nulls(values.Keys), fates(ChangeSettings));
        if !fates(ChangeSettings).Fine? { return Bad(fates(ChangeSettings)); }
        SettingsFaulted(old(world), world, j.scenario, j.node, index, values, replicas);
      }
      end := Finished;
    }

    // ---- recover ----

    /** recover: restore, verify, remove the canary, and only then the journal. */
    method Recover(ghost base: World, fates: Call -> Fate) returns (end: Ending)
      requires Held(base)
      modifies this`world, this`state, this`journal, this`archive
      ensures Held(base)
      ensures end.Finished? ==>
        world == base && journal.None? && old(Subject()).Some?
        && old(Subject()).value.runId in archive && archive[old(Subject()).value.runId].status.Recovered?
      ensures !end.Finished? && old(journal).Some? ==> journal.Some? || world == base
      ensures old(Obstructed()) ==> !end.Finished? && world.canaries == old(world).canaries
      ensures old(Subject()).Some? && !old(Obstructed()) && AllFine(fates) ==> end.Finished?
    {
      hide Covered;
      if state.None? && journal.None? { return Raised; }
      if state.None? { state := journal; }
      if !fates(Guard).Fine? { return Bad(fates(Guard)); }
      Save(base, Recovering, fates(SaveStarted));
      if !fates(SaveStarted).Fine? { return Bad(fates(SaveStarted)); }
      var j := state.value;
      RestartNode(base, j, fates(StartNode));
      if fates(StartNode).Crash? { return Died; }
      RestoreCluster(base, j, fates(RestoreSettings));
      if fates(RestoreSettings).Crash? { return Died; }
      var failed, died := RestoreIndices(base, j, fates);
      if died { return Died; }
      end := Verify(base, j, failed || fates(StartNode).Fails? || fates(RestoreSettings).Fails?, fates);
    }

    method RestartNode(ghost base: World, j: Journal, fate: Fate)
      requires Held(base) && journal == state == Some(j)
      modifies this`world
      ensures Held(base) && world == old(world).(down := world.down)
      ensures fate.Fine? ==> world.down == {}
    {
      hide Covered;
      DownIsTarget(base, world, j);
      if j.restartNeeded {
        NodeStarted(base, world, j);
        if Applied(fate) { world := world.(down := world.down - {j.node}); }
      }
    }

    method RestoreCluster(ghost base: World, j: Journal, fate: Fate)
      requires Held(base) && journal == state == Some(j)
      modifies this`world
      ensures Held(base) && world == old(world).(persistent := world.persistent, transient := world.transient)
      ensures fate.Fine? ==> Holds(world.persistent, j.persistentOriginal) && Holds(world.transient, j.transientOriginal)
    {
      hide Covered, Apply;
      if j.persistentOriginal != map[] || j.transientOriginal != map[] {
        ClusterChanged(base, world, j, j.persistentOriginal, j.transientOriginal);
        ApplyHolds(world.persistent, j.persistentOriginal);
        ApplyHolds(world.transient, j.transientOriginal);
        PutCluster(j.persistentOriginal, j.transientOriginal, fate);
      }
    }

    method RestoreIndices(ghost base: World, j: Journal, fates: Call -> Fate) returns (failed: bool, died: bool)
      requires Held(base) && journal == state == Some(j)
      modifies this`world
      ensures Held(base) && world == old(world).(indices := world.indices)
      ensures AllFine(fates) ==> !failed && !died && IndicesHold(world.indices, j)
    {
      hide Covered, Apply, Holds;
      failed, died := false, false;
      var rest := j.indexOriginal.Keys;
      while rest != {}
        invariant Held(base) && world == old(world).(indices := world.indices) && rest <= j.indexOriginal.Keys
        invariant AllFine(fates) ==> !failed
        invariant AllFine(fates) ==> forall i :: i in j.indexOriginal && i !in rest && i in world.indices ==> Holds(world.indices[i], j.indexOriginal[i])
        decreases |rest|
      {
        var index :| index in rest;
        rest := rest - {index};
        IndexChanged(base, world, j, j.indexOriginal[index], index);
        ApplyHolds(world.indices[index], j.indexOriginal[index]);
        PutIndex(index, j.indexOriginal[index], fates(RestoreIndex(index)));
        if fates(RestoreIndex(index)).Crash? { return failed, true; }
        failed := failed || fates(RestoreIndex(index)).Fails?;
      }
    }

    /** The second half of recover: look at what is really there, remove the canary if all is well, then the journal. */
    method Verify(ghost base: World, j: Journal, failed: bool, fates: Call -> Fate) returns (end: Ending)
      requires Held(base) && journal == state == Some(j)
      modifies this`world, this`state, this`journal, this`archive
      ensures Held(base)
      ensures end.Finished? ==> world == base && journal.None? && j.runId in archive && archive[j.runId].status.Recovered?
      ensures !end.Finished? ==> journal.Some? || world == base
      ensures Foreign(old(world).canaries, j.canary, j.runId) ==> !end.Finished? && world.canaries == old(world).canaries
      ensures !failed && Looks(old(world), j) && AllFine(fates) && !Foreign(old(world).canaries, j.canary, j.runId) ==> end.Finished?
    {
      hide Covered, Holds, IndicesHold;
      var well, died := RemoveCanary(base, j, fates);
      if died { return Died; }
      if failed || !well {
        Save(base, RecoveryFailed, fates(SaveResult));
        return if fates(SaveResult).Crash? then Died else Raised;
      }
      AllRestored(base, world, j);
      Save(base, Recovered, fates(SaveResult));
      if !fates(SaveResult).Fine? { return Bad(fates(SaveResult)); }
      if Applied(fates(WriteArchive)) { archive := archive[j.runId := state.value]; }
      if !fates(WriteArchive).Fine? { return Bad(fates(WriteArchive)); }
      NothingChanged(base);
      if Applied(fates(Unlink)) { journal := None; }
      if !fates(Unlink).Fine? { return Bad(fates(Unlink)); }
      end := Finished;
    }

    /** stable, the settings read back, and then owned_canary: an index is deleted only under the canary's name and this run's mark. */
    method RemoveCanary(ghost base: World, j: Journal, fates: Call -> Fate) returns (well: bool, died: bool)
      requires Held(base) && journal == state == Some(j)
      modifies this`world
      ensures Held(base) && world == old(world).(canaries := world.canaries)
      ensures world.canaries == old(world).canaries
        || (!Foreign(old(world).canaries, j.canary, j.runId) && world.canaries == Without(old(world).canaries, j.canary))
      ensures well ==> Looks(world, j) && j.canary !in world.canaries
      ensures AllFine(fates) ==> !died && (well <==> Looks(world, j) && !Foreign(old(world).canaries, j.canary, j.runId))
    {
      hide Covered, Holds, IndicesHold;
      well, died := Looks(world, j) && fates(LookBack).Fine?, fates(LookBack).Crash?;
      if died || !well || j.canary !in world.canaries { return; }
      if world.canaries[j.canary] != j.runId { return false, false; }
      CanaryRemoved(base, world, j);
      if Applied(fates(DeleteCanary)) { world := world.(canaries := Without(world.canaries, j.canary)); }
      well, died := fates(DeleteCanary).Fine?, fates(DeleteCanary).Crash?;
    }

    /**
     * run: begin and hold; whatever is raised is noted and rolled back from what the process knows, and so is a good
     * drill unless it was to be left in place.
     */
    method Run(scenario: Scenario, node: string, index: string, runId: string, canary: string,
               exclude: string, thresholds: Patch, replicas: string, leave: bool, fates: Call -> Fate, recovery: Call -> Fate) returns (end: Ending)
      requires thresholds.Keys == DISK_KEYS && index in world.indices && world.down == {}
      requires state.None? && Unmarked(world.canaries, canary, runId)
      modifies this`world, this`state, this`journal, this`archive
      ensures old(journal).Some? ==> end == Raised && world == old(world) && journal == old(journal)
      ensures old(journal).None? ==> Covered(old(world), world, journal)
      ensures old(journal).None? && end.Finished? ==> if leave then journal.Some? else world == old(world) && journal.None?
      ensures Foreign(old(world).canaries, canary, runId) ==> !end.Finished? && world.canaries == old(world).canaries
      ensures end.Finished? && leave ==>
        Faulted(old(world).(canaries := old(world).canaries[canary := runId]), world, scenario, node, index,
        Values(scenario, exclude, thresholds), replicas)
      ensures old(journal).None? && canary !in old(world).canaries && AllFine(fates) && AllFine(recovery) ==> end.Finished?
      ensures old(journal).None? && end.Raised? && AllFine(recovery) && !Foreign(old(world).canaries, canary, runId) ==>
        world == old(world) && journal.None?
    {
      hide Covered, Keys, Faulted, Values;
      if journal.Some? { return Raised; }
      ghost var base := world;
      var begun := Begin(scenario, node, index, runId, canary, exclude, thresholds, replicas, fates);
      if begun.Finished? && !fates(Hold).Fine? { begun := Bad(fates(Hold)); }
      if begun.Died? { return Died; }
      if begun.Raised? && state.Some? {
        if Applied(fates(SaveProblem)) { journal := state; }
        if fates(SaveProblem).Crash? { return Died; }
      }
      if state.None? || (leave && begun.Finished?) { return begun; }
      CanaryStands(base, world, state.value);
      end := Recover(base, recovery);
      if end.Finished? && begun.Raised? { end := Raised; }
    }
  }

  /** The settings remembered for every seed index read back. */
  predicate IndicesHold(indices: map<string, Settings>, j: Journal) {
    forall index :: index in j.indexOriginal && index in indices ==> Holds(indices[index], j.indexOriginal[index])
  }

  /** Stable membership, and every remembered setting reads back as it was. */
  predicate Looks(world: World, j: Journal) {
    && world.down == {} && Holds(world.persistent, j.persistentOriginal) && Holds(world.transient, j.transientOriginal)
    && IndicesHold(world.indices, j)
  }

  function Bad(fate: Fate): Ending { if fate.Crash? then Died else Raised }

  function Without(canaries: map<string, string>, name: string): map<string, string> {
    map c | c in canaries && c != name :: canaries[c]
  }

  // ---- what each change keeps ----

  lemma NothingChanged(base: World)
    ensures Covered(base, base, None)
  {
  }

  lemma PatchKeys(s: Settings, keys: set<string>)
    ensures Originals(s, keys).Keys == keys && Nulls(keys).Keys == keys
  {
  }

  lemma {:induction false} BaselineCovered(base: World, j: Journal)
    requires base.down == {} && Unmarked(base.canaries, j.canary, j.runId) && j.index in base.indices
    requires j.persistentOriginal == Originals(base.persistent, Keys(j.scenario)) && j.transientOriginal == Originals(base.transient, Keys(j.scenario))
    requires j.indexOriginal == map[] || j.indexOriginal == map[j.index := Originals(base.indices[j.index], {REPLICAS})]
    ensures Covered(base, base, Some(j)) && j.persistentOriginal.Keys == Keys(j.scenario) && j.transientOriginal.Keys == Keys(j.scenario)
    ensures j.index in j.indexOriginal ==> j.indexOriginal[j.index].Keys == {REPLICAS}
  {
    hide Keys, Remembered, Faithful;
    OriginalsFaithful(base.persistent, Keys(j.scenario));
    OriginalsFaithful(base.transient, Keys(j.scenario));
    OriginalsFaithful(base.indices[j.index], {REPLICAS});
    forall index | index in base.indices ensures IndexRemembered(base, base, j, index) { OriginalsFaithful(base.indices[index], {}); }
  }

  lemma OriginalsFaithful(s: Settings, keys: set<string>)
    ensures Originals(s, keys).Keys == keys && Remembered(s, s, Originals(s, keys)) && Faithful(s, Originals(s, keys))
    ensures Remembered(s, s, map[]) && Faithful(s, map[])
  {
  }

  /** Two journals that remember the same originals cover the same deviations. */
  lemma {:induction false} StatusSaved(base: World, now: World, j: Journal, status: Status)
    requires Covered(base, now, Some(j))
    ensures Covered(base, now, Some(j.(status := status)))
  {
    var j' := j.(status := status);
    hide Remembered, Faithful;
    forall index | index in base.indices ensures IndexRemembered(base, now, j', index) { assert IndexRemembered(base, now, j, index); }
  }

  lemma {:induction false} RestartNoted(base: World, now: World, j: Journal)
    requires Covered(base, now, Some(j))
    ensures Covered(base, now, Some(j.(restartNeeded := true)))
  {
    var j' := j.(restartNeeded := true);
    hide Remembered, Faithful;
    forall index | index in base.indices ensures IndexRemembered(base, now, j', index) { assert IndexRemembered(base, now, j, index); }
  }

  /** Changes to nodes and canaries leave the settings part alone. */
  lemma {:induction false} SettingsAside(base: World, now: World, now': World, j: Journal)
    requires Covered(base, now, Some(j)) && now' == now.(down := now'.down, canaries := now'.canaries)
    requires now'.down <= (if j.restartNeeded then {j.node} else {}) && CanaryOnly(base, now', j)
    ensures Covered(base, now', Some(j))
  {
    hide Remembered, Faithful;
    forall index | index in base.indices ensures IndexRemembered(base, now', j, index) { assert IndexRemembered(base, now, j, index); }
  }

  lemma {:induction false} NodeStopped(base: World, now: World, j: Journal)
    requires Covered(base, now, Some(j)) && j.restartNeeded
    ensures Covered(base, now.(down := now.down + {j.node}), Some(j))
  {
    SettingsAside(base, now, now.(down := now.down + {j.node}), j);
  }

  lemma {:induction false} NodeStarted(base: World, now: World, j: Journal)
    requires Covered(base, now, Some(j))
    ensures Covered(base, now.(down := now.down - {j.node}), Some(j))
  {
    SettingsAside(base, now, now.(down := now.down - {j.node}), j);
  }

  lemma NoKeys(scenario: Scenario, values: Patch)
    requires values.Keys == Keys(scenario) && (StopsNode(scenario) || scenario.TooManyReplicas?)
    ensures values == map[]
  {
  }

  lemma {:induction false} SettingsFaulted(before: World, after: World, scenario: Scenario, node: string, index: string, values: Patch, replicas: string)
    requires !StopsNode(scenario) && !scenario.TooManyReplicas?
    requires after == before.(persistent := Apply(before.persistent, values), transient := Apply(before.transient, Nulls(values.Keys)))
    ensures Faulted(before, after, scenario, node, index, values, replicas)
  {
    hide Apply;
    forall k ensures Get(after.persistent, k) == if k in values then values[k] else Get(before.persistent, k) { ApplyGet(before.persistent, values, k); }
    forall k ensures Get(after.transient, k) == if k in values then None else Get(before.transient, k) { ApplyGet(before.transient, Nulls(values.Keys), k); }
  }

  lemma {:induction false} ReplicasFaulted(before: World, after: World, scenario: Scenario, node: string, index: string, values: Patch, replicas: string)
    requires scenario.TooManyReplicas? && values == map[] && index in before.indices
    requires after == before.(indices := before.indices[index := Apply(before.indices[index], map[REPLICAS := Some(replicas)])])
    ensures Faulted(before, after, scenario, node, index, values, replicas)
  {
    hide Apply;
    forall i, k | i in before.indices
      ensures Get(after.indices[i], k) == if i == index && k == REPLICAS then Some(replicas) else Get(before.indices[i], k)
    {
      ApplyGet(before.indices[index], map[REPLICAS := Some(replicas)], k);
    }
  }

  lemma DownIsTarget(base: World, now: World, j: Journal)
    requires Covered(base, now, Some(j))
    ensures now.down <= (if j.restartNeeded then {j.node} else {})
  {
  }

  /** An index of another owner under the canary's name was there from the start, and is what is there still. */
  lemma CanaryStands(base: World, now: World, j: Journal)
    requires Covered(base, now, Some(j))
    ensures Foreign(now.canaries, j.canary, j.runId) <==> Foreign(base.canaries, j.canary, j.runId)
  {
  }

  lemma ApplyHolds(s: Settings, p: Patch)
    ensures Holds(Apply(s, p), p)
  {
    forall k | k in p ensures Get(Apply(s, p), k) == p[k] { ApplyGet(s, p, k); }
  }

  lemma {:induction false} CanaryAdded(base: World, now: World, j: Journal)
    requires Covered(base, now, Some(j)) && j.canary !in now.canaries
    ensures Covered(base, now.(canaries := now.canaries[j.canary := j.runId]), Some(j))
  {
    var now' := now.(canaries := now.canaries[j.canary := j.runId]);
    assert now'.canaries == base.canaries[j.canary := j.runId];
    SettingsAside(base, now, now', j);
  }

  /** Removing the canary is covered because the mark says it is this run's own. */
  lemma {:induction false} CanaryRemoved(base: World, now: World, j: Journal)
    requires Covered(base, now, Some(j)) && j.canary in now.canaries && now.canaries[j.canary] == j.runId
    ensures Covered(base, now.(canaries := Without(now.canaries, j.canary)), Some(j))
  {
    var now' := now.(canaries := Without(now.canaries, j.canary));
    assert now'.canaries == base.canaries;
    SettingsAside(base, now, now', j);
  }

  lemma {:induction false} ClusterChanged(base: World, now: World, j: Journal, p: Patch, t: Patch)
    requires Covered(base, now, Some(j)) && p.Keys <= j.persistentOriginal.Keys && t.Keys <= j.transientOriginal.Keys
    ensures Covered(base, now.(persistent := Apply(now.persistent, p), transient := Apply(now.transient, t)), Some(j))
  {
    PatchRemembered(base.persistent, now.persistent, j.persistentOriginal, p);
    PatchRemembered(base.transient, now.transient, j.transientOriginal, t);
    var now' := now.(persistent := Apply(now.persistent, p), transient := Apply(now.transient, t));
    hide Remembered, Faithful, Apply;
    forall index | index in base.indices ensures IndexRemembered(base, now', j, index) { assert IndexRemembered(base, now, j, index); }
  }

  lemma {:induction false} IndexChanged(base: World, now: World, j: Journal, p: Patch, index: string)
    requires Covered(base, now, Some(j)) && index in j.indexOriginal && p.Keys <= j.indexOriginal[index].Keys
    ensures index in now.indices && Covered(base, now.(indices := now.indices[index := Apply(now.indices[index], p)]), Some(j))
  {
    assert IndexRemembered(base, now, j, index);
    PatchRemembered(base.indices[index], now.indices[index], j.indexOriginal[index], p);
    var now' := now.(indices := now.indices[index := Apply(now.indices[index], p)]);
    hide Remembered, Faithful, Apply;
    forall i | i in base.indices ensures IndexRemembered(base, now', j, i) { assert IndexRemembered(base, now, j, i); }
  }

  /** Everything remembered reads back, the node is up and the canary gone: nothing differs from the baseline. */
  lemma {:induction false} AllRestored(base: World, now: World, j: Journal)
    requires Covered(base, now, Some(j)) && Looks(now, j) && j.canary !in now.canaries
    ensures now == base
  {
    Restored(base.persistent, now.persistent, j.persistentOriginal);
    Restored(base.transient, now.transient, j.transientOriginal);
    hide Remembered, Faithful;
    forall index | index in base.indices ensures now.indices[index] == base.indices[index] {
      assert IndexRemembered(base, now, j, index);
      Restored(base.indices[index], now.indices[index], if index in j.indexOriginal then j.indexOriginal[index] else map[]);
    }
  }
}
