/** What every run of prepares, keyed pushes, evictions and failed loads keeps. */
module PreparedTheorems {
  import opened Lru
  import opened RefCat
  import opened PreparedConfig

  // ---------------------------------------------------------------- the invariant

  ghost predicate CommandsOk(w: World, commands: map<PrepareKey, Command>) {
    forall k :: k in commands ==> KeyOf(w, commands[k]) == Hit(k) && FreshEntry(w, commands[k]).Hit?
  }

  /** The entry is what its own prepare command builds from nothing. */
  ghost predicate EntryOk(w: World, commands: map<PrepareKey, Command>, k: PrepareKey, e: Entry) {
    k in commands && FreshEntry(w, commands[k]) == Hit(e) && e.key == k
  }

  ghost predicate PreparedOk(w: World, prepared: Dict<PrepareKey, Entry>, commands: map<PrepareKey, Command>) {
    forall k {:trigger Get(prepared, k)} :: Get(prepared, k).Hit? ==> EntryOk(w, commands, k, Get(prepared, k).value)
  }

  ghost predicate DetectorOk(w: World, slot: Found<(DetectorId, DetectorHalf)>) {
    slot.Hit? ==> slot.value.1 == w.loadDetector(slot.value.0)
  }

  /** Keyed by identity; the names are the same for every detector half. */
  ghost predicate FiltersOk(w: World, filters: Dict<FilterId, FilterHalf>) {
    forall id {:trigger Get(filters, id)} :: Get(filters, id).Hit? ==>
      Get(filters, id).value == w.loadFilter(id, w.loadDetector(0).names)
  }

  ghost predicate ActiveOk(w: World, commands: map<PrepareKey, Command>, active: Found<Active>) {
    active.Hit? ==> EntryOk(w, commands, active.value.entry.key, active.value.entry)
                    && exists ids :: active.value.calib == FreshCalib(w, ids)
  }

  ghost predicate Good(w: World, c: Caches) {
    && CommandsOk(w, c.commands)
    && PreparedOk(w, c.prepared, c.commands)
    && DetectorOk(w, c.detector)
    && FiltersOk(w, c.filters)
    && CacheValid(w.sky, c.shards)
    && ActiveOk(w, c.commands, c.active)
  }

  lemma {:induction false} StartGood(w: World)
    ensures Good(w, START)
  {
  }

  // ---------------------------------------------------------------- calib halves

  lemma {:induction false} DetectorIsLoad(w: World, c: Caches, id: DetectorId, loads: bool)
    requires DetectorOk(w, c.detector)
    ensures var e := EnsureDetector(w, c, id, loads);
            && DetectorOk(w, e.caches.detector)
            && e.caches == c.(detector := e.caches.detector)
            && (e.result.Hit? ==> e.result.value.0 == w.loadDetector(id))
            && (e.result.Missing? ==> e.caches == c)
  {
  }

  lemma {:induction false} TouchFilters(w: World, filters: Dict<FilterId, FilterHalf>, id: FilterId, f: FilterHalf)
    requires FiltersOk(w, filters) && f == w.loadFilter(id, w.loadDetector(0).names)
    ensures FiltersOk(w, Touch(filters, id, f))
    ensures FiltersOk(w, Trim(Touch(filters, id, f), CALIB_CACHE_CAP))
  {
    hide Touch, Trim;
    var t := Touch(filters, id, f);
    forall q ensures Get(t, q).Hit? ==> Get(t, q).value == w.loadFilter(q, w.loadDetector(0).names) {
      GetTouch(filters, id, f, q);
    }
    forall q | Get(Trim(t, CALIB_CACHE_CAP), q).Hit? ensures Get(Trim(t, CALIB_CACHE_CAP), q) == Get(t, q) {
      GetTrim(t, CALIB_CACHE_CAP, q);
    }
  }

  lemma {:induction false} FilterIsLoad(w: World, c: Caches, id: FilterId, names: seq<string>, loads: bool)
    requires FiltersOk(w, c.filters) && names == w.loadDetector(0).names
    ensures var e := EnsureFilter(w, c, id, names, loads);
            && FiltersOk(w, e.caches.filters)
            && e.caches == c.(filters := e.caches.filters)
            && (e.result.Hit? ==> e.result.value.0 == w.loadFilter(id, names))
            && (e.result.Missing? ==> e.caches == c)
  {
    hide Touch, Trim;
    match Get(c.filters, id) {
      case Hit(f) => TouchFilters(w, c.filters, id, f);
      case Missing => TouchFilters(w, c.filters, id, w.loadFilter(id, names));
    }
  }

  /** Each calib half in hand is the load of what the backend resolves now for this command, whatever
      the caches held; `reused` is true exactly when the call would also have returned with no load
      possible; and a failed call leaves everything but the calib caches alone. */
  lemma {:induction false} CalibsAreResolved(w: World, c: Caches, command: Command, env: Env)
    requires SameNames(w) && DetectorOk(w, c.detector) && FiltersOk(w, c.filters)
    ensures var e := EnsureCalib(w, c, command, env);
            && DetectorOk(w, e.caches.detector) && FiltersOk(w, e.caches.filters)
            && e.caches == c.(detector := e.caches.detector, filters := e.caches.filters)
            && (e.result.Hit? ==>
                  && env.resolve(command.filter, command.time).Hit?
                  && e.result.value.0 == FreshCalib(w, env.resolve(command.filter, command.time).value)
                  && (e.result.value.1.reused <==>
                        EnsureCalib(w, c, command, env.(detectorLoads := false, filterLoads := false)).result.Hit?))
  {
    hide DetectorOk, FiltersOk, Touch, Trim;
    if env.resolve(command.filter, command.time).Hit? {
      var ids := env.resolve(command.filter, command.time).value;
      DetectorIsLoad(w, c, ids.detector, env.detectorLoads);
      var d := EnsureDetector(w, c, ids.detector, env.detectorLoads);
      if d.result.Hit? {
        var names := d.result.value.0.names;
        assert names == w.loadDetector(0).names;
        FilterIsLoad(w, d.caches, ids.filtered, names, env.filterLoads);
      }
    }
  }

  ghost predicate DetectorCached(c: Caches, id: DetectorId) {
    c.detector.Hit? && c.detector.value.0 == id
  }

  /** Each half of these calibs is cached or can be read. */
  ghost predicate HalvesAvailable(c: Caches, ids: CalibIds, env: Env) {
    && (DetectorCached(c, ids.detector) || env.detectorLoads)
    && (ids.filtered in Keys(c.filters) || env.filterLoads)
  }

  ghost predicate CalibsAvailable(c: Caches, command: Command, env: Env) {
    var ids := env.resolve(command.filter, command.time);
    ids.Hit? && HalvesAvailable(c, ids.value, env)
  }

  /** Over the caches alone: the call returns exactly when the backend resolves and each half is cached or can
      be read; a half is reported reused exactly when it was cached under the identity resolved now, and
      `reused` means both were; the detector slot then holds the identity resolved, and is left alone when
      its half could not be had. */
  lemma {:induction false} CalibsExact(w: World, c: Caches, command: Command, env: Env)
    ensures var e := EnsureCalib(w, c, command, env);
            var found := env.resolve(command.filter, command.time);
            && (e.result.Hit? <==> CalibsAvailable(c, command, env))
            && (e.result.Hit? ==>
                  && (e.result.value.1.detectorReused <==> DetectorCached(c, found.value.detector))
                  && (e.result.value.1.filterReused <==> found.value.filtered in Keys(c.filters))
                  && (e.result.value.1.reused <==>
                        DetectorCached(c, found.value.detector) && found.value.filtered in Keys(c.filters)))
            && (found.Hit? && (DetectorCached(c, found.value.detector) || env.detectorLoads) ==>
                  DetectorCached(e.caches, found.value.detector))
            && (found.Missing? || (!DetectorCached(c, found.value.detector) && !env.detectorLoads) ==>
                  e.caches.detector == c.detector)
  {
    hide Touch, Trim, Keys;
    var found := env.resolve(command.filter, command.time);
    if found.Hit? {
      HitIsKey(c.filters, found.value.filtered);
    }
  }

  // ---------------------------------------------------------------- entries

  /** Activation switches every mirror at once, or, when it raises, none. */
  lemma {:induction false} ActivateIsFresh(w: World, c: Caches, entry: Entry, command: Command, env: Env)
    requires SameNames(w) && Good(w, c)
    requires EntryOk(w, c.commands, entry.key, entry) && KeyOf(w, command) == Hit(entry.key)
    ensures var a := Activate(w, c, entry, command, env);
            && Good(w, a.caches)
            && a.caches.prepared == c.prepared && a.caches.commands == c.commands
            && (a.result.Missing? ==> a.caches.active == c.active)
            && (a.result.Hit? ==> a.caches.active.Hit? && a.caches.active == Uncached(w, command, env)
                                  && a.caches.active.value.entry == entry)
  {
    hide CommandsOk, PreparedOk, DetectorOk, FiltersOk, CacheValid, EnsureCalib, FreshCalib, FreshEntry, KeyOf;
    CalibsAreResolved(w, c, command, env);
    EntryIsFresh(w, c.commands, entry, command);
    var a := Activate(w, c, entry, command, env);
    if a.result.Hit? {
      assert a.caches.active.value.calib == FreshCalib(w, env.resolve(command.filter, command.time).value);
    }
  }

  lemma {:induction false} EntryIsFresh(w: World, commands: map<PrepareKey, Command>, entry: Entry, command: Command)
    requires CommandsOk(w, commands) && EntryOk(w, commands, entry.key, entry)
    requires KeyOf(w, command) == Hit(entry.key)
    ensures FreshEntry(w, command) == Hit(entry)
  {
    hide FreshEntry, KeyOf;
    SameKeySameBuild(w, command, commands[entry.key], Env((f, t) => Missing, false, false, false, {}));
  }

  /** A cold build is the fresh entry, whatever shards were cached. */
  lemma {:induction false} BuildIsFresh(w: World, c: Caches, key: PrepareKey, command: Command, env: Env)
    requires CacheValid(w.sky, c.shards) && KeyOf(w, command) == Hit(key)
    ensures var b := BuildEntry(w, c, key, command, env);
            && CacheValid(w.sky, b.caches.shards)
            && b.caches == c.(shards := b.caches.shards)
            && (b.result.Hit? ==> FreshEntry(w, command) == Hit(b.result.value.0))
  {
    hide CacheValid, EnsureStore, Loaded, Edits, KeyOfOverrides;
    EmptyStoreLoaded(w.sky);
    StoreRefinesLoad(w.sky, c.shards, EMPTY_STORE, key.refcat, env.present);
  }

  /** Asking a cached entry's store for its own shards changes nothing. */
  lemma {:induction false} ReuseIsNoOp(w: World, c: Caches, key: PrepareKey, entry: Entry, command: Command, env: Env)
    requires KeyOf(w, command) == Hit(key) && FreshEntry(w, command) == Hit(entry)
    ensures Reuse(w, c, key, entry, command, env)
            == Outcome(c.(prepared := Touch(c.prepared, key, entry)), Hit((entry, ReportOf(true, 0, entry.store))))
  {
    hide Touch, KeyOfOverrides, Edits;
  }

  lemma {:induction false} TouchPrepared(w: World, prepared: Dict<PrepareKey, Entry>, commands: map<PrepareKey, Command>, k: PrepareKey, e: Entry)
    requires PreparedOk(w, prepared, commands) && EntryOk(w, commands, k, e)
    ensures PreparedOk(w, Touch(prepared, k, e), commands)
    ensures PreparedOk(w, Trim(Touch(prepared, k, e), PREPARED_CACHE_CAP), commands)
  {
    hide Touch, Trim, EntryOk;
    var t := Touch(prepared, k, e);
    forall q ensures Get(t, q).Hit? ==> EntryOk(w, commands, q, Get(t, q).value) {
      GetTouch(prepared, k, e, q);
    }
    forall q | Get(Trim(t, PREPARED_CACHE_CAP), q).Hit? ensures Get(Trim(t, PREPARED_CACHE_CAP), q) == Get(t, q) {
      GetTrim(t, PREPARED_CACHE_CAP, q);
    }
  }

  lemma {:induction false} EntryOkAfter(w: World, commands: map<PrepareKey, Command>, key: PrepareKey, command: Command, k: PrepareKey, e: Entry)
    requires CommandsOk(w, commands) && KeyOf(w, command) == Hit(key) && EntryOk(w, commands, k, e)
    ensures EntryOk(w, commands[key := command], k, e)
  {
    hide KeyOf, FreshEntry;
    if k == key {
      SameKeySameBuild(w, commands[k], command, Env((f, t) => Missing, false, false, false, {}));
    }
  }

  /** Recording a newer command for a key leaves every entry the build of its recorded command. */
  lemma {:induction false} RecordCommand(w: World, c: Caches, key: PrepareKey, command: Command)
    requires Good(w, c) && KeyOf(w, command) == Hit(key) && FreshEntry(w, command).Hit?
    ensures Good(w, c.(commands := c.commands[key := command]))
  {
    hide EntryOk, KeyOf, FreshEntry, DetectorOk, FiltersOk, CacheValid;
    var after := c.commands[key := command];
    forall k | Get(c.prepared, k).Hit? ensures EntryOk(w, after, k, Get(c.prepared, k).value) {
      EntryOkAfter(w, c.commands, key, command, k, Get(c.prepared, k).value);
    }
    if c.active.Hit? {
      EntryOkAfter(w, c.commands, key, command, c.active.value.entry.key, c.active.value.entry);
    }
  }

  /** With the key's command on record, a cold build keeps the invariant. */
  lemma {:induction false} InsertIsFresh(w: World, c: Caches, key: PrepareKey, command: Command, env: Env)
    requires Good(w, c) && key in c.commands && KeyOf(w, command) == Hit(key)
    ensures var e := Insert(w, c, key, command, env);
            && Good(w, e.caches)
            && e.caches == c.(shards := e.caches.shards, prepared := e.caches.prepared)
            && (e.result.Hit? ==>
                  && EntryOk(w, c.commands, key, e.result.value.0)
                  && e.caches.prepared == Trim(Touch(c.prepared, key, e.result.value.0), PREPARED_CACHE_CAP))
            && (e.result.Missing? ==> e.caches.prepared == c.prepared)
  {
    hide PreparedOk, DetectorOk, FiltersOk, CacheValid, ActiveOk, BuildEntry, FreshEntry, KeyOf, Touch, Trim;
    BuildIsFresh(w, c, key, command, env);
    var b := BuildEntry(w, c, key, command, env);
    if b.result.Hit? {
      SameKeySameBuild(w, command, c.commands[key], env);
      FreshKey(w, c.commands[key]);
      TouchPrepared(w, c.prepared, c.commands, key, b.result.value.0);
    }
  }

  lemma {:induction false} FreshKey(w: World, command: Command)
    ensures FreshEntry(w, command).Hit? ==> KeyOf(w, command) == Hit(FreshEntry(w, command).value.key)
  {
    hide KeyOf, Loaded, Edits;
  }

  lemma {:induction false} InsertThenRecord(w: World, c: Caches, key: PrepareKey, command: Command, env: Env)
    requires Good(w, c) && KeyOf(w, command) == Hit(key)
    ensures var e := Insert(w, c, key, command, env);
            if e.result.Missing? then Good(w, e.caches) && e.caches.active == c.active else
              && FreshEntry(w, command).Hit?
              && e.caches.(commands := e.caches.commands[key := command])
                 == Insert(w, c.(commands := c.commands[key := command]), key, command, env).caches
              && e.result == Insert(w, c.(commands := c.commands[key := command]), key, command, env).result
  {
    hide CommandsOk, PreparedOk, DetectorOk, FiltersOk, CacheValid, ActiveOk, FreshEntry, KeyOf, Touch, Trim, EnsureStore;
    BuildIsFresh(w, c, key, command, env);
  }

  // ---------------------------------------------------------------- the two entry points

  /** From any reachable state, a prepare that returns leaves the process exactly as a build with no
      caches would, and its reply carries that build's dump; one that raises leaves the previous
      active configuration whole. */
  lemma {:induction false} PrepareIsUncached(w: World, c: Caches, command: Command, env: Env)
    requires SameNames(w) && Good(w, c)
    ensures var e := EnsurePrepared(w, c, command, env);
            && Good(w, e.caches)
            && (e.result.Missing? ==> e.caches.active == c.active)
            && (e.result.Hit? ==>
                  && e.caches.active.Hit? && e.caches.active == Uncached(w, command, env)
                  && e.result.value.dump == e.caches.active.value.entry.built.dump
                  && KeyOf(w, command) == Hit(e.result.value.key))
  {
    hide Good, Insert, Reuse, KeyOf, FreshEntry, EntryOk, Activate;
    if KeyOf(w, command).Hit? {
      var key := KeyOf(w, command).value;
      if Get(c.prepared, key).Hit? {
        PrepareHit(w, c, key, command, env);
      } else {
        PrepareMiss(w, c, key, command, env);
      }
    }
  }

  lemma {:induction false} PrepareHit(w: World, c: Caches, key: PrepareKey, command: Command, env: Env)
    requires SameNames(w) && Good(w, c) && KeyOf(w, command) == Hit(key) && Get(c.prepared, key).Hit?
    ensures var entry := Get(c.prepared, key).value;
            var e := Reuse(w, c, key, entry, command, env);
            && e.result.Hit? && e.result.value.0 == entry
            && ActivatesAs(w, c, e.caches, entry, command, env)
  {
    hide Touch, Reuse, Activate, KeyOf, FreshEntry, DetectorOk, FiltersOk, CacheValid;
    var entry := Get(c.prepared, key).value;
    EntryIsFresh(w, c.commands, entry, command);
    ReuseIsNoOp(w, c, key, entry, command, env);
    TouchPrepared(w, c.prepared, c.commands, key, entry);
    ActivateIsFresh(w, c.(prepared := Touch(c.prepared, key, entry)), entry, command, env);
  }

  /** Activating `entry` from `mid` ends in the uncached configuration, or raises with the mirrors of
      `c` in place. */
  ghost predicate ActivatesAs(w: World, c: Caches, mid: Caches, entry: Entry, command: Command, env: Env) {
    var a := Activate(w, mid, entry, command, env);
    && Good(w, a.caches)
    && a.caches.prepared == mid.prepared
    && (a.result.Missing? ==> a.caches.active == c.active)
    && (a.result.Hit? ==> a.caches.active.Hit? && a.caches.active == Uncached(w, command, env)
                          && a.caches.active.value.entry == entry)
  }

  lemma {:induction false} PrepareMiss(w: World, c: Caches, key: PrepareKey, command: Command, env: Env)
    requires SameNames(w) && Good(w, c) && KeyOf(w, command) == Hit(key)
    ensures var e := Insert(w, c, key, command, env);
            if e.result.Missing? then Good(w, e.caches) && e.caches.active == c.active
            else ActivatesAs(w, c, e.caches.(commands := e.caches.commands[key := command]), e.result.value.0, command, env)
  {
    hide Good, Insert, KeyOf, FreshEntry, Touch, Trim;
    InsertThenRecord(w, c, key, command, env);
    if Insert(w, c, key, command, env).result.Hit? {
      RecordCommand(w, c, key, command);
      InsertActivates(w, c.(commands := c.commands[key := command]), key, command, env);
    }
  }

  lemma {:induction false} InsertActivates(w: World, c: Caches, key: PrepareKey, command: Command, env: Env)
    requires SameNames(w) && Good(w, c) && key in c.commands && KeyOf(w, command) == Hit(key)
    ensures var e := Insert(w, c, key, command, env);
            && Good(w, e.caches) && e.caches.active == c.active
            && (e.result.Hit? ==> ActivatesAs(w, c, e.caches, e.result.value.0, command, env))
  {
    hide Good, Insert, KeyOf, FreshEntry, Touch, Trim, Activate;
    InsertIsFresh(w, c, key, command, env);
    var e := Insert(w, c, key, command, env);
    if e.result.Hit? {
      ActivateIsFresh(w, e.caches, e.result.value.0, command, env);
    }
  }

  /** A keyed push runs under exactly the fresh build of its own prepare command (any command with
      that key, since they all build the same), or raises and leaves the mirrors alone; a key that was
      never prepared raises. */
  lemma {:induction false} PushIsUncached(w: World, c: Caches, key: PrepareKey, command: Command, env: Env)
    requires SameNames(w) && Good(w, c) && KeyOf(w, command) == Hit(key)
    ensures var e := EnsureForPush(w, c, key, env);
            && Good(w, e.caches)
            && (key !in c.commands ==> e.result.Missing?)
            && (e.result.Missing? ==> e.caches.active == c.active)
            && (e.result.Hit? ==> e.caches.active.Hit? && e.caches.active == Uncached(w, command, env)
                                  && e.caches.active.value.entry == e.result.value)
  {
    hide Good, KeyOf, FreshEntry, Insert, Activate, Touch;
    if key in c.commands {
      CommandHasKey(w, c, key);
      SameKeySameBuild(w, c.commands[key], command, env);
      if Get(c.prepared, key).Hit? {
        var entry := Get(c.prepared, key).value;
        PushHit(w, c, key, entry, env);
      } else {
        InsertActivates(w, c, key, c.commands[key], env);
      }
    }
  }

  lemma {:induction false} CommandHasKey(w: World, c: Caches, key: PrepareKey)
    requires Good(w, c) && key in c.commands
    ensures KeyOf(w, c.commands[key]) == Hit(key) && FreshEntry(w, c.commands[key]).Hit?
  {
  }

  lemma {:induction false} PushHit(w: World, c: Caches, key: PrepareKey, entry: Entry, env: Env)
    requires SameNames(w) && Good(w, c) && key in c.commands && Get(c.prepared, key) == Hit(entry)
    ensures ActivatesAs(w, c, c.(prepared := Touch(c.prepared, key, entry)), entry, c.commands[key], env)
  {
    hide KeyOf, FreshEntry, Touch, Activate, DetectorOk, FiltersOk, CacheValid;
    TouchPrepared(w, c.prepared, c.commands, key, entry);
    ActivateIsFresh(w, c.(prepared := Touch(c.prepared, key, entry)), entry, c.commands[key], env);
  }

  // ---------------------------------------------------------------- runs

  /** What the child's command loop can be asked to do that concerns the caches: prepare, or a keyed
      push (a keyed ingest does the same). */
  datatype Op = Prepare(command: Command, env: Env) | Push(key: PrepareKey, env: Env)

  ghost function Step(w: World, c: Caches, op: Op): Caches {
    match op
    case Prepare(command, env) => EnsurePrepared(w, c, command, env).caches
    case Push(key, env) => EnsureForPush(w, c, key, env).caches
  }

  ghost function Run(w: World, ops: seq<Op>): Caches {
    if ops == [] then START else Step(w, Run(w, ops[..|ops| - 1]), ops[|ops| - 1])
  }

  lemma {:induction false} StepGood(w: World, c: Caches, op: Op)
    requires SameNames(w) && Good(w, c)
    ensures Good(w, Step(w, c, op))
  {
    hide Good, EnsurePrepared, EnsureForPush, KeyOf;
    match op {
      case Prepare(command, env) => PrepareIsUncached(w, c, command, env);
      case Push(key, env) =>
        if key in c.commands {
          CommandHasKey(w, c, key);
          PushIsUncached(w, c, key, c.commands[key], env);
        } else {
          UnknownKey(w, c, key, env);
        }
    }
  }

  lemma {:induction false} UnknownKey(w: World, c: Caches, key: PrepareKey, env: Env)
    requires key !in c.commands
    ensures EnsureForPush(w, c, key, env) == Outcome(c, Missing)
  {
  }

  lemma {:induction false} RunGood(w: World, ops: seq<Op>)
    requires SameNames(w)
    ensures Good(w, Run(w, ops))
  {
    hide Good, Step;
    if ops == [] {
      StartGood(w);
    } else {
      RunGood(w, ops[..|ops| - 1]);
      StepGood(w, Run(w, ops[..|ops| - 1]), ops[|ops| - 1]);
    }
  }

  /** Some prepare of the run was for this key. */
  ghost predicate Asked(w: World, ops: seq<Op>, key: PrepareKey) {
    exists i :: 0 <= i < |ops| && ops[i].Prepare? && KeyOf(w, ops[i].command) == Hit(key)
  }

  lemma {:induction false} StepCommands(w: World, c: Caches, op: Op)
    ensures forall k :: k in Step(w, c, op).commands ==>
              k in c.commands || (op.Prepare? && KeyOf(w, op.command) == Hit(k))
  {
    hide KeyOf, Touch, Trim, EnsureStore, Loaded, Edits;
  }

  lemma {:induction false} OnlyAsked(w: World, ops: seq<Op>, key: PrepareKey)
    requires key in Run(w, ops).commands
    ensures Asked(w, ops, key)
  {
    hide KeyOf, Step;
    if ops != [] {
      var n := |ops| - 1;
      StepCommands(w, Run(w, ops[..n]), ops[n]);
      if key in Run(w, ops[..n]).commands {
        OnlyAsked(w, ops[..n], key);
        var i :| 0 <= i < n && ops[..n][i].Prepare? && KeyOf(w, ops[..n][i].command) == Hit(key);
        assert ops[i] == ops[..n][i];
      }
    }
  }

  /** The main result: after any sequence of prepares, pushes, evictions and failed loads, a keyed push
      either runs under exactly the task, filter, shard set and resolved calibs of an uncached build
      from its own prepare command, or raises and changes nothing a later job reads. A key no prepare
      of the run asked for raises. */
  lemma {:induction false} KeyedPushIsItsOwn(w: World, ops: seq<Op>, command: Command, key: PrepareKey, env: Env)
    requires SameNames(w) && KeyOf(w, command) == Hit(key)
    ensures var c := Run(w, ops);
            var e := EnsureForPush(w, c, key, env);
            && (e.result.Hit? ==> Asked(w, ops, key) && e.caches.active == Uncached(w, command, env))
            && (e.result.Missing? ==> e.caches.active == c.active)
  {
    hide Good, EnsureForPush, KeyOf, Asked;
    RunGood(w, ops);
    PushIsUncached(w, Run(w, ops), key, command, env);
    if key in Run(w, ops).commands {
      OnlyAsked(w, ops, key);
    }
  }

  // ---------------------------------------------------------------- when a push must succeed

  /** Nothing outside fails during this call. */
  ghost predicate AllWorks(command: Command, refcat: set<ShardId>, env: Env) {
    && env.detectorLoads && env.filterLoads && env.setupWorks && refcat <= env.present
    && env.resolve(command.filter, command.time).Hit?
  }

  lemma {:induction false} CalibsLoad(w: World, c: Caches, command: Command, env: Env)
    requires env.detectorLoads && env.filterLoads && env.resolve(command.filter, command.time).Hit?
    ensures EnsureCalib(w, c, command, env).result.Hit?
  {
    hide Touch, Trim;
  }

  lemma {:induction false} BuildWorks(w: World, c: Caches, key: PrepareKey, command: Command, env: Env)
    requires KeyOf(w, command) == Hit(key) && FreshEntry(w, command).Hit? && env.setupWorks && key.refcat <= env.present
    ensures Insert(w, c, key, command, env).result.Hit?
  {
    hide Touch, Trim, Edits, KeyOfOverrides, EnsureShards, Loaded;
    SortedDistinct(key.refcat);
    EnsureOrder(w.sky, c.shards, Sorted(key.refcat), env.present);
  }

  /** A key that was once built never goes missing, evicted or not: when nothing outside fails, its push
      runs. */
  lemma {:induction false} PushOfPreparedRuns(w: World, c: Caches, key: PrepareKey, env: Env)
    requires Good(w, c) && key in c.commands && AllWorks(c.commands[key], key.refcat, env)
    ensures EnsureForPush(w, c, key, env).result.Hit?
  {
    hide Good, KeyOf, FreshEntry, Touch, Insert, EnsureCalib;
    CommandHasKey(w, c, key);
    var command := c.commands[key];
    var found := Get(c.prepared, key);
    if found.Hit? {
      CalibsLoad(w, c.(prepared := Touch(c.prepared, key, found.value)), command, env);
    } else {
      BuildWorks(w, c, key, command, env);
      CalibsLoad(w, Insert(w, c, key, command, env).caches, command, env);
    }
  }

  ghost predicate Readable(shards: Dict<ShardId, Children>, wanted: set<ShardId>, present: set<ShardId>) {
    forall id :: id in wanted ==> Get(shards, id).Hit? || id in present
  }

  /** A cold build succeeds exactly when the overrides are accepted, the set-up works and every shard is cached
      or on disk; it then reports exactly the parents it read. */
  lemma {:induction false} InsertWhen(w: World, c: Caches, key: PrepareKey, command: Command, env: Env)
    requires KeyOf(w, command) == Hit(key)
    ensures var e := Insert(w, c, key, command, env);
            && (e.result.Hit? <==>
                  w.build(Edits(command.overrides)).Hit? && env.setupWorks && Readable(c.shards, key.refcat, env.present))
            && (e.result.Hit? ==> ColdReport(c, key, e.result.value.1))
            && e.caches.detector == c.detector && e.caches.filters == c.filters && e.caches.commands == c.commands
  {
    hide Touch, Trim, Edits, KeyOfOverrides, EnsureStore, Loaded, Readable;
    StoreReturnsWhen(w.sky, c.shards, EMPTY_STORE, key.refcat, env.present);
    ReadableIs(c.shards, key.refcat, env.present);
    ColdStore(w, c, key, env);
  }

  ghost predicate ColdReport(c: Caches, key: PrepareKey, r: Report) {
    && r.Report? && (r.reused <==> key.refcat == {}) && r.files == |key.refcat|
    && r.loaded == Absent(c.shards, Sorted(key.refcat)) && r.kept == |key.refcat| - r.loaded
  }

  lemma {:induction false} ReadableIs(shards: Dict<ShardId, Children>, wanted: set<ShardId>, present: set<ShardId>)
    ensures Readable(shards, wanted, present) <==>
              wanted == EMPTY_STORE.shardIds || forall id :: id in wanted ==> Get(shards, id).Hit? || id in present
  {
  }

  lemma {:induction false} ColdStore(w: World, c: Caches, key: PrepareKey, env: Env)
    ensures var (_, _, r) := EnsureStore(w.sky, c.shards, EMPTY_STORE, key.refcat, env.present);
            r.Report? ==> ColdReport(c, key, r)
  {
    hide Walk;
    SortedDistinct(key.refcat);
    EnsureOrder(w.sky, c.shards, Sorted(key.refcat), env.present);
    if key.refcat == {} {
      assert Sorted({}) == [];
    }
  }

  /** A prepare returns exactly when its pointing gives a key, the key's entry is cached or can be built, and
      its calibs are available. The reply says truthfully which of them were reused: a task exactly when its
      entry was cached, and then nothing is built or read for it. */
  lemma {:induction false} PrepareReturnsWhen(w: World, c: Caches, command: Command, env: Env)
    requires Good(w, c)
    ensures var e := EnsurePrepared(w, c, command, env);
            && (e.result.Hit? <==>
                  && KeyOf(w, command).Hit?
                  && (KeyOf(w, command).value in Keys(c.prepared)
                      || (w.build(Edits(command.overrides)).Hit? && env.setupWorks
                          && Readable(c.shards, KeyOf(w, command).value.refcat, env.present)))
                  && CalibsAvailable(c, command, env))
            && (e.result.Hit? ==> Truthful(c, command, env, KeyOf(w, command).value, e.result.value.timings))
  {
    hide Good, Insert, Reuse, Readable, EnsureCalib, KeyOf, Keys, Edits, CalibsAvailable, ColdReport, HalvesAvailable, DetectorCached;
    if KeyOf(w, command).Hit? {
      var key := KeyOf(w, command).value;
      HitIsKey(c.prepared, key);
      if Get(c.prepared, key).Hit? {
        WarmPrepare(w, c, key, command, env);
      } else {
        ColdPrepare(w, c, key, command, env);
      }
    }
  }

  /** Timings that agree with what the caches held before the call. */
  ghost predicate Truthful(c: Caches, command: Command, env: Env, key: PrepareKey, t: Timings) {
    && (t.taskReused <==> key in Keys(c.prepared))
    && (if t.taskReused then t.refcat.Report? && t.refcat.reused && t.refcat.loaded == 0 else ColdReport(c, key, t.refcat))
    && ReportsCalibs(c, command, env, t.calib)
  }

  ghost predicate ReportsCalibs(c: Caches, command: Command, env: Env, r: CalibReport) {
    var found := env.resolve(command.filter, command.time);
    && found.Hit?
    && (r.detectorReused <==> DetectorCached(c, found.value.detector))
    && (r.filterReused <==> found.value.filtered in Keys(c.filters))
    && (r.reused <==> r.detectorReused && r.filterReused)
  }

  /** The calibs of a call depend on the two calib caches only. */
  lemma {:induction false} ActivateWhen(w: World, c: Caches, mid: Caches, entry: Entry, command: Command, env: Env)
    requires mid.detector == c.detector && mid.filters == c.filters
    ensures var a := Activate(w, mid, entry, command, env);
            && (a.result.Hit? <==> CalibsAvailable(c, command, env))
            && (a.result.Hit? ==> ReportsCalibs(c, command, env, a.result.value))
  {
    hide Keys, EnsureCalib;
    CalibsExact(w, mid, command, env);
  }

  lemma {:induction false} WarmPrepare(w: World, c: Caches, key: PrepareKey, command: Command, env: Env)
    requires Good(w, c) && KeyOf(w, command) == Hit(key) && Get(c.prepared, key).Hit?
    ensures var e := Reuse(w, c, key, Get(c.prepared, key).value, command, env);
            && e.result.Hit? && e.result.value.1.Report? && e.result.value.1.reused && e.result.value.1.loaded == 0
            && var a := Activate(w, e.caches, e.result.value.0, command, env);
               && (a.result.Hit? <==> CalibsAvailable(c, command, env))
               && (a.result.Hit? ==> ReportsCalibs(c, command, env, a.result.value))
  {
    hide KeyOf, FreshEntry, Reuse, Touch, Activate, CalibsAvailable, ReportsCalibs, DetectorOk, FiltersOk, CacheValid, ActiveOk;
    var entry := Get(c.prepared, key).value;
    EntryIsFresh(w, c.commands, entry, command);
    ReuseIsNoOp(w, c, key, entry, command, env);
    ActivateWhen(w, c, c.(prepared := Touch(c.prepared, key, entry)), entry, command, env);
  }

  lemma {:induction false} ColdPrepare(w: World, c: Caches, key: PrepareKey, command: Command, env: Env)
    requires KeyOf(w, command) == Hit(key)
    ensures var e := Insert(w, c, key, command, env);
            && (e.result.Hit? <==>
                  w.build(Edits(command.overrides)).Hit? && env.setupWorks && Readable(c.shards, key.refcat, env.present))
            && (e.result.Hit? ==>
                  && ColdReport(c, key, e.result.value.1)
                  && var a := Activate(w, e.caches.(commands := e.caches.commands[key := command]), e.result.value.0, command, env);
                     && (a.result.Hit? <==> CalibsAvailable(c, command, env))
                     && (a.result.Hit? ==> ReportsCalibs(c, command, env, a.result.value)))
  {
    hide KeyOf, Insert, Activate, CalibsAvailable, ReportsCalibs, Readable, ColdReport;
    InsertWhen(w, c, key, command, env);
    var e := Insert(w, c, key, command, env);
    if e.result.Hit? {
      ActivateWhen(w, c, e.caches.(commands := e.caches.commands[key := command]), e.result.value.0, command, env);
    }
  }

  /** A keyed push returns exactly when its key has a recorded command, the entry is cached or can be built
      again, and its calibs are available. */
  lemma {:induction false} PushReturnsWhen(w: World, c: Caches, key: PrepareKey, env: Env)
    requires Good(w, c)
    ensures EnsureForPush(w, c, key, env).result.Hit? <==>
              && key in c.commands
              && (key in Keys(c.prepared) || (env.setupWorks && Readable(c.shards, key.refcat, env.present)))
              && CalibsAvailable(c, c.commands[key], env)
  {
    hide Good, Insert, Readable, Activate, KeyOf, FreshEntry, Keys, CalibsAvailable, ColdReport, Touch;
    HitIsKey(c.prepared, key);
    if key in c.commands {
      var command := c.commands[key];
      CommandHasKey(w, c, key);
      FreshIsBuilt(w, command);
      InsertWhen(w, c, key, command, env);
      if Get(c.prepared, key).Hit? {
        var entry := Get(c.prepared, key).value;
        ActivateWhen(w, c, c.(prepared := Touch(c.prepared, key, entry)), entry, command, env);
      } else {
        var e := Insert(w, c, key, command, env);
        if e.result.Hit? {
          ActivateWhen(w, c, e.caches, e.result.value.0, command, env);
        }
      }
    }
  }

  lemma {:induction false} FreshIsBuilt(w: World, command: Command)
    ensures FreshEntry(w, command).Hit? <==> KeyOf(w, command).Hit? && w.build(Edits(command.overrides)).Hit?
  {
    hide KeyOf, Edits, Loaded;
  }

  // ---------------------------------------------------------------- what is recorded

  /** The operation is a prepare that had to build, and did. */
  ghost predicate BuiltCold(w: World, c: Caches, op: Op, key: PrepareKey) {
    && op.Prepare? && KeyOf(w, op.command) == Hit(key) && key !in Keys(c.prepared)
    && w.build(Edits(op.command.overrides)).Hit? && op.env.setupWorks && Readable(c.shards, key.refcat, op.env.present)
  }

  /** A command is recorded exactly by a prepare that builds its entry, whether or not its activation then
      works, and is forgotten by nothing. */
  lemma {:induction false} RecordedWhen(w: World, c: Caches, op: Op, key: PrepareKey)
    ensures var v := Step(w, c, op);
            && (key in v.commands <==> key in c.commands || BuiltCold(w, c, op, key))
            && (key in v.commands ==> v.commands[key] == if BuiltCold(w, c, op, key) then op.command else c.commands[key])
  {
    hide Insert, Reuse, Readable, EnsureCalib, KeyOf, Keys, Edits, Touch, ColdReport;
    match op {
      case Prepare(command, env) =>
        if KeyOf(w, command).Hit? {
          HitIsKey(c.prepared, KeyOf(w, command).value);
          InsertWhen(w, c, KeyOf(w, command).value, command, env);
          ReuseCommands(w, c, KeyOf(w, command).value, command, env);
          CalibCommands(w, command, env);
        }
      case Push(k, env) =>
        InsertCommands(w, c, k, env);
        if k in c.commands {
          CalibCommands(w, c.commands[k], env);
        }
    }
  }

  lemma {:induction false} InsertCommands(w: World, c: Caches, key: PrepareKey, env: Env)
    ensures forall command :: Insert(w, c, key, command, env).caches.commands == c.commands
  {
    hide Touch, Trim, Edits, EnsureStore;
  }

  lemma {:induction false} ReuseCommands(w: World, c: Caches, key: PrepareKey, command: Command, env: Env)
    ensures forall entry :: Reuse(w, c, key, entry, command, env).caches.commands == c.commands
  {
    hide Touch, EnsureStore;
  }

  lemma {:induction false} CalibCommands(w: World, command: Command, env: Env)
    ensures forall c :: EnsureCalib(w, c, command, env).caches.commands == c.commands
  {
    hide Touch, Trim;
  }

  /** Every entry that is cached has its command on record, and so has every key whose prepare returned. */
  lemma {:induction false} ReturnedIsRecorded(w: World, c: Caches, command: Command, env: Env)
    requires SameNames(w) && Good(w, c) && EnsurePrepared(w, c, command, env).result.Hit?
    ensures KeyOf(w, command).Hit? && KeyOf(w, command).value in Step(w, c, Op.Prepare(command, env)).commands
  {
    hide Good, EnsurePrepared, KeyOf, Uncached, Readable, Keys, Edits, CalibsAvailable, Truthful;
    PrepareReturnsWhen(w, c, command, env);
    var key := KeyOf(w, command).value;
    HitIsKey(c.prepared, key);
    if key in Keys(c.prepared) {
      CachedIsRecorded(w, c, key);
    }
    RecordedWhen(w, c, Op.Prepare(command, env), key);
  }

  lemma {:induction false} CachedIsRecorded(w: World, c: Caches, key: PrepareKey)
    requires Good(w, c) && Get(c.prepared, key).Hit?
    ensures key in c.commands
  {
    hide FreshEntry, KeyOf;
  }

  /** Once a prepare of the run has returned, its key's pushes run for ever after, evictions and failures
      between notwithstanding, whenever nothing outside fails. */
  lemma {:induction false} ReturnedPrepareRuns(w: World, ops: seq<Op>, i: nat, key: PrepareKey, env: Env)
    requires SameNames(w) && i < |ops| && ops[i].Prepare? && KeyOf(w, ops[i].command) == Hit(key)
    requires Returned(w, Run(w, ops[..i]), ops[i])
    requires AllWorks(ops[i].command, key.refcat, env)
    ensures EnsureForPush(w, Run(w, ops), key, env).result.Hit?
  {
    hide Good, EnsureForPush, EnsurePrepared, KeyOf, Step, FreshEntry;
    RunGood(w, ops);
    RunGood(w, ops[..i]);
    ReturnedIsRecorded(w, Run(w, ops[..i]), ops[i].command, ops[i].env);
    assert ops[..i + 1][..i] == ops[..i];
    StaysRecorded(w, ops, i + 1, key);
    CommandHasKey(w, Run(w, ops), key);
    SameKeySameTime(w, Run(w, ops).commands[key], ops[i].command);
    PushOfPreparedRuns(w, Run(w, ops), key, env);
  }

  lemma {:induction false} SameKeySameTime(w: World, a: Command, b: Command)
    requires KeyOf(w, a) == KeyOf(w, b) && KeyOf(w, a).Hit?
    ensures a.filter == b.filter && a.time == b.time
  {
  }

  lemma {:induction false} StaysRecorded(w: World, ops: seq<Op>, i: nat, key: PrepareKey)
    requires i <= |ops| && key in Run(w, ops[..i]).commands
    ensures key in Run(w, ops).commands
    decreases |ops|
  {
    hide Step;
    if i < |ops| {
      var n := |ops| - 1;
      assert ops[..n][..i] == ops[..i];
      StaysRecorded(w, ops[..n], i, key);
      RecordedWhen(w, Run(w, ops[..n]), ops[n], key);
    } else {
      assert ops[..i] == ops;
    }
  }

  // ---------------------------------------------------------------- both caches are exact

  /** The key an operation moves to the end of the prepared cache: its own, unless it raised before the
      cache held it. */
  ghost function TouchOf(w: World, c: Caches, op: Op): seq<PrepareKey> {
    match op
    case Prepare(command, env) =>
      (match KeyOf(w, command)
       case Missing => []
       case Hit(key) => if Get(c.prepared, key).Hit? || Insert(w, c, key, command, env).result.Hit? then [key] else [])
    case Push(key, env) =>
      if key in c.commands && (Get(c.prepared, key).Hit? || Insert(w, c, key, c.commands[key], env).result.Hit?) then [key] else []
  }

  ghost function Touches(w: World, ops: seq<Op>): seq<PrepareKey> {
    if ops == [] then []
    else Touches(w, ops[..|ops| - 1]) + TouchOf(w, Run(w, ops[..|ops| - 1]), ops[|ops| - 1])
  }

  ghost function OpCommand(c: Caches, op: Op): Found<Command> {
    match op
    case Prepare(command, env) => Hit(command)
    case Push(key, env) => if key in c.commands then Hit(c.commands[key]) else Missing
  }

  ghost predicate Returned(w: World, c: Caches, op: Op) {
    match op
    case Prepare(command, env) => EnsurePrepared(w, c, command, env).result.Hit?
    case Push(key, env) => EnsureForPush(w, c, key, env).result.Hit?
  }

  /** The identity an operation moves to the end of the filter cache: what its command resolves to, when
      it got as far as having that half. */
  ghost function FilterTouchOf(w: World, c: Caches, op: Op): seq<FilterId> {
    if Returned(w, c, op) && OpCommand(c, op).Hit?
       && op.env.resolve(OpCommand(c, op).value.filter, OpCommand(c, op).value.time).Hit?
    then [op.env.resolve(OpCommand(c, op).value.filter, OpCommand(c, op).value.time).value.filtered] else []
  }

  ghost function FilterTouches(w: World, ops: seq<Op>): seq<FilterId> {
    if ops == [] then []
    else FilterTouches(w, ops[..|ops| - 1]) + FilterTouchOf(w, Run(w, ops[..|ops| - 1]), ops[|ops| - 1])
  }

  /** What one use does to the order of a cache that is within its cap. */
  ghost function Used<K>(ks: seq<K>, touched: seq<K>, cap: nat): seq<K> {
    if touched == [] then ks else Trim(Drop(ks, touched[0]) + [touched[0]], cap)
  }

  ghost predicate Within<K>(ks: seq<K>, cap: nat) {
    Distinct(ks) && |ks| <= cap
  }

  /** A hit needs no eviction. */
  lemma {:induction false} HitKeys<K, V>(d: Dict<K, V>, k: K, v: V, cap: nat)
    requires Get(d, k).Hit? && Within(Keys(d), cap)
    ensures Keys(Touch(d, k, v)) == Used(Keys(d), [k], cap)
  {
    HitIsKey(d, k);
    DropLength(Keys(d), k);
    KeysTouch(d, k, v, cap);
    KeysTouch(d, k, v, |d| + 1);
    KeysWithout(d, k);
  }

  lemma {:induction false} CalibKeys(w: World, c: Caches, command: Command, env: Env)
    requires Within(Keys(c.filters), CALIB_CACHE_CAP)
    ensures var e := EnsureCalib(w, c, command, env);
            && e.caches.prepared == c.prepared
            && Keys(e.caches.filters) == Used(Keys(c.filters),
                 if e.result.Hit? then [env.resolve(command.filter, command.time).value.filtered] else [], CALIB_CACHE_CAP)
  {
    hide Touch, Trim, Keys, Within;
    if env.resolve(command.filter, command.time).Hit? {
      var ids := env.resolve(command.filter, command.time).value;
      var d := EnsureDetector(w, c, ids.detector, env.detectorLoads);
      if d.result.Hit? {
        match Get(c.filters, ids.filtered) {
          case Hit(f) => HitKeys(c.filters, ids.filtered, f, CALIB_CACHE_CAP);
          case Missing =>
            KeysTouch(c.filters, ids.filtered, w.loadFilter(ids.filtered, d.result.value.0.names), CALIB_CACHE_CAP);
        }
      }
    }
  }

  lemma {:induction false} InsertKeys(w: World, c: Caches, key: PrepareKey, command: Command, env: Env)
    ensures var e := Insert(w, c, key, command, env);
            && e.caches.filters == c.filters
            && Keys(e.caches.prepared) == Used(Keys(c.prepared), if e.result.Hit? then [key] else [], PREPARED_CACHE_CAP)
  {
    hide Touch, Trim, Keys, EnsureStore, Edits, Loaded;
    var b := BuildEntry(w, c, key, command, env);
    if b.result.Hit? {
      KeysTouch(c.prepared, key, b.result.value.0, PREPARED_CACHE_CAP);
    }
  }

  /** One operation changes the order of both caches by exactly the uses it makes. */
  ghost predicate StepKeys(w: World, c: Caches, op: Op) {
    && Keys(Step(w, c, op).prepared) == Used(Keys(c.prepared), TouchOf(w, c, op), PREPARED_CACHE_CAP)
    && Keys(Step(w, c, op).filters) == Used(Keys(c.filters), FilterTouchOf(w, c, op), CALIB_CACHE_CAP)
  }

  ghost predicate BothWithin(c: Caches) {
    Within(Keys(c.prepared), PREPARED_CACHE_CAP) && Within(Keys(c.filters), CALIB_CACHE_CAP)
  }

  lemma {:induction false} ActivateKeys(w: World, c: Caches, entry: Entry, command: Command, env: Env)
    requires BothWithin(c)
    ensures var a := Activate(w, c, entry, command, env);
            && a.caches.prepared == c.prepared
            && (a.result.Hit? ==> env.resolve(command.filter, command.time).Hit?)
            && Keys(a.caches.filters) == Used(Keys(c.filters),
                 if a.result.Hit? then [env.resolve(command.filter, command.time).value.filtered] else [], CALIB_CACHE_CAP)
  {
    hide Keys, Within, Used, EnsureDetector, EnsureFilter;
    CalibKeys(w, c, command, env);
  }

  lemma {:induction false} UsedWithin<K>(ks: seq<K>, touched: seq<K>, cap: nat)
    requires Within(ks, cap) && |touched| <= 1
    ensures Within(Used(ks, touched, cap), cap)
  {
    if touched != [] {
      var k := touched[0];
      DropDistinct(ks, k);
      DropMembers(ks, k);
      assert Distinct(Drop(ks, k) + [k]);
      TrimDistinct(Drop(ks, k) + [k], cap);
    }
  }

  lemma {:induction false} PrepareKeys(w: World, c: Caches, command: Command, env: Env)
    requires Good(w, c) && BothWithin(c)
    ensures StepKeys(w, c, Op.Prepare(command, env))
  {
    hide Good, Keys, Within, Touch, KeyOf, Insert, Reuse, Activate, FreshEntry, Used;
    if KeyOf(w, command).Hit? {
      var key := KeyOf(w, command).value;
      if Get(c.prepared, key).Hit? {
        PrepareHitKeys(w, c, key, command, env);
      } else {
        PrepareMissKeys(w, c, key, command, env);
      }
    } else {
      UsedNothing(Keys(c.prepared), PREPARED_CACHE_CAP);
      UsedNothing(Keys(c.filters), CALIB_CACHE_CAP);
    }
  }

  lemma {:induction false} UsedNothing<K>(ks: seq<K>, cap: nat)
    ensures Used(ks, [], cap) == ks
  {
  }

  /** The orders after activating `entry` from a state whose caches are `mid`. */
  ghost predicate ActivatedKeys(w: World, c: Caches, mid: Caches, touched: seq<PrepareKey>, entry: Entry, command: Command, env: Env) {
    var a := Activate(w, mid, entry, command, env);
    && Keys(a.caches.prepared) == Used(Keys(c.prepared), touched, PREPARED_CACHE_CAP)
    && (a.result.Hit? ==> env.resolve(command.filter, command.time).Hit?)
    && Keys(a.caches.filters) == Used(Keys(c.filters),
         if a.result.Hit? then [env.resolve(command.filter, command.time).value.filtered] else [], CALIB_CACHE_CAP)
  }

  lemma {:induction false} HitActivatedKeys(w: World, c: Caches, key: PrepareKey, entry: Entry, command: Command, env: Env)
    requires BothWithin(c) && Get(c.prepared, key).Hit?
    ensures ActivatedKeys(w, c, c.(prepared := Touch(c.prepared, key, entry)), [key], entry, command, env)
  {
    hide Keys, Within, Touch, Used, Activate;
    HitKeys(c.prepared, key, entry, PREPARED_CACHE_CAP);
    UsedWithin(Keys(c.prepared), [key], PREPARED_CACHE_CAP);
    ActivateKeys(w, c.(prepared := Touch(c.prepared, key, entry)), entry, command, env);
  }

  lemma {:induction false} MissActivatedKeys(w: World, c: Caches, key: PrepareKey, command: Command, env: Env, commands: map<PrepareKey, Command>)
    requires BothWithin(c)
    ensures var e := Insert(w, c, key, command, env);
            if e.result.Hit? then ActivatedKeys(w, c, e.caches.(commands := commands), [key], e.result.value.0, command, env)
            else Keys(e.caches.prepared) == Keys(c.prepared) && Keys(e.caches.filters) == Keys(c.filters)
  {
    hide Keys, Within, Insert, Used, Activate;
    InsertKeys(w, c, key, command, env);
    UsedNothing(Keys(c.prepared), PREPARED_CACHE_CAP);
    var e := Insert(w, c, key, command, env);
    if e.result.Hit? {
      UsedWithin(Keys(c.prepared), [key], PREPARED_CACHE_CAP);
      ActivateKeys(w, e.caches.(commands := commands), e.result.value.0, command, env);
    }
  }

  lemma {:induction false} PrepareHitKeys(w: World, c: Caches, key: PrepareKey, command: Command, env: Env)
    requires Good(w, c) && BothWithin(c) && KeyOf(w, command) == Hit(key) && Get(c.prepared, key).Hit?
    ensures StepKeys(w, c, Op.Prepare(command, env))
  {
    hide BothWithin, Keys, Touch, KeyOf, Reuse, Activate, FreshEntry, Used, DetectorOk, FiltersOk, CacheValid, Insert;
    var entry := Get(c.prepared, key).value;
    EntryIsFresh(w, c.commands, entry, command);
    ReuseIsNoOp(w, c, key, entry, command, env);
    HitActivatedKeys(w, c, key, entry, command, env);
  }

  lemma {:induction false} PrepareMissKeys(w: World, c: Caches, key: PrepareKey, command: Command, env: Env)
    requires BothWithin(c) && KeyOf(w, command) == Hit(key) && Get(c.prepared, key).Missing?
    ensures StepKeys(w, c, Op.Prepare(command, env))
  {
    hide BothWithin, Keys, KeyOf, Activate, Used, Insert, Reuse;
    var e := Insert(w, c, key, command, env);
    MissActivatedKeys(w, c, key, command, env, e.caches.commands[key := command]);
    UsedNothing(Keys(c.prepared), PREPARED_CACHE_CAP);
    UsedNothing(Keys(c.filters), CALIB_CACHE_CAP);
  }

  lemma {:induction false} PushKeys(w: World, c: Caches, key: PrepareKey, env: Env)
    requires BothWithin(c)
    ensures StepKeys(w, c, Push(key, env))
  {
    hide BothWithin, Keys, Activate, Used, Insert, Touch;
    UsedNothing(Keys(c.prepared), PREPARED_CACHE_CAP);
    UsedNothing(Keys(c.filters), CALIB_CACHE_CAP);
    if key in c.commands {
      var command := c.commands[key];
      if Get(c.prepared, key).Hit? {
        HitActivatedKeys(w, c, key, Get(c.prepared, key).value, command, env);
      } else {
        var e := Insert(w, c, key, command, env);
        MissActivatedKeys(w, c, key, command, env, e.caches.commands);
      }
    }
  }

  lemma {:induction false} CachedAppend<K>(history: seq<K>, touched: seq<K>, cap: nat)
    requires |touched| <= 1
    ensures Cached(history + touched, cap) == Used(Cached(history, cap), touched, cap)
  {
    if touched == [] {
      assert history + touched == history;
    } else {
      assert (history + touched)[..|history|] == history;
    }
  }

  lemma {:induction false} CachedWithin<K>(history: seq<K>, cap: nat)
    ensures Within(Cached(history, cap), cap)
  {
    CacheExact(history, cap);
    RecentFacts(history);
    TrimDistinct(Recent(history), cap);
  }

  /** Over every run, both caches are exact: each holds, in order of last use, the last `cap` distinct
      keys used, where prepares, pushes and rebuilds all count as uses, and so do the ones whose
      activation failed. */
  lemma {:induction false} CachesAreExact(w: World, ops: seq<Op>)
    requires SameNames(w)
    ensures Keys(Run(w, ops).prepared) == Cached(Touches(w, ops), PREPARED_CACHE_CAP)
    ensures Keys(Run(w, ops).filters) == Cached(FilterTouches(w, ops), CALIB_CACHE_CAP)
  {
    hide Good, Step, Keys, Cached, Used, TouchOf, FilterTouchOf;
    if ops == [] {
      NothingCached();
    } else {
      var front, op := ops[..|ops| - 1], ops[|ops| - 1];
      var c := Run(w, front);
      CachesAreExact(w, front);
      RunGood(w, front);
      CachedWithin(Touches(w, front), PREPARED_CACHE_CAP);
      CachedWithin(FilterTouches(w, front), CALIB_CACHE_CAP);
      AnyStepKeys(w, c, op);
      AtMostOne(w, c, op);
      CachedAppend(Touches(w, front), TouchOf(w, c, op), PREPARED_CACHE_CAP);
      CachedAppend(FilterTouches(w, front), FilterTouchOf(w, c, op), CALIB_CACHE_CAP);
    }
  }

  lemma {:induction false} NothingCached()
    ensures Keys(START.prepared) == Cached<PrepareKey>([], PREPARED_CACHE_CAP)
    ensures Keys(START.filters) == Cached<FilterId>([], CALIB_CACHE_CAP)
  {
  }

  lemma {:induction false} AtMostOne(w: World, c: Caches, op: Op)
    ensures |TouchOf(w, c, op)| <= 1 && |FilterTouchOf(w, c, op)| <= 1
  {
    hide Insert, KeyOf;
  }

  lemma {:induction false} AnyStepKeys(w: World, c: Caches, op: Op)
    requires Good(w, c) && BothWithin(c)
    ensures StepKeys(w, c, op)
  {
    hide Good, BothWithin, StepKeys;
    match op {
      case Prepare(command, env) => PrepareKeys(w, c, command, env);
      case Push(key, env) => PushKeys(w, c, key, env);
    }
  }

  /** So whether a push finds its bundle or must rebuild it is decided by its key's last use: it is there
      exactly when fewer than three other keys were used since. */
  lemma {:induction false} ResidentWhen(w: World, ops: seq<Op>, key: PrepareKey)
    requires SameNames(w)
    ensures var touches := Touches(w, ops);
            key in Keys(Run(w, ops).prepared)
            <==> key in touches && |Recent(touches[LastUse(touches, key) + 1..])| < PREPARED_CACHE_CAP
  {
    hide Run, Touches, Keys, Cached, Recent;
    CachesAreExact(w, ops);
    ResidentIff(Touches(w, ops), PREPARED_CACHE_CAP, key);
  }

  /** The key of an operation that returned is resident, and the last to be evicted. */
  lemma {:induction false} ActivatedIsResident(w: World, ops: seq<Op>, op: Op)
    requires SameNames(w) && Returned(w, Run(w, ops), op)
    ensures var c := Step(w, Run(w, ops), op);
            && c.active.Hit? && c.prepared != []
            && Keys(c.prepared)[|c.prepared| - 1] == c.active.value.entry.key
  {
    hide Good, Keys, Cached, Run, Touches, FilterTouches, Insert, Used;
    RunGood(w, ops);
    ReturnedTouches(w, Run(w, ops), op);
    var all := ops + [op];
    assert all[..|all| - 1] == ops;
    RunAppend(w, ops, op);
    CachesAreExact(w, all);
    TouchesAppend(w, ops, op);
    JustUsedStays(Touches(w, all), PREPARED_CACHE_CAP);
  }

  lemma {:induction false} RunAppend(w: World, ops: seq<Op>, op: Op)
    ensures Run(w, ops + [op]) == Step(w, Run(w, ops), op)
  {
    assert (ops + [op])[..|ops|] == ops;
  }

  lemma {:induction false} TouchesAppend(w: World, ops: seq<Op>, op: Op)
    ensures Touches(w, ops + [op]) == Touches(w, ops) + TouchOf(w, Run(w, ops), op)
  {
    assert (ops + [op])[..|ops|] == ops;
  }

  lemma {:induction false} ReturnedTouches(w: World, c: Caches, op: Op)
    requires SameNames(w) && Good(w, c) && Returned(w, c, op)
    ensures Step(w, c, op).active.Hit? && TouchOf(w, c, op) == [Step(w, c, op).active.value.entry.key]
  {
    hide Good, Insert, Activate, FreshEntry, Touch;
    match op {
      case Prepare(command, env) =>
        PrepareIsUncached(w, c, command, env);
        FreshKey(w, command);
      case Push(key, env) =>
        ReturnedKeyKnown(w, c, key, env);
        CommandHasKey(w, c, key);
        PushIsUncached(w, c, key, c.commands[key], env);
        FreshKey(w, c.commands[key]);
    }
  }

  lemma {:induction false} ReturnedKeyKnown(w: World, c: Caches, key: PrepareKey, env: Env)
    requires EnsureForPush(w, c, key, env).result.Hit?
    ensures key in c.commands
  {
    hide Insert, Activate, Touch;
  }

  // ---------------------------------------------------------------- the active key need not be cached

  /** A prepare that builds its entry and then cannot resolve its calibs. */
  ghost predicate BuildsButRaises(w: World, op: Op, key: PrepareKey) {
    && op.Prepare? && KeyOf(w, op.command) == Hit(key) && FreshEntry(w, op.command).Hit?
    && op.env.setupWorks && key.refcat <= op.env.present && op.env.resolve(op.command.filter, op.command.time).Missing?
  }

  /** It is a use of its key all the same, and leaves the active configuration alone. */
  lemma {:induction false} RaisingTouches(w: World, c: Caches, op: Op, key: PrepareKey)
    requires SameNames(w) && Good(w, c) && BuildsButRaises(w, op, key)
    ensures TouchOf(w, c, op) == [key] && Step(w, c, op).active == c.active
  {
    hide Good, Insert, Reuse, KeyOf, FreshEntry;
    BuildWorks(w, c, key, op.command, op.env);
    PrepareIsUncached(w, c, op.command, op.env);
  }

  /** So three of them in a row evict the configuration that stays active: an activation that fails after
      the eviction it caused is not undone. */
  lemma {:induction false} ActiveCanBeEvicted(w: World, first: Op, a: Op, b: Op, c: Op, ks: seq<PrepareKey>)
    requires SameNames(w) && Returned(w, START, first) && first.Prepare?
    requires |ks| == 3 && Distinct(ks) && KeyOf(w, first.command).Hit? && KeyOf(w, first.command).value !in ks
    requires BuildsButRaises(w, a, ks[0]) && BuildsButRaises(w, b, ks[1]) && BuildsButRaises(w, c, ks[2])
    ensures var end := Run(w, [first] + [a] + [b] + [c]);
            && end.active == Uncached(w, first.command, first.env) && end.active.Hit?
            && end.active.value.entry.key !in Keys(end.prepared)
  {
    hide Good, Step, Returned, TouchOf, BuildsButRaises, Keys, Uncached, Recent, LastUse, Distinct, SameNames;
    var key := KeyOf(w, first.command).value;
    FirstRuns(w, first);
    OneMoreRaises(w, [first], a, ks[0]);
    OneMoreRaises(w, [first] + [a], b, ks[1]);
    OneMoreRaises(w, [first] + [a] + [b], c, ks[2]);
    var touches := Touches(w, [first] + [a] + [b] + [c]);
    assert touches == [key] + ks;
    ResidentWhen(w, [first] + [a] + [b] + [c], key);
    AllAfter(key, ks);
  }

  function Plain(): World {
    World(Sky(id => [], r => 0), boresight => Hit({}), edits => Hit(Built(0, "")), id => DetectorHalf([], 0), (id, names) => 0)
  }

  function PlainPrepare(filter: string, resolves: bool): Op {
    Op.Prepare(Command(Missing, filter, (0.0, 0.0), "now"),
               Env((f, t) => if resolves then Hit(CalibIds(0, 0)) else Missing, true, true, true, {}))
  }

  function PlainKey(filter: string): PrepareKey {
    PrepareKey([], filter, {}, "now")
  }

  /** Such a run: one prepare whose calibs resolve, and three for other filters whose calibs do not. */
  lemma {:induction false} ActiveEvictedInRun()
    ensures var end := Run(Plain(), [PlainPrepare("z", true)] + [PlainPrepare("a", false)] + [PlainPrepare("b", false)]
                                    + [PlainPrepare("c", false)]);
            end.active.Hit? && end.active.value.entry.key == PlainKey("z") && PlainKey("z") !in Keys(end.prepared)
  {
    hide Run, Keys, BuildsButRaises, Returned, Distinct;
    var ks := [PlainKey("a"), PlainKey("b"), PlainKey("c")];
    PlainKeys("z", true);
    PlainReturns("z");
    PlainRaises("a");
    PlainRaises("b");
    PlainRaises("c");
    KeysApart("a", "b", "c");
    assert PlainKey("z") !in ks by {
      assert "z"[0] != "a"[0] && "z"[0] != "b"[0] && "z"[0] != "c"[0];
    }
    ActiveCanBeEvicted(Plain(), PlainPrepare("z", true), PlainPrepare("a", false), PlainPrepare("b", false),
                       PlainPrepare("c", false), ks);
  }

  lemma {:induction false} PlainKeys(filter: string, resolves: bool)
    ensures KeyOf(Plain(), PlainPrepare(filter, resolves).command) == Hit(PlainKey(filter))
  {
    assert KeyOfOverrides(Missing) == [];
  }

  lemma {:induction false} PlainReturns(filter: string)
    ensures Returned(Plain(), START, PlainPrepare(filter, true)) && SameNames(Plain())
  {
    hide Edits, Touch, Trim, Loaded, EnsureShards;
    PlainKeys(filter, true);
  }

  lemma {:induction false} PlainRaises(filter: string)
    ensures BuildsButRaises(Plain(), PlainPrepare(filter, false), PlainKey(filter))
  {
    hide Loaded, Edits;
    PlainKeys(filter, false);
  }

  lemma {:induction false} KeysApart(a: string, b: string, c: string)
    requires a != b && b != c && a != c
    ensures Distinct([PlainKey(a), PlainKey(b), PlainKey(c)])
  {
  }

  lemma {:induction false} FirstRuns(w: World, first: Op)
    requires SameNames(w) && Returned(w, START, first) && first.Prepare? && KeyOf(w, first.command).Hit?
    ensures Touches(w, [first]) == [KeyOf(w, first.command).value]
    ensures Run(w, [first]).active == Uncached(w, first.command, first.env) && Run(w, [first]).active.Hit?
    ensures Run(w, [first]).active.value.entry.key == KeyOf(w, first.command).value
  {
    hide Good, Insert, Reuse, KeyOf, FreshEntry, Activate, TouchOf, Step;
    StartGood(w);
    assert [first][..0] == [];
    FirstStep(w, first);
    ReturnedTouches(w, START, first);
    FreshKey(w, first.command);
  }

  lemma {:induction false} FirstStep(w: World, first: Op)
    requires SameNames(w) && Returned(w, START, first) && first.Prepare? && Good(w, START)
    ensures Step(w, START, first).active == Uncached(w, first.command, first.env) && Step(w, START, first).active.Hit?
  {
    hide Good, EnsurePrepared, Uncached;
    PrepareIsUncached(w, START, first.command, first.env);
  }

  lemma {:induction false} OneMoreRaises(w: World, ops: seq<Op>, op: Op, key: PrepareKey)
    requires SameNames(w) && BuildsButRaises(w, op, key)
    ensures Touches(w, ops + [op]) == Touches(w, ops) + [key]
    ensures Run(w, ops + [op]).active == Run(w, ops).active
  {
    hide Good, Step, TouchOf, BuildsButRaises;
    RunGood(w, ops);
    RaisingTouches(w, Run(w, ops), op, key);
    TouchesAppend(w, ops, op);
    RunAppend(w, ops, op);
  }

  lemma {:induction false} AllAfter<K>(key: K, ks: seq<K>)
    requires key !in ks && Distinct(ks)
    ensures key in [key] + ks && |Recent(([key] + ks)[LastUse([key] + ks, key) + 1..])| == |ks|
  {
    hide Recent;
    var all := [key] + ks;
    assert all[0] == key;
    assert forall i :: 0 < i < |all| ==> all[i] == ks[i - 1];
    assert LastUse(all, key) == 0;
    assert all[1..] == ks;
    RecentOfDistinct(ks);
  }

  lemma {:induction false} RecentOfDistinct<K>(ks: seq<K>)
    requires Distinct(ks)
    ensures Recent(ks) == ks
  {
    if ks != [] {
      var n := |ks| - 1;
      RecentOfDistinct(ks[..n]);
      assert ks[n] !in ks[..n];
      DropNone(ks[..n], ks[n]);
    }
  }
}
