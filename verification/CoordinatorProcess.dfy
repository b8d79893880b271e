/** The coordinator process: its caches and mirrors as fields, changed in place. */
module CoordinatorProcess {
  import opened Lru
  import opened RefCat
  import opened PreparedConfig
  import opened PreparedTheorems

  lemma {:induction false} CalibsWhenGood(w: World, c: Caches, command: Command, env: Env)
    ensures var e := EnsureCalib(w, c, command, env);
            SameNames(w) && Good(w, c) && e.result.Hit? ==>
              && env.resolve(command.filter, command.time).Hit?
              && e.result.value.0 == FreshCalib(w, env.resolve(command.filter, command.time).value)
  {
    hide EnsureCalib, SameNames, FreshCalib, CommandsOk, PreparedOk, DetectorOk, FiltersOk, CacheValid, ActiveOk;
    if SameNames(w) && Good(w, c) {
      CalibsAreResolved(w, c, command, env);
    }
  }

  lemma {:induction false} PrepareWhenGood(w: World, c: Caches, command: Command, env: Env)
    ensures var e := EnsurePrepared(w, c, command, env);
            SameNames(w) && Good(w, c) ==>
              && Good(w, e.caches)
              && (if e.result.Hit? then e.caches.active.Hit? && e.caches.active == Uncached(w, command, env)
                                        && e.result.value.dump == e.caches.active.value.entry.built.dump
                  else e.caches.active == c.active)
  {
    hide Good, EnsurePrepared, SameNames, Uncached;
    if SameNames(w) && Good(w, c) {
      PrepareIsUncached(w, c, command, env);
    }
  }

  lemma {:induction false} PushWhenGood(w: World, c: Caches, key: PrepareKey, env: Env)
    ensures var e := EnsureForPush(w, c, key, env);
            SameNames(w) && Good(w, c) ==>
              && Good(w, e.caches)
              && (e.result.Hit? ==> key in c.commands && e.caches.active == Uncached(w, c.commands[key], env))
              && (e.result.Missing? ==> e.caches.active == c.active)
  {
    hide Good, EnsureForPush, SameNames, Uncached;
    if SameNames(w) && Good(w, c) {
      if key in c.commands {
        CommandHasKey(w, c, key);
        PushIsUncached(w, c, key, c.commands[key], env);
      } else {
        UnknownKey(w, c, key, env);
      }
    }
  }

  class Coordinator {
    var prepared: Dict<PrepareKey, Entry>
    var commands: map<PrepareKey, Command>
    var detector: Found<(DetectorId, DetectorHalf)>
    var filters: Dict<FilterId, FilterHalf>
    const shardCache: ShardCache
    var activeKey: Found<PrepareKey>
    var task: int
    var taskDump: string
    var calib: Calib
    var refcat: Store

    ghost function Abs(): Caches
      reads this, shardCache
    {
      Caches(prepared, commands, detector, filters, shardCache.entries,
             if activeKey.Missing? then Missing else Hit(Active(Entry(activeKey.value, Built(task, taskDump), refcat), calib)))
    }

    constructor ()
      ensures Abs() == START
      ensures fresh(shardCache)
    {
      prepared, commands, detector, filters := [], map[], Missing, [];
      activeKey, task, taskDump, refcat := Missing, 0, "", EMPTY_STORE;
      calib := Calib(DetectorHalf([], 0), 0);
      shardCache := new ShardCache();
    }

    method EnsureDetectorCalibs(w: World, id: DetectorId, loads: bool) returns (r: Found<(DetectorHalf, bool)>)
      modifies this`detector
      ensures Outcome(Abs(), r) == EnsureDetector(w, old(Abs()), id, loads)
    {
      if detector.Hit? && detector.value.0 == id {
        return Hit((detector.value.1, true));
      }
      if !loads {
        return Missing;
      }
      var half := w.loadDetector(id);
      detector := Hit((id, half));
      r := Hit((half, false));
    }

    method EnsureFilterCalibs(w: World, id: FilterId, half: DetectorHalf, loads: bool) returns (r: Found<(FilterHalf, bool)>)
      modifies this`filters
      ensures Outcome(Abs(), r) == EnsureFilter(w, old(Abs()), id, half.names, loads)
    {
      match Get(filters, id) {
        case Hit(filtered) =>
          filters := Touch(filters, id, filtered);
          r := Hit((filtered, true));
        case Missing =>
          if !loads {
            return Missing;
          }
          var filtered := w.loadFilter(id, half.names);
          filters := Touch(filters, id, filtered);
          filters := Evict(filters, CALIB_CACHE_CAP);
          r := Hit((filtered, false));
      }
    }

    method EnsureCalibs(w: World, command: Command, env: Env) returns (r: Found<(Calib, CalibReport)>)
      modifies this`detector, this`filters
      ensures Outcome(Abs(), r) == EnsureCalib(w, old(Abs()), command, env)
      ensures SameNames(w) && Good(w, old(Abs())) && r.Hit? ==>
                && env.resolve(command.filter, command.time).Hit?
                && r.value.0 == FreshCalib(w, env.resolve(command.filter, command.time).value)
    {
      hide Good, EnsureDetector, EnsureFilter, SameNames, FreshCalib;
      CalibsWhenGood(w, Abs(), command, env);
      match env.resolve(command.filter, command.time) {
        case Missing => return Missing;
        case Hit(ids) =>
          var d := EnsureDetectorCalibs(w, ids.detector, env.detectorLoads);
          if d.Missing? {
            return Missing;
          }
          var f := EnsureFilterCalibs(w, ids.filtered, d.value.0, env.filterLoads);
          if f.Missing? {
            return Missing;
          }
          r := Hit((Calib(d.value.0, f.value.0), CalibReport(d.value.1 && f.value.1, d.value.1, f.value.1)));
      }
    }

    method ActivateEntry(w: World, entry: Entry, command: Command, env: Env) returns (r: Found<CalibReport>)
      modifies this
      ensures Outcome(Abs(), r) == Activate(w, old(Abs()), entry, command, env)
    {
      var got := EnsureCalibs(w, command, env);
      if got.Missing? {
        return Missing;
      }
      activeKey := Hit(entry.key);
      task, taskDump := entry.built.task, entry.built.dump;
      calib := got.value.0;
      refcat := entry.store;
      r := Hit(got.value.1);
    }

    method BuildPreparedEntry(w: World, key: PrepareKey, command: Command, env: Env) returns (r: Found<(Entry, Report)>)
      modifies shardCache
      ensures Outcome(Abs(), r) == BuildEntry(w, old(Abs()), key, command, env)
    {
      var built := w.build(Edits(command.overrides));
      if built.Missing? || !env.setupWorks {
        return Missing;
      }
      var wanted := w.shardIds(command.boresight);
      if wanted.Missing? {
        return Missing;
      }
      var store := new RefCatStore(EMPTY_STORE);
      var report := store.Ensure(w.sky, shardCache, wanted.value, env.present);
      if report.LoadError? {
        return Missing;
      }
      r := Hit((Entry(key, built.value, Store(store.shardIds, store.shards, store.nRows)), report));
    }

    method BuildAndInsert(w: World, key: PrepareKey, command: Command, env: Env) returns (r: Found<(Entry, Report)>)
      modifies this`prepared, shardCache
      ensures Outcome(Abs(), r) == Insert(w, old(Abs()), key, command, env)
    {
      r := BuildPreparedEntry(w, key, command, env);
      if r.Missing? {
        return;
      }
      prepared := Touch(prepared, key, r.value.0);
      prepared := Evict(prepared, PREPARED_CACHE_CAP);
    }

    method ReuseEntry(w: World, key: PrepareKey, entry: Entry, command: Command, env: Env) returns (r: Found<(Entry, Report)>)
      modifies this`prepared, shardCache
      ensures Outcome(Abs(), r) == Reuse(w, old(Abs()), key, entry, command, env)
    {
      var wanted := w.shardIds(command.boresight);
      if wanted.Missing? {
        prepared := Touch(prepared, key, entry);
        return Missing;
      }
      var store := new RefCatStore(entry.store);
      var report := store.Ensure(w.sky, shardCache, wanted.value, env.present);
      var after := entry.(store := Store(store.shardIds, store.shards, store.nRows));
      prepared := Touch(prepared, key, after);
      r := if report.LoadError? then Missing else Hit((after, report));
    }

    method Prepare(w: World, command: Command, env: Env) returns (r: Found<Prepared>)
      modifies this, shardCache
      ensures Outcome(Abs(), r) == EnsurePrepared(w, old(Abs()), command, env)
      ensures SameNames(w) && Good(w, old(Abs())) ==>
                && Good(w, Abs())
                && (if r.Hit? then Abs().active.Hit? && Abs().active == Uncached(w, command, env) && r.value.dump == taskDump
                    else Abs().active == old(Abs()).active)
    {
      hide Good, Insert, Reuse, EnsureCalib, SameNames, Uncached;
      PrepareWhenGood(w, Abs(), command, env);
      var k := KeyOf(w, command);
      if k.Missing? {
        return Missing;
      }
      var key := k.value;
      var found := Get(prepared, key);
      var got;
      if found.Missing? {
        got := BuildAndInsert(w, key, command, env);
        if got.Hit? {
          commands := commands[key := command];
        }
      } else {
        got := ReuseEntry(w, key, found.value, command, env);
      }
      if got.Missing? {
        return Missing;
      }
      var report := ActivateEntry(w, got.value.0, command, env);
      if report.Missing? {
        return Missing;
      }
      r := Hit(Prepared(key, Timings(found.Hit?, got.value.1, report.value), taskDump));
    }

    method PrepareForPush(w: World, key: PrepareKey, env: Env) returns (r: Found<Entry>)
      modifies this, shardCache
      ensures Outcome(Abs(), r) == EnsureForPush(w, old(Abs()), key, env)
      ensures SameNames(w) && Good(w, old(Abs())) ==>
                && Good(w, Abs())
                && (r.Hit? ==> key in old(commands) && Abs().active == Uncached(w, old(commands)[key], env))
                && (r.Missing? ==> Abs().active == old(Abs()).active)
    {
      hide Good, Insert, Activate, SameNames, Uncached;
      PushWhenGood(w, Abs(), key, env);
      if key !in commands {
        return Missing;
      }
      var command := commands[key];
      var found := Get(prepared, key);
      var entry;
      if found.Hit? {
        entry := found.value;
        prepared := Touch(prepared, key, entry);
      } else {
        var built := BuildAndInsert(w, key, command, env);
        if built.Missing? {
          return Missing;
        }
        entry := built.value.0;
      }
      var report := ActivateEntry(w, entry, command, env);
      r := if report.Hit? then Hit(entry) else Missing;
    }
  }
}
