/** The coordinator's caches: prepared (task, refcat) bundles, the two calib halves, and the mirrors
    of whichever bundle is active, against the build that uses no cache at all. */
module PreparedConfig {
  import opened Lru
  import opened RefCat

  const PREPARED_CACHE_CAP: nat := 3
  const CALIB_CACHE_CAP: nat := 2

  // ---------------------------------------------------------------- override lists

  /** One entry of a request's override list; a missing or null name reads as `Missing`. */
  datatype Override = Value(field: string, value: string) | Python(name: Found<string>, text: string)

  /** What `apply_overrides` does for an entry. */
  datatype Edit = Assign(field: string, value: string) | Exec(filename: string, code: string)

  type OverrideKey = seq<(string, string, string)>

  function NameOf(name: Found<string>): string {
    if name.Hit? && name.value != "" then name.value else "<override>"
  }

  function Entries(spec: Found<seq<Override>>): seq<Override> {
    if spec.Hit? then spec.value else []
  }

  function KeyEntry(o: Override): (string, string, string) {
    match o
    case Value(field, value) => ("value", field, value)
    case Python(name, text) => ("python", NameOf(name), text)
  }

  function EditOf(o: Override): Edit {
    match o
    case Value(field, value) => Assign(field, value)
    case Python(name, text) => Exec(NameOf(name), text)
  }

  function KeyOfOverrides(spec: Found<seq<Override>>): OverrideKey {
    seq(|Entries(spec)|, i requires 0 <= i < |Entries(spec)| => KeyEntry(Entries(spec)[i]))
  }

  function Edits(spec: Found<seq<Override>>): seq<Edit> {
    seq(|Entries(spec)|, i requires 0 <= i < |Entries(spec)| => EditOf(Entries(spec)[i]))
  }

  method OverrideKeyLoop(spec: Found<seq<Override>>) returns (entries: OverrideKey)
    ensures entries == KeyOfOverrides(spec)
  {
    entries := [];
    var list := Entries(spec);
    var i := 0;
    while i < |list|
      invariant 0 <= i <= |list| && |entries| == i
      invariant forall j :: 0 <= j < i ==> entries[j] == KeyEntry(list[j])
    {
      match list[i] {
        case Value(field, value) => entries := entries + [("value", field, value)];
        case Python(name, text) =>
          entries := entries + [("python", if name.Hit? && name.value != "" then name.value else "<override>", text)];
      }
      i := i + 1;
    }
  }

  lemma {:induction false} SameEntry(a: Override, b: Override)
    ensures KeyEntry(a) == KeyEntry(b) <==> EditOf(a) == EditOf(b)
  {
    if a.Value? != b.Value? {
      assert "value"[0] != "python"[0];
    }
  }

  /** The override key identifies exactly the edits that are applied: no two different edit lists
      share a key, and lists that differ only in how they write the default name, or none, do. */
  lemma {:induction false} KeyIsEdits(a: Found<seq<Override>>, b: Found<seq<Override>>)
    ensures KeyOfOverrides(a) == KeyOfOverrides(b) <==> Edits(a) == Edits(b)
  {
    hide KeyEntry, EditOf;
    var x, y := Entries(a), Entries(b);
    if |x| == |y| {
      forall i | 0 <= i < |x| ensures KeyEntry(x[i]) == KeyEntry(y[i]) <==> EditOf(x[i]) == EditOf(y[i]) {
        SameEntry(x[i], y[i]);
      }
      if KeyOfOverrides(a) == KeyOfOverrides(b) {
        forall i | 0 <= i < |x| ensures Edits(a)[i] == Edits(b)[i] {
          assert KeyOfOverrides(a)[i] == KeyOfOverrides(b)[i];
        }
      } else if Edits(a) == Edits(b) {
        forall i | 0 <= i < |x| ensures KeyOfOverrides(a)[i] == KeyOfOverrides(b)[i] {
          assert Edits(a)[i] == Edits(b)[i];
        }
      }
    } else {
      assert |KeyOfOverrides(a)| != |KeyOfOverrides(b)|;
      assert |Edits(a)| != |Edits(b)|;
    }
  }

  predicate Unnamed(name: Found<string>) {
    name.Missing? || name.value == "" || name.value == "<override>"
  }

  /** Two entries that mean the same: equal, but for the ways of leaving a file unnamed. */
  predicate SameOverride(a: Override, b: Override) {
    if a.Python? && b.Python? then a.text == b.text && (a.name == b.name || (Unnamed(a.name) && Unnamed(b.name)))
    else a == b
  }

  lemma {:induction false} EntriesMatch(a: Override, b: Override)
    ensures KeyEntry(a) == KeyEntry(b) <==> SameOverride(a, b)
  {
    if a.Value? != b.Value? {
      assert "value"[0] != "python"[0];
    }
  }

  /** Two override lists have one key exactly when they say the same things in the same order; no list at all is
      the empty list. */
  lemma {:induction false} KeysMatchWhen(a: Found<seq<Override>>, b: Found<seq<Override>>)
    ensures KeyOfOverrides(a) == KeyOfOverrides(b) <==>
              && |Entries(a)| == |Entries(b)|
              && forall i :: 0 <= i < |Entries(a)| ==> SameOverride(Entries(a)[i], Entries(b)[i])
  {
    hide KeyEntry, SameOverride, Entries;
    var x, y, u, v := Entries(a), Entries(b), KeyOfOverrides(a), KeyOfOverrides(b);
    assert |u| == |x| && |v| == |y|;
    if |x| == |y| {
      forall i | 0 <= i < |x| ensures u[i] == v[i] <==> SameOverride(x[i], y[i]) {
        EntriesMatch(x[i], y[i]);
      }
    }
  }

  // ---------------------------------------------------------------- what is outside the caches

  type Boresight = (real, real)
  type DetectorId = int
  type FilterId = int
  type FilterHalf = int

  datatype DetectorHalf = DetectorHalf(names: seq<string>, data: int)
  datatype Calib = Calib(detector: DetectorHalf, filtered: FilterHalf)
  datatype CalibIds = CalibIds(detector: DetectorId, filtered: FilterId)
  datatype Built = Built(task: int, dump: string)

  datatype Command = Command(overrides: Found<seq<Override>>, filter: string, boresight: Boresight, time: string)

  datatype PrepareKey = PrepareKey(task: OverrideKey, filter: string, refcat: set<ShardId>, time: string)

  /** Uninterpreted: the shard files and pixel lookup, pointing geometry, task construction (`Missing`
      when the overrides are refused) and the calib contents an identity names. */
  datatype World = World(
    sky: Sky,
    shardIds: Boresight -> Found<set<ShardId>>,
    build: seq<Edit> -> Found<Built>,
    loadDetector: DetectorId -> DetectorHalf,
    loadFilter: (FilterId, seq<string>) -> FilterHalf)

  /** What the outside does during one call: what the backend resolves now, whether reads work, and
      which shard files are there. */
  datatype Env = Env(
    resolve: (string, string) -> Found<CalibIds>,
    detectorLoads: bool,
    filterLoads: bool,
    setupWorks: bool,
    present: set<ShardId>)

  /** Both backends give every detector half the same names: one directory, or one fixed table. */
  ghost predicate SameNames(w: World) {
    forall a: DetectorId, b: DetectorId :: w.loadDetector(a).names == w.loadDetector(b).names
  }

  function KeyOf(w: World, command: Command): Found<PrepareKey> {
    match w.shardIds(command.boresight)
    case Missing => Missing
    case Hit(ids) => Hit(PrepareKey(KeyOfOverrides(command.overrides), command.filter, ids, command.time))
  }

  // ---------------------------------------------------------------- the build without caches

  datatype Entry = Entry(key: PrepareKey, built: Built, store: Store)

  /** The mirrors a job reads: the active entry's key, task, dump and refcat, and the calibs. */
  datatype Active = Active(entry: Entry, calib: Calib)

  ghost function FreshEntry(w: World, command: Command): Found<Entry> {
    match KeyOf(w, command)
    case Missing => Missing
    case Hit(key) =>
      match w.build(Edits(command.overrides))
      case Missing => Missing
      case Hit(built) => Hit(Entry(key, built, Loaded(w.sky, key.refcat)))
  }

  function FreshCalib(w: World, ids: CalibIds): Calib {
    Calib(w.loadDetector(ids.detector), w.loadFilter(ids.filtered, w.loadDetector(ids.detector).names))
  }

  /** Everything a job of this command should run under, built from nothing. */
  ghost function Uncached(w: World, command: Command, env: Env): Found<Active> {
    match FreshEntry(w, command)
    case Missing => Missing
    case Hit(entry) =>
      match env.resolve(command.filter, command.time)
      case Missing => Missing
      case Hit(ids) => Hit(Active(entry, FreshCalib(w, ids)))
  }

  /** Commands with one key build one configuration. */
  lemma {:induction false} SameKeySameBuild(w: World, a: Command, b: Command, env: Env)
    requires KeyOf(w, a) == KeyOf(w, b) && KeyOf(w, a).Hit?
    ensures FreshEntry(w, a) == FreshEntry(w, b)
    ensures Uncached(w, a, env) == Uncached(w, b, env)
  {
    hide Edits, KeyOfOverrides, Loaded;
    KeyIsEdits(a.overrides, b.overrides);
  }

  // ---------------------------------------------------------------- the cached operations

  datatype Caches = Caches(
    prepared: Dict<PrepareKey, Entry>,
    commands: map<PrepareKey, Command>,
    detector: Found<(DetectorId, DetectorHalf)>,
    filters: Dict<FilterId, FilterHalf>,
    shards: Dict<ShardId, Children>,
    active: Found<Active>)

  const START: Caches := Caches([], map[], Missing, [], [], Missing)

  /** State after a call, with its result; `Missing` when it raised. */
  datatype Outcome<T> = Outcome(caches: Caches, result: Found<T>)

  function EnsureDetector(w: World, c: Caches, id: DetectorId, loads: bool): Outcome<(DetectorHalf, bool)> {
    if c.detector.Hit? && c.detector.value.0 == id then Outcome(c, Hit((c.detector.value.1, true)))
    else if !loads then Outcome(c, Missing)
    else Outcome(c.(detector := Hit((id, w.loadDetector(id)))), Hit((w.loadDetector(id), false)))
  }

  function EnsureFilter(w: World, c: Caches, id: FilterId, names: seq<string>, loads: bool): Outcome<(FilterHalf, bool)> {
    match Get(c.filters, id)
    case Hit(f) => Outcome(c.(filters := Touch(c.filters, id, f)), Hit((f, true)))
    case Missing =>
      if !loads then Outcome(c, Missing)
      else Outcome(c.(filters := Trim(Touch(c.filters, id, w.loadFilter(id, names)), CALIB_CACHE_CAP)),
                   Hit((w.loadFilter(id, names), false)))
  }

  datatype CalibReport = CalibReport(reused: bool, detectorReused: bool, filterReused: bool)

  function EnsureCalib(w: World, c: Caches, command: Command, env: Env): Outcome<(Calib, CalibReport)> {
    match env.resolve(command.filter, command.time)
    case Missing => Outcome(c, Missing)
    case Hit(ids) =>
      var d := EnsureDetector(w, c, ids.detector, env.detectorLoads);
      if d.result.Missing? then Outcome(d.caches, Missing) else
        var (detector, dReused) := d.result.value;
        var f := EnsureFilter(w, d.caches, ids.filtered, detector.names, env.filterLoads);
        if f.result.Missing? then Outcome(f.caches, Missing) else
          var (filtered, fReused) := f.result.value;
          Outcome(f.caches, Hit((Calib(detector, filtered), CalibReport(dReused && fReused, dReused, fReused))))
  }

  function Activate(w: World, c: Caches, entry: Entry, command: Command, env: Env): Outcome<CalibReport> {
    var e := EnsureCalib(w, c, command, env);
    if e.result.Missing? then Outcome(e.caches, Missing) else
      Outcome(e.caches.(active := Hit(Active(entry, e.result.value.0))), Hit(e.result.value.1))
  }

  ghost function BuildEntry(w: World, c: Caches, key: PrepareKey, command: Command, env: Env): Outcome<(Entry, Report)> {
    match w.build(Edits(command.overrides))
    case Missing => Outcome(c, Missing)
    case Hit(built) =>
      if !env.setupWorks then Outcome(c, Missing) else
        match w.shardIds(command.boresight)
        case Missing => Outcome(c, Missing)
        case Hit(wanted) =>
          var (shards, store, report) := EnsureStore(w.sky, c.shards, EMPTY_STORE, wanted, env.present);
          if report.LoadError? then Outcome(c.(shards := shards), Missing)
          else Outcome(c.(shards := shards), Hit((Entry(key, built, store), report)))
  }

  datatype Timings = Timings(taskReused: bool, refcat: Report, calib: CalibReport)

  /** The reply of a prepare: its key, its timings and the dump of the now-active task. */
  datatype Prepared = Prepared(key: PrepareKey, timings: Timings, dump: string)

  /** The entry for a key that is not cached: built, inserted, and the oldest evicted. */
  ghost function Insert(w: World, c: Caches, key: PrepareKey, command: Command, env: Env): Outcome<(Entry, Report)> {
    var b := BuildEntry(w, c, key, command, env);
    if b.result.Missing? then b else
      Outcome(b.caches.(prepared := Trim(Touch(b.caches.prepared, key, b.result.value.0), PREPARED_CACHE_CAP)), b.result)
  }

  /** The entry for a key that is cached: moved to the end, its store asked for the command's shards. */
  ghost function Reuse(w: World, c: Caches, key: PrepareKey, entry: Entry, command: Command, env: Env): Outcome<(Entry, Report)> {
    match w.shardIds(command.boresight)
    case Missing => Outcome(c.(prepared := Touch(c.prepared, key, entry)), Missing)
    case Hit(wanted) =>
      var (shards, store, report) := EnsureStore(w.sky, c.shards, entry.store, wanted, env.present);
      var after := entry.(store := store);
      var touched := c.(prepared := Touch(c.prepared, key, after), shards := shards);
      if report.LoadError? then Outcome(touched, Missing) else Outcome(touched, Hit((after, report)))
  }

  ghost function EnsurePrepared(w: World, c: Caches, command: Command, env: Env): Outcome<Prepared> {
    match KeyOf(w, command)
    case Missing => Outcome(c, Missing)
    case Hit(key) =>
      var found := Get(c.prepared, key);
      var e := if found.Hit? then Reuse(w, c, key, found.value, command, env) else Insert(w, c, key, command, env);
      if e.result.Missing? then Outcome(e.caches, Missing) else
        var (entry, report) := e.result.value;
        var kept := if found.Hit? then e.caches else e.caches.(commands := e.caches.commands[key := command]);
        var a := Activate(w, kept, entry, command, env);
        if a.result.Missing? then Outcome(a.caches, Missing) else
          Outcome(a.caches, Hit(Prepared(key, Timings(found.Hit?, report, a.result.value), entry.built.dump)))
  }

  ghost function EnsureForPush(w: World, c: Caches, key: PrepareKey, env: Env): Outcome<Entry> {
    if key !in c.commands then Outcome(c, Missing) else
      var command := c.commands[key];
      var found := Get(c.prepared, key);
      if found.Hit? then
        var a := Activate(w, c.(prepared := Touch(c.prepared, key, found.value)), found.value, command, env);
        Outcome(a.caches, if a.result.Hit? then Hit(found.value) else Missing)
      else
        var e := Insert(w, c, key, command, env);
        if e.result.Missing? then Outcome(e.caches, Missing) else
          var a := Activate(w, e.caches, e.result.value.0, command, env);
          Outcome(a.caches, if a.result.Hit? then Hit(e.result.value.0) else Missing)
  }
}
