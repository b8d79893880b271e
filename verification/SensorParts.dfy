/** The `<sensor>:img` / `<sensor>:meta` naming of parts and its inverse. */
module SensorParts {
  import opened Bytes
  import opened Utf8
  import opened Wire

  const IMG: seq<Byte> := [0x3A, 0x69, 0x6D, 0x67]           // ":img"
  const META: seq<Byte> := [0x3A, 0x6D, 0x65, 0x74, 0x61]    // ":meta"

  type Sensor = seq<Byte>
  datatype Pair = Pair(img: seq<Byte>, meta: seq<Byte>)

  function PartName(sensor: Sensor, suffix: seq<Byte>): Name {
    sensor + suffix
  }

  predicate EndsWith(name: Name, suffix: seq<Byte>) {
    |suffix| <= |name| && name[|name| - |suffix|..] == suffix
  }

  function Stem(name: Name, suffix: seq<Byte>): Sensor
    requires EndsWith(name, suffix)
  {
    name[..|name| - |suffix|]
  }

  lemma {:induction false} StemOfPartName(sensor: Sensor, suffix: seq<Byte>)
    ensures EndsWith(PartName(sensor, suffix), suffix) && Stem(PartName(sensor, suffix), suffix) == sensor
  {
  }

  lemma {:induction false} PartNameOfStem(name: Name, suffix: seq<Byte>)
    requires EndsWith(name, suffix)
    ensures PartName(Stem(name, suffix), suffix) == name
  {
  }

  /** No name is both an image and a metadata name, whatever the sensors are called. */
  lemma {:induction false} NamesApart(a: Sensor, b: Sensor)
    ensures PartName(a, IMG) != PartName(b, META)
    ensures !EndsWith(PartName(a, IMG), META) && !EndsWith(PartName(b, META), IMG)
  {
    LastByte(PartName(a, IMG), IMG);
    LastByte(PartName(b, META), META);
    if EndsWith(PartName(a, IMG), META) {
      LastByte(PartName(a, IMG), META);
    }
    if EndsWith(PartName(b, META), IMG) {
      LastByte(PartName(b, META), IMG);
    }
  }

  lemma {:induction false} LastByte(name: Name, suffix: seq<Byte>)
    requires suffix != [] && EndsWith(name, suffix)
    ensures name[|name| - 1] == suffix[|suffix| - 1]
  {
    assert name[|name| - |suffix|..][|suffix| - 1] == name[|name| - 1];
  }

  lemma {:induction false} PartNameInjective(a: Sensor, b: Sensor, suffix: seq<Byte>)
    requires PartName(a, suffix) == PartName(b, suffix)
    ensures a == b
  {
    StemOfPartName(a, suffix);
    StemOfPartName(b, suffix);
  }

  /** A sensor name that can be encoded gives part names that can be encoded. */
  lemma {:induction false} PartNameValid(sensor: Sensor)
    requires ValidUtf8(sensor)
    ensures ValidUtf8(PartName(sensor, IMG)) && ValidUtf8(PartName(sensor, META))
  {
    AsciiValid(IMG);
    AsciiValid(META);
    ValidConcat(sensor, IMG);
    ValidConcat(sensor, META);
  }

  function ImgName(s: Sensor): Name { PartName(s, IMG) }

  function MetaName(s: Sensor): Name { PartName(s, META) }

  /** The naming, as far as regrouping needs it. */
  lemma {:induction false} NamingFacts()
    ensures forall s, t :: ImgName(s) == ImgName(t) ==> s == t
    ensures forall s, t :: MetaName(s) == MetaName(t) ==> s == t
    ensures forall s, t :: ImgName(s) != MetaName(t)
    ensures forall n :: EndsWith(n, IMG) ==> ImgName(Stem(n, IMG)) == n
    ensures forall n :: EndsWith(n, META) ==> MetaName(Stem(n, META)) == n
    ensures forall s :: EndsWith(ImgName(s), IMG)
    ensures forall s :: EndsWith(MetaName(s), META)
  {
    forall s, t ensures ImgName(s) == ImgName(t) ==> s == t {
      if ImgName(s) == ImgName(t) { PartNameInjective(s, t, IMG); }
    }
    forall s, t ensures MetaName(s) == MetaName(t) ==> s == t {
      if MetaName(s) == MetaName(t) { PartNameInjective(s, t, META); }
    }
    forall s, t ensures ImgName(s) != MetaName(t) { NamesApart(s, t); }
    forall n | EndsWith(n, IMG) ensures ImgName(Stem(n, IMG)) == n { PartNameOfStem(n, IMG); }
    forall n | EndsWith(n, META) ensures MetaName(Stem(n, META)) == n { PartNameOfStem(n, META); }
    forall s ensures EndsWith(ImgName(s), IMG) { StemOfPartName(s, IMG); }
    forall s ensures EndsWith(MetaName(s), META) { StemOfPartName(s, META); }
  }

  // ---------------------------------------------------------------- regrouping

  datatype Slot = Empty | Full(data: seq<Byte>)
  datatype Group = Group(img: Slot, meta: Slot)

  type PartMap = map<Name, seq<Byte>>
  type Sensors = map<Sensor, Pair>

  function Lookup(parts: PartMap, name: Name): Slot {
    if name in parts then Full(parts[name]) else Empty
  }

  ghost predicate HasSuffix(name: Name) {
    EndsWith(name, IMG) || EndsWith(name, META)
  }

  /** The sensors some part names. */
  ghost predicate Named(parts: PartMap, s: Sensor) {
    ImgName(s) in parts || MetaName(s) in parts
  }

  ghost predicate Complete(parts: PartMap, s: Sensor) {
    ImgName(s) in parts && MetaName(s) in parts
  }

  ghost predicate AllSuffixed(parts: PartMap) {
    forall n :: n in parts ==> HasSuffix(n)
  }

  ghost predicate AllComplete(parts: PartMap) {
    forall s {:trigger Named(parts, s)} :: Named(parts, s) ==> Complete(parts, s)
  }

  ghost predicate PairOf(parts: PartMap, sensors: Sensors, s: Sensor) {
    s in sensors && Complete(parts, s) && sensors[s] == Pair(parts[ImgName(s)], parts[MetaName(s)])
  }

  /** `sensors` and `parts` say the same: every part belongs to a sensor's pair and back. */
  ghost predicate Regroups(parts: PartMap, sensors: Sensors) {
    && AllSuffixed(parts)
    && (forall s {:trigger Named(parts, s)} :: Named(parts, s) ==> PairOf(parts, sensors, s))
    && (forall s {:trigger s in sensors} :: s in sensors ==> PairOf(parts, sensors, s))
  }

  /** The regrouping: accepts exactly the complete maps, and gives their only regrouping. */
  method SplitParts(parts: seq<Part>) returns (r: Result<Sensors>)
    ensures r.Ok? <==> AllSuffixed(ToMap(parts)) && AllComplete(ToMap(parts))
    ensures r.Ok? ==> Regroups(ToMap(parts), r.value)
    ensures r.Err? ==> r.error == ProtocolError(if AllSuffixed(ToMap(parts)) then MissingHalf else UnknownSuffix)
  {
    var grouped: map<Sensor, Group>, order: seq<Sensor>, i := map[], [], 0;
    while i < |parts|
      invariant 0 <= i <= |parts|
      invariant AllSuffixed(ToMap(parts[..i]))
      invariant Grouping(ToMap(parts[..i]), grouped)
      invariant forall s :: s in grouped <==> s in order
    {
      var name, data := parts[i].name, parts[i].data;
      assert parts[..i + 1][..i] == parts[..i];
      var sensor;
      ghost var seen := ToMap(parts[..i]);
      hide Grouping, AllSuffixed, ToMap;
      if EndsWith(name, IMG) {
        sensor := Stem(name, IMG);
        GroupImg(seen, grouped, name, data);
        grouped := grouped[sensor := Slots(grouped, sensor).(img := Full(data))];
      } else if EndsWith(name, META) {
        sensor := Stem(name, META);
        GroupMeta(seen, grouped, name, data);
        grouped := grouped[sensor := Slots(grouped, sensor).(meta := Full(data))];
      } else {
        NameStays(parts, i);
        return Err(ProtocolError(UnknownSuffix));
      }
      if sensor !in order {
        order := order + [sensor];
      }
      i := i + 1;
    }
    assert parts[..i] == parts;
    r := Collect(ToMap(parts), grouped, order);
  }

  function Slots(grouped: map<Sensor, Group>, s: Sensor): Group {
    if s in grouped then grouped[s] else Group(Empty, Empty)
  }

  method Collect(ghost all: PartMap, grouped: map<Sensor, Group>, order: seq<Sensor>) returns (r: Result<Sensors>)
    requires AllSuffixed(all) && Grouping(all, grouped)
    requires forall s :: s in grouped <==> s in order
    ensures r.Ok? <==> AllComplete(all)
    ensures r.Ok? ==> Regroups(all, r.value)
    ensures r.Err? ==> r.error == ProtocolError(MissingHalf)
  {
    hide ImgName, MetaName, AllSuffixed;
    var result: Sensors, k := map[], 0;
    while k < |order|
      invariant 0 <= k <= |order|
      invariant forall s :: s in result <==> s in order[..k]
      invariant forall s :: s in result ==> PairOf(all, result, s)
    {
      var sensor, found := order[k], grouped[order[k]];
      assert Tracked(all, grouped, sensor);
      if found.img.Empty? || found.meta.Empty? {
        assert Named(all, sensor) && !Complete(all, sensor);
        return Err(ProtocolError(MissingHalf));
      }
      result := result[sensor := Pair(found.img.data, found.meta.data)];
      k := k + 1;
    }
    assert order[..k] == order;
    forall s | Named(all, s) ensures PairOf(all, result, s) {
      assert Tracked(all, grouped, s);
    }
    return Ok(result);
  }

  ghost predicate Tracked(seen: PartMap, grouped: map<Sensor, Group>, s: Sensor) {
    s in grouped && Named(seen, s) && grouped[s] == Group(Lookup(seen, ImgName(s)), Lookup(seen, MetaName(s)))
  }

  /** The grouping dict after the parts of `seen`. */
  ghost predicate Grouping(seen: PartMap, grouped: map<Sensor, Group>) {
    && (forall s {:trigger Named(seen, s)} :: Named(seen, s) ==> Tracked(seen, grouped, s))
    && (forall s {:trigger s in grouped} :: s in grouped ==> Tracked(seen, grouped, s))
  }

  lemma {:induction false} GroupImg(seen: PartMap, grouped: map<Sensor, Group>, name: Name, data: seq<Byte>)
    requires Grouping(seen, grouped) && AllSuffixed(seen) && EndsWith(name, IMG)
    ensures var s := Stem(name, IMG);
            Grouping(seen[name := data], grouped[s := Slots(grouped, s).(img := Full(data))])
    ensures AllSuffixed(seen[name := data])
  {
    NamingFacts();
    hide ImgName, MetaName, EndsWith, Stem;
    var s, now := Stem(name, IMG), seen[name := data];
    var after := grouped[s := Slots(grouped, s).(img := Full(data))];
    assert ImgName(s) == name;
    forall t | Named(now, t) || t in after ensures Tracked(now, after, t) {
      assert t != s ==> Named(seen, t) || t in grouped;
      assert Named(seen, s) <==> s in grouped;
    }
  }

  lemma {:induction false} GroupMeta(seen: PartMap, grouped: map<Sensor, Group>, name: Name, data: seq<Byte>)
    requires Grouping(seen, grouped) && AllSuffixed(seen) && EndsWith(name, META)
    ensures var s := Stem(name, META);
            Grouping(seen[name := data], grouped[s := Slots(grouped, s).(meta := Full(data))])
    ensures AllSuffixed(seen[name := data])
  {
    NamingFacts();
    hide ImgName, MetaName, EndsWith, Stem;
    var s, now := Stem(name, META), seen[name := data];
    var after := grouped[s := Slots(grouped, s).(meta := Full(data))];
    assert MetaName(s) == name;
    forall t | Named(now, t) || t in after ensures Tracked(now, after, t) {
      assert t != s ==> Named(seen, t) || t in grouped;
      assert Named(seen, s) <==> s in grouped;
    }
  }

  lemma {:induction false} NameStays(parts: seq<Part>, i: nat)
    requires i < |parts|
    ensures parts[i].name in ToMap(parts)
  {
    var n := |parts| - 1;
    if i < n {
      NameStays(parts[..n], i);
    }
  }

  // ---------------------------------------------------------------- the regrouping is exact

  /** A part map has one regrouping, and a regrouping comes from one part map. */
  lemma {:induction false} RegroupsExact(p: PartMap, q: PartMap, a: Sensors, b: Sensors)
    requires Regroups(p, a) && Regroups(q, b)
    ensures p == q <==> a == b
  {
    if p == q {
      OneRegrouping(p, a, b);
      OneRegrouping(p, b, a);
      assert a == b;
    }
    if a == b {
      OnePartMap(p, q, a);
      OnePartMap(q, p, a);
      assert p == q;
    }
  }

  lemma {:induction false} OneRegrouping(p: PartMap, a: Sensors, b: Sensors)
    requires Regroups(p, a) && Regroups(p, b)
    ensures forall s :: s in a ==> s in b && a[s] == b[s]
  {
    hide ImgName, MetaName;
    forall s | s in a ensures s in b && a[s] == b[s] {
      assert PairOf(p, a, s) && Named(p, s) && PairOf(p, b, s);
    }
  }

  lemma {:induction false} OnePartMap(p: PartMap, q: PartMap, a: Sensors)
    requires Regroups(p, a) && Regroups(q, a)
    ensures forall n :: n in p ==> n in q && p[n] == q[n]
  {
    NamingFacts();
    hide ImgName, MetaName, EndsWith, Stem;
    forall n | n in p ensures n in q && p[n] == q[n] {
      assert HasSuffix(n);
      var s := if EndsWith(n, IMG) then Stem(n, IMG) else Stem(n, META);
      assert Named(p, s) && PairOf(p, a, s) && PairOf(q, a, s);
    }
  }

  /** The parts a producer sends for some sensors, in its order. */
  function Flatten(sensors: seq<Sensor>, pairs: Sensors): seq<Part>
    requires forall s :: s in sensors ==> s in pairs
  {
    if sensors == [] then [] else
      var front, s := sensors[..|sensors| - 1], sensors[|sensors| - 1];
      Flatten(front, pairs) + [Part(ImgName(s), pairs[s].img), Part(MetaName(s), pairs[s].meta)]
  }

  lemma {:induction false} MapOfTwoMore(parts: seq<Part>, a: Part, b: Part)
    ensures ToMap(parts + [a, b]) == ToMap(parts)[a.name := a.data][b.name := b.data]
  {
    var all := parts + [a, b];
    assert all[..|all| - 1] == parts + [a] && (parts + [a])[..|parts|] == parts;
  }

  /** For every sensor name, those ending in a suffix included, regrouping inverts the naming. */
  lemma {:induction false} FlattenRegroups(sensors: seq<Sensor>, pairs: Sensors)
    requires forall s :: s in sensors <==> s in pairs
    ensures Regroups(ToMap(Flatten(sensors, pairs)), pairs)
  {
    FlattenLookup(sensors, pairs);
  }

  /** `p` holds exactly the pairs of the listed sensors. */
  ghost predicate HoldsPairs(p: PartMap, sensors: seq<Sensor>, pairs: Sensors) {
    && AllSuffixed(p)
    && (forall s {:trigger Named(p, s)} :: Named(p, s) ==> s in sensors)
    && (forall s {:trigger s in sensors} :: s in sensors ==> PairOf(p, pairs, s))
  }

  lemma {:induction false} FlattenLookup(sensors: seq<Sensor>, pairs: Sensors)
    requires forall s :: s in sensors ==> s in pairs
    ensures HoldsPairs(ToMap(Flatten(sensors, pairs)), sensors, pairs)
  {
    if sensors == [] {
      assert ToMap(Flatten(sensors, pairs)) == map[];
    } else {
      var front, t := sensors[..|sensors| - 1], sensors[|sensors| - 1];
      FlattenLookup(front, pairs);
      MapOfTwoMore(Flatten(front, pairs), Part(ImgName(t), pairs[t].img), Part(MetaName(t), pairs[t].meta));
      OneMoreSensor(ToMap(Flatten(front, pairs)), front, pairs, t);
      assert front + [t] == sensors;
    }
  }

  lemma {:induction false} OneMoreSensor(p: PartMap, front: seq<Sensor>, pairs: Sensors, t: Sensor)
    requires HoldsPairs(p, front, pairs) && t in pairs
    ensures HoldsPairs(p[ImgName(t) := pairs[t].img][MetaName(t) := pairs[t].meta], front + [t], pairs)
  {
    NamingFacts();
    hide ImgName, MetaName, EndsWith, Stem;
    var q := p[ImgName(t) := pairs[t].img][MetaName(t) := pairs[t].meta];
    forall s | s in front + [t] || Named(q, s) ensures PairOf(q, pairs, s) && s in front + [t] {
      assert s in front ==> PairOf(p, pairs, s);
      assert s == t || Named(p, s) || s in front;
    }
  }
}
