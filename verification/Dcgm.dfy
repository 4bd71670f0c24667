/**
  internal/usage/gpu.go: where each sample of the GPUs comes from. DCGM is read while every GPU of the job is found and
  watched; whenever it answers nothing the sample is NVML's and DCGM is opened again for the next. What the two
  libraries answer is a parameter of each call.
*/
module Dcgm {
  import opened Options

  datatype Gpu = Gpu(index: nat, uuid: string, name: string)

  datatype Metric = Metric(key: string, field: nat)

  function Metrics(): seq<Metric> {
    [
      Metric("utilPct", 203), Metric("memUtilPct", 204), Metric("memUsedMiB", 252), Metric("memTotalMiB", 250),
      Metric("powerW", 155), Metric("tempC", 150), Metric("memTempC", 140), Metric("smClockMHz", 100),
      Metric("memClockMHz", 101), Metric("throttleReasons", 112), Metric("eccErrors", 311), Metric("energyMJ", 156),
      Metric("xidLast", 230), Metric("smActive", 1002), Metric("smOccupancy", 1003), Metric("tensorActive", 1004),
      Metric("dramActive", 1005), Metric("fp64Active", 1006), Metric("fp32Active", 1007), Metric("fp16Active", 1008),
      Metric("pcieTxBytesPerSec", 1009), Metric("pcieRxBytesPerSec", 1010), Metric("nvlinkTxBytesPerSec", 1011),
      Metric("nvlinkRxBytesPerSec", 1012)]
  }

  /** A value DCGM answers: whose it is, of what, and its reading unless its kind is unknown or it is blank. */
  datatype Value = Value(entity: nat, field: nat, ok: bool, reading: Option<real>)

  datatype Name = Name(entity: nat, ok: bool, uuid: string)

  /** What the library answers during one openDCGM. */
  datatype Setup = Setup(
    loads: bool, connects: bool, devices: Option<seq<nat>>, names: Option<seq<Name>>,
    groups: bool, accepted: set<nat>, fieldGroups: bool, watches: bool)

  datatype Reader = NoReader | Watching(entities: seq<nat>, uuids: map<nat, string>)

  datatype Source = FromDcgm | FromNvml

  /** The entry of one GPU; a metric that was not read is nil. */
  datatype Entry = Entry(index: nat, uuid: string, name: string, metrics: map<string, Option<real>>)

  predicate IsField(f: nat) { exists m | m in Metrics() :: m.field == f }

  predicate IsKey(k: string) { exists m | m in Metrics() :: m.key == k }

  /** DCGM numbers the GPUs its own way: number is the UUID behind each entity, and names tells the truth about it. */
  ghost predicate Truthful(names: Option<seq<Name>>, number: map<nat, string>) {
    names.Some? ==> forall v | v in names.value && v.ok :: v.entity in number && number[v.entity] == v.uuid
  }

  /** A reply holds values of the entities and fields asked for, and of no others. */
  ghost predicate Answers(reply: Option<seq<Value>>, reader: Reader) {
    reply.Some? && reader.Watching? ==> forall v | v in reply.value :: v.entity in reader.entities && IsField(v.field)
  }

  /** The entity of the last name given to uuid. */
  function Named(names: seq<Name>, uuid: string): Option<nat> {
    if names == [] then None
    else
      var v := names[|names| - 1];
      if v.ok && v.uuid == uuid then Some(v.entity) else Named(names[..|names| - 1], uuid)
  }

  /** Every GPU of the job is known to DCGM and joins the group. */
  predicate AllJoin(gpus: seq<Gpu>, setup: Setup) {
    setup.names.Some? && forall g | g in gpus ::
      Named(setup.names.value, g.uuid).Some? && Named(setup.names.value, g.uuid).value in setup.accepted
  }

  /** All that has to go well for DCGM to be read. */
  predicate Opens(gpus: seq<Gpu>, setup: Setup) {
    && setup.loads && setup.connects && setup.devices.Some? && setup.devices.value != []
    && setup.groups && AllJoin(gpus, setup) && setup.fieldGroups && setup.watches
  }

  /** Name i is the last one given to uuid. */
  predicate LastNamed(names: seq<Name>, uuid: string, i: nat) {
    && i < |names| && names[i].ok && names[i].uuid == uuid
    && forall j | i < j < |names| :: !(names[j].ok && names[j].uuid == uuid)
  }

  lemma {:induction false} NamedIsLast(names: seq<Name>, uuid: string)
    ensures Named(names, uuid).Some? <==> exists i: nat :: LastNamed(names, uuid, i)
    ensures forall i: nat | LastNamed(names, uuid, i) :: Named(names, uuid) == Some(names[i].entity)
  {
    if names != [] {
      var n := |names| - 1;
      NamedIsLast(names[..n], uuid);
      if names[n].ok && names[n].uuid == uuid {
        assert LastNamed(names, uuid, n);
      } else {
        forall i: nat | i < n ensures LastNamed(names, uuid, i) <==> LastNamed(names[..n], uuid, i) {
          if LastNamed(names[..n], uuid, i) {
            forall j | i < j < |names| ensures !(names[j].ok && names[j].uuid == uuid) {
              if j < n { assert names[..n][j] == names[j]; }
            }
          }
          if LastNamed(names, uuid, i) {
            forall j | i < j < n ensures !(names[..n][j].ok && names[..n][j].uuid == uuid) { assert names[..n][j] == names[j]; }
          }
        }
        if i: nat :| LastNamed(names[..n], uuid, i) { assert LastNamed(names, uuid, i); }
      }
    }
  }

  /** The entity the job's GPU was last named for has joined the group. */
  ghost predicate Joins(setup: Setup, uuid: string) {
    setup.names.Some? && exists i: nat ::
      LastNamed(setup.names.value, uuid, i) && setup.names.value[i].entity in setup.accepted
  }

  lemma AllJoinInWords(gpus: seq<Gpu>, setup: Setup)
    ensures AllJoin(gpus, setup) <==> setup.names.Some? && forall g | g in gpus :: Joins(setup, g.uuid)
  {
    if setup.names.Some? {
      forall g | g in gpus
        ensures Joins(setup, g.uuid) <==>
          Named(setup.names.value, g.uuid).Some? && Named(setup.names.value, g.uuid).value in setup.accepted
      {
        NamedIsLast(setup.names.value, g.uuid);
      }
    }
    hide Named, LastNamed;
  }

  lemma {:induction false} NamedIsTrue(names: seq<Name>, number: map<nat, string>, uuid: string)
    requires Truthful(Some(names), number) && Named(names, uuid).Some?
    ensures Named(names, uuid).value in number && number[Named(names, uuid).value] == uuid
  {
    var v := names[|names| - 1];
    assert v in names;
    if !(v.ok && v.uuid == uuid) { NamedIsTrue(names[..|names| - 1], number, uuid); }
  }

  /** The value is a reading of metric k on the GPU with the given UUID. */
  predicate Reads(v: Value, number: map<nat, string>, uuid: string, k: string) {
    && v.ok && v.reading.Some? && v.entity in number && number[v.entity] == uuid
    && Metric(k, v.field) in Metrics()
  }

  predicate FieldsDiffer(all: seq<Metric>) { forall i, j | 0 <= i < j < |all| :: all[i].field != all[j].field }

  lemma MetricFieldDiffers(i: nat, j: nat)
    requires i < j < |Metrics()|
    ensures Metrics()[i].field != Metrics()[j].field
  {
  }

  lemma MetricFieldsDiffer()
    ensures FieldsDiffer(Metrics())
  {
    forall i, j | 0 <= i < j < |Metrics()| ensures Metrics()[i].field != Metrics()[j].field { MetricFieldDiffers(i, j); }
  }

  /** A field is watched under one key. */
  lemma OneKeyEach(all: seq<Metric>, k: string, k': string, f: nat)
    requires FieldsDiffer(all) && Metric(k, f) in all && Metric(k', f) in all
    ensures k == k'
  {
    var i :| 0 <= i < |all| && all[i] == Metric(k, f);
    var j :| 0 <= j < |all| && all[j] == Metric(k', f);
    assert i == j;
  }

  /** What a reply says of a metric of a GPU: a reading of its own entity, and nil only without one. */
  ghost predicate FromReply(reply: seq<Value>, number: map<nat, string>, uuid: string, k: string, read: Option<real>) {
    if read.Some? then exists v | v in reply :: Reads(v, number, uuid, k) && v.reading == read
    else forall v | v in reply :: !Reads(v, number, uuid, k)
  }

  /** Every metric has its place in an entry, and holds what was read of it or nil. */
  ghost predicate IsEntry(g: Gpu, read: map<string, real>, e: Entry) {
    && e.index == g.index && e.uuid == g.uuid && e.name == g.name
    && (forall k :: k in e.metrics <==> IsKey(k))
    && (forall k | IsKey(k) :: e.metrics[k] == if k in read then Some(read[k]) else None)
  }

  /** Every metric of a GPU is in its entry: a reading DCGM gave of the entity with its UUID, or nil if there is none. */
  ghost predicate ReadByDcgm(reply: seq<Value>, number: map<nat, string>, g: Gpu, e: Entry) {
    && e.index == g.index && e.uuid == g.uuid && e.name == g.name
    && (forall k :: k in e.metrics <==> IsKey(k))
    && (forall k | IsKey(k) :: FromReply(reply, number, g.uuid, k, e.metrics[k]))
  }

  method ByUUID(names: seq<Name>) returns (byUUID: map<string, nat>)
    ensures forall u :: u in byUUID <==> Named(names, u).Some?
    ensures forall u | u in byUUID :: Some(byUUID[u]) == Named(names, u)
  {
    byUUID := map[];
    for i := 0 to |names|
      invariant forall u :: u in byUUID <==> Named(names[..i], u).Some?
      invariant forall u | u in byUUID :: Some(byUUID[u]) == Named(names[..i], u)
    {
      assert names[..i + 1][..i] == names[..i];
      if names[i].ok { byUUID := byUUID[names[i].uuid := names[i].entity]; }
    }
    assert names[..|names|] == names;
  }

  /** The fields to watch, and the key each goes under. */
  method FieldKeys(all: seq<Metric>) returns (fields: seq<nat>, keys: map<nat, string>)
    ensures forall f :: f in fields <==> exists m | m in all :: m.field == f
    ensures forall f :: f in keys <==> exists m | m in all :: m.field == f
    ensures forall f | f in keys :: Metric(keys[f], f) in all
  {
    fields, keys := [], map[];
    for i := 0 to |all|
      invariant forall f :: f in fields <==> exists m | m in all[..i] :: m.field == f
      invariant forall f :: f in keys <==> exists m | m in all[..i] :: m.field == f
      invariant forall f | f in keys :: Metric(keys[f], f) in all
    {
      assert all[..i + 1] == all[..i] + [all[i]];
      fields, keys := fields + [all[i].field], keys[all[i].field := all[i].key];
    }
    assert all[..|all|] == all;
  }

  /** Where the readings of a reply so far have gone: each comes from the entity with its UUID, and none is lost. */
  ghost predicate Sorted(reply: seq<Value>, i: nat, number: map<nat, string>, out: map<string, map<string, real>>)
    requires i <= |reply|
  {
    && (forall u, k | u in out && k in out[u] :: FromReply(reply, number, u, k, Some(out[u][k])))
    && (forall u, k, v | u in out && v in reply[..i] && Reads(v, number, u, k) :: k in out[u])
  }

  /** One more value in its place. */
  lemma SortedByOne(reply: seq<Value>, i: nat, number: map<nat, string>, out: map<string, map<string, real>>,
                    u: string, key: string)
    requires i < |reply| && Sorted(reply, i, number, out) && u in out
    requires Reads(reply[i], number, u, key)
    ensures Sorted(reply, i + 1, number, out[u := out[u][key := reply[i].reading.value]])
  {
    hide Metrics;
    var v := reply[i];
    assert reply[..i + 1] == reply[..i] + [v] && v in reply;
    MetricFieldsDiffer();
    hide FieldsDiffer;
    forall k | Reads(v, number, u, k) ensures k == key { OneKeyEach(Metrics(), k, key, v.field); }
  }

  lemma SortedWithout(reply: seq<Value>, i: nat, number: map<nat, string>, out: map<string, map<string, real>>)
    requires i < |reply| && Sorted(reply, i, number, out)
    requires !(reply[i].ok && reply[i].reading.Some?)
    ensures Sorted(reply, i + 1, number, out)
  {
    hide Metrics, FromReply;
    assert reply[..i + 1] == reply[..i] + [reply[i]];
  }

  class Gpus {
    const gpus: seq<Gpu>
    var reader: Reader

    // What has been asked of DCGM so far, and how it numbers the GPUs now.
    ghost var connects: nat
    ghost var disconnects: nat
    ghost var opens: nat
    ghost var nvmlSamples: nat
    ghost var number: map<nat, string>

    ghost predicate ReaderOk()
      reads this
    {
      reader.Watching? ==>
        && |reader.entities| == |gpus|
        && (forall i | 0 <= i < |gpus| :: reader.entities[i] in reader.uuids && reader.uuids[reader.entities[i]] == gpus[i].uuid)
        && (forall id | id in reader.uuids :: id in reader.entities && id in number && number[id] == reader.uuids[id])
    }

    /** One connection while the reader is live and none otherwise; one open at first and one after every NVML sample. */
    ghost predicate Valid()
      reads this
    {
      && gpus != [] && ReaderOk()
      && connects == disconnects + (if reader.Watching? then 1 else 0)
      && opens == 1 + nvmlSamples
    }

    /** openGPUs on a job with GPUs. */
    constructor (gpus: seq<Gpu>, setup: Setup, ghost number: map<nat, string>)
      requires gpus != [] && Truthful(setup.names, number)
      ensures Valid() && this.gpus == gpus && nvmlSamples == 0
      ensures reader.Watching? <==> Opens(gpus, setup)
    {
      this.gpus := gpus;
      reader := NoReader;
      connects, disconnects, opens, nvmlSamples := 0, 0, 0, 0;
      new;
      OpenDCGM(setup, number);
    }

    /** The group's entities, and the UUID of each; joined is false if a GPU is unknown or cannot join. */
    method Join(byUUID: map<string, nat>, accepted: set<nat>)
      returns (joined: bool, entities: seq<nat>, uuids: map<nat, string>)
      requires forall u, v | u in byUUID && v in byUUID && byUUID[u] == byUUID[v] :: u == v
      ensures joined <==> forall g | g in gpus :: g.uuid in byUUID && byUUID[g.uuid] in accepted
      ensures joined ==> |entities| == |gpus|
      ensures joined ==> forall i | 0 <= i < |gpus| ::
        && gpus[i].uuid in byUUID && entities[i] == byUUID[gpus[i].uuid]
        && entities[i] in uuids && uuids[entities[i]] == gpus[i].uuid
      ensures forall id | id in uuids :: id in entities && uuids[id] in byUUID && byUUID[uuids[id]] == id
    {
      entities, uuids := [], map[];
      for i := 0 to |gpus|
        invariant |entities| == i
        invariant forall j | 0 <= j < i :: gpus[j].uuid in byUUID && byUUID[gpus[j].uuid] in accepted
        invariant forall j | 0 <= j < i ::
          entities[j] == byUUID[gpus[j].uuid] && entities[j] in uuids && uuids[entities[j]] == gpus[j].uuid
        invariant forall id | id in uuids :: id in entities && uuids[id] in byUUID && byUUID[uuids[id]] == id
      {
        var g := gpus[i];
        if g.uuid !in byUUID || byUUID[g.uuid] !in accepted { return false, entities, uuids; }
        var id := byUUID[g.uuid];
        entities, uuids := entities + [id], uuids[id := g.uuid];
      }
      joined := true;
    }

    /** openDCGM: a failure after the connection is made ends it. */
    method OpenDCGM(setup: Setup, ghost number: map<nat, string>)
      requires gpus != [] && Truthful(setup.names, number) && connects == disconnects && opens == nvmlSamples
      modifies this
      ensures Valid() && nvmlSamples == old(nvmlSamples) && opens == old(opens) + 1
      ensures reader.Watching? <==> Opens(gpus, setup)
      ensures reader.Watching? <==>
        && setup.loads && setup.connects && setup.devices.Some? && setup.devices.value != [] && setup.groups
        && setup.names.Some? && (forall g | g in gpus :: Joins(setup, g.uuid)) && setup.fieldGroups && setup.watches
      ensures connects == old(connects) + (if setup.loads && setup.connects then 1 else 0)
    {
      AllJoinInWords(gpus, setup);
      hide Joins;
      opens, this.number := opens + 1, number;
      reader := NoReader;
      if !setup.loads || !setup.connects { return; }
      connects := connects + 1;
      if setup.devices.None? || setup.devices.value == [] {
        disconnects := disconnects + 1;
        return;
      }
      var names := if setup.names.Some? then setup.names.value else [];
      var byUUID := ByUUID(names);
      if !setup.groups {
        disconnects := disconnects + 1;
        return;
      }
      forall u | u in byUUID ensures byUUID[u] in number && number[byUUID[u]] == u {
        NamedIsTrue(names, number, u);
      }
      hide Truthful, Named;
      var joined, entities, uuids := Join(byUUID, setup.accepted);
      assert gpus[0] in gpus;
      if !joined || !setup.fieldGroups || !setup.watches {
        disconnects := disconnects + 1;
        return;
      }
      reader := Watching(entities, uuids);
    }

    /** values is the reply, sorted by GPU and metric. */
    ghost predicate CameFrom(reply: seq<Value>, values: map<string, map<string, real>>)
      reads this
    {
      && (forall g | g in gpus :: g.uuid in values)
      && (forall u, k | u in values && k in values[u] :: FromReply(reply, number, u, k, Some(values[u][k])))
      && (forall u, k, v | u in values && v in reply && Reads(v, number, u, k) :: k in values[u])
    }

    /** What the reader makes of a reply. */
    method Collect(values: seq<Value>) returns (out: map<string, map<string, real>>)
      requires Valid() && reader.Watching? && Answers(Some(values), reader)
      ensures CameFrom(values, out)
    {
      hide Metrics;
      var fields, keys := FieldKeys(Metrics());
      out := map u | u in reader.uuids.Values :: map[];
      forall i | 0 <= i < |gpus| ensures gpus[i].uuid in out {
        assert reader.uuids[reader.entities[i]] == gpus[i].uuid;
      }
      hide FromReply;
      assert Sorted(values, 0, number, out);
      hide Sorted;
      for i := 0 to |values|
        invariant out.Keys == reader.uuids.Values
        invariant Sorted(values, i, number, out)
      {
        var v := values[i];
        assert v in values;
        if v.ok && v.reading.Some? {
          var u, key := reader.uuids[v.entity], keys[v.field];
          SortedByOne(values, i, number, out, u, key);
          out := out[u := out[u][key := v.reading.value]];
        } else {
          SortedWithout(values, i, number, out);
        }
      }
      AllSorted(values, out);
    }

    lemma AllSorted(reply: seq<Value>, out: map<string, map<string, real>>)
      requires Sorted(reply, |reply|, number, out) && forall g | g in gpus :: g.uuid in out
      ensures CameFrom(reply, out)
    {
      assert reply[..|reply|] == reply;
    }

    /** The entry of one GPU: every metric nil, then whatever was read. */
    static method EntryOf(g: Gpu, read: map<string, real>, all: seq<Metric>) returns (e: Entry)
      requires all == Metrics() && forall k | k in read :: IsKey(k)
      ensures IsEntry(g, read, e)
    {
      hide Metrics;
      var blank: map<string, Option<real>> := map[];
      for j := 0 to |all|
        invariant forall k :: k in blank <==> exists m | m in all[..j] :: m.key == k
        invariant forall k | k in blank :: blank[k] == None
      {
        assert all[..j + 1] == all[..j] + [all[j]];
        blank := blank[all[j].key := None];
      }
      assert all[..|all|] == all;
      e := Entry(g.index, g.uuid, g.name, blank + map k | k in read :: Some(read[k]));
    }

    /** The entries of one sample. */
    method Entries(values: map<string, map<string, real>>) returns (out: seq<Entry>)
      requires forall u, k | u in values && k in values[u] :: IsKey(k)
      ensures |out| == |gpus|
      ensures forall i | 0 <= i < |gpus| ::
        IsEntry(gpus[i], if gpus[i].uuid in values then values[gpus[i].uuid] else map[], out[i])
    {
      hide IsEntry, Metrics;
      out := [];
      for i := 0 to |gpus|
        invariant |out| == i
        invariant forall j | 0 <= j < i ::
          IsEntry(gpus[j], if gpus[j].uuid in values then values[gpus[j].uuid] else map[], out[j])
      {
        var e := EntryOf(gpus[i], if gpus[i].uuid in values then values[gpus[i].uuid] else map[], Metrics());
        out := out + [e];
      }
    }

    /** nvml(): what NVML reads of each GPU, by UUID. */
    method ReadNvml(nvml: seq<map<string, real>>) returns (out: map<string, map<string, real>>)
      requires |nvml| == |gpus| && forall r | r in nvml :: forall k | k in r :: IsKey(k)
      ensures forall u, k | u in out && k in out[u] :: IsKey(k)
      ensures forall i | 0 <= i < |gpus| ::
        gpus[i].uuid in out && exists j | 0 <= j < |gpus| :: gpus[j].uuid == gpus[i].uuid && out[gpus[i].uuid] == nvml[j]
    {
      out := map[];
      for i := 0 to |gpus|
        invariant forall u | u in out :: exists j | 0 <= j < i :: gpus[j].uuid == u && out[u] == nvml[j]
        invariant forall j | 0 <= j < i :: gpus[j].uuid in out
      {
        out := out[gpus[i].uuid := nvml[i]];
      }
      forall u, k | u in out && k in out[u] ensures IsKey(k) {
        var j :| 0 <= j < |gpus| && gpus[j].uuid == u && out[u] == nvml[j];
        assert nvml[j] in nvml;
      }
    }

    /** A live reader's call: a failure disconnects. */
    method Read(reply: Option<seq<Value>>) returns (values: Option<map<string, map<string, real>>>)
      requires Valid() && Answers(reply, reader)
      modifies this`disconnects
      ensures values.Some? <==> reader.Watching? && reply.Some?
      ensures disconnects == old(disconnects) + (if reader.Watching? && reply.None? then 1 else 0)
      ensures values.Some? ==> CameFrom(reply.value, values.value)
      ensures values.Some? ==> forall u, k | u in values.value && k in values.value[u] :: IsKey(k)
    {
      if reader.NoReader? { return None; }
      if reply.None? {
        disconnects := disconnects + 1;
        return None;
      }
      var out := Collect(reply.value);
      forall u, k | u in out && k in out[u] ensures IsKey(k) {
        var v :| v in reply.value && Reads(v, number, u, k) && v.reading == Some(out[u][k]);
      }
      values := Some(out);
    }

    /** The entries of an NVML sample. */
    method NvmlEntries(nvml: seq<map<string, real>>) returns (out: seq<Entry>)
      requires |nvml| == |gpus| && forall r | r in nvml :: forall k | k in r :: IsKey(k)
      ensures |out| == |gpus| && forall i | 0 <= i < |gpus| :: ReadByNvml(nvml, gpus[i], out[i])
    {
      hide IsEntry, IsKey, Metrics;
      var read := ReadNvml(nvml);
      out := Entries(read);
      forall i | 0 <= i < |gpus| ensures ReadByNvml(nvml, gpus[i], out[i]) {
        var j :| 0 <= j < |gpus| && gpus[j].uuid == gpus[i].uuid && read[gpus[i].uuid] == nvml[j];
        assert IsEntry(gpus[i], nvml[j], out[i]);
      }
    }

    /** e is the entry of what NVML read of the GPU with its UUID. */
    ghost predicate ReadByNvml(nvml: seq<map<string, real>>, g: Gpu, e: Entry)
      requires |nvml| == |gpus|
    {
      exists j | 0 <= j < |gpus| :: gpus[j].uuid == g.uuid && IsEntry(g, nvml[j], e)
    }

    /** The entries of a DCGM sample. */
    method DcgmEntries(reply: seq<Value>, values: map<string, map<string, real>>) returns (out: seq<Entry>)
      requires CameFrom(reply, values)
      requires forall u, k | u in values && k in values[u] :: IsKey(k)
      ensures |out| == |gpus| && forall i | 0 <= i < |gpus| :: ReadByDcgm(reply, number, gpus[i], out[i])
    {
      out := Entries(values);
      forall i | 0 <= i < |gpus| ensures ReadByDcgm(reply, number, gpus[i], out[i]) {
        assert gpus[i] in gpus;
        assert IsEntry(gpus[i], values[gpus[i].uuid], out[i]);
      }
    }

    /** One sample: DCGM's if its reader answers, and otherwise NVML's, DCGM being opened again for the next. */
    method Sample(reply: Option<seq<Value>>, nvml: seq<map<string, real>>, setup: Setup, ghost next: map<nat, string>)
      returns (source: Source, out: seq<Entry>)
      requires Valid() && Answers(reply, reader) && Truthful(setup.names, next)
      requires |nvml| == |gpus| && forall r | r in nvml :: forall k | k in r :: IsKey(k)
      modifies this
      ensures Valid()
      ensures source.FromDcgm? <==> old(reader).Watching? && reply.Some?
      ensures source.FromDcgm? ==> reader == old(reader) && opens == old(opens) && nvmlSamples == old(nvmlSamples)
      ensures source.FromNvml? ==>
        opens == old(opens) + 1 && nvmlSamples == old(nvmlSamples) + 1 && (reader.Watching? <==> Opens(gpus, setup))
      ensures |out| == |gpus|
      ensures source.FromDcgm? ==> forall i | 0 <= i < |gpus| :: ReadByDcgm(reply.value, old(number), gpus[i], out[i])
      ensures source.FromNvml? ==> forall i | 0 <= i < |gpus| :: ReadByNvml(nvml, gpus[i], out[i])
    {
      hide Metrics, IsEntry, IsKey, ReadByDcgm, ReadByNvml, Opens, Truthful, Answers;
      var values := Read(reply);
      if values.Some? {
        source := FromDcgm;
        out := DcgmEntries(reply.value, values.value);
      } else {
        source := FromNvml;
        nvmlSamples := nvmlSamples + 1;
        OpenDCGM(setup, next);
        out := NvmlEntries(nvml);
      }
    }
  }
}
