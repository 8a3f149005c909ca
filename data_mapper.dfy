/**
 * `DataMapper` of the server: routes each sample to the network data sinks
 * registered for its sensor type. Each registration is a `SinkOriginFilter`
 * entry pairing a sink with the device it accepts data from (`None`: any
 * device). The key set of the registry is the set of sensors the clients must
 * send, and it is reported to the connection manager after every
 * registration. The release version reports it after every removal as well;
 * the earlier version under server/src does not, and is otherwise the same.
 */
module DataMappers {
  import opened Common
  import opened Devices
  import opened Sensors
  import opened AbstractFilters

  /** A `SinkOriginFilter`: a sink and the one origin it accepts, or `None` for all. */
  datatype Entry = Entry(sink: object, origin: Option<NetworkDevice>)

  /** The predicate given to `removeIf`. */
  datatype Removal =
    | ByOrigin(client: NetworkDevice)   // `client.equals(filter.mOrigin)`
    | BySink(target: object)            // `dataSink.equals(filter.mSink)`

  predicate Matches(removal: Removal, e: Entry) {
    match removal
    case ByOrigin(client) => e.origin.Some? && Equals(client, e.origin.value)
    case BySink(target) => e.sink == target
  }

  /**
   * `SinkOriginFilter.onData` forwards when no origin is required or the
   * sender is the very device object that was registered (`==`, not `equals`).
   */
  predicate Accepts(e: Entry, origin: Option<NetworkDevice>) {
    e.origin.None? || e.origin == origin
  }

  /** `HashSet.removeIf(predicate)` on the entries of one sensor. */
  function KeepUnmatched(s: seq<Entry>, removal: Removal): (r: seq<Entry>)
    ensures |r| <= |s|
    ensures forall e | e in r :: e in s && !Matches(removal, e)
    ensures forall e | e in s && !Matches(removal, e) :: e in r
  {
    if |s| == 0 then []
    else
      assert s == [s[0]] + s[1..];
      (if Matches(removal, s[0]) then [] else [s[0]]) + KeepUnmatched(s[1..], removal)
  }

  /** The entries of key k after the predicate has been applied where `sensor` selects k. */
  function Kept(entries: seq<Entry>, k: SensorType, removal: Removal, sensor: Option<SensorType>): seq<Entry> {
    if sensor.None? || sensor.value == k then KeepUnmatched(entries, removal) else entries
  }

  /** The registry after `removeIf(predicate, sensor)`: matching entries removed, then every empty key. */
  function Pruned(m: map<SensorType, seq<Entry>>, removal: Removal, sensor: Option<SensorType>): (r: map<SensorType, seq<Entry>>)
  {
    map k | k in m && |Kept(m[k], k, removal, sensor)| > 0 :: Kept(m[k], k, removal, sensor)
  }

  /** A registry that agrees with `Kept` on every key of m is the pruned m. */
  lemma PrunedPointwise(m: map<SensorType, seq<Entry>>, x: map<SensorType, seq<Entry>>, removal: Removal, sensor: Option<SensorType>)
    requires x.Keys <= m.Keys
    requires forall k | k in m ::
               (k in x <==> |Kept(m[k], k, removal, sensor)| > 0) &&
               (k in x ==> x[k] == Kept(m[k], k, removal, sensor))
    ensures x == Pruned(m, removal, sensor)
  {
    assert x.Keys == Pruned(m, removal, sensor).Keys;
  }

  /** The keys of m outside `todo` are pruned in x, the keys in `todo` still as in m. */
  ghost predicate PruneProgress(m: map<SensorType, seq<Entry>>, x: map<SensorType, seq<Entry>>, todo: set<SensorType>,
                                removal: Removal, sensor: Option<SensorType>)
  {
    todo <= m.Keys && x.Keys <= m.Keys &&
    (forall k | k in todo :: k in x && x[k] == m[k]) &&
    (forall k | k in m && k !in todo ::
       (k in x <==> |Kept(m[k], k, removal, sensor)| > 0) &&
       (k in x ==> x[k] == Kept(m[k], k, removal, sensor)))
  }

  /** Pruning key k, and nothing else, moves k out of `todo`. */
  lemma PruneProgressStep(m: map<SensorType, seq<Entry>>, x: map<SensorType, seq<Entry>>, y: map<SensorType, seq<Entry>>,
                          todo: set<SensorType>, k: SensorType, removal: Removal, sensor: Option<SensorType>)
    requires PruneProgress(m, x, todo, removal, sensor) && k in todo
    requires var kept := Kept(x[k], k, removal, sensor);
      (k in y <==> |kept| > 0) && (k in y ==> y[k] == kept)
    requires forall j | j != k :: (j in y <==> j in x) && (j in y ==> y[j] == x[j])
    ensures PruneProgress(m, y, todo - {k}, removal, sensor)
  {
    assert x[k] == m[k];
    forall j | j in m && j !in todo - {k}
      ensures (j in y <==> |Kept(m[j], j, removal, sensor)| > 0) && (j in y ==> y[j] == Kept(m[j], j, removal, sensor))
    {
      if j != k {
        assert j !in todo;
      }
    }
  }

  /** No entry under a selected key matches afterwards; keys not selected keep their non-empty entries. */
  lemma PrunedEffect(m: map<SensorType, seq<Entry>>, removal: Removal, sensor: Option<SensorType>)
    requires forall k | k in m :: |m[k]| > 0
    ensures forall k, e | k in Pruned(m, removal, sensor) && (sensor.None? || sensor.value == k) && e in Pruned(m, removal, sensor)[k] ::
      !Matches(removal, e)
    ensures forall k | k in m && sensor.Some? && sensor.value != k :: k in Pruned(m, removal, sensor) && Pruned(m, removal, sensor)[k] == m[k]
    ensures forall k, e | k in m && e in m[k] && !Matches(removal, e) :: k in Pruned(m, removal, sensor) && e in Pruned(m, removal, sensor)[k]
  {
    var r := Pruned(m, removal, sensor);
    forall k, e | k in m && e in m[k] && !Matches(removal, e)
      ensures k in r && e in r[k]
    {
      assert e in Kept(m[k], k, removal, sensor);
    }
  }

  /** Removing twice with the same predicate removes nothing more. */
  lemma PrunedIdempotent(m: map<SensorType, seq<Entry>>, removal: Removal, sensor: Option<SensorType>)
    ensures Pruned(Pruned(m, removal, sensor), removal, sensor) == Pruned(m, removal, sensor)
  {
    var r := Pruned(m, removal, sensor);
    var rr := Pruned(r, removal, sensor);
    forall k | k in r
      ensures k in rr && rr[k] == r[k]
    {
      if sensor.None? || sensor.value == k {
        KeepUnmatchedOfUnmatched(r[k], removal);
      }
      assert Kept(r[k], k, removal, sensor) == r[k];
    }
    assert rr.Keys == r.Keys;
  }

  lemma {:induction false} KeepUnmatchedOfUnmatched(s: seq<Entry>, removal: Removal)
    requires forall e | e in s :: !Matches(removal, e)
    ensures KeepUnmatched(s, removal) == s
  {
    if |s| > 0 {
      assert s[0] in s;
      assert forall e | e in s[1..] :: e in s;
      KeepUnmatchedOfUnmatched(s[1..], removal);
    }
  }

  /** The calls the entries of a sensor make on their sinks for one sample, in iteration order. */
  function Forwarded(entries: seq<Entry>, origin: Option<NetworkDevice>, sample: Sample, sensitivity: real): (r: seq<Delivery>)
    ensures |r| <= |entries|
    ensures forall d | d in r ::
              d == Delivery(d.sink, origin, sample, Some(sensitivity)) &&
              exists e | e in entries :: e.sink == d.sink && Accepts(e, origin)
  {
    if |entries| == 0 then []
    else
      var init := entries[..|entries| - 1];
      var e := entries[|entries| - 1];
      assert forall x | x in init :: x in entries;
      Forwarded(init, origin, sample, sensitivity) +
        (if Accepts(e, origin) then [Delivery(e.sink, origin, sample, Some(sensitivity))] else [])
  }
  /** Offering the sample to one more entry adds at most that entry's call. */
  lemma ForwardedStep(entries: seq<Entry>, i: nat, origin: Option<NetworkDevice>, sample: Sample, sensitivity: real)
    requires i < |entries|
    ensures Forwarded(entries[..i + 1], origin, sample, sensitivity) ==
      Forwarded(entries[..i], origin, sample, sensitivity) +
      (if Accepts(entries[i], origin) then [Delivery(entries[i].sink, origin, sample, Some(sensitivity))] else [])
  {
    assert entries[..i + 1][..i] == entries[..i];
  }


  /** How many of the entries accept a sample from `origin`. */
  function CountAccepting(entries: seq<Entry>, origin: Option<NetworkDevice>): nat {
    if |entries| == 0 then 0
    else (if Accepts(entries[0], origin) then 1 else 0) + CountAccepting(entries[1..], origin)
  }

  lemma {:induction false} CountAcceptingSnoc(entries: seq<Entry>, e: Entry, origin: Option<NetworkDevice>)
    ensures CountAccepting(entries + [e], origin) == CountAccepting(entries, origin) + (if Accepts(e, origin) then 1 else 0)
  {
    if |entries| > 0 {
      assert (entries + [e])[1..] == entries[1..] + [e];
      CountAcceptingSnoc(entries[1..], e, origin);
    }
  }

  /**
   * Every entry whose origin is null or the sender itself receives the
   * sample, and there is exactly one call per such entry.
   */
  lemma {:induction false} ForwardedComplete(entries: seq<Entry>, origin: Option<NetworkDevice>, sample: Sample, sensitivity: real)
    ensures forall i | 0 <= i < |entries| && Accepts(entries[i], origin) ::
      Delivery(entries[i].sink, origin, sample, Some(sensitivity)) in Forwarded(entries, origin, sample, sensitivity)
    ensures |Forwarded(entries, origin, sample, sensitivity)| == CountAccepting(entries, origin)
  {
    if |entries| > 0 {
      var n := |entries| - 1;
      var init := entries[..n];
      ForwardedComplete(init, origin, sample, sensitivity);
      assert entries == init + [entries[n]];
      CountAcceptingSnoc(init, entries[n], origin);
      forall i | 0 <= i < n && Accepts(entries[i], origin)
        ensures Delivery(entries[i].sink, origin, sample, Some(sensitivity)) in Forwarded(entries, origin, sample, sensitivity)
      {
        assert init[i] == entries[i];
      }
    }
  }

  /** Entries without an origin pass every sample on; every entry is offered the sample. */
  lemma {:induction false} ForwardedToAll(entries: seq<Entry>, origin: Option<NetworkDevice>, sample: Sample, sensitivity: real)
    requires forall e | e in entries :: e.origin.None?
    ensures |Forwarded(entries, origin, sample, sensitivity)| == |entries|
  {
    if |entries| > 0 {
      assert forall x | x in entries[..|entries| - 1] :: x in entries;
      ForwardedToAll(entries[..|entries| - 1], origin, sample, sensitivity);
      assert entries[|entries| - 1] in entries;
    }
  }

  /** An entry bound to one device passes nothing on from a different device. */
  lemma {:induction false} ForwardedNoneFromOthers(entries: seq<Entry>, origin: Option<NetworkDevice>, sample: Sample, sensitivity: real)
    requires forall e | e in entries :: e.origin.Some? && e.origin != origin
    ensures Forwarded(entries, origin, sample, sensitivity) == []
  {
    if |entries| > 0 {
      assert forall x | x in entries[..|entries| - 1] :: x in entries;
      ForwardedNoneFromOthers(entries[..|entries| - 1], origin, sample, sensitivity);
      assert entries[|entries| - 1] in entries;
    }
  }

  /** The entries registered under `t`, or none. */
  function EntriesOf(m: map<SensorType, seq<Entry>>, t: SensorType): seq<Entry> {
    if t in m then m[t] else []
  }

  class DataMapper {
    /** `mDataSinks`; the entries of one sensor in registration order. */
    var sinks: map<SensorType, seq<Entry>>
    /** `mConnectionHandler`; `None` until `setConnectionHandler` is called. */
    var handler: Option<object>
    /** The key sets passed to `updateSensors`, oldest first. */
    var reports: seq<set<SensorType>>
    /** The calls made on the registered sinks so far, oldest first. */
    var sent: seq<Delivery>
    /** True for the release version, whose `removeIf` ends with `updateSensors`. */
    const reportsRemovals: bool

    /** No sensor has an empty entry set, and the mapper is never its own sink. */
    ghost predicate Valid()
      reads this
    {
      (forall k | k in sinks :: |sinks[k]| > 0) &&
      (forall k, e | k in sinks && e in sinks[k] :: e.sink != this)
    }

    constructor (reportsRemovals: bool)
      ensures Valid() && sinks == map[] && handler == None && reports == [] && sent == []
      ensures this.reportsRemovals == reportsRemovals
    {
      this.reportsRemovals := reportsRemovals;
      sinks := map[];
      handler := None;
      reports := [];
      sent := [];
    }

    /** `setConnectionHandler` */
    method SetConnectionHandler(connectionHandler: Option<object>)
      modifies this
      ensures handler == connectionHandler
      ensures sinks == old(sinks) && reports == old(reports) && sent == old(sent)
    {
      handler := connectionHandler;
    }

    /** `updateSensors(mDataSinks.keySet())`: a null handler throws `NullPointerException`. */
    method Report() returns (r: Result<()>)
      modifies this
      ensures sinks == old(sinks) && handler == old(handler) && sent == old(sent)
      ensures handler.None? ==> r == Err(NullPointer) && reports == old(reports)
      ensures handler.Some? ==> r == Ok(()) && reports == old(reports) + [sinks.Keys]
    {
      if handler.None? {
        return Err(NullPointer);
      }
      reports := reports + [sinks.Keys];
      return Ok(());
    }

    /**
     * `registerDataSink(sensorType, dataOrigin, dataSink)`: the mapper itself
     * is refused with `InvalidParameterException` before anything changes;
     * otherwise a new entry joins the sensor's entries, even when an equal
     * pair is there already, and the key set is reported.
     */
    method RegisterDataSink(sensorType: SensorType, dataOrigin: Option<NetworkDevice>, dataSink: object) returns (r: Result<()>)
      requires Valid()
      modifies this
      ensures Valid() && handler == old(handler) && sent == old(sent)
      ensures dataSink == this ==> r == Err(InvalidParameter) && sinks == old(sinks) && reports == old(reports)
      ensures dataSink != this ==> sinks == old(sinks)[sensorType := EntriesOf(old(sinks), sensorType) + [Entry(dataSink, dataOrigin)]]
      ensures dataSink != this && handler.Some? ==> r == Ok(()) && reports == old(reports) + [sinks.Keys]
      ensures dataSink != this && handler.None? ==> r == Err(NullPointer) && reports == old(reports)
    {
      if dataSink == this {
        return Err(InvalidParameter);
      }
      sinks := sinks[sensorType := EntriesOf(sinks, sensorType) + [Entry(dataSink, dataOrigin)]];
      r := Report();
    }

    /** `registerDataSink(sensorType, dataSink)`: data from any device. */
    method RegisterDataSinkForAll(sensorType: SensorType, dataSink: object) returns (r: Result<()>)
      requires Valid()
      modifies this
      ensures Valid() && handler == old(handler) && sent == old(sent)
      ensures dataSink == this ==> r == Err(InvalidParameter) && sinks == old(sinks) && reports == old(reports)
      ensures dataSink != this ==> sinks == old(sinks)[sensorType := EntriesOf(old(sinks), sensorType) + [Entry(dataSink, None)]]
      ensures dataSink != this ==> (r.Ok? <==> handler.Some?)
    {
      r := RegisterDataSink(sensorType, None, dataSink);
    }

    /**
     * `removeIf(predicate, sensor)`: walks the keys, removes the matching
     * entries under the selected ones (`None`: every key) and drops every key
     * left without entries; then, in the release version, reports the key
     * set.
     */
    method RemoveIf(removal: Removal, sensor: Option<SensorType>) returns (r: Result<()>)
      requires Valid()
      modifies this
      ensures Valid() && handler == old(handler) && sent == old(sent)
      ensures sinks == Pruned(old(sinks), removal, sensor)
      ensures !reportsRemovals ==> r == Ok(()) && reports == old(reports)
      ensures reportsRemovals && handler.Some? ==> r == Ok(()) && reports == old(reports) + [sinks.Keys]
      ensures reportsRemovals && handler.None? ==> r == Err(NullPointer) && reports == old(reports)
    {
      Prune(removal, sensor);
      if reportsRemovals {
        r := Report();
      } else {
        r := Ok(());
      }
    }

    /** The iterator loop of `removeIf`. */
    method Prune(removal: Removal, sensor: Option<SensorType>)
      requires Valid()
      modifies this
      ensures Valid() && handler == old(handler) && sent == old(sent) && reports == old(reports)
      ensures sinks == Pruned(old(sinks), removal, sensor)
    {
      ghost var m0 := sinks;
      var todo := sinks.Keys;
      while todo != {}
        invariant PruneProgress(m0, sinks, todo, removal, sensor)
        invariant handler == old(handler) && sent == old(sent) && reports == old(reports)
        invariant Valid()
        decreases todo
      {
        var k :| k in todo;
        ghost var before := sinks;
        PruneKey(k, removal, sensor);
        PruneProgressStep(m0, before, sinks, todo, k, removal, sensor);
        todo := todo - {k};
      }
      PrunedPointwise(m0, sinks, removal, sensor);
    }

    /** One step of the iterator loop: the entries of key k filtered, the key dropped if left empty. */
    method PruneKey(k: SensorType, removal: Removal, sensor: Option<SensorType>)
      requires Valid() && k in sinks
      modifies this
      ensures Valid() && handler == old(handler) && sent == old(sent) && reports == old(reports)
      ensures var kept := Kept(old(sinks)[k], k, removal, sensor);
        (k in sinks <==> |kept| > 0) && (k in sinks ==> sinks[k] == kept)
      ensures forall j | j != k :: (j in sinks <==> j in old(sinks)) && (j in sinks ==> sinks[j] == old(sinks)[j])
    {
      if sensor.None? || sensor.value == k {
        sinks := sinks[k := KeepUnmatched(sinks[k], removal)];
      }
      if |sinks[k]| == 0 {
        sinks := sinks - {k};
      }
    }

    /** `onClientRemoved(client)`: drops every entry whose origin equals the client. */
    method OnClientRemoved(client: NetworkDevice) returns (r: Result<()>)
      requires Valid()
      modifies this
      ensures Valid() && handler == old(handler) && sent == old(sent)
      ensures sinks == Pruned(old(sinks), ByOrigin(client), None)
      ensures forall k, e | k in sinks && e in sinks[k] :: !(e.origin.Some? && Equals(client, e.origin.value))
      ensures r.Ok? <==> !reportsRemovals || handler.Some?
    {
      r := RemoveIf(ByOrigin(client), None);
      PrunedEffect(old(sinks), ByOrigin(client), None);
    }

    /** `unregisterDataSink(dataSink)`: drops the sink under every sensor. */
    method UnregisterDataSink(dataSink: object) returns (r: Result<()>)
      requires Valid()
      modifies this
      ensures Valid() && handler == old(handler) && sent == old(sent)
      ensures sinks == Pruned(old(sinks), BySink(dataSink), None)
      ensures forall k, e | k in sinks && e in sinks[k] :: e.sink != dataSink
      ensures r.Ok? <==> !reportsRemovals || handler.Some?
    {
      r := RemoveIf(BySink(dataSink), None);
      PrunedEffect(old(sinks), BySink(dataSink), None);
    }

    /** `unregisterDataSink(dataSink, sensor)`: drops the sink under that sensor only. */
    method UnregisterDataSinkFrom(dataSink: object, sensor: SensorType) returns (r: Result<()>)
      requires Valid()
      modifies this
      ensures Valid() && handler == old(handler) && sent == old(sent)
      ensures sinks == Pruned(old(sinks), BySink(dataSink), Some(sensor))
      ensures sensor in sinks ==> forall e | e in sinks[sensor] :: e.sink != dataSink
      ensures forall k | k in old(sinks) && k != sensor :: k in sinks && sinks[k] == old(sinks)[k]
      ensures r.Ok? <==> !reportsRemovals || handler.Some?
    {
      r := RemoveIf(BySink(dataSink), Some(sensor));
      PrunedEffect(old(sinks), BySink(dataSink), Some(sensor));
    }

    /**
     * `onData`: every entry of the sample's sensor is offered the sample in
     * turn; a sensor without entries throws `NullPointerException`.
     */
    method OnData(origin: Option<NetworkDevice>, data: SensorData, sensitivity: real) returns (r: Result<()>)
      modifies this
      ensures sinks == old(sinks) && handler == old(handler) && reports == old(reports)
      ensures r.Err? <==> data.sensorType !in sinks
      ensures r.Err? ==> r.error == NullPointer && sent == old(sent)
      ensures r.Ok? ==> sent == old(sent) + Forwarded(sinks[data.sensorType], origin, data.Value(), sensitivity)
    {
      if data.sensorType !in sinks {
        return Err(NullPointer);
      }
      var entries := sinks[data.sensorType];
      var sample := data.Value();
      for i := 0 to |entries|
        invariant sinks == old(sinks) && handler == old(handler) && reports == old(reports)
        invariant sent == old(sent) + Forwarded(entries[..i], origin, sample, sensitivity)
      {
        ForwardedStep(entries, i, origin, sample, sensitivity);
        if Accepts(entries[i], origin) {
          sent := sent + [Delivery(entries[i].sink, origin, sample, Some(sensitivity))];
        }
      }
      assert entries[..|entries|] == entries;
      return Ok(());
    }
  }

  /** Registering the same sink and origin twice stores two entries. */
  method RegisterTwiceKeepsBoth(m: DataMapper, t: SensorType, origin: Option<NetworkDevice>, sink: object)
    requires m.Valid() && sink != m
    modifies m
    ensures t in m.sinks
    ensures multiset(m.sinks[t])[Entry(sink, origin)] == multiset(EntriesOf(old(m.sinks), t))[Entry(sink, origin)] + 2
  {
    var _ := m.RegisterDataSink(t, origin, sink);
    var _ := m.RegisterDataSink(t, origin, sink);
  }
}
