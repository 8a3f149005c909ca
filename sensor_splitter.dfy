/**
 * `SensorSplitter`: passes each sample to the sink registered for its sensor
 * type. A type has a plain data sink or a network data sink, never both.
 */
module SensorSplitters {
  import opened Common
  import opened Devices
  import opened Sensors
  import opened AbstractFilters

  /** `values().removeAll(singleton(sink))`: every entry whose value is `sink` removed. */
  function Without<K>(m: map<K, object>, sink: object): (r: map<K, object>)
    ensures r.Keys <= m.Keys
    ensures forall k | k in r :: r[k] == m[k] && r[k] != sink
    ensures forall k | k in m && m[k] != sink :: k in r
  {
    map k | k in m && m[k] != sink :: m[k]
  }

  /** Removing a sink twice is the same as removing it once, and other sinks keep their entries. */
  lemma WithoutIdempotent<K>(m: map<K, object>, sink: object, other: object)
    requires other != sink
    ensures Without(Without(m, sink), sink) == Without(m, sink)
    ensures forall k | k in m && m[k] == other :: k in Without(m, sink) && Without(m, sink)[k] == other
  {
  }

  class SensorSplitter {
    /** `mDataSinkMap` */
    var dataSinks: map<SensorType, object>
    /** `mNetworkDataSinkMap` */
    var networkSinks: map<SensorType, object>
    /** The calls made on the sinks so far, oldest first. */
    var sent: seq<Delivery>

    /** No sensor type is a key of both maps. */
    ghost predicate Valid()
      reads this
    {
      dataSinks.Keys !! networkSinks.Keys
    }

    constructor ()
      ensures Valid() && dataSinks == map[] && networkSinks == map[] && sent == []
    {
      dataSinks := map[];
      networkSinks := map[];
      sent := [];
    }

    /** `addDataSink(sensor, DataSink)`: ignored when the type already has a network sink; otherwise (re)places the entry. */
    method AddDataSink(sensor: SensorType, sink: object)
      requires Valid()
      modifies this
      ensures Valid() && networkSinks == old(networkSinks) && sent == old(sent)
      ensures sensor in old(networkSinks) ==> dataSinks == old(dataSinks)
      ensures sensor !in old(networkSinks) ==> dataSinks == old(dataSinks)[sensor := sink]
    {
      if sensor !in networkSinks {
        dataSinks := dataSinks[sensor := sink];
      }
    }

    /** `addDataSink(sensor, NetworkDataSink)`: ignored when the type already has a plain sink; otherwise (re)places the entry. */
    method AddNetworkDataSink(sensor: SensorType, sink: object)
      requires Valid()
      modifies this
      ensures Valid() && dataSinks == old(dataSinks) && sent == old(sent)
      ensures sensor in old(dataSinks) ==> networkSinks == old(networkSinks)
      ensures sensor !in old(dataSinks) ==> networkSinks == old(networkSinks)[sensor := sink]
    {
      if sensor !in dataSinks {
        networkSinks := networkSinks[sensor := sink];
      }
    }

    /** `remove(SensorType)`: the type leaves both maps. */
    method RemoveSensor(sensor: SensorType)
      requires Valid()
      modifies this
      ensures Valid() && sent == old(sent)
      ensures dataSinks == old(dataSinks) - {sensor} && networkSinks == old(networkSinks) - {sensor}
    {
      dataSinks := dataSinks - {sensor};
      networkSinks := networkSinks - {sensor};
    }

    /** `remove(DataSink)`: every entry of the plain map with that sink goes; the network map stays. */
    method RemoveDataSink(sink: object)
      requires Valid()
      modifies this
      ensures Valid() && sent == old(sent)
      ensures dataSinks == Without(old(dataSinks), sink) && networkSinks == old(networkSinks)
    {
      dataSinks := Without(dataSinks, sink);
    }

    /** `remove(NetworkDataSink)`: every entry of the network map with that sink goes; the plain map stays. */
    method RemoveNetworkDataSink(sink: object)
      requires Valid()
      modifies this
      ensures Valid() && sent == old(sent)
      ensures networkSinks == Without(old(networkSinks), sink) && dataSinks == old(dataSinks)
    {
      networkSinks := Without(networkSinks, sink);
    }

    /** `onData`: at most one sink, the one registered for the sample's type, gets the sample. */
    method OnData(origin: Option<NetworkDevice>, data: SensorData, sensitivity: real)
      requires Valid()
      modifies this
      ensures Valid() && dataSinks == old(dataSinks) && networkSinks == old(networkSinks)
      ensures data.sensorType in networkSinks ==>
        sent == old(sent) + [Delivery(networkSinks[data.sensorType], origin, data.Value(), Some(sensitivity))]
      ensures data.sensorType in dataSinks ==> sent == old(sent) + [PlainDelivery(dataSinks[data.sensorType], data.Value())]
      ensures data.sensorType !in networkSinks && data.sensorType !in dataSinks ==> sent == old(sent)
    {
      var t := data.sensorType;
      if t in networkSinks {
        sent := sent + [Delivery(networkSinks[t], origin, data.Value(), Some(sensitivity))];
      }
      if t in dataSinks {
        sent := sent + [PlainDelivery(dataSinks[t], data.Value())];
      }
    }
  }
}
