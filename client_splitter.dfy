/**
 * `ClientSplitter`: passes each sample to the sink registered for the device
 * that sent it. Devices are hash keys, so two devices with the same name and
 * address are the same key.
 */
module ClientSplitters {
  import opened Common
  import opened Devices
  import opened Sensors
  import opened AbstractFilters
  import opened SensorSplitters

  /** A device as a `HashMap` key: its name and address; `None` is the null key. */
  type DeviceKey = Option<(string, string)>

  function KeyOf(device: Option<NetworkDevice>): DeviceKey {
    if device.None? then None else Some((device.value.name, device.value.address))
  }

  /** Two devices are the same key exactly when `equals` holds between them. */
  lemma KeyOfMatchesEquals(a: NetworkDevice, b: NetworkDevice)
    ensures KeyOf(Some(a)) == KeyOf(Some(b)) <==> Equals(a, b)
  {
  }

  class ClientSplitter {
    /** `mDataSinkMap` */
    var dataSinks: map<DeviceKey, object>
    /** `mNetworkDataSinkMap` */
    var networkSinks: map<DeviceKey, object>
    /** The calls made on the sinks so far, oldest first. */
    var sent: seq<Delivery>

    /** No device is a key of both maps. */
    ghost predicate Valid()
      reads this
    {
      dataSinks.Keys !! networkSinks.Keys
    }

    constructor ()
      ensures Valid() && dataSinks == map[] && networkSinks == map[] && sent == []
    {
      dataSinks := map[];
      networkSinks := map[];
      sent := [];
    }

    /** `addDataSink(source, DataSink)`: ignored when the device already has a network sink. */
    method AddDataSink(source: Option<NetworkDevice>, sink: object)
      requires Valid()
      modifies this
      ensures Valid() && networkSinks == old(networkSinks) && sent == old(sent)
      ensures KeyOf(source) in old(networkSinks) ==> dataSinks == old(dataSinks)
      ensures KeyOf(source) !in old(networkSinks) ==> dataSinks == old(dataSinks)[KeyOf(source) := sink]
    {
      var key := KeyOf(source);
      if key !in networkSinks {
        dataSinks := dataSinks[key := sink];
      }
    }

    /** `addDataSink(source, NetworkDataSink)`: ignored when the device already has a plain sink. */
    method AddNetworkDataSink(source: Option<NetworkDevice>, sink: object)
      requires Valid()
      modifies this
      ensures Valid() && dataSinks == old(dataSinks) && sent == old(sent)
      ensures KeyOf(source) in old(dataSinks) ==> networkSinks == old(networkSinks)
      ensures KeyOf(source) !in old(dataSinks) ==> networkSinks == old(networkSinks)[KeyOf(source) := sink]
    {
      var key := KeyOf(source);
      if key !in dataSinks {
        networkSinks := networkSinks[key := sink];
      }
    }

    /** `remove(NetworkDevice)`: the device leaves both maps. */
    method RemoveDevice(device: Option<NetworkDevice>)
      requires Valid()
      modifies this
      ensures Valid() && sent == old(sent)
      ensures dataSinks == old(dataSinks) - {KeyOf(device)} && networkSinks == old(networkSinks) - {KeyOf(device)}
    {
      dataSinks := dataSinks - {KeyOf(device)};
      networkSinks := networkSinks - {KeyOf(device)};
    }

    /** `remove(DataSink)`: only the plain map loses the entries with that sink. */
    method RemoveDataSink(sink: object)
      requires Valid()
      modifies this
      ensures Valid() && sent == old(sent)
      ensures dataSinks == Without(old(dataSinks), sink) && networkSinks == old(networkSinks)
    {
      dataSinks := Without(dataSinks, sink);
    }

    /** `remove(NetworkDataSink)`: only the network map loses the entries with that sink. */
    method RemoveNetworkDataSink(sink: object)
      requires Valid()
      modifies this
      ensures Valid() && sent == old(sent)
      ensures networkSinks == Without(old(networkSinks), sink) && dataSinks == old(dataSinks)
    {
      networkSinks := Without(networkSinks, sink);
    }

    /** `onData(origin, data)`: at most one sink, the one registered for the origin, gets the sample. */
    method OnData(origin: Option<NetworkDevice>, data: SensorData)
      requires Valid()
      modifies this
      ensures Valid() && dataSinks == old(dataSinks) && networkSinks == old(networkSinks)
      ensures KeyOf(origin) in dataSinks ==> sent == old(sent) + [PlainDelivery(dataSinks[KeyOf(origin)], data.Value())]
      ensures KeyOf(origin) in networkSinks ==>
        sent == old(sent) + [Delivery(networkSinks[KeyOf(origin)], origin, data.Value(), None)]
      ensures KeyOf(origin) !in dataSinks && KeyOf(origin) !in networkSinks ==> sent == old(sent)
    {
      var key := KeyOf(origin);
      if key in dataSinks {
        sent := sent + [PlainDelivery(dataSinks[key], data.Value())];
      }
      if key in networkSinks {
        sent := sent + [Delivery(networkSinks[key], origin, data.Value(), None)];
      }
    }
  }
}
