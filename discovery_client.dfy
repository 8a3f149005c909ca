/**
 * The server list of the app's `DiscoveryClient`: each discovered server is
 * appended once; a server equal (by name and address) to one already listed is
 * ignored. Every change of the list is reported to the listener, which is
 * recorded as the sequence of lists it was shown.
 */
module DiscoveryClients {
  import opened Devices

  /** No two listed devices are equal. */
  predicate NoEqualPair(list: seq<NetworkDevice>) {
    forall i, j | 0 <= i < j < |list| :: !Equals(list[i], list[j])
  }

  /** `list.contains(device)`: some entry is equal to the device. */
  predicate ContainsEqual(list: seq<NetworkDevice>, device: NetworkDevice) {
    exists i | 0 <= i < |list| :: Equals(device, list[i])
  }

  class DiscoveryClient {
    /** `mCurrentServerList` */
    var servers: seq<NetworkDevice>
    /** The lists passed to `onServerListUpdated`, oldest first. */
    var notifications: seq<seq<NetworkDevice>>

    ghost predicate Valid()
      reads this
    {
      NoEqualPair(servers)
    }

    /** A client starts with an empty list and has told the listener nothing. */
    constructor ()
      ensures Valid()
      ensures servers == [] && notifications == []
    {
      servers := [];
      notifications := [];
    }

    /**
     * `onDiscovery`: a device not yet in the list (by `equals`) is appended
     * and the listener is notified with the new list; otherwise nothing
     * happens.
     */
    method OnDiscovery(device: NetworkDevice)
      requires Valid()
      modifies this
      ensures Valid()
      ensures old(ContainsEqual(servers, device)) ==>
        servers == old(servers) && notifications == old(notifications)
      ensures !old(ContainsEqual(servers, device)) ==>
        servers == old(servers) + [device] && notifications == old(notifications) + [servers]
      ensures |notifications| - |old(notifications)| == |servers| - |old(servers)| <= 1
      ensures ContainsEqual(servers, device)
      ensures servers[..|old(servers)|] == old(servers)
    {
      if !ContainsEqual(servers, device) {
        servers := servers + [device];
        notifications := notifications + [servers];
        assert servers[|servers| - 1] == device;
      }
    }
  }
}
