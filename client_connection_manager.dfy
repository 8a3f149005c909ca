/**
 * `ClientConnectionManager` of the server: the state every client is expected
 * to have (required sensors, sensor speeds, the buttons to show) and the list
 * of bound client connections. A connection is represented by the device it
 * serves; the commands sent over a connection are recorded as events.
 */
module ClientConnectionManagers {
  import opened Common
  import opened Devices

  /** `SetSensorSpeed.SensorSpeed` */
  datatype SensorSpeed = SensorDelayFastest | SensorDelayGame | SensorDelayNormal | SensorDelayUi

  /** A command a `ClientConnection` sends to its client. */
  datatype Command =
    | UpdateSensors(sensors: set<SensorType>)           // `updateSensors`
    | UpdateButtonLayout(xml: string)                   // `updateButtons(String)`
    | UpdateButtonMap(buttons: map<int, string>)        // `updateButtons(Map)`
    | UpdateSpeeds(speeds: map<SensorType, SensorSpeed>) // `updateSpeeds`
    | CloseAndSignal                                    // `closeAndSignalClient`

  /** One command sent to one client. */
  datatype Event = Event(to: NetworkDevice, command: Command)

  /** The same command sent to each client in list order. */
  function Broadcast(clients: seq<NetworkDevice>, c: Command): (r: seq<Event>)
    ensures |r| == |clients|
    ensures forall i | 0 <= i < |r| :: r[i].to == clients[i] && r[i].command == c
  {
    seq(|clients|, i requires 0 <= i < |clients| => Event(clients[i], c))
  }

  lemma BroadcastAppend(clients: seq<NetworkDevice>, x: NetworkDevice, c: Command)
    ensures Broadcast(clients + [x], c) == Broadcast(clients, c) + [Event(x, c)]
  {
  }

  /** The button update `updateButtons` chooses: the XML layout if there is one, otherwise the map. */
  function ButtonCommand(xml: Option<string>, buttons: map<int, string>): (c: Command)
    ensures xml.Some? ==> c == UpdateButtonLayout(xml.value)
    ensures xml.None? ==> c == UpdateButtonMap(buttons)
  {
    if xml.Some? then UpdateButtonLayout(xml.value) else UpdateButtonMap(buttons)
  }

  /** Index i is the first client equal to `client`. */
  predicate FirstEqual(clients: seq<NetworkDevice>, client: NetworkDevice, i: nat) {
    i < |clients| && Equals(clients[i], client) && forall j | 0 <= j < i :: !Equals(clients[j], client)
  }

  /** The list without its element at i (`List.remove`). */
  function RemovedAt<T>(s: seq<T>, i: nat): (r: seq<T>)
    requires i < |s|
    ensures |r| == |s| - 1
    ensures forall j | 0 <= j < i :: r[j] == s[j]
    ensures forall j | i <= j < |r| :: r[j] == s[j + 1]
  {
    s[..i] + s[i + 1..]
  }

  class ClientConnectionManager {
    /** `mRequiredSensors`; null until the first `updateSensors`. */
    var required: Option<set<SensorType>>
    /** `mSensorSpeeds` */
    var speeds: map<SensorType, SensorSpeed>
    /** `mButtonMap` */
    var buttons: map<int, string>
    /** `mButtonXML`; `None` is null. */
    var buttonXml: Option<string>
    /** `mClientConnections`, each by the device it serves. */
    var clients: seq<NetworkDevice>
    /** The commands sent to clients so far, oldest first. */
    var events: seq<Event>

    constructor ()
      ensures required == None && speeds == map[] && buttons == map[] && buttonXml == None
      ensures clients == [] && events == []
    {
      required := None;
      speeds := map[];
      buttons := map[];
      buttonXml := None;
      clients := [];
      events := [];
    }

    /** `getClientCount` */
    function GetClientCount(): (n: nat)
      reads this
      ensures n == |clients|
    {
      |clients|
    }

    /** `updateButtons`: each bound client gets exactly one button update, the same for all. */
    method UpdateButtons()
      modifies this
      ensures events == old(events) + Broadcast(clients, ButtonCommand(buttonXml, buttons))
      ensures required == old(required) && speeds == old(speeds) && buttons == old(buttons)
      ensures buttonXml == old(buttonXml) && clients == old(clients)
    {
      for i := 0 to |clients|
        invariant required == old(required) && speeds == old(speeds) && buttons == old(buttons)
        invariant buttonXml == old(buttonXml) && clients == old(clients)
        invariant events == old(events) + Broadcast(clients[..i], ButtonCommand(buttonXml, buttons))
      {
        BroadcastAppend(clients[..i], clients[i], ButtonCommand(buttonXml, buttons));
        assert clients[..i + 1] == clients[..i] + [clients[i]];
        if buttonXml.Some? {
          events := events + [Event(clients[i], UpdateButtonLayout(buttonXml.value))];
        } else {
          events := events + [Event(clients[i], UpdateButtonMap(buttons))];
        }
      }
      assert clients[..|clients|] == clients;
    }

    /** `updateSensorSpeeds`: each bound client gets the whole speed table. */
    method UpdateSensorSpeeds()
      modifies this
      ensures events == old(events) + Broadcast(clients, UpdateSpeeds(speeds))
      ensures required == old(required) && speeds == old(speeds) && buttons == old(buttons)
      ensures buttonXml == old(buttonXml) && clients == old(clients)
    {
      for i := 0 to |clients|
        invariant required == old(required) && speeds == old(speeds) && buttons == old(buttons)
        invariant buttonXml == old(buttonXml) && clients == old(clients)
        invariant events == old(events) + Broadcast(clients[..i], UpdateSpeeds(speeds))
      {
        BroadcastAppend(clients[..i], clients[i], UpdateSpeeds(speeds));
        assert clients[..i + 1] == clients[..i] + [clients[i]];
        events := events + [Event(clients[i], UpdateSpeeds(speeds))];
      }
      assert clients[..|clients|] == clients;
    }

    /** `updateSensors(requiredSensors)`: stores the set and sends it to each bound client. */
    method UpdateSensorsTo(requiredSensors: set<SensorType>)
      modifies this
      ensures required == Some(requiredSensors)
      ensures events == old(events) + Broadcast(clients, UpdateSensors(requiredSensors))
      ensures speeds == old(speeds) && buttons == old(buttons) && buttonXml == old(buttonXml) && clients == old(clients)
    {
      required := Some(requiredSensors);
      for i := 0 to |clients|
        invariant required == Some(requiredSensors)
        invariant speeds == old(speeds) && buttons == old(buttons)
        invariant buttonXml == old(buttonXml) && clients == old(clients)
        invariant events == old(events) + Broadcast(clients[..i], UpdateSensors(requiredSensors))
      {
        BroadcastAppend(clients[..i], clients[i], UpdateSensors(requiredSensors));
        assert clients[..i + 1] == clients[..i] + [clients[i]];
        events := events + [Event(clients[i], UpdateSensors(requiredSensors))];
      }
      assert clients[..|clients|] == clients;
    }

    /**
     * `addHandler(handler)`: the connection joins the list; it is sent the
     * required sensors, every client (it included) the buttons, and it the
     * speed table. Before the first `updateSensors` the required set is null,
     * and copying it into the command throws `NullPointerException` after the
     * connection has joined, so nothing is sent.
     */
    method AddHandler(client: NetworkDevice) returns (r: Result<()>)
      modifies this
      ensures clients == old(clients) + [client]
      ensures required == old(required) && speeds == old(speeds) && buttons == old(buttons) && buttonXml == old(buttonXml)
      ensures r.Err? <==> old(required).None?
      ensures r.Err? ==> r.error == NullPointer && events == old(events)
      ensures r.Ok? ==>
        events == old(events) + [Event(client, UpdateSensors(required.value))]
          + Broadcast(clients, ButtonCommand(buttonXml, buttons)) + [Event(client, UpdateSpeeds(speeds))]
    {
      clients := clients + [client];
      if required.None? {
        return Err(NullPointer);
      }
      events := events + [Event(client, UpdateSensors(required.value))];
      UpdateButtons();
      events := events + [Event(client, UpdateSpeeds(speeds))];
      return Ok(());
    }

    /** `closeAll`: every connection is signalled, in list order, and removed. */
    method CloseAll()
      modifies this
      ensures clients == []
      ensures events == old(events) + Broadcast(old(clients), CloseAndSignal)
      ensures required == old(required) && speeds == old(speeds) && buttons == old(buttons) && buttonXml == old(buttonXml)
    {
      ghost var all := clients;
      ghost var i := 0;
      while |clients| > 0
        invariant 0 <= i <= |all| && clients == all[i..]
        invariant events == old(events) + Broadcast(all[..i], CloseAndSignal)
        invariant required == old(required) && speeds == old(speeds) && buttons == old(buttons) && buttonXml == old(buttonXml)
        decreases |clients|
      {
        BroadcastAppend(all[..i], all[i], CloseAndSignal);
        assert all[..i + 1] == all[..i] + [all[i]];
        events := events + [Event(clients[0], CloseAndSignal)];
        clients := clients[1..];
        i := i + 1;
      }
      assert all[..i] == all;
    }

    /** `getClientHandler(client)`: the first connection whose device equals the client, or null. */
    method GetClientHandler(client: NetworkDevice) returns (r: Option<nat>)
      ensures r.Some? ==> FirstEqual(clients, client, r.value)
      ensures r.None? ==> forall j | 0 <= j < |clients| :: !Equals(clients[j], client)
    {
      for i := 0 to |clients|
        invariant forall j | 0 <= j < i :: !Equals(clients[j], client)
      {
        if Equals(clients[i], client) {
          return Some(i);
        }
      }
      return None;
    }

    /**
     * `close(client)`: without a matching connection, false and nothing
     * changes; otherwise the first matching connection is removed and
     * signalled, and the result is true.
     */
    method Close(client: NetworkDevice) returns (found: bool)
      modifies this
      ensures !found <==> forall j | 0 <= j < |old(clients)| :: !Equals(old(clients)[j], client)
      ensures !found ==> clients == old(clients) && events == old(events)
      ensures found ==> exists i: nat ::
                          FirstEqual(old(clients), client, i) && clients == RemovedAt(old(clients), i) &&
                          events == old(events) + [Event(old(clients)[i], CloseAndSignal)]
      ensures found ==> GetClientCount() == old(GetClientCount()) - 1
      ensures required == old(required) && speeds == old(speeds) && buttons == old(buttons) && buttonXml == old(buttonXml)
    {
      var handler := GetClientHandler(client);
      if handler.None? {
        return false;
      }
      var i := handler.value;
      var c := clients[i];
      clients := RemovedAt(clients, i);
      events := events + [Event(c, CloseAndSignal)];
      return true;
    }

    /**
     * `addButton(name, id)`: ids below zero are reserved, which the source
     * `assert`s; the id maps to the name, the XML layout is dropped and every
     * client gets the map.
     */
    method AddButton(name: string, id: int)
      requires id >= 0
      modifies this
      ensures buttons == old(buttons)[id := name] && buttonXml == None
      ensures events == old(events) + Broadcast(clients, UpdateButtonMap(buttons))
      ensures required == old(required) && speeds == old(speeds) && clients == old(clients)
    {
      buttons := buttons[id := name];
      buttonXml := None;
      UpdateButtons();
    }

    /** `removeButton(id)`: only that id leaves the map, the XML layout is dropped, every client gets the map. */
    method RemoveButton(id: int)
      modifies this
      ensures buttons == old(buttons) - {id} && buttonXml == None
      ensures events == old(events) + Broadcast(clients, UpdateButtonMap(buttons))
      ensures required == old(required) && speeds == old(speeds) && clients == old(clients)
    {
      buttons := buttons - {id};
      buttonXml := None;
      UpdateButtons();
    }

    /** `setButtonLayout(xml)`: the layout replaces the map on the clients; null falls back to the map. */
    method SetButtonLayout(xml: Option<string>)
      modifies this
      ensures buttonXml == xml && buttons == old(buttons)
      ensures events == old(events) + Broadcast(clients, ButtonCommand(xml, buttons))
      ensures required == old(required) && speeds == old(speeds) && clients == old(clients)
    {
      buttonXml := xml;
      UpdateButtons();
    }

    /** `clearButtons`: neither buttons nor a layout remain; every client gets the empty map. */
    method ClearButtons()
      modifies this
      ensures buttons == map[] && buttonXml == None
      ensures events == old(events) + Broadcast(clients, UpdateButtonMap(map[]))
      ensures required == old(required) && speeds == old(speeds) && clients == old(clients)
    {
      buttons := map[];
      buttonXml := None;
      UpdateButtons();
    }

    /** `setSensorSpeed(sensor, speed)`: only that sensor's speed changes; every client gets the table. */
    method SetSensorSpeed(sensor: SensorType, speed: SensorSpeed)
      modifies this
      ensures speeds == old(speeds)[sensor := speed]
      ensures forall t | t != sensor :: (t in speeds <==> t in old(speeds)) && (t in speeds ==> speeds[t] == old(speeds)[t])
      ensures events == old(events) + Broadcast(clients, UpdateSpeeds(speeds))
      ensures required == old(required) && buttons == old(buttons) && buttonXml == old(buttonXml) && clients == old(clients)
    {
      speeds := speeds[sensor := speed];
      UpdateSensorSpeeds();
    }
  }

  /** Adding a new button and removing it again restores the button map; the layout stays dropped. */
  method AddThenRemoveButton(m: ClientConnectionManager, name: string, id: int)
    requires id >= 0 && id !in m.buttons
    modifies m
    ensures m.buttons == old(m.buttons) && m.buttonXml == None && m.clients == old(m.clients)
  {
    m.AddButton(name, id);
    m.RemoveButton(id);
  }

  /** A layout set after buttons wins; adding a button afterwards drops the layout again. */
  method LayoutThenButton(m: ClientConnectionManager, xml: string, name: string, id: nat)
    modifies m
    ensures m.buttonXml == None && m.buttons == old(m.buttons)[id := name]
    ensures |m.events| == |old(m.events)| + 2 * |m.clients|
    ensures forall i | |old(m.events)| <= i < |old(m.events)| + |m.clients| :: m.events[i].command == UpdateButtonLayout(xml)
  {
    m.SetButtonLayout(Some(xml));
    m.AddButton(name, id);
  }

  /** Every handler added and not closed is counted. */
  method CountAddsAndCloses(m: ClientConnectionManager, a: NetworkDevice, b: NetworkDevice)
    modifies m
    ensures m.GetClientCount() == old(m.GetClientCount()) + 1
  {
    var _ := m.AddHandler(a);
    var _ := m.AddHandler(b);
    assert Equals(m.clients[|m.clients| - 1], b);
    var found := m.Close(b);
  }
}
