/**
 * `ConnectionStatusManager`: the event listener behind the connection status
 * REST server.  It maps profile names to status objects and updates the
 * stored objects in place.  The HTTP server itself is not modelled.
 */
module ConnectionStatusManager {
  import opened Wrappers
  import opened Status
  import opened StatusRegistry

  class ConnectionStatusManager {
    var connections: map<string, ConnectionStatus>
    /** The callbacks received so far. */
    ghost var events: seq<StatusEvent>
    /** The values the stored objects are meant to hold. */
    ghost var registry: Registry

    /**
     * Each status is filed under its own (immutable) profile name, so no two
     * names share an object, and each stored value is the replay of the callbacks.
     */
    ghost predicate Valid()
      reads this, connections.Values
    {
      && registry == Replay(events)
      && connections.Keys == registry.Keys
      && forall q :: q in connections ==> connections[q].profileName == q && connections[q].View() == registry[q]
    }

    constructor()
      ensures Valid() && connections == map[] && events == []
    {
      connections := map[];
      events := [];
      registry := map[];
    }

    /** `onRegister`: a fresh status replaces any earlier one for the name. */
    method OnRegister(profileName: string, now: Instant)
      requires Valid()
      modifies this
      ensures Valid() && events == old(events) + [Register(profileName, now)]
      ensures profileName in connections && fresh(connections[profileName])
      ensures forall q :: q in old(connections) && q != profileName ==> q in connections && connections[q] == old(connections[q])
    {
      ReplaySnoc(events, Register(profileName, now));
      events := events + [Register(profileName, now)];
      registry := registry[profileName := Registered(profileName, now)];
      var status := new ConnectionStatus(profileName);
      status.SetLastUpdate(Some(now));
      connections := connections[profileName := status];
      forall q | q in connections && q != profileName
        ensures connections[q] == old(connections[q]) && connections[q].View() == old(connections[q].View())
      {
      }
    }

    /** `onConnect`: a known status goes online now; an unknown name is ignored. */
    method OnConnect(profileName: string, now: Instant)
      requires Valid()
      modifies this, connections.Values
      ensures Valid() && events == old(events) + [Connect(profileName, now)]
      ensures connections == old(connections)
    {
      ReplaySnoc(events, Connect(profileName, now));
      events := events + [Connect(profileName, now)];
      if profileName in connections {
        var status := connections[profileName];
        registry := registry[profileName := Connected(registry[profileName], now)];
        status.SetLastUpdate(Some(now));
        status.SetConnectedSince(Some(now));
        status.SetState(Online);
        forall q | q in connections && q != profileName
          ensures connections[q].View() == old(connections[q].View())
        {
          assert connections[q].profileName != status.profileName;
        }
      }
    }

    /** `onDisconnect`: a known status loses its start time and waits for a reconnect or goes offline. */
    method OnDisconnect(profileName: string, reconnect: bool, now: Instant)
      requires Valid()
      modifies this, connections.Values
      ensures Valid() && events == old(events) + [Disconnect(profileName, reconnect, now)]
      ensures connections == old(connections)
    {
      ReplaySnoc(events, Disconnect(profileName, reconnect, now));
      events := events + [Disconnect(profileName, reconnect, now)];
      if profileName in connections {
        var status := connections[profileName];
        registry := registry[profileName := Disconnected(registry[profileName], reconnect, now)];
        status.SetLastUpdate(Some(now));
        status.SetConnectedSince(None);
        status.SetState(if reconnect then Connecting else Offline);
        forall q | q in connections && q != profileName
          ensures connections[q].View() == old(connections[q].View())
        {
          assert connections[q].profileName != status.profileName;
        }
      }
    }

    /** `getConnections`: exactly the stored status objects. */
    method GetConnections() returns (all: set<ConnectionStatus>)
      requires Valid()
      ensures all == connections.Values
      ensures forall s :: s in all ==> s.profileName in Replay(events) && s.View() == Replay(events)[s.profileName]
    {
      all := connections.Values;
    }

    /** `get`: the status stored under exactly this name, or `null`. */
    method Get(name: string) returns (status: ConnectionStatus?)
      requires Valid()
      ensures status == null <==> name !in RegisteredNames(events)
      ensures status != null ==> status.profileName == name && name in Replay(events) && status.View() == Replay(events)[name]
    {
      ReplayKeys(events);
      status := if name in connections then connections[name] else null;
    }
  }
}
