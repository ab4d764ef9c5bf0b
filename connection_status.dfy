/**
 * A connection's status record, as the REST status servers publish it: the
 * profile name, the instant of the last update, the instant the connection
 * came online (absent when not connected) and a three-valued state.
 * `Instant.now()` is not modelled; instants are plain numbers passed in.
 */
module Status {
  import opened Wrappers

  type Instant = int

  datatype StatusState = Connecting | Online | Offline

  /** The value a status object holds at one moment; `None` stands for `null`. */
  datatype StatusView = StatusView(
    profileName: string,
    lastUpdate: Option<Instant>,
    connectedSince: Option<Instant>,
    state: StatusState)

  /** The fields of a freshly constructed status. */
  function Initial(profileName: string): StatusView {
    StatusView(profileName, None, None, Connecting)
  }

  /**
   * The fields the callbacks keep consistent: an update time is always known,
   * the connection has a start time exactly while online, and when online the
   * start time is the last update.
   */
  predicate Coherent(v: StatusView) {
    && v.lastUpdate.Some?
    && (v.state == Online <==> v.connectedSince.Some?)
    && (v.connectedSince.Some? ==> v.connectedSince == v.lastUpdate)
  }

  /** `ConnectionStatus` with its setters; the getters are the fields themselves. */
  class ConnectionStatus {
    const profileName: string
    var lastUpdate: Option<Instant>
    var connectedSince: Option<Instant>
    var state: StatusState

    constructor(profileName: string)
      ensures View() == Initial(profileName)
    {
      this.profileName := profileName;
      lastUpdate := None;
      connectedSince := None;
      state := Connecting;
    }

    function View(): StatusView
      reads this
    {
      StatusView(profileName, lastUpdate, connectedSince, state)
    }

    method SetLastUpdate(lastUpdate: Option<Instant>)
      modifies this
      ensures View() == old(View()).(lastUpdate := lastUpdate)
    {
      this.lastUpdate := lastUpdate;
    }

    method SetConnectedSince(connectedSince: Option<Instant>)
      modifies this
      ensures View() == old(View()).(connectedSince := connectedSince)
    {
      this.connectedSince := connectedSince;
    }

    method SetState(state: StatusState)
      modifies this
      ensures View() == old(View()).(state := state)
    {
      this.state := state;
    }
  }
}
