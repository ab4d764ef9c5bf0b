/**
 * `ProxyManager`: opens proxy connections, keeps the set of live ones,
 * reconnects after a close or a failed connect, and reports to an optional
 * event listener.  Netty channels are opaque ids; the worker event loop is
 * the log of tasks handed to it; the listener is the log of its callbacks.
 * The connection settings are the DAPNET proxy's Settings record, of which
 * only the profile name and the reconnect sleep time are read.
 */
module Proxy {
  import opened DapnetSettings

  type ChannelId = nat

  /** A callback of the proxy event listener. */
  datatype ListenerEvent =
    | OnRegister(profileName: string)
    | OnConnect(profileName: string)
    | OnDisconnect(profileName: string, reconnect: bool)
    | OnShutdown

  /** A task handed to the worker event loop: `doConnect` now, or after `delay` ms. */
  datatype Task =
    | DoConnect(settings: Settings)
    | DoConnectAfter(settings: Settings, delay: int)

  /** The manager's entry points, in the order they are called. */
  datatype Call =
    | OpenCall(settings: Settings)
    | ShutdownCall
    | SucceededCall(settings: Settings, channel: ChannelId)
    | FailedCall(settings: Settings, channel: ChannelId)
    | CloseCall(settings: Settings)

  /** What the manager has done that others can observe. */
  datatype Trace = Trace(
    shutdownRequested: bool,
    events: seq<ListenerEvent>,
    tasks: seq<Task>,
    closedChannels: seq<ChannelId>,
    workerGroupShutdown: bool)

  /** The retry rule of `scheduleReconnect`. */
  predicate Retries(shutdownRequested: bool, settings: Settings) {
    !shutdownRequested && settings.reconnectSleepTime > 0
  }

  /** The reconnect task `scheduleReconnect` submits, if any. */
  function Reconnect(shutdownRequested: bool, settings: Settings): seq<Task> {
    if Retries(shutdownRequested, settings) then [DoConnectAfter(settings, settings.reconnectSleepTime)] else []
  }

  /** A callback, delivered only when there is a listener. */
  function Notify(hasListener: bool, e: ListenerEvent): seq<ListenerEvent> {
    if hasListener then [e] else []
  }

  function Step(hasListener: bool, t: Trace, c: Call): Trace {
    match c
    case OpenCall(s) =>
      t.(tasks := t.tasks + [DoConnect(s)],
         events := t.events + Notify(hasListener, OnRegister(s.profileName)))
    case ShutdownCall =>
      t.(shutdownRequested := true,
         events := t.events + Notify(hasListener, OnShutdown),
         workerGroupShutdown := true)
    case SucceededCall(s, _) =>
      t.(events := t.events + Notify(hasListener, OnConnect(s.profileName)))
    case FailedCall(s, ch) =>
      t.(closedChannels := t.closedChannels + [ch],
         tasks := t.tasks + Reconnect(t.shutdownRequested, s))
    case CloseCall(s) =>
      t.(tasks := t.tasks + Reconnect(t.shutdownRequested, s),
         events := t.events + Notify(hasListener, OnDisconnect(s.profileName, Retries(t.shutdownRequested, s))))
  }

  const Start: Trace := Trace(false, [], [], [], false)

  /** The trace after the calls `calls`, starting from a new manager. */
  function Run(hasListener: bool, calls: seq<Call>): Trace {
    if calls == [] then Start else Step(hasListener, Run(hasListener, calls[..|calls| - 1]), calls[|calls| - 1])
  }

  lemma RunSnoc(hasListener: bool, calls: seq<Call>, c: Call)
    ensures Run(hasListener, calls + [c]) == Step(hasListener, Run(hasListener, calls), c)
  {
    assert (calls + [c])[..|calls|] == calls;
  }

  /** The kinds of listener callback. */
  datatype Kind = RegisterKind | ConnectKind | DisconnectKind | ShutdownKind

  function KindOf(e: ListenerEvent): Kind {
    match e
    case OnRegister(_) => RegisterKind
    case OnConnect(_) => ConnectKind
    case OnDisconnect(_, _) => DisconnectKind
    case OnShutdown => ShutdownKind
  }

  /** The callback kind each entry point is documented to fire; a failed connect fires none. */
  function Fires(c: Call, k: Kind): bool {
    match c
    case OpenCall(_) => k == RegisterKind
    case ShutdownCall => k == ShutdownKind
    case SucceededCall(_, _) => k == ConnectKind
    case FailedCall(_, _) => false
    case CloseCall(_) => k == DisconnectKind
  }

  function CountKind(evs: seq<ListenerEvent>, k: Kind): nat {
    if evs == [] then 0 else CountKind(evs[..|evs| - 1], k) + (if KindOf(evs[|evs| - 1]) == k then 1 else 0)
  }

  function CountFiring(calls: seq<Call>, k: Kind): nat {
    if calls == [] then 0 else CountFiring(calls[..|calls| - 1], k) + (if Fires(calls[|calls| - 1], k) then 1 else 0)
  }

  /** The immediate connects that `openConnection` calls in `calls` submit. */
  function Submitted(calls: seq<Call>): seq<Task> {
    if calls == [] then []
    else Submitted(calls[..|calls| - 1]) + (if calls[|calls| - 1].OpenCall? then [DoConnect(calls[|calls| - 1].settings)] else [])
  }

  /** Shutdown has been requested, and the worker group stopped, exactly when `shutdown` was called. */
  lemma {:induction false} ShutdownRecorded(hasListener: bool, calls: seq<Call>)
    ensures Run(hasListener, calls).shutdownRequested <==> ShutdownCall in calls
    ensures Run(hasListener, calls).workerGroupShutdown <==> ShutdownCall in calls
  {
    if calls != [] {
      var p := calls[..|calls| - 1];
      ShutdownRecorded(hasListener, p);
      assert calls == p + [calls[|calls| - 1]];
    }
  }

  /**
   * After `shutdown`, neither a close nor a failed connect schedules another
   * connect: the only tasks still handed to the event loop are the immediate
   * connects of later `openConnection` calls.
   */
  lemma {:induction false} NoReconnectAfterShutdown(hasListener: bool, calls: seq<Call>, more: seq<Call>)
    requires ShutdownCall in calls
    ensures Run(hasListener, calls + more).tasks == Run(hasListener, calls).tasks + Submitted(more)
  {
    if more == [] {
      assert calls + more == calls;
    } else {
      var m := more[..|more| - 1];
      NoReconnectAfterShutdown(hasListener, calls, m);
      assert (calls + more)[..|calls + more| - 1] == calls + m;
      assert (calls + more)[|calls + more| - 1] == more[|more| - 1];
      ShutdownRecorded(hasListener, calls + m);
      assert ShutdownCall in calls + m;
    }
  }

  /** Every delayed connect waits the profile's reconnect sleep time, which is positive. */
  lemma {:induction false} ReconnectDelays(hasListener: bool, calls: seq<Call>)
    ensures forall i :: 0 <= i < |Run(hasListener, calls).tasks| && Run(hasListener, calls).tasks[i].DoConnectAfter? ==>
              Run(hasListener, calls).tasks[i].delay == Run(hasListener, calls).tasks[i].settings.reconnectSleepTime > 0
  {
    if calls != [] {
      ReconnectDelays(hasListener, calls[..|calls| - 1]);
    }
  }

  /** One entry point adds its own callback, and only when there is a listener. */
  lemma StepCallbacks(hasListener: bool, t: Trace, c: Call, k: Kind)
    ensures !hasListener ==> Step(hasListener, t, c).events == t.events
    ensures hasListener ==> CountKind(Step(hasListener, t, c).events, k) == CountKind(t.events, k) + (if Fires(c, k) then 1 else 0)
  {
    if hasListener && !c.FailedCall? {
      var e := Step(hasListener, t, c).events[|t.events|];
      assert Step(hasListener, t, c).events == t.events + [e];
      assert KindOf(e) == k <==> Fires(c, k);
    }
  }

  /** With a null listener no callback is made; with one, each entry point fires its own callback once. */
  lemma {:induction false} ListenerCallbacks(hasListener: bool, calls: seq<Call>, k: Kind)
    ensures !hasListener ==> Run(hasListener, calls).events == []
    ensures hasListener ==> CountKind(Run(hasListener, calls).events, k) == CountFiring(calls, k)
  {
    if calls != [] {
      ListenerCallbacks(hasListener, calls[..|calls| - 1], k);
      StepCallbacks(hasListener, Run(hasListener, calls[..|calls| - 1]), calls[|calls| - 1], k);
    }
  }

  /** A live connection: its settings and its frontend channel.  Identity is the object's. */
  class ConnectionState {
    const settings: Settings
    const channel: ChannelId

    constructor(settings: Settings, channel: ChannelId)
      ensures this.settings == settings && this.channel == channel
    {
      this.settings := settings;
      this.channel := channel;
    }
  }

  class ProxyManager {
    /** Whether a listener was passed to the constructor (it may be `null`). */
    const hasListener: bool
    var activeStates: set<ConnectionState>
    var shutdownRequested: bool
    var events: seq<ListenerEvent>
    var tasks: seq<Task>
    var closedChannels: seq<ChannelId>
    var workerGroupShutdown: bool
    /** The entry points called so far. */
    ghost var calls: seq<Call>

    function Observed(): Trace
      reads this
    {
      Trace(shutdownRequested, events, tasks, closedChannels, workerGroupShutdown)
    }

    ghost predicate Valid()
      reads this
    {
      Observed() == Run(hasListener, calls)
    }

    constructor(hasListener: bool)
      ensures Valid() && this.hasListener == hasListener && calls == [] && activeStates == {}
    {
      this.hasListener := hasListener;
      activeStates := {};
      shutdownRequested := false;
      events := [];
      tasks := [];
      closedChannels := [];
      workerGroupShutdown := false;
      calls := [];
    }

    /** `openConnection`: submit a connect, then report the registration. */
    method OpenConnection(settings: Settings)
      requires Valid()
      modifies this
      ensures Valid() && calls == old(calls) + [OpenCall(settings)]
      ensures activeStates == old(activeStates) && shutdownRequested == old(shutdownRequested)
      ensures tasks == old(tasks) + [DoConnect(settings)]
      ensures events == old(events) + Notify(hasListener, OnRegister(settings.profileName))
      ensures closedChannels == old(closedChannels) && workerGroupShutdown == old(workerGroupShutdown)
    {
      RunSnoc(hasListener, calls, OpenCall(settings));
      ghost var next := Step(hasListener, Observed(), OpenCall(settings));
      tasks := tasks + [DoConnect(settings)];
      if hasListener {
        events := events + [OnRegister(settings.profileName)];
      }
      assert Observed() == next;
      calls := calls + [OpenCall(settings)];
    }

    /**
     * `shutdown`: request shutdown first, then notify the listener (an
     * exception it throws is logged and swallowed, so the call goes on as if
     * it returned), then stop the worker group.
     */
    method Shutdown()
      requires Valid()
      modifies this
      ensures Valid() && calls == old(calls) + [ShutdownCall]
      ensures shutdownRequested && workerGroupShutdown
      ensures activeStates == old(activeStates) && tasks == old(tasks) && closedChannels == old(closedChannels)
      ensures events == old(events) + Notify(hasListener, OnShutdown)
    {
      RunSnoc(hasListener, calls, ShutdownCall);
      ghost var next := Step(hasListener, Observed(), ShutdownCall);
      shutdownRequested := true;
      if hasListener {
        events := events + [OnShutdown];
      }
      workerGroupShutdown := true;
      assert Observed() == next;
      calls := calls + [ShutdownCall];
    }

    /** `onConnectSucceeded`: track a new live connection and report it. */
    method OnConnectSucceeded(settings: Settings, channel: ChannelId) returns (state: ConnectionState)
      requires Valid()
      modifies this
      ensures Valid() && calls == old(calls) + [SucceededCall(settings, channel)]
      ensures fresh(state) && state.settings == settings && state.channel == channel
      ensures activeStates == old(activeStates) + {state}
      ensures events == old(events) + Notify(hasListener, OnConnect(settings.profileName))
      ensures tasks == old(tasks) && closedChannels == old(closedChannels)
      ensures shutdownRequested == old(shutdownRequested) && workerGroupShutdown == old(workerGroupShutdown)
    {
      RunSnoc(hasListener, calls, SucceededCall(settings, channel));
      ghost var next := Step(hasListener, Observed(), SucceededCall(settings, channel));
      state := new ConnectionState(settings, channel);
      activeStates := activeStates + {state};
      if hasListener {
        events := events + [OnConnect(settings.profileName)];
      }
      assert Observed() == next;
      calls := calls + [SucceededCall(settings, channel)];
    }

    /** The failure branch of `doConnect`'s connect listener: close the channel, then `onConnectFailed`. */
    method ConnectFailed(settings: Settings, channel: ChannelId)
      requires Valid()
      modifies this
      ensures Valid() && calls == old(calls) + [FailedCall(settings, channel)]
      ensures closedChannels == old(closedChannels) + [channel]
      ensures tasks == old(tasks) + Reconnect(shutdownRequested, settings)
      ensures activeStates == old(activeStates) && events == old(events)
      ensures shutdownRequested == old(shutdownRequested) && workerGroupShutdown == old(workerGroupShutdown)
    {
      RunSnoc(hasListener, calls, FailedCall(settings, channel));
      ghost var next := Observed().(closedChannels := closedChannels + [channel],
                                    tasks := tasks + Reconnect(shutdownRequested, settings));
      assert next == Step(hasListener, Observed(), FailedCall(settings, channel));
      closedChannels := closedChannels + [channel];
      OnConnectFailed(settings);
      assert Observed() == next;
      calls := calls + [FailedCall(settings, channel)];
    }

    /** `onConnectFailed`: log (not modelled) and try again later; no listener callback. */
    method OnConnectFailed(settings: Settings)
      modifies this`tasks
      ensures tasks == old(tasks) + Reconnect(shutdownRequested, settings)
    {
      var _ := ScheduleReconnect(settings);
    }

    /** `onClose`: forget the connection, maybe reconnect, and report whether it will. */
    method OnClose(state: ConnectionState)
      requires Valid()
      modifies this
      ensures Valid() && calls == old(calls) + [CloseCall(state.settings)]
      ensures activeStates == old(activeStates) - {state}
      ensures tasks == old(tasks) + Reconnect(shutdownRequested, state.settings)
      ensures events == old(events)
                        + Notify(hasListener, OnDisconnect(state.settings.profileName, Retries(shutdownRequested, state.settings)))
      ensures closedChannels == old(closedChannels)
      ensures shutdownRequested == old(shutdownRequested) && workerGroupShutdown == old(workerGroupShutdown)
    {
      RunSnoc(hasListener, calls, CloseCall(state.settings));
      ghost var next := Step(hasListener, Observed(), CloseCall(state.settings));
      activeStates := activeStates - {state};
      var reconnect := ScheduleReconnect(state.settings);
      if hasListener {
        events := events + [OnDisconnect(state.settings.profileName, reconnect)];
      }
      assert Observed() == next;
      calls := calls + [CloseCall(state.settings)];
    }

    /** `scheduleReconnect`: one delayed connect, and `true`, exactly when the retry rule holds. */
    method ScheduleReconnect(settings: Settings) returns (reconnect: bool)
      modifies this`tasks
      ensures reconnect <==> !shutdownRequested && settings.reconnectSleepTime > 0
      ensures reconnect ==> tasks == old(tasks) + [DoConnectAfter(settings, settings.reconnectSleepTime)]
      ensures !reconnect ==> tasks == old(tasks)
    {
      var sleepTime := settings.reconnectSleepTime;
      if !shutdownRequested && sleepTime > 0 {
        tasks := tasks + [DoConnectAfter(settings, sleepTime)];
        return true;
      } else {
        return false;
      }
    }
  }
}
