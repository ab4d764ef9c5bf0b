/**
 * The backend keep-alive state machine of the DAPNET proxy's backend handler.
 *
 * Two events drive it: a line read from the backend, and a user event from the
 * idle-state handler.  Each event takes the handler to a new state and makes it
 * do one thing on its channels (an `Action`).  `OnRead`, `OnReadTimeout` and
 * `OnUserEvent` give one step, `Run` folds them over a whole event history,
 * and the class `BackendHandler` is the handler itself, whose `Valid()` ties
 * its `state` field to `Run` of everything it has seen.
 */
module KeepAlive {
  import opened Text

  /** KEEP_ALIVE_REQ: the ping written to the backend, and the first reply line. */
  const KeepAliveRequest: string := "2:PING"
  /** The second reply line that completes a keep-alive. */
  const KeepAliveAck: string := "+"
  /** A backend line with this prefix completes the handshake. */
  const HandshakePrefix: string := "2:"

  datatype State = Handshake | SendKeepAlive | PendingKeepAlive1 | PendingKeepAlive2

  /** What the handler does on its channels in response to one event. */
  datatype Action =
    | Forward(msg: string)  // write the line to the frontend channel
    | Suppress              // drop the line
    | SendPing              // write KeepAliveRequest to the backend channel
    | Close                 // close the backend channel on flush
    | Nothing

  datatype IdleState = ReaderIdle | WriterIdle | AllIdle

  /** A user event reaching the handler: an idle-state event or anything else. */
  datatype UserEvent = IdleStateEvent(idle: IdleState) | OtherEvent

  datatype Event = Line(msg: string) | User(evt: UserEvent)

  predicate IsPending(s: State) {
    s == PendingKeepAlive1 || s == PendingKeepAlive2
  }

  /** The line that a pending keep-alive in state `s` waits for. */
  predicate IsKeepAliveReply(s: State, msg: string) {
    || (s == PendingKeepAlive1 && StartsWith(msg, KeepAliveRequest))
    || (s == PendingKeepAlive2 && msg == KeepAliveAck)
  }

  predicate CompletesHandshake(e: Event) {
    e.Line? && StartsWith(e.msg, HandshakePrefix)
  }

  /** `channelRead0`: one backend line. */
  function OnRead(s: State, msg: string): (r: (State, Action))
    ensures r.1 == Forward(msg) || r.1 == Suppress
    ensures r.1 == Suppress <==> IsKeepAliveReply(s, msg)
    ensures r.1 == Suppress ==> IsPending(s)
    ensures s == Handshake ==> r.0 == (if StartsWith(msg, HandshakePrefix) then SendKeepAlive else Handshake)
    ensures s == PendingKeepAlive1 && r.1 == Suppress ==> r.0 == PendingKeepAlive2
    ensures s == PendingKeepAlive2 && r.1 == Suppress ==> r.0 == SendKeepAlive
    ensures s != Handshake && r.1 != Suppress ==> r.0 == s
  {
    match s
    case Handshake =>
      (if StartsWith(msg, HandshakePrefix) then SendKeepAlive else Handshake, Forward(msg))
    case SendKeepAlive =>
      (SendKeepAlive, Forward(msg))
    case PendingKeepAlive1 =>
      if StartsWith(msg, KeepAliveRequest) then (PendingKeepAlive2, Suppress) else (s, Forward(msg))
    case PendingKeepAlive2 =>
      if msg == KeepAliveAck then (SendKeepAlive, Suppress) else (s, Forward(msg))
  }

  /** `handleReadTimeout`: the backend has been silent for the idle window. */
  function OnReadTimeout(s: State): (r: (State, Action))
    ensures r.1 == Nothing <==> s == Handshake
    ensures r.1 == SendPing <==> s == SendKeepAlive
    ensures r.1 == Close <==> IsPending(s)
    ensures r.0 == (if s == SendKeepAlive then PendingKeepAlive1 else s)
  {
    match s
    case Handshake => (s, Nothing)
    case SendKeepAlive => (PendingKeepAlive1, SendPing)
    case PendingKeepAlive1 => (s, Close)
    case PendingKeepAlive2 => (s, Close)
  }

  /** `userEventTriggered`: only a reader-idle event is handled. */
  function OnUserEvent(s: State, evt: UserEvent): (r: (State, Action))
    ensures evt == IdleStateEvent(ReaderIdle) ==> r == OnReadTimeout(s)
    ensures evt != IdleStateEvent(ReaderIdle) ==> r == (s, Nothing)
  {
    match evt
    case IdleStateEvent(idle) => if idle == ReaderIdle then OnReadTimeout(s) else (s, Nothing)
    case OtherEvent => (s, Nothing)
  }

  function Step(s: State, e: Event): (State, Action) {
    match e
    case Line(msg) => OnRead(s, msg)
    case User(evt) => OnUserEvent(s, evt)
  }

  /** The state and the actions of a fresh handler after the events `evs`. */
  function Run(evs: seq<Event>): (r: (State, seq<Action>))
    ensures |r.1| == |evs|
  {
    if evs == [] then (Handshake, [])
    else
      var prev := Run(evs[..|evs| - 1]);
      var next := Step(prev.0, evs[|evs| - 1]);
      (next.0, prev.1 + [next.1])
  }

  function Count(acts: seq<Action>, a: Action): nat {
    if acts == [] then 0
    else Count(acts[..|acts| - 1], a) + (if acts[|acts| - 1] == a then 1 else 0)
  }

  /** The messages written to the frontend, in order. */
  function Forwarded(acts: seq<Action>): seq<string> {
    if acts == [] then []
    else
      var last := acts[|acts| - 1];
      Forwarded(acts[..|acts| - 1]) + (if last.Forward? then [last.msg] else [])
  }

  /** The backend lines of `evs`, leaving out those whose action was `Suppress`. */
  function Unsuppressed(evs: seq<Event>, acts: seq<Action>): seq<string>
    requires |evs| == |acts|
  {
    if evs == [] then []
    else
      var e := evs[|evs| - 1];
      Unsuppressed(evs[..|evs| - 1], acts[..|acts| - 1])
        + (if e.Line? && acts[|acts| - 1] != Suppress then [e.msg] else [])
  }

  function Lines(evs: seq<Event>): seq<string> {
    if evs == [] then []
    else
      var e := evs[|evs| - 1];
      Lines(evs[..|evs| - 1]) + (if e.Line? then [e.msg] else [])
  }

  /** How many keep-alive reply lines the current state still waits for. */
  function Debt(s: State): nat {
    match s
    case PendingKeepAlive1 => 2
    case PendingKeepAlive2 => 1
    case _ => 0
  }

  /** The k-th action is the step taken from the state reached after the first k events. */
  lemma {:induction false} RunAt(evs: seq<Event>, k: nat)
    requires k < |evs|
    ensures Run(evs).1[k] == Step(Run(evs[..k]).0, evs[k]).1
    ensures Run(evs[..k + 1]).0 == Step(Run(evs[..k]).0, evs[k]).0
  {
    var p := evs[..k + 1];
    assert p[..k] == evs[..k] && p[k] == evs[k];
    ActionsPrefix(evs, k + 1);
    assert Run(evs).1[k] == Run(p).1[k];
  }

  /** The actions for a prefix of the events are the same prefix of the actions. */
  lemma {:induction false} ActionsPrefix(evs: seq<Event>, m: nat)
    requires m <= |evs|
    ensures Run(evs[..m]).1 == Run(evs).1[..m]
  {
    var n := |evs|;
    if m < n {
      ActionsPrefix(evs[..n - 1], m);
      assert evs[..n - 1][..m] == evs[..m];
    } else {
      assert evs[..m] == evs;
    }
  }

  /**
   * The handler is in HANDSHAKE exactly as long as no line starting with "2:"
   * has arrived, and every ping it sends comes after such a line.
   */
  lemma {:induction false} HandshakeGatesPings(evs: seq<Event>)
    ensures Run(evs).0 == Handshake <==> forall j :: 0 <= j < |evs| ==> !CompletesHandshake(evs[j])
    ensures forall k :: 0 <= k < |evs| && Run(evs).1[k] == SendPing ==>
              exists j :: 0 <= j < k && CompletesHandshake(evs[j])
  {
    if evs != [] {
      var n := |evs|;
      var p := evs[..n - 1];
      HandshakeGatesPings(p);
      assert forall j :: 0 <= j < n - 1 ==> p[j] == evs[j];
      var s := Run(p).0;
      var e := evs[n - 1];
      if s == Handshake && !CompletesHandshake(e) {
        assert Run(evs).0 == Handshake;
      }
      forall k | 0 <= k < n && Run(evs).1[k] == SendPing
        ensures exists j :: 0 <= j < k && CompletesHandshake(evs[j])
      {
        if k < n - 1 {
          assert Run(p).1[k] == SendPing;
        } else {
          assert Step(s, e).1 == SendPing;
          assert s == SendKeepAlive;
        }
      }
    }
  }

  /** One step moves the reply debt by exactly what it suppresses and pings. */
  lemma StepDebt(s: State, e: Event)
    ensures Debt(Step(s, e).0) + (if Step(s, e).1 == Suppress then 1 else 0)
            == Debt(s) + (if Step(s, e).1 == SendPing then 2 else 0)
  {
  }

  lemma CountAppend(acts: seq<Action>, x: Action, a: Action)
    ensures Count(acts + [x], a) == Count(acts, a) + (if x == a then 1 else 0)
  {
    assert (acts + [x])[..|acts|] == acts;
  }

  /**
   * Every suppressed line pays off part of a ping sent earlier: the suppressed
   * lines plus the replies still awaited are exactly two per ping.
   */
  lemma {:induction false} PingAccounting(evs: seq<Event>)
    ensures Count(Run(evs).1, Suppress) + Debt(Run(evs).0) == 2 * Count(Run(evs).1, SendPing)
    ensures Count(Run(evs).1, Suppress) <= 2 * Count(Run(evs).1, SendPing)
  {
    if evs != [] {
      var n := |evs|;
      var prev := Run(evs[..n - 1]);
      PingAccounting(evs[..n - 1]);
      var next := Step(prev.0, evs[n - 1]);
      StepDebt(prev.0, evs[n - 1]);
      assert Run(evs) == (next.0, prev.1 + [next.1]);
      CountAppend(prev.1, next.1, Suppress);
      CountAppend(prev.1, next.1, SendPing);
    }
  }

  lemma {:induction false} CountPositive(acts: seq<Action>, a: Action)
    requires Count(acts, a) > 0
    ensures exists j :: 0 <= j < |acts| && acts[j] == a
  {
    var n := |acts|;
    if acts[n - 1] != a {
      CountPositive(acts[..n - 1], a);
      var j :| 0 <= j < n - 1 && acts[..n - 1][j] == a;
      assert acts[j] == a;
    }
  }

  /**
   * A line is suppressed only while a keep-alive is pending, only if it is the
   * reply that state waits for, and only after a ping has been sent.
   */
  lemma {:induction false} SuppressOnlyWhilePending(evs: seq<Event>, k: nat)
    requires k < |evs| && Run(evs).1[k] == Suppress
    ensures IsPending(Run(evs[..k]).0)
    ensures evs[k].Line? && IsKeepAliveReply(Run(evs[..k]).0, evs[k].msg)
    ensures exists j :: 0 <= j < k && Run(evs).1[j] == SendPing
  {
    RunAt(evs, k);
    var p := evs[..k];
    var s := Run(p).0;
    assert Step(s, evs[k]).1 == Suppress;
    PingAccounting(p);
    CountPositive(Run(p).1, SendPing);
    var j :| 0 <= j < |p| && Run(p).1[j] == SendPing;
    RunAt(evs, j);
    RunAt(p, j);
    assert p[..j] == evs[..j];
    assert p[j] == evs[j];
  }

  /** Forwarded output is the input lines with the suppressed ones removed, in order. */
  lemma {:induction false} ForwardedIsInputMinusSuppressed(evs: seq<Event>)
    ensures Forwarded(Run(evs).1) == Unsuppressed(evs, Run(evs).1)
    ensures |Lines(evs)| == |Forwarded(Run(evs).1)| + Count(Run(evs).1, Suppress)
  {
    if evs != [] {
      var n := |evs|;
      ForwardedIsInputMinusSuppressed(evs[..n - 1]);
      var acts := Run(evs).1;
      assert acts[..n - 1] == Run(evs[..n - 1]).1;
    }
  }

  /** What the completion listener of a forwarded write does. */
  datatype ChannelOp = ReadBackend | CloseFrontend

  /**
   * `forwardMessage`: once the write to the frontend completes, the next backend
   * read is requested only if it succeeded; otherwise the written channel is closed.
   */
  function AfterForwardWrite(success: bool): (op: ChannelOp)
    ensures op == ReadBackend <==> success
    ensures op == CloseFrontend <==> !success
  {
    if success then ReadBackend else CloseFrontend
  }

  /** How many of the write outcomes succeeded. */
  function Successes(outcomes: seq<bool>): nat {
    if outcomes == [] then 0
    else Successes(outcomes[..|outcomes| - 1]) + (if outcomes[|outcomes| - 1] then 1 else 0)
  }

  lemma {:induction false} SuccessesBound(outcomes: seq<bool>)
    ensures Successes(outcomes) <= |outcomes|
  {
    if outcomes != [] {
      SuccessesBound(outcomes[..|outcomes| - 1]);
    }
  }

  /**
   * Only the completion of a forwarded write asks for the next backend line, so
   * the reads requested so far are at most the forwarded lines: together with
   * the suppressed lines they never exceed the lines read, and a suppressed
   * keep-alive reply requests no read.
   */
  lemma ReadsFollowForwards(evs: seq<Event>, outcomes: seq<bool>)
    requires |outcomes| <= |Forwarded(Run(evs).1)|
    ensures Successes(outcomes) + Count(Run(evs).1, Suppress) <= |Lines(evs)|
    ensures Count(Run(evs).1, Suppress) > 0 ==> Successes(outcomes) < |Lines(evs)|
  {
    SuccessesBound(outcomes);
    ForwardedIsInputMinusSuppressed(evs);
  }

  lemma ForwardedSnoc(acts: seq<Action>, a: Action)
    ensures Forwarded(acts + [a]) == Forwarded(acts) + (if a.Forward? then [a.msg] else [])
  {
    assert (acts + [a])[..|acts|] == acts;
  }

  class BackendHandler {
    /** The reader-idle timeout the pipeline was built with; idle events exist only if it is positive. */
    const readerIdleTimeout: int
    var state: State
    ghost var events: seq<Event>
    ghost var actions: seq<Action>
    /** The outcomes of the forwarded writes that have completed, oldest first. */
    ghost var completions: seq<bool>

    ghost predicate Valid()
      reads this
    {
      && Run(events) == (state, actions)
      && |completions| <= |Forwarded(actions)|
    }

    constructor (readerIdleTimeout: int)
      ensures Valid() && this.readerIdleTimeout == readerIdleTimeout
      ensures state == Handshake && events == [] && actions == [] && completions == []
    {
      this.readerIdleTimeout := readerIdleTimeout;
      state := Handshake;
      events, actions, completions := [], [], [];
    }

    /** `channelRead0`: decide whether to forward a backend line, updating the state. */
    method ChannelRead(msg: string) returns (a: Action)
      requires Valid()
      modifies this
      ensures Valid()
      ensures events == old(events) + [Line(msg)] && actions == old(actions) + [a]
      ensures (state, a) == OnRead(old(state), msg)
      ensures completions == old(completions)
    {
      var forward := true;
      match state {
        case Handshake =>
          if StartsWith(msg, HandshakePrefix) {
            state := SendKeepAlive;
          }
        case SendKeepAlive =>
        case PendingKeepAlive1 =>
          if StartsWith(msg, KeepAliveRequest) {
            state := PendingKeepAlive2;
            forward := false;
          }
        case PendingKeepAlive2 =>
          if msg == KeepAliveAck {
            state := SendKeepAlive;
            forward := false;
          }
      }
      a := if forward then Forward(msg) else Suppress;
      ForwardedSnoc(actions, a);
      events, actions := events + [Line(msg)], actions + [a];
    }

    /** `userEventTriggered`: only a reader-idle event reaches the timeout handling. */
    method UserEventTriggered(evt: UserEvent) returns (a: Action)
      requires Valid()
      requires evt.IdleStateEvent? ==> readerIdleTimeout > 0
      modifies this
      ensures Valid()
      ensures events == old(events) + [User(evt)] && actions == old(actions) + [a]
      ensures (state, a) == OnUserEvent(old(state), evt)
      ensures completions == old(completions)
    {
      a := Nothing;
      if evt.IdleStateEvent? && evt.idle == ReaderIdle {
        a := HandleReadTimeout();
      }
      ForwardedSnoc(actions, a);
      events, actions := events + [User(evt)], actions + [a];
    }

    /**
     * The completion listener `forwardMessage` adds to a write: it fires once per
     * forwarded line, and asks for the next backend line only on success.
     */
    method ForwardCompleted(success: bool) returns (op: ChannelOp)
      requires Valid() && |completions| < |Forwarded(actions)|
      modifies this`completions
      ensures Valid()
      ensures completions == old(completions) + [success]
      ensures op == AfterForwardWrite(success)
    {
      if success {
        op := ReadBackend;
      } else {
        op := CloseFrontend;
      }
      completions := completions + [success];
    }

    /** `handleReadTimeout`: ping once the handshake is done, close if a ping is still pending. */
    method HandleReadTimeout() returns (a: Action)
      modifies this`state
      ensures (state, a) == OnReadTimeout(old(state))
    {
      match state {
        case Handshake =>
          a := Nothing;
        case SendKeepAlive =>
          state := PendingKeepAlive1;
          a := SendPing;
        case PendingKeepAlive1 =>
          a := Close;
        case PendingKeepAlive2 =>
          a := Close;
      }
    }
  }
}
