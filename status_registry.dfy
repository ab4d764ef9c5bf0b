/**
 * The status map both status managers keep, as a value: profile names to
 * status records, changed by the register, connect and disconnect callbacks
 * of the proxy's event listener.  `Replay` is the map after a sequence of
 * callbacks, starting from the empty map the managers are created with.
 */
module StatusRegistry {
  import opened Wrappers
  import opened Status

  type Registry = map<string, StatusView>

  datatype StatusEvent =
    | Register(name: string, now: Instant)
    | Connect(name: string, now: Instant)
    | Disconnect(name: string, reconnect: bool, now: Instant)

  /** `onRegister`: a fresh status whose update time is now. */
  function Registered(name: string, now: Instant): StatusView {
    Initial(name).(lastUpdate := Some(now))
  }

  /** `onConnect` on a known status: online since now. */
  function Connected(v: StatusView, now: Instant): StatusView {
    v.(lastUpdate := Some(now), connectedSince := Some(now), state := Online)
  }

  /** `onDisconnect` on a known status: no longer connected; offline unless a reconnect follows. */
  function Disconnected(v: StatusView, reconnect: bool, now: Instant): StatusView {
    v.(lastUpdate := Some(now), connectedSince := None, state := if reconnect then Connecting else Offline)
  }

  /** One callback. */
  function Apply(m: Registry, e: StatusEvent): Registry {
    match e
    case Register(name, now) => m[name := Registered(name, now)]
    case Connect(name, now) => if name in m then m[name := Connected(m[name], now)] else m
    case Disconnect(name, reconnect, now) =>
      if name in m then m[name := Disconnected(m[name], reconnect, now)] else m
  }

  /**
   * What one callback does to the map: only `onRegister` adds a key, an
   * unknown name is ignored, other entries are kept, and the entry for the
   * name gets the fields the callback sets.
   */
  lemma ApplyEffect(m: Registry, e: StatusEvent)
    ensures var r := Apply(m, e);
            && (e.Register? ==> r.Keys == m.Keys + {e.name})
            && (!e.Register? ==> r.Keys == m.Keys)
            && (!e.Register? && e.name !in m ==> r == m)
            && (forall q :: q in m && q != e.name ==> r[q] == m[q])
            && (e.Register? ==> r[e.name].state == Connecting && r[e.name].lastUpdate == Some(e.now)
                                && r[e.name].connectedSince == None)
            && (e.Connect? && e.name in m ==>
                  r[e.name].state == Online && r[e.name].lastUpdate == r[e.name].connectedSince == Some(e.now))
            && (e.Disconnect? && e.name in m ==>
                  && r[e.name].connectedSince == None && r[e.name].lastUpdate == Some(e.now)
                  && r[e.name].state == (if e.reconnect then Connecting else Offline))
            && (e.name in r ==> r[e.name].profileName == (if e.Register? then e.name else m[e.name].profileName))
  {
  }

  /** The map after the callbacks `evs`, in order, starting empty. */
  function Replay(evs: seq<StatusEvent>): Registry {
    if evs == [] then map[] else Apply(Replay(evs[..|evs| - 1]), evs[|evs| - 1])
  }

  lemma ReplaySnoc(evs: seq<StatusEvent>, e: StatusEvent)
    ensures Replay(evs + [e]) == Apply(Replay(evs), e)
  {
    assert (evs + [e])[..|evs|] == evs;
  }

  /** The names for which `onRegister` was called. */
  function RegisteredNames(evs: seq<StatusEvent>): set<string> {
    set i | 0 <= i < |evs| && evs[i].Register? :: evs[i].name
  }

  /** Only `onRegister` adds a key and nothing removes one. */
  lemma {:induction false} ReplayKeys(evs: seq<StatusEvent>)
    ensures Replay(evs).Keys == RegisteredNames(evs)
  {
    if evs != [] {
      var p := evs[..|evs| - 1];
      ReplayKeys(p);
      var e := evs[|evs| - 1];
      assert forall i :: 0 <= i < |p| ==> evs[i] == p[i];
      if e.Register? {
        assert RegisteredNames(evs) == RegisteredNames(p) + {e.name};
      } else {
        assert RegisteredNames(evs) == RegisteredNames(p);
      }
    }
  }

  /** Every entry is filed under its own profile name and is coherent. */
  lemma {:induction false} ReplayEntries(evs: seq<StatusEvent>)
    ensures forall q :: q in Replay(evs) ==> Replay(evs)[q].profileName == q && Coherent(Replay(evs)[q])
  {
    if evs != [] {
      ReplayEntries(evs[..|evs| - 1]);
    }
  }

  /** Extending the callbacks never removes an entry. */
  lemma {:induction false} ReplayMonotone(evs: seq<StatusEvent>, more: seq<StatusEvent>)
    ensures Replay(evs).Keys <= Replay(evs + more).Keys
  {
    ReplayKeys(evs);
    ReplayKeys(evs + more);
    forall q | q in RegisteredNames(evs)
      ensures q in RegisteredNames(evs + more)
    {
      var i :| 0 <= i < |evs| && evs[i].Register? && evs[i].name == q;
      assert (evs + more)[i] == evs[i];
    }
  }

  /** Callbacks for other names leave an entry as it was. */
  lemma {:induction false} OthersUntouched(evs: seq<StatusEvent>, more: seq<StatusEvent>, q: string)
    requires q in Replay(evs)
    requires forall i :: 0 <= i < |more| ==> more[i].name != q
    ensures q in Replay(evs + more) && Replay(evs + more)[q] == Replay(evs)[q]
  {
    if more != [] {
      var m := more[..|more| - 1];
      OthersUntouched(evs, m, q);
      assert (evs + more)[..|evs + more| - 1] == evs + m;
      assert (evs + more)[|evs + more| - 1] == more[|more| - 1];
    } else {
      assert evs + more == evs;
    }
  }
}
