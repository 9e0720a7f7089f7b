/** The Unix-domain socket server and client of ulauncher/utils/unix_stream.py.

    A framer (the connection wrapper that owns one accepted or dialled
    connection) is an opaque token here; its identity stands in for Python's
    `id(framer)`. GObject signal emission is replaced by an append-only ghost
    trace of the events each object emits, and calls made into a framer are
    recorded the same way. */
module UnixStream {
  import opened Wrappers

  /** The exceptions the two classes raise. */
  datatype StreamError =
    | InvalidState                    // InvalidStateError: socket already configured
    | BindFailed                      // the listening address could not be added
    | ConnectFailed                   // RuntimeError: dialling the socket gave no connection
    | AttributeMissing(name: string)  // AttributeError: attribute not yet assigned, or read from None
    | KeyMissing(key: nat)            // KeyError from `dict.pop` without a default

  /** An opaque connection wrapper, known only by its identity. */
  datatype Framer = Framer(ident: nat)

  /** The signals a Server emits. */
  datatype Event<T> =
    | ClientConnected(framer: Framer)
    | ClientDisconnected(framer: Framer)
    | MessageReceived(framer: Framer, obj: T)

  /** The signals a Client emits. */
  datatype ClientEvent<T> = Received(framer: Framer, obj: T) | Closed

  /** The calls a Client makes into its framer. */
  datatype FramerCall<T> = Sent(framer: Framer, obj: T) | CloseRequested(framer: Framer)

  /** The `if self.socket_path:` guard: `None` and the empty string are falsy,
      so neither of them counts as configured. */
  predicate Configured(path: Option<string>) {
    path.Some? && path.value != ""
  }

  /** Every registry entry is keyed by its own framer's identity. */
  ghost predicate Registry(m: map<nat, Framer>) {
    forall k :: k in m ==> m[k].ident == k
  }

  /** The effect of one event on the set of connected identities. */
  ghost function Step<T>(live: set<nat>, e: Event<T>): set<nat> {
    match e
    case ClientConnected(f) => live + {f.ident}
    case ClientDisconnected(f) => live - {f.ident}
    case MessageReceived(_, _) => live
  }

  /** An event may follow a state with these connected identities: a framer
      connects only under an identity not in use, and only a connected one
      disconnects. */
  ghost predicate Permitted<T>(live: set<nat>, e: Event<T>) {
    match e
    case ClientConnected(f) => f.ident !in live
    case ClientDisconnected(f) => f.ident in live
    case MessageReceived(_, _) => true
  }

  /** The identities a trace leaves connected: each `client_connected` adds its
      framer's identity, each `client_disconnected` removes it. */
  ghost function Live<T>(t: seq<Event<T>>): set<nat>
    decreases |t|
  {
    if t == [] then {} else Step(Live(t[..|t| - 1]), t[|t| - 1])
  }

  /** A trace in which every event is permitted where it occurs. */
  ghost predicate WellFormed<T>(t: seq<Event<T>>)
    decreases |t|
  {
    t == [] || (WellFormed(t[..|t| - 1]) && Permitted(Live(t[..|t| - 1]), t[|t| - 1]))
  }

  /** The number of `client_connected` events in a trace. */
  ghost function Connects<T>(t: seq<Event<T>>): nat
    decreases |t|
  {
    if t == [] then 0
    else Connects(t[..|t| - 1]) + (if t[|t| - 1].ClientConnected? then 1 else 0)
  }

  /** The number of `client_disconnected` events in a trace. */
  ghost function Disconnects<T>(t: seq<Event<T>>): nat
    decreases |t|
  {
    if t == [] then 0
    else Disconnects(t[..|t| - 1]) + (if t[|t| - 1].ClientDisconnected? then 1 else 0)
  }

  /** Event `i` connects identity `k`, and no later event disconnects it. */
  ghost predicate OpenAt<T>(t: seq<Event<T>>, i: int, k: nat)
    requires 0 <= i < |t|
  {
    t[i].ClientConnected? && t[i].framer.ident == k &&
    forall j :: i < j < |t| ==> !(t[j].ClientDisconnected? && t[j].framer.ident == k)
  }

  /** Appending one event changes `Live` and `WellFormed` as that event says. */
  lemma LiveAppend<T>(s: seq<Event<T>>, e: Event<T>)
    ensures Live(s + [e]) == Step(Live(s), e)
    ensures WellFormed(s + [e]) <==> WellFormed(s) && Permitted(Live(s), e)
  {
    assert (s + [e])[..|s|] == s;
  }

  /** An identity is live exactly when some `client_connected` for it has not
      been followed by a `client_disconnected` for it. */
  lemma {:induction false} LiveIff<T>(t: seq<Event<T>>, k: nat)
    ensures k in Live(t) <==> exists i :: 0 <= i < |t| && OpenAt(t, i, k)
    decreases |t|
  {
    if t != [] {
      var s, e := t[..|t| - 1], t[|t| - 1];
      LiveIff(s, k);
      var closes := e.ClientDisconnected? && e.framer.ident == k;
      forall i | 0 <= i < |s|
        ensures OpenAt(t, i, k) <==> OpenAt(s, i, k) && !closes
      {
        if OpenAt(s, i, k) && !closes {
          forall j | i < j < |t|
            ensures !(t[j].ClientDisconnected? && t[j].framer.ident == k)
          {
            if j < |s| { assert t[j] == s[j]; }
          }
        }
        if OpenAt(t, i, k) {
          assert !closes by { assert t[|s|] == e; }
          forall j | i < j < |s|
            ensures !(s[j].ClientDisconnected? && s[j].framer.ident == k)
          {
            assert s[j] == t[j];
          }
        }
      }
      if e.ClientConnected? && e.framer.ident == k {
        assert OpenAt(t, |s|, k);
      } else {
        assert !OpenAt(t, |s|, k);
        if exists i :: 0 <= i < |t| && OpenAt(t, i, k) {
          var i :| 0 <= i < |t| && OpenAt(t, i, k);
          assert i < |s| && OpenAt(s, i, k) && !closes;
        }
        if !closes && k in Live(s) {
          var i :| 0 <= i < |s| && OpenAt(s, i, k);
          assert OpenAt(t, i, k);
        }
      }
    }
  }

  /** In a well-formed trace the live identities number the connections less
      the disconnections. */
  lemma {:induction false} LiveSize<T>(t: seq<Event<T>>)
    requires WellFormed(t)
    ensures |Live(t)| + Disconnects(t) == Connects(t)
    decreases |t|
  {
    if t != [] {
      var s := t[..|t| - 1];
      LiveSize(s);
      match t[|t| - 1]
      case ClientConnected(f) =>
        assert |Live(s) + {f.ident}| == |Live(s)| + 1;
      case ClientDisconnected(f) =>
        assert |Live(s) - {f.ident}| == |Live(s)| - 1;
      case MessageReceived(_, _) =>
    }
  }

  /** Every prefix of a well-formed trace is well formed. */
  lemma {:induction false} WellFormedPrefix<T>(t: seq<Event<T>>, n: nat)
    requires WellFormed(t) && n <= |t|
    ensures WellFormed(t[..n])
    decreases |t|
  {
    if n < |t| {
      assert t[..|t| - 1][..n] == t[..n];
      WellFormedPrefix(t[..|t| - 1], n);
    } else {
      assert t[..n] == t;
    }
  }

  /** No duplicate identities: in a well-formed trace, two `client_connected`
      events for one identity always have a `client_disconnected` for it
      between them. */
  lemma NoDuplicateConnect<T>(t: seq<Event<T>>, i: nat, j: nat)
    requires WellFormed(t)
    requires i < j < |t|
    requires t[i].ClientConnected? && t[j].ClientConnected?
    requires t[i].framer.ident == t[j].framer.ident
    ensures exists d :: i < d < j && t[d].ClientDisconnected? && t[d].framer.ident == t[i].framer.ident
  {
    var k := t[i].framer.ident;
    var p := t[..j + 1];
    WellFormedPrefix(t, j + 1);
    assert p[..|p| - 1] == t[..j];
    assert p[|p| - 1] == t[j];
    assert k !in Live(t[..j]);
    LiveIff(t[..j], k);
    assert !OpenAt(t[..j], i, k);
    var d :| i < d < j && t[..j][d].ClientDisconnected? && t[..j][d].framer.ident == k;
    assert t[d] == t[..j][d];
  }

  /** `Server` (unix_stream.py:26-74): listens on one socket path and keeps a
      registry `clients` from framer identity to framer. */
  class Server<T> {
    var socketPath: Option<string>
    /** `self.clients` does not exist until `set_socket_path` succeeds. */
    var clients: Attr<map<nat, Framer>>
    /** The signals emitted so far. */
    ghost var events: seq<Event<T>>
    /** The length of `events` when `clients` was last created. */
    ghost var epoch: nat

    /** The registry holds exactly the identities that the current session
        (the events since `clients` was created) left connected. */
    ghost predicate Valid()
      reads this
    {
      epoch <= |events| &&
      (clients.Present? ==>
        socketPath.Some? &&
        Registry(clients.value) &&
        WellFormed(events[epoch..]) &&
        clients.value.Keys == Live(events[epoch..]))
    }

    constructor ()
      ensures Valid()
      ensures socketPath == None && clients == Missing
      ensures events == [] && epoch == 0
    {
      socketPath := None;
      clients := Missing;
      events := [];
      epoch := 0;
    }

    /** `set_socket_path`: refused once a non-empty path is configured;
        otherwise the path is recorded, the listening address is added
        (`bound` says whether that succeeded) and the registry is created
        empty. */
    method SetSocketPath(path: string, bound: bool) returns (r: Outcome<StreamError>)
      requires Valid()
      modifies this
      ensures Valid()
      ensures Configured(old(socketPath)) ==> r == Fail(InvalidState) && unchanged(this)
      ensures !Configured(old(socketPath)) ==>
        socketPath == Some(path) && events == old(events) &&
        if bound then
          r == Pass && clients == Present(map[]) && events[epoch..] == []
        else
          r == Fail(BindFailed) && clients == old(clients) && epoch == old(epoch)
    {
      if Configured(socketPath) {
        return Fail(InvalidState);
      }
      socketPath := Some(path);
      if !bound {
        return Fail(BindFailed);
      }
      clients := Present(map[]);
      epoch := |events|;
      r := Pass;
    }

    /** `handle_incoming`: wraps a new connection in a framer whose identity is
        `ident`, registers it and emits `client_connected`. Two live objects
        never share an identity, so `ident` is not yet a key. */
    method HandleIncoming(ident: nat) returns (r: Outcome<StreamError>)
      requires Valid()
      requires clients.Present? ==> ident !in clients.value
      modifies this
      ensures Valid()
      ensures old(clients).Missing? ==> r == Fail(AttributeMissing("clients")) && unchanged(this)
      ensures old(clients).Present? ==>
        r == Pass &&
        clients == Present(old(clients).value[ident := Framer(ident)]) &&
        events == old(events) + [ClientConnected(Framer(ident))] &&
        socketPath == old(socketPath) && epoch == old(epoch)
    {
      if clients.Missing? {
        return Fail(AttributeMissing("clients"));
      }
      var framer := Framer(ident);
      ghost var session := events[epoch..];
      var m := clients.value;
      LiveAppend(session, ClientConnected(framer));
      assert m[ident := framer].Keys == Live(session) + {ident};
      clients := Present(m[ident := framer]);
      events := events + [ClientConnected(framer)];
      assert events[epoch..] == session + [ClientConnected(framer)];
      r := Pass;
    }

    /** `handle_close`: removes the framer's identity from the registry and
        emits `client_disconnected`; an identity that is not registered makes
        `pop` raise KeyError before anything is emitted. */
    method HandleClose(f: Framer) returns (r: Outcome<StreamError>)
      requires Valid()
      modifies this
      ensures Valid()
      ensures old(clients).Missing? ==> r == Fail(AttributeMissing("clients")) && unchanged(this)
      ensures old(clients).Present? && f.ident !in old(clients).value ==>
        r == Fail(KeyMissing(f.ident)) && unchanged(this)
      ensures old(clients).Present? && f.ident in old(clients).value ==>
        r == Pass &&
        clients == Present(old(clients).value - {f.ident}) &&
        events == old(events) + [ClientDisconnected(f)] &&
        socketPath == old(socketPath) && epoch == old(epoch)
    {
      if clients.Missing? {
        return Fail(AttributeMissing("clients"));
      }
      if f.ident !in clients.value {
        return Fail(KeyMissing(f.ident));
      }
      ghost var session := events[epoch..];
      var m := clients.value;
      LiveAppend(session, ClientDisconnected(f));
      assert (m - {f.ident}).Keys == Live(session) - {f.ident};
      clients := Present(m - {f.ident});
      events := events + [ClientDisconnected(f)];
      assert events[epoch..] == session + [ClientDisconnected(f)];
      r := Pass;
    }

    /** `handle_message`: re-emits a parsed message as `message_received`,
        tagged with its framer; the registry is not consulted or changed. */
    method HandleMessage(f: Framer, obj: T)
      requires Valid()
      modifies this
      ensures Valid()
      ensures events == old(events) + [MessageReceived(f, obj)]
      ensures clients == old(clients) && socketPath == old(socketPath) && epoch == old(epoch)
    {
      assert (events + [MessageReceived(f, obj)])[epoch..] == events[epoch..] + [MessageReceived(f, obj)];
      LiveAppend(events[epoch..], MessageReceived(f, obj));
      events := events + [MessageReceived(f, obj)];
    }
  }

  /** `Client` (unix_stream.py:77-114): dials one socket path and owns the one
      framer of that connection. */
  class Client<T> {
    var socketPath: Option<string>
    /** `self.framer` does not exist until a connection succeeds and is set to
        `None` by `handle_close`. */
    var framer: Attr<Option<Framer>>
    /** The signals emitted so far. */
    ghost var events: seq<ClientEvent<T>>
    /** The calls made into framers so far. */
    ghost var calls: seq<FramerCall<T>>

    constructor ()
      ensures socketPath == None && framer == Missing
      ensures events == [] && calls == []
    {
      socketPath := None;
      framer := Missing;
      events := [];
      calls := [];
    }

    /** `set_socket_path`: refused once a non-empty path is configured;
        otherwise the path is recorded and the socket is dialled (`connected`
        says whether that gave a connection). A failed dial raises and creates
        no framer; a successful one creates the framer with identity `ident`. */
    method SetSocketPath(path: string, connected: bool, ident: nat) returns (r: Outcome<StreamError>)
      modifies this
      ensures Configured(old(socketPath)) ==> r == Fail(InvalidState) && unchanged(this)
      ensures !Configured(old(socketPath)) ==>
        socketPath == Some(path) && events == old(events) && calls == old(calls) &&
        if connected then
          r == Pass && framer == Present(Some(Framer(ident)))
        else
          r == Fail(ConnectFailed) && framer == old(framer)
    {
      if Configured(socketPath) {
        return Fail(InvalidState);
      }
      socketPath := Some(path);
      if !connected {
        return Fail(ConnectFailed);
      }
      framer := Present(Some(Framer(ident)));
      r := Pass;
    }

    /** `send`: hands the object to the framer; without a framer the
        attribute lookup raises AttributeError. */
    method Send(obj: T) returns (r: Outcome<StreamError>)
      modifies this
      ensures old(framer).Missing? ==> r == Fail(AttributeMissing("framer")) && unchanged(this)
      ensures old(framer) == Present(None) ==> r == Fail(AttributeMissing("send")) && unchanged(this)
      ensures old(framer).Present? && old(framer).value.Some? ==>
        r == Pass && calls == old(calls) + [Sent(old(framer).value.value, obj)] &&
        framer == old(framer) && socketPath == old(socketPath) && events == old(events)
    {
      match framer
      case Missing =>
        return Fail(AttributeMissing("framer"));
      case Present(None) =>
        return Fail(AttributeMissing("send"));
      case Present(Some(f)) =>
        calls := calls + [Sent(f, obj)];
        return Pass;
    }

    /** `handle_message`: re-emits a parsed message as `message_received`. */
    method HandleMessage(f: Framer, obj: T)
      modifies this
      ensures events == old(events) + [Received(f, obj)]
      ensures framer == old(framer) && socketPath == old(socketPath) && calls == old(calls)
    {
      events := events + [Received(f, obj)];
    }

    /** `handle_close`: drops the framer and emits `closed`. */
    method HandleClose(f: Framer)
      modifies this
      ensures framer == Present(None)
      ensures events == old(events) + [Closed]
      ensures socketPath == old(socketPath) && calls == old(calls)
    {
      framer := Present(None);
      events := events + [Closed];
    }

    /** `close`: asks the framer, if there is one, to close; with `framer`
        set to `None` it does nothing. The framer reference is kept. */
    method Close() returns (r: Outcome<StreamError>)
      modifies this
      ensures old(framer).Missing? ==> r == Fail(AttributeMissing("framer")) && unchanged(this)
      ensures old(framer) == Present(None) ==> r == Pass && unchanged(this)
      ensures old(framer).Present? && old(framer).value.Some? ==>
        r == Pass && calls == old(calls) + [CloseRequested(old(framer).value.value)] &&
        framer == old(framer) && socketPath == old(socketPath) && events == old(events)
    {
      match framer
      case Missing =>
        return Fail(AttributeMissing("framer"));
      case Present(None) =>
        return Pass;
      case Present(Some(f)) =>
        calls := calls + [CloseRequested(f)];
        return Pass;
    }
  }
}
