/** The extension server of ulauncher/api/server/ExtensionServer.py: it owns
    at most one unix_stream Server and a table of extension controllers keyed
    by extension id, kept in insertion order as a Python dict keeps it. */
module ExtensionServer {
  import opened Wrappers
  import UnixStream

  /** The exceptions the extension server raises or lets through. */
  datatype ServerError =
    | ServerIsRunning                        // ServerIsRunningError
    | ServerIsNotRunning                     // ServerIsNotRunningError
    | UnknownExtension(extensionId: string)  // KeyError from `self.controllers[extension_id]`
    | Stream(cause: UnixStream.StreamError)  // raised by the unix_stream Server
    | AttributeMissing(name: string)         // AttributeError

  /** The messages extensions send; only registration is acted upon. */
  datatype ExtensionEvent = RegisterEvent(extensionId: string) | OtherEvent(kind: string)

  /** An extension controller: the extension it serves, the framer of that
      extension's connection, and the keywords its preferences make active. */
  datatype Controller = Controller(extensionId: string, framer: UnixStream.Framer, activeKeywords: set<string>)

  /** The keys of the controller table. */
  function Ids(cs: seq<Controller>): set<string> {
    set c | c in cs :: c.extensionId
  }

  /** Dict keys are unique. */
  ghost predicate DistinctIds(cs: seq<Controller>) {
    forall i, j :: 0 <= i < j < |cs| ==> cs[i].extensionId != cs[j].extensionId
  }

  /** `self.controllers[extension_id]`: the controller stored under `id`, or
      KeyError when there is none. */
  function Lookup(cs: seq<Controller>, id: string): (r: Result<Controller, ServerError>)
    ensures r.Success? <==> id in Ids(cs)
    ensures r.Success? ==> r.value in cs && r.value.extensionId == id
    ensures r.Failure? ==> r.error == UnknownExtension(id)
  {
    if cs == [] then Failure(UnknownExtension(id))
    else if cs[0].extensionId == id then Success(cs[0])
    else
      assert Ids(cs) == {cs[0].extensionId} + Ids(cs[1..]);
      Lookup(cs[1..], id)
  }

  /** `get_controllers` yields exactly the controllers that `get_controller`
      finds under their own ids. */
  lemma ValuesAreLookups(cs: seq<Controller>)
    requires DistinctIds(cs)
    ensures forall c :: c in cs <==> Lookup(cs, c.extensionId) == Success(c)
  {
  }

  /** `controllers[c.extensionId] = c` with Python dict semantics: an existing
      key keeps its position and gets the new value, a new key goes last. */
  function Put(cs: seq<Controller>, c: Controller): (r: seq<Controller>)
    requires DistinctIds(cs)
    ensures DistinctIds(r)
    ensures Ids(r) == Ids(cs) + {c.extensionId}
    ensures c.extensionId !in Ids(cs) ==> r == cs + [c]
    ensures c.extensionId in Ids(cs) ==>
      |r| == |cs| &&
      forall i :: 0 <= i < |cs| ==> r[i] == if cs[i].extensionId == c.extensionId then c else cs[i]
  {
    if cs == [] then [c]
    else
      assert Ids(cs) == {cs[0].extensionId} + Ids(cs[1..]);
      if cs[0].extensionId == c.extensionId then
        assert c.extensionId !in Ids(cs[1..]);
        [c] + cs[1..]
      else
        var rest := Put(cs[1..], c);
        assert Ids([cs[0]] + rest) == {cs[0].extensionId} + Ids(rest);
        [cs[0]] + rest
  }

  /** After `Put`, the new controller is found under its id and every other
      id finds what it found before. */
  lemma PutLookup(cs: seq<Controller>, c: Controller, id: string)
    requires DistinctIds(cs)
    ensures Lookup(Put(cs, c), id) == if id == c.extensionId then Success(c) else Lookup(cs, id)
  {
  }

  /** Controller `i` is the first, in table order, whose active keywords
      contain `kw`. */
  ghost predicate FirstMatchAt(cs: seq<Controller>, kw: string, i: int) {
    0 <= i < |cs| && kw in cs[i].activeKeywords &&
    forall j :: 0 <= j < i ==> kw !in cs[j].activeKeywords
  }

  /** `get_controller_by_keyword`: the first controller, in table order, whose
      active keywords contain `kw`, or None when no controller has it. */
  function FirstWithKeyword(cs: seq<Controller>, kw: string): (r: Option<Controller>)
    ensures r.None? <==> forall i :: 0 <= i < |cs| ==> kw !in cs[i].activeKeywords
    ensures r.Some? ==> exists i :: FirstMatchAt(cs, kw, i) && cs[i] == r.value
  {
    if cs == [] then None
    else if kw in cs[0].activeKeywords then
      assert FirstMatchAt(cs, kw, 0);
      Some(cs[0])
    else
      var r := FirstWithKeyword(cs[1..], kw);
      assert forall i :: 1 <= i < |cs| ==> cs[i] == cs[1..][i - 1];
      assert r.Some? ==> exists i :: FirstMatchAt(cs, kw, i) && cs[i] == r.value by {
        if r.Some? {
          var i :| FirstMatchAt(cs[1..], kw, i) && cs[1..][i] == r.value;
          assert FirstMatchAt(cs, kw, i + 1);
        }
      }
      r
  }

  /** `is_running` as written: it returns `bool(self.ws_server)`, but no code
      ever assigns `ws_server` (the constructor assigns `server`,
      `socket_path` and `controllers`), so the attribute lookup raises
      AttributeError whatever state the server is in. */
  function IsRunningAsWritten(): Result<bool, ServerError> {
    Failure(AttributeMissing("ws_server"))
  }

  /** What `stop` returns and whether a server is still held afterwards. */
  datatype StopOutcome = StopOutcome(result: Outcome<ServerError>, serverPresent: bool)

  /** `stop` as written, given the outcome of its `is_running` check: an error
      from the check propagates, a false answer raises ServerIsNotRunningError,
      and a true answer reaches `self.server.close()`, which raises
      AttributeError because unix_stream's Server defines no `close`. In no
      case is `self.server` cleared. */
  function StopAsWritten(check: Result<bool, ServerError>, serverPresent: bool): StopOutcome {
    match check
    case Failure(e) => StopOutcome(Fail(e), serverPresent)
    case Success(false) => StopOutcome(Fail(ServerIsNotRunning), serverPresent)
    case Success(true) => StopOutcome(Fail(AttributeMissing("close")), serverPresent)
  }

  /** As written, `stop` never succeeds and never releases the server. */
  lemma StopAsWrittenNeverStops(serverPresent: bool)
    ensures StopAsWritten(IsRunningAsWritten(), serverPresent) ==
      StopOutcome(Fail(AttributeMissing("ws_server")), serverPresent)
  {
  }

  /** Even with the intended check, a running server is not stopped: the
      `close` call fails and the server stays. */
  lemma StopWithIntendedCheckStillFails()
    ensures StopAsWritten(Success(true), true) == StopOutcome(Fail(AttributeMissing("close")), true)
  {
  }

  /** `ExtensionServer` (ExtensionServer.py:13-78). */
  class ExtensionServer {
    /** `self.server`: the unix_stream Server while running, else null. */
    var server: UnixStream.Server?<ExtensionEvent>
    /** `self.socket_path`, resolved once when the object is built. */
    const socketPath: string
    /** `self.controllers`, in insertion order. */
    var controllers: seq<Controller>

    ghost predicate Valid()
      reads this
    {
      DistinctIds(controllers)
    }

    constructor (socketPath: string)
      ensures Valid()
      ensures server == null && this.socketPath == socketPath && controllers == []
    {
      server := null;
      this.socketPath := socketPath;
      controllers := [];
    }

    /** The intended `is_running`: a server is held. */
    predicate IsRunning()
      reads this
    {
      server != null
    }

    /** `start`: refused while a server is held; otherwise a new Server is
        stored and configured with `socketPath` (`bound` says whether its
        listening address could be added). The new server is stored before it
        is configured, so a failed bind still leaves it held. */
    method Start(bound: bool) returns (r: Outcome<ServerError>)
      requires Valid()
      modifies this
      ensures Valid() && controllers == old(controllers)
      ensures old(server) != null ==> r == Fail(ServerIsRunning) && unchanged(this)
      ensures old(server) == null ==>
        IsRunning() && fresh(server) && server.Valid() &&
        server.socketPath == Some(socketPath) && server.events == [] &&
        if bound then
          r == Pass && server.clients == Present(map[])
        else
          r == Fail(Stream(UnixStream.BindFailed)) && server.clients == Missing
    {
      if server != null {
        return Fail(ServerIsRunning);
      }
      var s := new UnixStream.Server<ExtensionEvent>();
      server := s;
      var out := s.SetSocketPath(socketPath, bound);
      match out
      case Pass =>
        r := Pass;
      case Fail(e) =>
        r := Fail(Stream(e));
    }

    /** `stop` with its evident intent: refused when no server is held;
        otherwise the server is released, so a following `start` succeeds. */
    method Stop() returns (r: Outcome<ServerError>)
      requires Valid()
      modifies this
      ensures Valid() && controllers == old(controllers)
      ensures old(server) == null ==> r == Fail(ServerIsNotRunning) && unchanged(this)
      ensures old(server) != null ==> r == Pass && !IsRunning()
    {
      if !IsRunning() {
        return Fail(ServerIsNotRunning);
      }
      server := null;
      r := Pass;
    }

    /** `handle_message`: a RegisterEvent builds a controller for the sending
        framer, which stores itself under its extension id; any other event is
        ignored. */
    method HandleMessage(framer: UnixStream.Framer, event: ExtensionEvent, keywords: set<string>)
      requires Valid()
      modifies this
      ensures Valid() && server == old(server)
      ensures event.RegisterEvent? ==>
        controllers == Put(old(controllers), Controller(event.extensionId, framer, keywords))
      ensures event.OtherEvent? ==> controllers == old(controllers)
    {
      if event.RegisterEvent? {
        controllers := Put(controllers, Controller(event.extensionId, framer, keywords));
      }
    }

    /** `get_controller`. */
    function GetController(id: string): Result<Controller, ServerError>
      reads this
    {
      Lookup(controllers, id)
    }

    /** `get_controllers`. */
    function GetControllers(): seq<Controller>
      reads this
    {
      controllers
    }

    /** `get_controller_by_keyword`: scans the table in order and returns the
        first controller whose active keywords contain `kw`. */
    method GetControllerByKeyword(kw: string) returns (r: Option<Controller>)
      ensures r == FirstWithKeyword(controllers, kw)
    {
      var i := 0;
      while i < |controllers|
        invariant 0 <= i <= |controllers|
        invariant FirstWithKeyword(controllers[i..], kw) == FirstWithKeyword(controllers, kw)
      {
        if kw in controllers[i].activeKeywords {
          return Some(controllers[i]);
        }
        assert controllers[i..][1..] == controllers[i + 1..];
        i := i + 1;
      }
      return None;
    }
  }

  /** The defect at `is_running`: while a server is held, the intended answer
      is true but the code as written raises instead of answering. */
  lemma IsRunningAsWrittenDisagrees(es: ExtensionServer)
    requires es.server != null
    ensures es.IsRunning() && IsRunningAsWritten() != Success(true)
  {
  }
}
