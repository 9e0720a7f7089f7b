# Ulauncher extension transport: socket server, client and extension server

This project models the connection-lifecycle core of Ulauncher's extension transport:

- `UnixStream.Server` accepts extension connections on a Unix-domain socket. It keeps a registry `clients` from each framer's identity to that framer, and re-publishes the framers' events as signals.
- `UnixStream.Client` dials the socket from an extension process. It owns the single framer of that connection.
- `ExtensionServer.ExtensionServer` starts and stops the one Server. It keeps the table of extension controllers, in insertion order, and looks controllers up by id or by keyword.

A framer is the per-connection wrapper that turns bytes into messages. Here it is an opaque token whose `ident` stands for Python's `id(framer)`. Signal emission becomes an append-only ghost trace:

- `Server.events` holds `client_connected`, `client_disconnected` and `message_received`.
- `Client.events` holds `message_received` and `closed`.
- `Client.calls` records the calls the Client makes into its framer (`send`, `close`).

Python attributes that only come into being when a method first assigns them are `Attr` values. Reading one while it is `Missing` is an AttributeError. This applies to `Server.clients`, created by `set_socket_path`, and to `Client.framer`, created by a successful connect.

The central invariant is `UnixStream.Server.Valid`. It says the registry keys are exactly the identities the current session left connected, `Live(events[epoch..])`, that every entry is keyed by its own framer's identity, and that the session trace is well formed: no identity connects twice while live, and only a live one disconnects. `LiveIff` shows that `Live` is exactly "connected and not yet disconnected". `LiveSize` shows that the registry size is the number of connections less the number of disconnections. `NoDuplicateConnect` shows that an identity is never registered twice at once.

The guard `if self.socket_path:` is a truthiness test. An empty path therefore does not arm it, and a later `set_socket_path` re-creates `clients` empty. `epoch` marks the point in the trace where `clients` was last created, and the invariant holds for the events from there on.

Some facts about the code that the model keeps:

- A second configuration of a Server or Client raises InvalidStateError.
- The Server has no `stop`, `send_to` or `broadcast`.
- `Client.close` does not clear the framer or emit `closed`. Only `handle_close` does that, and nothing subscribes `handle_close` to the framer's `closed` signal.

## Model

| member | source | states |
|---|---|---|
| `UnixStream.LiveIff` | ulauncher/utils/unix_stream.py:58-70 | an identity is live exactly when some `client_connected` for it has no later `client_disconnected` for it (both directions) |
| `UnixStream.LiveSize` | ulauncher/utils/unix_stream.py:58-70 | in a well-formed trace the number of live identities is the number of connections minus the number of disconnections |
| `UnixStream.NoDuplicateConnect` | ulauncher/utils/unix_stream.py:64 | no duplicate identities: two `client_connected` events for one identity always have a `client_disconnected` for it between them |
| `UnixStream.Server.constructor` | ulauncher/utils/unix_stream.py:33-38 | a new server has no socket path, no `clients` attribute and an empty trace |
| `UnixStream.Server.SetSocketPath` | ulauncher/utils/unix_stream.py:40-56 | with a non-empty path already set: InvalidStateError and nothing changes; otherwise the path is recorded, and if the address binds, `clients` is created empty, else a bind error and `clients` stays as it was; no signal either way |
| `UnixStream.Server.HandleIncoming` | ulauncher/utils/unix_stream.py:58-65 | adds exactly the key `ident` mapped to the new framer, leaves every other entry, and then appends `client_connected` with that framer; before configuration, AttributeError and nothing changes; the registry invariant is kept |
| `UnixStream.Server.HandleClose` | ulauncher/utils/unix_stream.py:67-70 | removes exactly the framer's identity, leaves every other entry, then appends `client_disconnected`; an unregistered identity is a KeyError with nothing changed or emitted; before configuration, AttributeError |
| `UnixStream.Server.HandleMessage` | ulauncher/utils/unix_stream.py:72-74 | appends `message_received` with the same framer and object, in arrival order, and leaves the registry and path unchanged |
| `UnixStream.Client.constructor` | ulauncher/utils/unix_stream.py:83-86 | a new client has no socket path and no `framer` attribute |
| `UnixStream.Client.SetSocketPath` | ulauncher/utils/unix_stream.py:88-99 | with a non-empty path already set: InvalidStateError and nothing changes; otherwise the path is recorded, and a failed connect is a RuntimeError that creates no framer, while a successful one creates the framer |
| `UnixStream.Client.Send` | ulauncher/utils/unix_stream.py:101-102 | with a framer, records exactly one `send` of the object to it; with no framer attribute or a `None` framer, AttributeError and nothing changes |
| `UnixStream.Client.HandleMessage` | ulauncher/utils/unix_stream.py:104-106 | appends `message_received` with the same framer and object; the framer is unchanged |
| `UnixStream.Client.HandleClose` | ulauncher/utils/unix_stream.py:108-110 | sets `framer` to `None` and appends `closed` |
| `UnixStream.Client.Close` | ulauncher/utils/unix_stream.py:112-114 | with a `None` framer, a no-op; with a framer, records one `close` call to it and keeps the reference; with no framer attribute, AttributeError |
| `ExtensionServer.Lookup` | ulauncher/api/server/ExtensionServer.py:56-61 | `get_controller` succeeds exactly when the id is a key, returning a stored controller with that id; otherwise KeyError for that id |
| `ExtensionServer.ValuesAreLookups` | ulauncher/api/server/ExtensionServer.py:63-67 | the values `get_controllers` yields are exactly the controllers `get_controller` returns under their own ids |
| `ExtensionServer.Put` | ulauncher/api/server/ExtensionServer.py:36-38 | storing a controller under its id keeps keys unique, adds the id to the keys, appends a new key at the end, and replaces an existing key's value in place |
| `ExtensionServer.PutLookup` | ulauncher/api/server/ExtensionServer.py:36-38 | after storing, the new controller is found under its id and every other id finds what it found before |
| `ExtensionServer.FirstWithKeyword` | ulauncher/api/server/ExtensionServer.py:69-78 | None exactly when no controller's active keywords contain the keyword; otherwise a controller that has the keyword and is the first such in table order |
| `ExtensionServer.ExtensionServer.GetControllerByKeyword` | ulauncher/api/server/ExtensionServer.py:74-78 | the in-order scan with early return yields exactly `FirstWithKeyword` of the table |
| `ExtensionServer.ExtensionServer.constructor` | ulauncher/api/server/ExtensionServer.py:20-23 | a new extension server holds no server, an empty controller table and the given socket path |
| `ExtensionServer.ExtensionServer.Start` | ulauncher/api/server/ExtensionServer.py:25-34 | while a server is held: ServerIsRunningError and nothing changes; otherwise a fresh Server is held and configured with `socket_path`, with an empty registry if its address binds; a failed bind is raised but the new server stays held |
| `ExtensionServer.ExtensionServer.Stop` | ulauncher/api/server/ExtensionServer.py:40-48 | intended behaviour: with no server held, ServerIsNotRunningError and nothing changes; otherwise the server is released, so `IsRunning` is false and a following `Start` succeeds |
| `ExtensionServer.ExtensionServer.HandleMessage` | ulauncher/api/server/ExtensionServer.py:36-38 | a RegisterEvent stores a controller for the sending framer under its extension id; any other event leaves the controller table untouched; the server is unchanged |
| `ExtensionServer.StopAsWrittenNeverStops` | ulauncher/api/server/ExtensionServer.py:44-54 | as written, `stop` raises AttributeError for `ws_server` in every state and never releases the server |
| `ExtensionServer.StopWithIntendedCheckStillFails` | ulauncher/api/server/ExtensionServer.py:47 | even with the running check repaired, `self.server.close()` raises AttributeError and the server stays held |
| `ExtensionServer.IsRunningAsWrittenDisagrees` | ulauncher/api/server/ExtensionServer.py:50-54 | while a server is held, the intended `is_running` is true but the code as written raises instead of answering |

## Findings

| source | as written | input that shows it | evidently intended | confidence | as-written member | corrected member |
|---|---|---|---|---|---|---|
| ulauncher/api/server/ExtensionServer.py:54 | `is_running` returns `bool(self.ws_server)`, an attribute no code assigns | any call, e.g. right after a successful `start`: AttributeError in place of `True` | `bool(self.server)`: running exactly when a server is held | high; not executed | `ExtensionServer.IsRunningAsWritten`, with `ExtensionServer.IsRunningAsWrittenDisagrees` | `ExtensionServer.ExtensionServer.IsRunning`, which `Start` and `Stop` prove true after a start and false after a stop |
| ulauncher/api/server/ExtensionServer.py:47 | `stop` calls `self.server.close()`, but unix_stream's `Server` (ulauncher/utils/unix_stream.py:26-74) defines no `close`; with the line 54 defect, `stop` cannot get past its check at all | `start()` then `stop()`: AttributeError, and `self.server` is never cleared, so a second `start` raises ServerIsRunningError | release the server so that a later `start` succeeds | high; not executed | `ExtensionServer.StopAsWritten`, with `ExtensionServer.StopAsWrittenNeverStops` and `ExtensionServer.StopWithIntendedCheckStillFails` | `ExtensionServer.ExtensionServer.Stop` |

## Left out

- The framing codec (`PickleFramer`, imported from `ulauncher/utils/framer.py`) is not part of this model. Framers are opaque identities, and calls into them are recorded but not interpreted. A framer's own `closed` signal and close-exactly-once behaviour are therefore not modelled.
- Gio socket plumbing is left out: `Gio.SocketService`, `add_address`, `Gio.SocketClient.connect`, and removing a stale socket file with `os.path.exists`/`os.unlink`. Whether an address binds or a connect succeeds is a boolean parameter.
- The `Client.conn` attribute is not modelled.
- The mechanics of GObject signal registration and dispatch are left out. The model does not record the `connect` subscriptions made in `handle_incoming`, in `Client.set_socket_path` or in `start`. The handlers are methods that a caller invokes directly, and each emitted signal is one appended trace entry.
- `UnixStream.Server.HandleIncoming`: requires `ident` to be unregistered. This stands for Python's guarantee that two objects alive at once never share an `id`, and every registered framer is alive because the registry holds it.
- The invariant in `UnixStream.Server.Valid` holds for the events since `clients` was last created. Re-configuring after an empty path drops the registry without emitting `client_disconnected`, and the model keeps that behaviour.
- `ExtensionController` is not part of this model. The model assumes its constructor stores itself as `controllers[extension_id]`. The active keywords its preferences give are a parameter of `HandleMessage`, fixed when the controller registers. The source asks `ctl.preferences.get_active_keywords()` afresh on every `get_controller_by_keyword` scan (ulauncher/api/server/ExtensionServer.py:75), so a later change of an extension's preferences is not modelled.
- `get_controllers` returns a live `dict.values()` view. The model returns the current table as a sequence.
- `ExtensionServer.ExtensionServer.Stop`: does not close the listening service, because the unix_stream Server offers no `close` to model. Only the intended state change, releasing the server, is stated.
- `ExtensionServer.ExtensionServer.GetController` and `GetControllers` are thin readers of the table. Their properties are stated on `Lookup` and `ValuesAreLookups`.
- `ulauncher/api/client/Client.py` is process plumbing and is left out: a blocking main loop, a timer that forces the process to exit after 0.5 s, and exception printing.
- `ulauncher/utils/timer.py` is a thin wrapper around a GLib timeout source and is left out.
- Also left out: the `@singleton` `get_instance`, the `port_finder` import, the `__main__` demo, and all logging.
- `get_socket_path()` reads the environment, so the socket path is a constructor parameter.
