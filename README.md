# Anonymous chat room: session state machine

A Dafny model of the chat core of `app.js`: the socket.io connection
handler of a single-room chat server. The server keeps two pieces of state,
`activeUsers` (connection id to username) and `messages` (the last 100 chat
messages), and reacts to four socket events:

- `join-chat` records the username under the connection id and tells the
  other connections, sends the joiner the stored history, then sends everyone
  the number of joined connections.
- `new-message` is dropped for a connection that has not joined. Otherwise
  the message is stamped with the sender's stored username, stored (push,
  then shift the oldest when over 100) and sent to every connection.
- `typing` is relayed to every other connection, if the sender has joined.
- `disconnect`, for a joined connection, tells the others, removes the entry
  and sends everyone the new count.

Files:

- `history.dfy` (module `History`): the bounded history. `Push` is one
  store step. `Recent` is "the last 100 of everything stored". `Replay` is a
  run of stores.
- `session.dfy` (module `Session`): one pure function per event, from the
  state before to the state after plus the emitted events. Each emitted event
  has an audience: `Only(id)` for `socket.emit`, `AllExcept(id)` for
  `socket.broadcast.emit`, `All` for `io.emit`. `Inbox` gives what one
  connection receives.
- `trace.dfy` (module `Trace`): runs of events handled one at a time, and
  what holds over every run.
- `app.dfy` (module `App`): class `ChatServer`, whose fields are the two
  pieces of state. Its methods update them in place as the handlers do, and
  each is proved equal to the session function for its event. A ghost field
  `accepted` records every stored message. The class invariant says the
  history is always the last 100 of them.

Facts about `app.js` that the model keeps:

- The code has one global room, with no room registry, no per-room history
  and no reconnect timer.
- `join-chat` emits `user-joined` to the others first, then
  `previous-messages` to the joiner, then `user-count`.
- A repeated join from the same connection overwrites the username. It
  announces the join again, and the count does not change.
- Message ids come from `Date.now()`, which can repeat, so they are not
  claimed to be unique or increasing.

## Model

| member | source | states |
|---|---|---|
| History.Push | app.js:62-66 | one store grows the history by one below capacity and keeps its length at capacity; the new message is last; the result is a suffix of the old history plus the message; it never goes over 100 |
| History.Recent | app.js:62-66 | the last min(n, 100) of n stored messages, a suffix of them |
| History.PushKeepsRecent | app.js:62-66 | storing onto the last 100 of a sequence gives the last 100 of that sequence extended by the message (FIFO eviction) |
| History.Replay | app.js:62-66 | any run of stores from a history within capacity stays within capacity |
| History.ReplayIsRecent | app.js:62-66 | after any run of stores the history equals the last 100 messages stored, in arrival order |
| History.OverflowDropsFirst | app.js:62-66 | after 101 messages the first is evicted, the second is the oldest kept and the 101st is last |
| Session.Inbox | app.js:38-97 | a connection receives at most what was emitted, and nothing if no emission's audience includes it |
| Session.InboxSound | app.js:38-97 | every event a connection receives was emitted to an audience that includes that connection |
| Session.InboxAppend | app.js:38-97 | what a connection receives from two batches of emissions is what it receives from each, in order |
| Session.OnJoinChat | app.js:31-48 | the id now maps to the new username, other entries unchanged, size grows by one unless the id was already joined (last write wins); history unchanged; emits join notice to others, history snapshot to joiner, new size to all, in that order |
| Session.OnNewMessage | app.js:51-71 | from an unjoined connection: no change, no emission; otherwise users unchanged, the message with the stored username is stored, history stays within 100, and it is emitted to all |
| Session.OnTyping | app.js:74-82 | never changes state; emits nothing for an unjoined sender, else one typing notice with the stored username to all but the sender |
| Session.OnDisconnect | app.js:85-100 | unjoined: no change, no emission; joined: exactly that id removed, others and history unchanged, size down by one; emits leave notice to others, then the new size to all |
| Session.JoinDeliveries | app.js:38-47 | the joiner receives the history as it was and then the new count; every other connection receives the join notice and then the new count |
| Session.MessageDeliveries | app.js:52-69 | every connection, the sender included, receives an accepted message; a message from an unjoined connection reaches no one |
| Session.TypingDeliveries | app.js:74-82 | a typing notice never reaches its sender, and reaches every other connection exactly when the sender has joined |
| Session.DisconnectDeliveries | app.js:86-97 | every other connection receives the leave notice and then the new count if the connection had joined, else nothing; the departing connection is never sent the leave notice |
| Session.DisconnectIdempotent | app.js:86-87 | a second disconnect of the same connection changes nothing and emits nothing |
| Session.JoinThenDisconnect | app.js:35-94 | joining then disconnecting leaves the other entries and the history as they were |
| Trace.Exec | app.js:27-101 | a run from a state within capacity ends within capacity |
| Trace.Broadcasts | app.js:69 | holds a message exactly when some emission in the batch is a 'message' event carrying it |
| Trace.Counts | app.js:47-97 | holds a number exactly when some emission in the batch is a 'user-count' event carrying it |
| Trace.StepHistory | app.js:51-71 | after any one event the history is the last 100 of the old history followed by what the event broadcast |
| Trace.HistoryIsRecentBroadcasts | app.js:62-69 | over any run, the history is the last 100 of the old history followed by every message broadcast, in broadcast order |
| Trace.HistoryFromStart | app.js:18-69 | from a fresh server, the history is always the last 100 messages broadcast |
| Trace.StepCount | app.js:31-100 | an event that announces no count leaves the joined set alone; one that does announces last the number of joined connections after it |
| Trace.LastCountIsSize | app.js:47-97 | over any run, the last count announced equals the number of joined connections at the end; a run announcing no count changes no entry |
| App.ChatServer.constructor | app.js:18-19 | the server starts with no users and an empty history |
| App.ChatServer.JoinChat | app.js:31-48 | in-place set of the entry; new state and emissions equal `Session.OnJoinChat`; the history invariant is kept |
| App.ChatServer.NewMessage | app.js:51-71 | in-place push and single shift; new state and emissions equal `Session.OnNewMessage`; the accepted message is appended to the record of all stored messages and the history stays their last 100 |
| App.ChatServer.Typing | app.js:74-82 | reads only; emissions equal `Session.OnTyping` |
| App.ChatServer.Disconnect | app.js:85-100 | in-place delete of the entry; new state and emissions equal `Session.OnDisconnect`; the history invariant is kept |

## Left out

- Express setup, the Handlebars view engine, static files, the `/` route and
  `server.listen` (app.js:1-15, 22-24, 103-106): HTTP plumbing outside the
  chat logic.
- `console.log` calls (app.js:28, 99, 105): output only.
- The socket.io transport. Audiences are abstract (`Only`, `AllExcept`,
  `All`). Which sockets are connected at emission time is not modelled. So
  `Session.Inbox` for the departing connection lists the final `user-count`,
  though in practice that socket has already gone.
- Clock readings (`toLocaleTimeString()`, `Date.now()`) are parameters of
  each event. Message ids are not claimed unique or increasing.
- Payload fields that are not strings or booleans in the client's event
  (`data.username`, `data.message`, `data.isTyping` of another JavaScript
  type): the model takes them as strings and a boolean.
- Session.OnJoinChat: does not model an absent payload. When `data` is
  `undefined` or `null`, `const { username } = data` throws at app.js:32,
  before the `set` at app.js:35, so no state changes and nothing is emitted.
- Session.OnNewMessage: does not model an absent payload. For a joined
  sender, `data.message` throws at app.js:56, before the `push` at
  app.js:62, so no state changes and nothing is emitted.
- Session.OnTyping: does not model an absent payload. For a joined sender,
  `data.isTyping` throws at app.js:79, before the emit at app.js:77, so
  nothing is emitted.
- The crash that follows an absent payload. The exception in the three
  handlers above is uncaught (app.js has no `try`/`catch` and no
  `uncaughtException` handler), so the Node process exits, every connection
  drops and `activeUsers` and `messages` are lost. The model has no crash:
  its runs are those in which every payload is present.
- Concurrency: Node runs each handler to completion on one thread, so one
  event at a time is faithful.
- Rooms, room deletion and the reconnect grace timer: they are not in this
  code.
