/** The chat session state machine of the socket.io connection handler
    (app.js:27-101), one pure function per inbound event. Each takes the
    server state before the event and gives the state after it together with
    the outbound events, in emission order, each with its audience. */
module Session {
  import opened History

  /** The transport's connection id (`socket.id`). */
  type ConnId = string

  /** Who an outbound event goes to: `socket.emit` reaches only the
      connection itself, `socket.broadcast.emit` every connection except it,
      `io.emit` every connection. */
  datatype Audience = Only(id: ConnId) | AllExcept(id: ConnId) | All

  /** Whether connection `c` is in the audience `a`. */
  predicate Receives(a: Audience, c: ConnId)
  {
    match a
    case Only(id) => c == id
    case AllExcept(id) => c != id
    case All => true
  }

  /** The outbound events and their payloads. */
  datatype Event =
    | UserJoined(message: string, timestamp: string)   // 'user-joined'
    | PreviousMessages(history: seq<Message>)          // 'previous-messages'
    | UserCount(count: nat)                            // 'user-count'
    | ChatMessage(data: Message)                       // 'message'
    | UserTyping(username: string, isTyping: bool)     // 'user-typing'
    | UserLeft(message: string, timestamp: string)     // 'user-left'

  datatype Outbound = Outbound(event: Event, to: Audience)

  /** The module-level state: `activeUsers` maps each joined connection to
      its username, `messages` is the bounded history. */
  datatype State = State(activeUsers: map<ConnId, string>, messages: seq<Message>)

  /** The state when the server starts. */
  const Initial: State := State(map[], [])

  /** The notice text sent when `username` joins. */
  function JoinedText(username: string): string
  {
    username + " joined the chat"
  }

  /** The notice text sent when `username` leaves. */
  function LeftText(username: string): string
  {
    username + " left the chat"
  }

  /** The events connection `c` receives from `out`, in emission order. */
  function Inbox(out: seq<Outbound>, c: ConnId): (r: seq<Event>)
    ensures |r| <= |out|
    ensures (forall k :: 0 <= k < |out| ==> !Receives(out[k].to, c)) ==> r == []
  {
    if out == [] then []
    else (if Receives(out[0].to, c) then [out[0].event] else []) + Inbox(out[1..], c)
  }

  /** Every event a connection receives was emitted to an audience that
      includes it. */
  lemma {:induction false} InboxSound(out: seq<Outbound>, c: ConnId)
    ensures forall e :: e in Inbox(out, c) ==>
      exists k :: 0 <= k < |out| && Receives(out[k].to, c) && out[k].event == e
    decreases |out|
  {
    if out != [] {
      InboxSound(out[1..], c);
      forall e | e in Inbox(out, c)
        ensures exists k :: 0 <= k < |out| && Receives(out[k].to, c) && out[k].event == e
      {
        if Receives(out[0].to, c) && e == out[0].event {
          assert 0 < |out| && Receives(out[0].to, c) && out[0].event == e;
        } else {
          assert e in Inbox(out[1..], c);
          var j :| 0 <= j < |out[1..]| && Receives(out[1..][j].to, c) && out[1..][j].event == e;
          assert out[j + 1] == out[1..][j];
        }
      }
    }
  }

  /** What a connection receives from two batches is what it receives from
      the first followed by what it receives from the second. */
  lemma {:induction false} InboxAppend(a: seq<Outbound>, b: seq<Outbound>, c: ConnId)
    ensures Inbox(a + b, c) == Inbox(a, c) + Inbox(b, c)
    decreases |a|
  {
    if a == [] {
      assert a + b == b;
    } else {
      assert (a + b)[1..] == a[1..] + b;
      InboxAppend(a[1..], b, c);
    }
  }

  /** 'join-chat' (app.js:31-48): records the username under the connection
      id (overwriting an earlier one for the same id), tells everyone else,
      sends the joiner the history as it stands, and sends everyone the new
      number of joined connections. */
  function OnJoinChat(s: State, id: ConnId, username: string, timestamp: string): (r: (State, seq<Outbound>))
    ensures r.0.activeUsers.Keys == s.activeUsers.Keys + {id}
    ensures r.0.activeUsers[id] == username
    ensures forall c :: c in s.activeUsers && c != id ==> r.0.activeUsers[c] == s.activeUsers[c]
    ensures |r.0.activeUsers| == if id in s.activeUsers then |s.activeUsers| else |s.activeUsers| + 1
    ensures r.0.messages == s.messages
    ensures |r.1| == 3
    ensures r.1[0] == Outbound(UserJoined(JoinedText(username), timestamp), AllExcept(id))
    ensures r.1[1] == Outbound(PreviousMessages(s.messages), Only(id))
    ensures r.1[2] == Outbound(UserCount(|r.0.activeUsers|), All)
  {
    var users := s.activeUsers[id := username];
    (State(users, s.messages),
     [Outbound(UserJoined(JoinedText(username), timestamp), AllExcept(id)),
      Outbound(PreviousMessages(s.messages), Only(id)),
      Outbound(UserCount(|users|), All)])
  }

  /** 'new-message' (app.js:51-71): ignored unless the sender has joined;
      otherwise the message is stamped with the sender's stored username,
      stored in the bounded history and sent to every connection, the
      sender's own included. */
  function OnNewMessage(s: State, id: ConnId, text: string, timestamp: string, msgId: int): (r: (State, seq<Outbound>))
    ensures id !in s.activeUsers ==> r == (s, [])
    ensures id in s.activeUsers ==>
      var m := Message(s.activeUsers[id], text, timestamp, msgId);
      && r.0.activeUsers == s.activeUsers
      && r.0.messages == Push(s.messages, m)
      && r.1 == [Outbound(ChatMessage(m), All)]
    ensures |s.messages| <= Capacity ==> |r.0.messages| <= Capacity
  {
    if id in s.activeUsers then
      var m := Message(s.activeUsers[id], text, timestamp, msgId);
      (State(s.activeUsers, Push(s.messages, m)), [Outbound(ChatMessage(m), All)])
    else
      (s, [])
  }

  /** 'typing' (app.js:74-82): changes nothing; a joined sender's typing
      state is relayed, under its stored username, to every other connection. */
  function OnTyping(s: State, id: ConnId, isTyping: bool): (r: (State, seq<Outbound>))
    ensures r.0 == s
    ensures id !in s.activeUsers ==> r.1 == []
    ensures id in s.activeUsers ==> r.1 == [Outbound(UserTyping(s.activeUsers[id], isTyping), AllExcept(id))]
  {
    if id in s.activeUsers then
      (s, [Outbound(UserTyping(s.activeUsers[id], isTyping), AllExcept(id))])
    else
      (s, [])
  }

  /** 'disconnect' (app.js:85-100): nothing happens for a connection that
      never joined; otherwise the others are told it left, exactly its entry
      is removed, and everyone gets the new number of joined connections. */
  function OnDisconnect(s: State, id: ConnId, timestamp: string): (r: (State, seq<Outbound>))
    ensures id !in s.activeUsers ==> r == (s, [])
    ensures id in s.activeUsers ==>
      && r.0.activeUsers.Keys == s.activeUsers.Keys - {id}
      && (forall c :: c in r.0.activeUsers ==> r.0.activeUsers[c] == s.activeUsers[c])
      && |r.0.activeUsers| == |s.activeUsers| - 1
      && r.0.messages == s.messages
      && r.1 == [Outbound(UserLeft(LeftText(s.activeUsers[id]), timestamp), AllExcept(id)),
                 Outbound(UserCount(|r.0.activeUsers|), All)]
  {
    if id in s.activeUsers then
      var users := s.activeUsers - {id};
      (State(users, s.messages),
       [Outbound(UserLeft(LeftText(s.activeUsers[id]), timestamp), AllExcept(id)),
        Outbound(UserCount(|users|), All)])
    else
      (s, [])
  }

  /** The joiner receives the history snapshot and then the new count; every
      other connection receives the join notice and then the new count. */
  lemma JoinDeliveries(s: State, id: ConnId, username: string, timestamp: string, c: ConnId)
    ensures var (s', out) := OnJoinChat(s, id, username, timestamp);
      Inbox(out, c) ==
        if c == id then [PreviousMessages(s.messages), UserCount(|s'.activeUsers|)]
        else [UserJoined(JoinedText(username), timestamp), UserCount(|s'.activeUsers|)]
  {
    var out := OnJoinChat(s, id, username, timestamp).1;
    assert out == [out[0]] + [out[1]] + [out[2]];
    InboxAppend([out[0]] + [out[1]], [out[2]], c);
    InboxAppend([out[0]], [out[1]], c);
  }

  /** An accepted message reaches every connection, the sender included; a
      message from a connection that has not joined reaches no one. */
  lemma MessageDeliveries(s: State, id: ConnId, text: string, timestamp: string, msgId: int, c: ConnId)
    ensures Inbox(OnNewMessage(s, id, text, timestamp, msgId).1, c) ==
      if id in s.activeUsers then [ChatMessage(Message(s.activeUsers[id], text, timestamp, msgId))] else []
  {
  }

  /** A typing notice never reaches its own sender, and reaches every other
      connection exactly when the sender has joined. */
  lemma TypingDeliveries(s: State, id: ConnId, isTyping: bool, c: ConnId)
    ensures Inbox(OnTyping(s, id, isTyping).1, c) ==
      if c != id && id in s.activeUsers then [UserTyping(s.activeUsers[id], isTyping)] else []
  {
  }

  /** Every connection other than the departing one receives the leave
      notice and then the new count, if the departing connection had joined;
      the leave notice is never addressed to the departing connection. */
  lemma DisconnectDeliveries(s: State, id: ConnId, timestamp: string, c: ConnId)
    ensures var (s', out) := OnDisconnect(s, id, timestamp);
      && (c != id ==>
            Inbox(out, c) ==
              if id in s.activeUsers
              then [UserLeft(LeftText(s.activeUsers[id]), timestamp), UserCount(|s'.activeUsers|)]
              else [])
      && (forall e :: e in Inbox(out, id) ==> !e.UserLeft?)
  {
    if id in s.activeUsers {
      var out := OnDisconnect(s, id, timestamp).1;
      assert out == [out[0]] + [out[1]];
      InboxAppend([out[0]], [out[1]], c);
      InboxAppend([out[0]], [out[1]], id);
    }
  }

  /** A second disconnect of the same connection changes nothing and emits nothing. */
  lemma DisconnectIdempotent(s: State, id: ConnId, t1: string, t2: string)
    ensures var s1 := OnDisconnect(s, id, t1).0;
      OnDisconnect(s1, id, t2) == (s1, [])
  {
  }

  /** Joining and then disconnecting leaves the other entries and the history
      as they were, and the joined set without the connection. */
  lemma JoinThenDisconnect(s: State, id: ConnId, username: string, t1: string, t2: string)
    ensures var s2 := OnDisconnect(OnJoinChat(s, id, username, t1).0, id, t2).0;
      && s2.activeUsers == s.activeUsers - {id}
      && s2.messages == s.messages
  {
    var s1 := OnJoinChat(s, id, username, t1).0;
    var s2 := OnDisconnect(s1, id, t2).0;
    assert s2.activeUsers.Keys == (s.activeUsers - {id}).Keys;
  }
}
