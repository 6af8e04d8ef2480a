/** The chat server of app.js as the program runs it: the module-level
    `activeUsers` map and `messages` array (app.js:18-19) are the fields of
    one object, and each socket event handler (app.js:31-100) is a method
    that updates them in place and returns what it emits, in order, with
    each emission's audience. */
module App {
  import opened History
  import opened Session

  class ChatServer {
    var activeUsers: map<ConnId, string>
    var messages: seq<Message>
    /** Every message ever stored, oldest first. */
    ghost var accepted: seq<Message>

    /** The stored history is the last `Capacity` accepted messages in
        arrival order (so it never holds more than `Capacity`). */
    ghost predicate Valid()
      reads this
    {
      messages == Recent(accepted)
    }

    /** The server state as the session functions see it. */
    function Snapshot(): State
      reads this
    {
      State(activeUsers, messages)
    }

    constructor ()
      ensures Valid()
      ensures Snapshot() == Initial && accepted == []
    {
      activeUsers := map[];
      messages := [];
      accepted := [];
    }

    /** 'join-chat' (app.js:31-48). */
    method JoinChat(id: ConnId, username: string, timestamp: string) returns (out: seq<Outbound>)
      requires Valid()
      modifies this
      ensures Valid() && accepted == old(accepted)
      ensures activeUsers == old(activeUsers)[id := username] && messages == old(messages)
      ensures (Snapshot(), out) == OnJoinChat(old(Snapshot()), id, username, timestamp)
    {
      activeUsers := activeUsers[id := username];
      out := [Outbound(UserJoined(JoinedText(username), timestamp), AllExcept(id))];
      out := out + [Outbound(PreviousMessages(messages), Only(id))];
      out := out + [Outbound(UserCount(|activeUsers|), All)];
      assert out == OnJoinChat(old(Snapshot()), id, username, timestamp).1;
    }

    /** 'new-message' (app.js:51-71): push, then shift once if over capacity. */
    method NewMessage(id: ConnId, text: string, timestamp: string, msgId: int) returns (out: seq<Outbound>)
      requires Valid()
      modifies this
      ensures Valid()
      ensures accepted ==
        if id in old(activeUsers)
        then old(accepted) + [Message(old(activeUsers)[id], text, timestamp, msgId)]
        else old(accepted)
      ensures (Snapshot(), out) == OnNewMessage(old(Snapshot()), id, text, timestamp, msgId)
    {
      if id in activeUsers {
        var m := Message(activeUsers[id], text, timestamp, msgId);
        messages := messages + [m];
        if |messages| > Capacity {
          messages := messages[1..];
        }
        assert messages == Push(old(messages), m);
        accepted := accepted + [m];
        PushKeepsRecent(old(accepted), m);
        out := [Outbound(ChatMessage(m), All)];
        assert (Snapshot(), out) == OnNewMessage(old(Snapshot()), id, text, timestamp, msgId);
      } else {
        out := [];
      }
    }

    /** 'typing' (app.js:74-82): reads the state and changes nothing. */
    method Typing(id: ConnId, isTyping: bool) returns (out: seq<Outbound>)
      ensures (Snapshot(), out) == OnTyping(Snapshot(), id, isTyping)
    {
      if id in activeUsers {
        out := [Outbound(UserTyping(activeUsers[id], isTyping), AllExcept(id))];
      } else {
        out := [];
      }
    }

    /** 'disconnect' (app.js:85-100). */
    method Disconnect(id: ConnId, timestamp: string) returns (out: seq<Outbound>)
      requires Valid()
      modifies this
      ensures Valid() && accepted == old(accepted)
      ensures activeUsers == old(activeUsers) - {id} && messages == old(messages)
      ensures (Snapshot(), out) == OnDisconnect(old(Snapshot()), id, timestamp)
    {
      if id in activeUsers {
        out := [Outbound(UserLeft(LeftText(activeUsers[id]), timestamp), AllExcept(id))];
        activeUsers := activeUsers - {id};
        out := out + [Outbound(UserCount(|activeUsers|), All)];
        assert out == OnDisconnect(old(Snapshot()), id, timestamp).1;
      } else {
        out := [];
      }
    }
  }

  /** A client of the server: two users join, one posts, a stranger's typing
      is dropped, one leaves (twice), and a late joiner is sent the history. */
  method Conversation()
  {
    var server := new ChatServer();
    var out := server.JoinChat("a", "Ann", "10:00");
    assert out[1].event == PreviousMessages([]);
    out := server.JoinChat("b", "Bob", "10:01");
    assert out[2].event == UserCount(2);
    out := server.NewMessage("a", "hi", "10:02", 1);
    assert out == [Outbound(ChatMessage(Message("Ann", "hi", "10:02", 1)), All)];
    assert server.messages == [Message("Ann", "hi", "10:02", 1)];
    out := server.Typing("c", true);
    assert out == [];
    out := server.Disconnect("b", "10:03");
    assert out[1].event == UserCount(1);
    out := server.Disconnect("b", "10:04");
    assert out == [];
    out := server.JoinChat("c", "Cat", "10:05");
    assert out[1].event == PreviousMessages([Message("Ann", "hi", "10:02", 1)]);
  }
}
