/** Runs of the session state machine: the inbound events of all
    connections, handled one at a time to completion as Node's event loop
    does (app.js:27-101), and what holds of every such run. */
module Trace {
  import opened History
  import opened Session

  /** One inbound socket event, with the clock readings it uses. */
  datatype Input =
    | JoinChat(id: ConnId, username: string, timestamp: string)
    | NewMessage(id: ConnId, text: string, timestamp: string, msgId: int)
    | Typing(id: ConnId, isTyping: bool)
    | Disconnect(id: ConnId, timestamp: string)

  /** Handles one inbound event. */
  function Step(s: State, i: Input): (r: (State, seq<Outbound>))
  {
    match i
    case JoinChat(id, username, timestamp) => OnJoinChat(s, id, username, timestamp)
    case NewMessage(id, text, timestamp, msgId) => OnNewMessage(s, id, text, timestamp, msgId)
    case Typing(id, isTyping) => OnTyping(s, id, isTyping)
    case Disconnect(id, timestamp) => OnDisconnect(s, id, timestamp)
  }

  /** Handles the events of `t` in order; the result is the final state and
      every outbound event in emission order. */
  function Exec(s: State, t: seq<Input>): (r: (State, seq<Outbound>))
    ensures |s.messages| <= Capacity ==> |r.0.messages| <= Capacity
    decreases |t|
  {
    if t == [] then (s, [])
    else
      var (s1, out1) := Step(s, t[0]);
      var (s2, out2) := Exec(s1, t[1..]);
      (s2, out1 + out2)
  }

  /** The chat messages broadcast in `out`, in emission order. */
  function Broadcasts(out: seq<Outbound>): (r: seq<Message>)
    ensures forall m :: m in r <==> exists k :: 0 <= k < |out| && out[k].event == ChatMessage(m)
  {
    if out == [] then []
    else (if out[0].event.ChatMessage? then [out[0].event.data] else []) + Broadcasts(out[1..])
  }

  /** The member counts announced in `out`, in emission order. */
  function Counts(out: seq<Outbound>): (r: seq<nat>)
    ensures forall n :: n in r <==> exists k :: 0 <= k < |out| && out[k].event == UserCount(n)
  {
    if out == [] then []
    else (if out[0].event.UserCount? then [out[0].event.count] else []) + Counts(out[1..])
  }

  lemma {:induction false} BroadcastsAppend(a: seq<Outbound>, b: seq<Outbound>)
    ensures Broadcasts(a + b) == Broadcasts(a) + Broadcasts(b)
    decreases |a|
  {
    if a == [] {
      assert a + b == b;
    } else {
      var head := if a[0].event.ChatMessage? then [a[0].event.data] else [];
      assert (a + b)[0] == a[0] && (a + b)[1..] == a[1..] + b;
      assert Broadcasts(a + b) == head + Broadcasts(a[1..] + b);
      BroadcastsAppend(a[1..], b);
      assert Broadcasts(a) == head + Broadcasts(a[1..]);
    }
  }

  lemma {:induction false} CountsAppend(a: seq<Outbound>, b: seq<Outbound>)
    ensures Counts(a + b) == Counts(a) + Counts(b)
    decreases |a|
  {
    if a == [] {
      assert a + b == b;
    } else {
      var head := if a[0].event.UserCount? then [a[0].event.count] else [];
      assert (a + b)[0] == a[0] && (a + b)[1..] == a[1..] + b;
      assert Counts(a + b) == head + Counts(a[1..] + b);
      CountsAppend(a[1..], b);
      assert Counts(a) == head + Counts(a[1..]);
    }
  }

  /** One event leaves the history equal to the recent part of the old
      history followed by whatever the event broadcast. */
  lemma StepHistory(s: State, i: Input)
    requires |s.messages| <= Capacity
    ensures var (s', out) := Step(s, i);
      s'.messages == Recent(s.messages + Broadcasts(out))
  {
    var (s', out) := Step(s, i);
    if i.NewMessage? && i.id in s.activeUsers {
      var m := Message(s.activeUsers[i.id], i.text, i.timestamp, i.msgId);
      assert Broadcasts(out) == [m];
      PushIsRecent(s.messages, m);
    } else {
      assert Broadcasts(out) == [] by {
        if i.JoinChat? {
          assert out == [out[0]] + [out[1]] + [out[2]];
          BroadcastsAppend([out[0]] + [out[1]], [out[2]]);
          BroadcastsAppend([out[0]], [out[1]]);
        } else if i.Disconnect? && i.id in s.activeUsers {
          assert out == [out[0]] + [out[1]];
          BroadcastsAppend([out[0]], [out[1]]);
        }
      }
      assert s.messages + [] == s.messages;
      RecentOfShort(s.messages);
    }
  }

  /** Over any run, the history is the last `Capacity` messages ever
      broadcast, in the order they were broadcast and stored. */
  lemma {:induction false} HistoryIsRecentBroadcasts(s: State, t: seq<Input>)
    requires |s.messages| <= Capacity
    ensures var (s', out) := Exec(s, t);
      s'.messages == Recent(s.messages + Broadcasts(out))
    decreases |t|
  {
    if t == [] {
      assert s.messages + [] == s.messages;
      RecentOfShort(s.messages);
    } else {
      var (s1, out1) := Step(s, t[0]);
      var (s2, out2) := Exec(s1, t[1..]);
      assert Exec(s, t) == (s2, out1 + out2);
      StepHistory(s, t[0]);
      HistoryIsRecentBroadcasts(s1, t[1..]);
      BroadcastsAppend(out1, out2);
      RecentCompose(s.messages, Broadcasts(out1), Broadcasts(out2), s1.messages, s2.messages);
    }
  }

  /** From a fresh server, the history is the recent part of all broadcasts. */
  lemma HistoryFromStart(t: seq<Input>)
    ensures var (s', out) := Exec(Initial, t);
      s'.messages == Recent(Broadcasts(out))
  {
    HistoryIsRecentBroadcasts(Initial, t);
    assert [] + Broadcasts(Exec(Initial, t).1) == Broadcasts(Exec(Initial, t).1);
  }

  /** One event either announces no count and leaves the joined set alone, or
      announces as its last count the number of joined connections after it. */
  lemma StepCount(s: State, i: Input)
    ensures var (s', out) := Step(s, i);
      var cs := Counts(out);
      && (cs == [] ==> s'.activeUsers == s.activeUsers)
      && (cs != [] ==> cs[|cs| - 1] == |s'.activeUsers|)
  {
    var (s', out) := Step(s, i);
    if i.JoinChat? {
      assert out == [out[0]] + [out[1]] + [out[2]];
      CountsAppend([out[0]] + [out[1]], [out[2]]);
      CountsAppend([out[0]], [out[1]]);
    } else if i.Disconnect? && i.id in s.activeUsers {
      assert out == [out[0]] + [out[1]];
      CountsAppend([out[0]], [out[1]]);
    }
  }

  /** Over any run, the last count announced equals the number of joined
      connections at the end, and a run announcing no count changes no entry. */
  lemma {:induction false} LastCountIsSize(s: State, t: seq<Input>)
    ensures var (s', out) := Exec(s, t);
      var cs := Counts(out);
      && (cs == [] ==> s'.activeUsers == s.activeUsers)
      && (cs != [] ==> cs[|cs| - 1] == |s'.activeUsers|)
    decreases |t|
  {
    if t != [] {
      var (s1, out1) := Step(s, t[0]);
      var (s2, out2) := Exec(s1, t[1..]);
      StepCount(s, t[0]);
      LastCountIsSize(s1, t[1..]);
      CountsAppend(out1, out2);
    }
  }
}
