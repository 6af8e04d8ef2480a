/** The bounded chat history (app.js:19, 62-66).
    The server keeps the most recent chat messages in one array: a new message
    is pushed at the end and, when that makes the array longer than 100, the
    oldest one is shifted off the front. */
module History {

  /** The most messages the history keeps. */
  const Capacity: nat := 100

  /** One chat message as the server stores and broadcasts it: the sender's
      username, the text, the server's time string at receipt and the numeric
      id taken from the server's clock (the clock can repeat, so ids are not
      assumed unique). */
  datatype Message = Message(username: string, text: string, timestamp: string, id: int)

  /** The last `Capacity` elements of `s`, or all of `s` when it is shorter:
      what a history holds after every message of `s` was appended in order. */
  function Recent(s: seq<Message>): (r: seq<Message>)
    ensures |r| == if |s| <= Capacity then |s| else Capacity
    ensures forall k :: 0 <= k < |r| ==> r[k] == s[|s| - |r| + k]
  {
    if |s| <= Capacity then s else s[|s| - Capacity..]
  }

  /** One store step: push the message, then shift once if that overflows. */
  function Push(h: seq<Message>, m: Message): (r: seq<Message>)
    ensures |r| == if |h| < Capacity then |h| + 1 else |h|
    ensures |r| > 0 && r[|r| - 1] == m
    ensures forall k :: 0 <= k < |r| - 1 ==> r[k] == h[|h| + 1 - |r| + k]
    ensures |h| <= Capacity ==> |r| <= Capacity
  {
    var pushed := h + [m];
    if |pushed| > Capacity then pushed[1..] else pushed
  }

  /** Appending to a history that already holds the recent part of `s` gives
      the recent part of `s + [m]`: the buffer stays the last messages in
      arrival order. */
  lemma PushKeepsRecent(s: seq<Message>, m: Message)
    ensures Push(Recent(s), m) == Recent(s + [m])
  {
    var t := s + [m];
    if |s| >= Capacity {
      assert (s[|s| - Capacity..] + [m])[1..] == t[|t| - Capacity..];
    }
  }

  /** A history that is not over capacity is its own recent part. */
  lemma RecentOfShort(h: seq<Message>)
    requires |h| <= Capacity
    ensures Recent(h) == h
  {
  }

  /** Pushing onto any history within capacity is taking the recent part of
      the history extended by the message. */
  lemma PushIsRecent(h: seq<Message>, m: Message)
    requires |h| <= Capacity
    ensures Push(h, m) == Recent(h + [m])
  {
    RecentOfShort(h);
    PushKeepsRecent(h, m);
  }

  /** Trimming earlier messages away first makes no difference to the recent part. */
  lemma RecentAbsorbs(x: seq<Message>, y: seq<Message>)
    ensures Recent(Recent(x) + y) == Recent(x + y)
  {
    if |x| > Capacity {
      var u := Recent(x) + y;
      var v := x + y;
      var d := |x| - Capacity;
      assert v == x[..d] + u;
      assert |u| >= Capacity;
      forall k | 0 <= k < Capacity
        ensures Recent(u)[k] == Recent(v)[k]
      {
        assert Recent(u)[k] == u[|u| - Capacity + k];
        assert Recent(v)[k] == v[|v| - Capacity + k];
      }
    }
  }

  /** Storing the first of `ms` and then the rest keeps the same recent part
      as storing all of `ms` at once. */
  lemma RecentSplit(h: seq<Message>, ms: seq<Message>, h1: seq<Message>)
    requires ms != [] && h1 == Recent(h + [ms[0]])
    ensures Recent(h1 + ms[1..]) == Recent(h + ms)
  {
    RecentAbsorbs(h + [ms[0]], ms[1..]);
    assert h + [ms[0]] + ms[1..] == h + ms;
  }

  /** Two stretches of stores compose: the history after both is the recent
      part of the first history followed by both stretches' messages. */
  lemma RecentCompose(h: seq<Message>, x: seq<Message>, y: seq<Message>, h1: seq<Message>, h2: seq<Message>)
    requires h1 == Recent(h + x)
    requires h2 == Recent(h1 + y)
    ensures h2 == Recent(h + (x + y))
  {
    RecentAbsorbs(h + x, y);
    assert h + x + y == h + (x + y);
  }

  /** The history after pushing each message of `ms`, in order, onto `h`. */
  function Replay(h: seq<Message>, ms: seq<Message>): (r: seq<Message>)
    ensures |h| <= Capacity ==> |r| <= Capacity
    decreases |ms|
  {
    if ms == [] then h else Replay(Push(h, ms[0]), ms[1..])
  }

  /** Any run of pushes from a history within capacity leaves exactly the
      last `Capacity` messages of everything seen, oldest first. */
  lemma {:induction false} ReplayIsRecent(h: seq<Message>, ms: seq<Message>)
    requires |h| <= Capacity
    ensures Replay(h, ms) == Recent(h + ms)
    decreases |ms|
  {
    if ms != [] {
      var h1 := Push(h, ms[0]);
      PushIsRecent(h, ms[0]);
      ReplayIsRecent(h1, ms[1..]);
      RecentSplit(h, ms, h1);
    }
  }

  /** After 101 messages into an empty history the first is gone and the
      second is the oldest one kept. */
  lemma OverflowDropsFirst(ms: seq<Message>)
    requires |ms| == Capacity + 1
    ensures |Replay([], ms)| == Capacity
    ensures Replay([], ms)[0] == ms[1]
    ensures Replay([], ms)[Capacity - 1] == ms[Capacity]
  {
    ReplayIsRecent([], ms);
    assert [] + ms == ms;
  }
}
