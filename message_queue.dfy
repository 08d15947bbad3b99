/**
 * The single-threaded message queue the selection manager drives itself with:
 * messages carry a tag, a due time on a logical millisecond clock and a payload.
 * The queue keeps insertion order; the looper fires the first message with the
 * smallest due time, so messages due at the same time fire first-in first-out.
 */
module MessageQueue {
  import opened Wrappers

  /** The four message kinds the manager posts. */
  datatype Tag = DeviceSelectTag | PortSelectTag | SelectProtectionTag | SendKeyEventTag

  /** Only key-event messages carry data: the key code and whether it is a press. */
  datatype Payload = NoPayload | KeyPayload(keyCode: int, pressed: bool)

  datatype Message = Message(what: Tag, when: int, payload: Payload)

  /** Every key-event message carries its key; no other message carries data. */
  predicate WellFormed(m: Message) {
    m.what == SendKeyEventTag <==> m.payload.KeyPayload?
  }

  function Max(a: int, b: int): (r: int)
    ensures r >= a && r >= b && (r == a || r == b)
  {
    if a < b then b else a
  }

  /** The number of queued messages with tag `what`. */
  function CountTag(q: seq<Message>, what: Tag): (n: nat)
    ensures n <= |q|
    ensures n == 0 <==> forall i :: 0 <= i < |q| ==> q[i].what != what
  {
    if q == [] then 0
    else (if q[0].what == what then 1 else 0) + CountTag(q[1..], what)
  }

  lemma {:induction false} CountTagAppend(a: seq<Message>, b: seq<Message>, what: Tag)
    ensures CountTag(a + b, what) == CountTag(a, what) + CountTag(b, what)
  {
    if a == [] {
      assert a + b == b;
    } else {
      assert (a + b)[1..] == a[1..] + b;
      CountTagAppend(a[1..], b, what);
    }
  }

  /** Taking the message at index `k` out of the queue lowers the count of its own tag by one and no other. */
  lemma CountTagRemoveAt(q: seq<Message>, k: nat, what: Tag)
    requires k < |q|
    ensures CountTag(q[..k] + q[k + 1..], what) == CountTag(q, what) - (if q[k].what == what then 1 else 0)
  {
    assert q == q[..k] + ([q[k]] + q[k + 1..]);
    CountTagAppend(q[..k], [q[k]] + q[k + 1..], what);
    CountTagAppend([q[k]], q[k + 1..], what);
    CountTagAppend(q[..k], q[k + 1..], what);
  }

  /** The queue with every message tagged `what` removed and the rest kept in order. */
  function Without(q: seq<Message>, what: Tag): (r: seq<Message>)
    ensures |r| <= |q|
    ensures forall m :: m in r <==> m in q && m.what != what
    ensures CountTag(r, what) == 0
    ensures forall t :: t != what ==> CountTag(r, t) == CountTag(q, t)
  {
    if q == [] then []
    else if q[0].what == what then Without(q[1..], what)
    else [q[0]] + Without(q[1..], what)
  }

  /** Cancelling distributes over concatenation, so the kept messages stay in their order. */
  lemma {:induction false} WithoutAppend(a: seq<Message>, b: seq<Message>, what: Tag)
    ensures Without(a + b, what) == Without(a, what) + Without(b, what)
  {
    if a == [] {
      assert a + b == b;
    } else {
      assert (a + b)[1..] == a[1..] + b;
      WithoutAppend(a[1..], b, what);
    }
  }

  /** A single message is dropped exactly when it has the cancelled tag; with WithoutAppend this pins Without down as an order-keeping filter. */
  lemma WithoutSingleton(m: Message, what: Tag)
    ensures Without([m], what) == if m.what == what then [] else [m]
  {
  }

  /**
   * The index of the message the looper fires next: one with the smallest due
   * time, and the first such in insertion order.
   */
  function EarliestIndex(q: seq<Message>): (k: nat)
    requires q != []
    ensures k < |q|
    ensures forall j :: 0 <= j < |q| ==> q[k].when <= q[j].when
    ensures forall j :: 0 <= j < k ==> q[k].when < q[j].when
  {
    if |q| == 1 then 0
    else
      var k := EarliestIndex(q[..|q| - 1]);
      if q[|q| - 1].when < q[k].when then |q| - 1 else k
  }

  /** The message queue with its logical clock `now` (milliseconds). */
  class Handler {
    var messages: seq<Message>
    var now: int

    constructor ()
      ensures messages == [] && now == 0
    {
      messages := [];
      now := 0;
    }

    /** Posts a message due immediately. */
    method SendMessage(what: Tag, payload: Payload)
      modifies this
      ensures messages == old(messages) + [Message(what, old(now), payload)]
      ensures now == old(now)
    {
      messages := messages + [Message(what, now, payload)];
    }

    /** Posts a message due `delayMillis` after now. */
    method SendMessageDelayed(what: Tag, payload: Payload, delayMillis: nat)
      modifies this
      ensures messages == old(messages) + [Message(what, old(now) + delayMillis, payload)]
      ensures now == old(now)
    {
      messages := messages + [Message(what, now + delayMillis, payload)];
    }

    /** Cancels every queued message tagged `what`. */
    method RemoveMessages(what: Tag)
      modifies this
      ensures messages == Without(old(messages), what)
      ensures now == old(now)
    {
      messages := Without(messages, what);
    }

    /** Lets time pass to `t` without firing anything. */
    method AdvanceTo(t: int)
      requires now <= t
      requires forall m :: m in messages ==> t <= m.when
      modifies this
      ensures now == t && messages == old(messages)
    {
      now := t;
    }

    /**
     * Takes the next message to fire out of the queue and moves the clock to its
     * due time (or leaves it where it is if that time has passed); None on an empty queue.
     */
    method Next() returns (m: Option<Message>)
      modifies this
      ensures old(messages) == [] ==> m.None? && messages == old(messages) && now == old(now)
      ensures old(messages) != [] ==>
        var q := old(messages);
        var k := EarliestIndex(q);
        m == Some(q[k]) && messages == q[..k] + q[k + 1..] && now == Max(old(now), q[k].when)
    {
      if messages == [] {
        m := None;
      } else {
        var k := EarliestIndex(messages);
        m := Some(messages[k]);
        now := Max(now, messages[k].when);
        messages := messages[..k] + messages[k + 1..];
      }
    }
  }
}
