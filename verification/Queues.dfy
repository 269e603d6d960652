/** The message queues of packages/agent/src/agent.ts, and where the messages of a run came from. */
module Queues {
  import opened Transcript

  /** What one drain takes: everything, or the first message. */
  function Front(queued: seq<Message>, all: bool): (front: seq<Message>)
    ensures front <= queued
    ensures front == [] <==> queued == []
  {
    if all || |queued| == 0 then queued else queued[..1]
  }

  /** A drain is determined by what it leaves. */
  lemma DrainedFront(queued: seq<Message>, front: seq<Message>, rest: seq<Message>, all: bool)
    requires queued == front + rest && (front == [] <==> queued == [])
    requires if all then rest == [] else |front| <= 1
    ensures front == Front(queued, all)
  {
  }

  class PendingMessageQueue {
    const drainsAll: bool
    var messages: seq<Message>
    /** Everything that was ever queued, and everything that was ever taken. */
    ghost var entered: seq<Message>
    ghost var drained: seq<Message>

    /** Nothing is lost, invented or reordered. */
    ghost predicate Valid()
      reads this
    {
      entered == drained + messages
    }

    constructor (drainsAll: bool)
      ensures Valid() && messages == [] && drained == [] && this.drainsAll == drainsAll
    {
      this.drainsAll := drainsAll;
      messages, entered, drained := [], [], [];
    }

    method Enqueue(message: Message)
      requires Valid()
      modifies this
      ensures Valid() && messages == old(messages) + [message] && drained == old(drained)
      ensures entered == old(entered) + [message]
    {
      messages, entered := messages + [message], entered + [message];
    }

    method EnqueueAll(arriving: seq<Message>)
      requires Valid()
      modifies this
      ensures Valid() && messages == old(messages) + arriving && drained == old(drained)
      ensures entered == old(entered) + arriving
    {
      for i := 0 to |arriving|
        invariant Valid() && messages == old(messages) + arriving[..i] && drained == old(drained)
        invariant entered == old(entered) + arriving[..i]
      {
        assert arriving[..i + 1] == arriving[..i] + [arriving[i]];
        Enqueue(arriving[i]);
      }
      assert arriving[..|arriving|] == arriving;
    }

    method Drain() returns (front: seq<Message>)
      requires Valid()
      modifies this
      ensures Valid() && entered == old(entered)
      ensures front + messages == old(messages) && drained == old(drained) + front
      ensures front == [] <==> old(messages) == []
      ensures if drainsAll then messages == [] else |front| <= 1
    {
      if drainsAll {
        front, messages := messages, [];
      } else if |messages| == 0 {
        return [];
      } else {
        front, messages := messages[..1], messages[1..];
      }
      drained := drained + front;
    }
  }

  // ---------------------------------------------------------------- origins

  /** Where a message of a run came from; the run's own are replies and tool results. */
  datatype Origin = Prompted | Steering | FollowUp | Own

  /** The messages of one origin, in order. */
  function From(ms: seq<Message>, origins: seq<Origin>, o: Origin): seq<Message>
    requires |ms| == |origins|
  {
    if |ms| == 0 then []
    else From(ms[..|ms| - 1], origins[..|ms| - 1], o) + if origins[|ms| - 1] == o then [ms[|ms| - 1]] else []
  }

  function All(o: Origin, n: nat): seq<Origin> {
    seq(n, i => o)
  }

  /** Further messages of one origin. */
  lemma {:induction false} FromMore(ms: seq<Message>, origins: seq<Origin>, more: seq<Message>, source: Origin, o: Origin)
    requires |ms| == |origins|
    ensures From(ms + more, origins + All(source, |more|), o) == From(ms, origins, o) + if source == o then more else []
  {
    if |more| == 0 {
      assert ms + more == ms && origins + All(source, 0) == origins;
    } else {
      var n := |more| - 1;
      var before, tags := ms + more[..n], origins + All(source, n);
      FromMore(ms, origins, more[..n], source, o);
      FromOne(before, tags, more[n], source, o);
      assert more == more[..n] + [more[n]];
      assert before + [more[n]] == ms + more && tags + [source] == origins + All(source, |more|);
      hide From, All;
      assert From(ms, origins, o) + more[..n] + [more[n]] == From(ms, origins, o) + more;
    }
  }

  lemma FromOne(ms: seq<Message>, origins: seq<Origin>, m: Message, source: Origin, o: Origin)
    requires |ms| == |origins|
    ensures From(ms + [m], origins + [source], o) == From(ms, origins, o) + if source == o then [m] else []
  {
    assert (ms + [m])[..|ms|] == ms && (origins + [source])[..|ms|] == origins;
  }

  /** What left a queue is accounted for before and after it was injected. */
  lemma FromInjected(ms: seq<Message>, origins: seq<Origin>, pending: seq<Message>, from: Origin, o: Origin,
                     drained: seq<Message>, earlier: seq<Message>)
    requires |ms| == |origins|
    requires drained == earlier + From(ms, origins, o) + if from == o then pending else []
    ensures drained == earlier + From(ms + pending, origins + All(from, |pending|), o)
  {
    FromMore(ms, origins, pending, from, o);
    var taken := From(ms, origins, o);
    assert earlier + taken + pending == earlier + (taken + pending);
    assert earlier + taken + [] == earlier + (taken + []);
  }

  lemma FromAll(ms: seq<Message>, source: Origin, o: Origin)
    ensures From(ms, All(source, |ms|), o) == if source == o then ms else []
  {
    FromMore([], [], ms, source, o);
    assert [] + ms == ms && [] + All(source, |ms|) == All(source, |ms|);
  }

  lemma OwnMore(origins: seq<Origin>, n: nat)
    ensures origins + [Own] + All(Own, n) == origins + All(Own, 1 + n)
    ensures All(Own, 0) == [] && origins + [] == origins && origins + [Own] == origins + All(Own, 1)
    ensures |All(Own, n)| == n
  {
  }
}
