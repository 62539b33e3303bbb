/** Bounded per-subscriber queues that drop their oldest event instead of blocking the hub. */
module FanOut {
  import opened Events

  const QUEUE_DEPTH: nat := 128

  /** Put `x` on a bounded queue, dropping the oldest item when it is full. */
  function Push<T>(items: seq<T>, x: T): seq<T> {
    (if |items| >= QUEUE_DEPTH then items[1..] else items) + [x]
  }

  /** One subscriber's queue. */
  class SubscriberQueue {
    var items: seq<ClearanceEvent>

    constructor ()
      ensures items == []
    {
      items := [];
    }

    predicate Full()
      reads this
    {
      |items| >= QUEUE_DEPTH
    }

    method PutDroppingOldest(event: ClearanceEvent)
      modifies this
      ensures items == Push(old(items), event)
    {
      if Full() {
        items := items[1..];
      }
      items := items + [event];
    }

    /** One completed `get`; an empty queue keeps its reader waiting. */
    method Get() returns (event: ClearanceEvent)
      requires items != []
      modifies this
      ensures [event] + items == old(items)
    {
      event := items[0];
      items := items[1..];
    }
  }

  // ---- all queues over a whole run ----

  /** An event and its place in the one global history. */
  datatype Letter = Letter(event: ClearanceEvent, position: nat)

  datatype Mailbox = Mailbox(joined: nat, items: seq<Letter>, received: seq<Letter>, dropped: seq<Letter>)

  datatype Net = Net(history: seq<ClearanceEvent>, boxes: map<nat, Mailbox>)

  datatype NetAction = Publish(event: ClearanceEvent) | Join(id: nat) | Take(id: nat) | Leave(id: nat)

  function Receive(box: Mailbox, letter: Letter): Mailbox {
    box.(items := Push(box.items, letter),
    dropped := if |box.items| >= QUEUE_DEPTH then box.dropped + [box.items[0]] else box.dropped)
  }

  function TakeFrom(box: Mailbox): Mailbox
    requires box.items != []
  {
    box.(items := box.items[1..], received := box.received + [box.items[0]])
  }

  function StepNet(net: Net, a: NetAction): Net {
    match a
    case Publish(event) =>
      Net(net.history + [event],
          map id | id in net.boxes :: Receive(net.boxes[id], Letter(event, |net.history|)))
    case Join(id) =>
      if id in net.boxes then net else net.(boxes := net.boxes[id := Mailbox(|net.history|, [], [], [])])
    case Take(id) =>
      if id in net.boxes && net.boxes[id].items != [] then net.(boxes := net.boxes[id := TakeFrom(net.boxes[id])])
      else net
    case Leave(id) => net.(boxes := net.boxes - {id})
  }

  function RunNet(net: Net, actions: seq<NetAction>): Net {
    if actions == [] then net else StepNet(RunNet(net, actions[..|actions| - 1]), actions[|actions| - 1])
  }

  const IDLE := Net([], map[])

  /** Genuine history events, in history order, from positions lo to hi. */
  ghost predicate InOrder(letters: seq<Letter>, h: seq<ClearanceEvent>, lo: nat, hi: nat)
    requires hi <= |h|
  {
    && (forall i | 0 <= i < |letters| :: lo <= letters[i].position < hi && letters[i].event == h[letters[i].position])
    && (forall i, j | 0 <= i < j < |letters| :: letters[i].position < letters[j].position)
  }

  ghost predicate Holds(letters: seq<Letter>, position: nat) {
    exists i :: 0 <= i < |letters| && letters[i].position == position
  }

  ghost predicate BoxOk(h: seq<ClearanceEvent>, box: Mailbox) {
    && |box.items| <= 128
    && box.joined + |box.items| <= |h|
    && var done := |h| - |box.items|;
    // what waits is exactly the tail of the history
    && (forall i | 0 <= i < |box.items| :: box.items[i] == Letter(h[done + i], done + i))
    // what went before, since the subscriber joined, was received or dropped
    && InOrder(box.received, h, box.joined, done) && InOrder(box.dropped, h, box.joined, done)
    && (forall p: nat | box.joined <= p < done :: Holds(box.received, p) <==> !Holds(box.dropped, p))
    && |box.received| + |box.dropped| + |box.items| == |h| - box.joined
  }

  ghost predicate NetOk(net: Net) {
    forall id | id in net.boxes :: BoxOk(net.history, net.boxes[id])
  }

  lemma HoldsAppend(letters: seq<Letter>, x: Letter)
    ensures forall p :: Holds(letters + [x], p) <==> Holds(letters, p) || p == x.position
  {
    var more := letters + [x];
    forall p ensures Holds(more, p) <==> Holds(letters, p) || p == x.position {
      if Holds(letters, p) {
        var i :| 0 <= i < |letters| && letters[i].position == p;
        assert more[i].position == p;
      }
      if p == x.position {
        assert more[|letters|].position == p;
      }
    }
  }

  lemma NotYetHeld(letters: seq<Letter>, h: seq<ClearanceEvent>, lo: nat, hi: nat)
    requires hi <= |h| && InOrder(letters, h, lo, hi)
    ensures !Holds(letters, hi)
  {
  }

  lemma InOrderGrows(letters: seq<Letter>, h: seq<ClearanceEvent>, event: ClearanceEvent, lo: nat, hi: nat, hi': nat)
    requires hi <= |h| && hi <= hi' <= |h| + 1 && InOrder(letters, h, lo, hi)
    ensures InOrder(letters, h + [event], lo, hi')
  {
  }

  lemma ReceiveWithRoom(h: seq<ClearanceEvent>, box: Mailbox, event: ClearanceEvent)
    requires BoxOk(h, box) && |box.items| < QUEUE_DEPTH
    ensures BoxOk(h + [event], Receive(box, Letter(event, |h|)))
  {
    var done := |h| - |box.items|;
    InOrderGrows(box.received, h, event, box.joined, done, done);
    InOrderGrows(box.dropped, h, event, box.joined, done, done);
  }

  lemma ReceiveWhenFull(h: seq<ClearanceEvent>, box: Mailbox, event: ClearanceEvent)
    requires BoxOk(h, box) && |box.items| == QUEUE_DEPTH
    ensures BoxOk(h + [event], Receive(box, Letter(event, |h|)))
  {
    var done := |h| - |box.items|;
    var box' := Receive(box, Letter(event, |h|));
    assert box.items[0] == Letter(h[done], done);
    HoldsAppend(box.dropped, box.items[0]);
    NotYetHeld(box.received, h, box.joined, done);
    InOrderGrows(box.received, h, event, box.joined, done, done + 1);
    InOrderGrows(box.dropped, h, event, box.joined, done, done + 1);
    assert InOrder(box'.dropped, h + [event], box.joined, done + 1);
    forall i | 0 <= i < |box'.items| ensures box'.items[i] == Letter((h + [event])[done + 1 + i], done + 1 + i) {
      if i < |box.items| - 1 {
        assert box'.items[i] == box.items[i + 1];
      }
    }
  }

  lemma ReceiveOk(h: seq<ClearanceEvent>, box: Mailbox, event: ClearanceEvent)
    requires BoxOk(h, box)
    ensures BoxOk(h + [event], Receive(box, Letter(event, |h|)))
  {
    if |box.items| < QUEUE_DEPTH {
      ReceiveWithRoom(h, box, event);
    } else {
      ReceiveWhenFull(h, box, event);
    }
  }

  lemma TakeOk(h: seq<ClearanceEvent>, box: Mailbox)
    requires BoxOk(h, box) && box.items != []
    ensures BoxOk(h, TakeFrom(box))
  {
    var done := |h| - |box.items|;
    HoldsAppend(box.received, box.items[0]);
    NotYetHeld(box.dropped, h, box.joined, done);
    assert box.items[0].position == done;
  }

  lemma StepNetOk(net: Net, a: NetAction)
    requires NetOk(net)
    ensures NetOk(StepNet(net, a))
  {
    match a
    case Publish(event) =>
      forall id | id in net.boxes ensures BoxOk(net.history + [event], StepNet(net, a).boxes[id]) {
        ReceiveOk(net.history, net.boxes[id], event);
      }
    case Take(id) =>
      if id in net.boxes && net.boxes[id].items != [] {
        TakeOk(net.history, net.boxes[id]);
      }
    case _ =>
  }

  /**
   Under any interleaving of joins, publications, reads and departures each queue holds exactly the last
   events published since its subscriber joined, at most 128; what the subscriber received is an in-order
   part of the one history; and received, dropped and queued together are all that was published.
   */
  lemma {:induction false} QueuesRefineHistory(actions: seq<NetAction>)
    ensures NetOk(RunNet(IDLE, actions))
  {
    if actions != [] {
      QueuesRefineHistory(actions[..|actions| - 1]);
      StepNetOk(RunNet(IDLE, actions[..|actions| - 1]), actions[|actions| - 1]);
    }
  }

  /** An event is lost only to a full queue: right after the loss exactly the 128 events following it wait. */
  lemma LossNeedsFullQueue(actions: seq<NetAction>, a: NetAction, id: nat)
    requires var net, net' := RunNet(IDLE, actions), StepNet(RunNet(IDLE, actions), a);
             id in net.boxes && id in net'.boxes && net'.boxes[id].dropped != net.boxes[id].dropped
    ensures var net, net' := RunNet(IDLE, actions), StepNet(RunNet(IDLE, actions), a);
            var box, box' := net.boxes[id], net'.boxes[id];
            && a.Publish?
            && |box'.dropped| == |box.dropped| + 1 && box'.dropped[..|box.dropped|] == box.dropped
            && |box'.items| == 128
            && forall k | 0 <= k < 128 ::
                 box'.items[k].position == box'.dropped[|box.dropped|].position + 1 + k
  {
    QueuesRefineHistory(actions);
    StepNetOk(RunNet(IDLE, actions), a);
    var box := RunNet(IDLE, actions).boxes[id];
    assert a.Publish?;
    assert box.items[0].position == |RunNet(IDLE, actions).history| - |box.items|;
  }
}
