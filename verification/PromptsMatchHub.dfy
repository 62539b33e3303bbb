/**
 The prompts on screen against the hub's live map.  The invariant accounts for what is under way: events in
 a queue, clean-up tasks not yet run, verdicts in the helper.
 */
module PromptsMatchHub {
  import opened Events
  import opened HubModel
  import opened HubProtocol
  import opened FanOut
  import opened Notifications
  import opened SubscriberModel
  import opened Desk
  import opened ClearanceLoop
  import opened PromptRuns
  import opened Scenarios
  import VerdictAgreement

  // ---- the hub's half ----

  ghost predicate HasFlight(w: World, r: string) {
    exists i :: 0 <= i < |w.flights| && w.flights[i].requestId == r
  }

  /** The triple is answerable, being answered, or its id was left unbound by expiry or an aborted call. */
  ghost predicate Secure(w: World, r: string, b: Binding) {
    (r in w.hub.live && w.hub.live[r] == b) || HasFlight(w, r) || r in w.unbound
  }

  predicate Mentions(e: ClearanceEvent, r: string) {
    e.requestId == r && (e.kind.ConnectionBlocked? || e.kind.VerdictApplied?)
  }

  /** The latest block or outcome on the stream that names `r`. */
  function LastMention(h: seq<Emission>, r: string): Option<ClearanceEvent> {
    if h == [] then None
    else
      var e := h[|h| - 1].event;
      if Mentions(e, r) then Some(e) else LastMention(h[..|h| - 1], r)
  }

  /** Events that do not name `r` do not change what was last said of it. */
  lemma {:induction false} LastMentionSkips(h: seq<Emission>, n: nat, r: string)
    requires n <= |h| && forall k | n <= k < |h| :: !Mentions(h[k].event, r)
    ensures LastMention(h, r) == LastMention(h[..n], r)
  {
    if n == |h| {
      assert h[..n] == h;
    } else {
      LastMentionSkips(h[..|h| - 1], n, r);
      assert h[..|h| - 1][..n] == h[..n];
    }
  }

  lemma {:induction false} LastMentionIsThere(h: seq<Emission>, r: string)
    requires LastMention(h, r).Some?
    ensures exists k :: 0 <= k < |h| && h[k].event == LastMention(h, r).value && Mentions(h[k].event, r)
  {
    if !Mentions(h[|h| - 1].event, r) {
      LastMentionIsThere(h[..|h| - 1], r);
      var k :| 0 <= k < |h| - 1 && h[..|h| - 1][k].event == LastMention(h, r).value
               && Mentions(h[..|h| - 1][k].event, r);
      assert h[k] == h[..|h| - 1][k];
    }
  }

  /** A live id whose last mention is a block is bound to that block's triple, and was not unbound since. */
  ghost predicate BoundByLast(w: World, r: string) {
    var last := LastMention(w.history, r);
    r in w.hub.live && last.Some? && last.value.kind.ConnectionBlocked? ==>
      w.hub.live[r] == BindingOf(last.value) && r !in w.unbound
  }

  ghost predicate BindingsCurrent(w: World) {
    forall r :: BoundByLast(w, r)
  }

  /** A relayed event binds its own id, if it is a block, and no other one. */
  lemma TrackBinds(hub: HubState, event: ClearanceEvent, now: real, r: string)
    requires Coherent(hub) && r in Track(hub, event, now).live
    ensures r != ""
            && if event.kind.ConnectionBlocked? && event.requestId == r
            then Track(hub, event, now).live[r] == BindingOf(event)
            else r in hub.live && Track(hub, event, now).live[r] == hub.live[r]
  {
  }

  lemma ReadBinds(w: World, raw: RawEvent, r: string)
    requires Coherent(w.hub) && BoundByLast(w, r)
    ensures BoundByLast(StepRead(w, raw), r)
  {
    if Relayed(w.hub, raw).Some? {
      var event := Relayed(w.hub, raw).value;
      Append(w.history, Emission(event, w.clock));
      assert LastMention(StepRead(w, raw).history, r)
          == if Mentions(event, r) then Some(event) else LastMention(w.history, r);
      if r in Track(w.hub, event, w.clock).live { TrackBinds(w.hub, event, w.clock, r); }
    }
  }

  lemma ReplyBinds(w: World, i: nat, ok: bool, stderr: string, r: string)
    requires i < |w.flights| && BoundByLast(w, r)
    ensures BoundByLast(StepReply(w, i, ok, stderr), r)
  {
    var h' := StepReply(w, i, ok, stderr).history;
    assert h'[..|h'| - 1] == w.history;
  }

  lemma StepBinds(w: World, a: Action, r: string)
    requires Coherent(w.hub) && BoundByLast(w, r)
    ensures BoundByLast(Step(w, a), r)
  {
    match a
    case Read(raw) => ReadBinds(w, raw, r);
    case Reply(i, ok, stderr) => if i < |w.flights| { ReplyBinds(w, i, ok, stderr, r); }
    case _ =>
  }

  lemma FlightsWithout(w: World, i: nat, r: string)
    requires i < |w.flights| && HasFlight(w, r) && w.flights[i].requestId != r
    ensures HasFlight(w.(flights := Without(w.flights, i)), r)
  {
    var k :| 0 <= k < |w.flights| && w.flights[k].requestId == r;
    var rest := Without(w.flights, i);
    assert rest[if k < i then k else k - 1].requestId == r;
  }

  lemma SecureBegin(w: World, container: string, requestId: string, dest: string, action: string, r: string, b: Binding)
    requires Secure(w, r, b) && (r in w.hub.live ==> w.hub.live[r] == b)
    ensures Secure(StepBegin(w, container, requestId, dest, action), r, b)
  {
    var w' := StepBegin(w, container, requestId, dest, action);
    var admitted := Admit(w.hub, container, requestId, dest, action);
    if HasFlight(w, r) {
      var k :| 0 <= k < |w.flights| && w.flights[k].requestId == r;
      assert w'.flights[k].requestId == r;
    } else if admitted.Ok? && requestId == r {
      assert w'.flights[|w.flights|].requestId == r;
    }
  }

  /** What takes a bound triple away silently is recorded; everything else goes out on the stream. */
  lemma SecureStep(w: World, a: Action, r: string, b: Binding)
    requires Secure(w, r, b) && (r in w.hub.live ==> w.hub.live[r] == b)
    ensures var w' := Step(w, a);
            || Secure(w', r, b)
            || (|w'.history| == |w.history| + 1
                && (Mentions(w'.history[|w.history|].event, r) || Retires(w'.history[|w.history|].event, b.container)))
  {
    match a
    case Read(raw) =>
      assert HasFlight(w, r) ==> HasFlight(Step(w, a), r);
    case Sweep =>
      assert HasFlight(w, r) ==> HasFlight(Step(w, a), r);
    case Begin(container, requestId, dest, action) => SecureBegin(w, container, requestId, dest, action, r, b);
    case Reply(i, ok, stderr) =>
      if i < |w.flights| && w.flights[i].requestId != r && HasFlight(w, r) {
        FlightsWithout(w, i, r);
        assert HasFlight(Step(w, a), r);
      }
    case Abort(i) =>
      if i < |w.flights| && w.flights[i].requestId != r && HasFlight(w, r) {
        FlightsWithout(w, i, r);
        assert HasFlight(Step(w, a), r);
      }
    case Mute(key, on) =>
      assert HasFlight(w, r) ==> HasFlight(Step(w, a), r);
    case Tick(dt) =>
      assert HasFlight(w, r) ==> HasFlight(Step(w, a), r);
  }

  /** A block event with an id is answerable when it goes out. */
  lemma BlockIsSecure(w: World, a: Action)
    requires |Step(w, a).history| == |w.history| + 1
    ensures var w' := Step(w, a);
            var e := w'.history[|w.history|].event;
            e.kind.ConnectionBlocked? && e.requestId != "" ==>
              Secure(w', e.requestId, BindingOf(e))
  {
  }

  // ---- the subscriber's half ----

  ghost predicate Mentioned(q: seq<Letter>, from: nat, r: string) {
    exists k :: from <= k < |q| && Mentions(q[k].event, r)
  }

  ghost predicate Retired(q: seq<Letter>, from: nat, container: string) {
    exists k :: from <= k < |q| && Retires(q[k].event, container)
  }

  /** The queue holds the last events of the stream. */
  ghost predicate Waiting(w: World, q: seq<Letter>) {
    && |q| <= |w.history|
    && forall i | 0 <= i < |q| :: q[i].event == w.history[|w.history| - |q| + i].event
  }

  /** What the subscriber has behind it. */
  function Delivered(w: World, q: seq<Letter>): seq<Emission> {
    if |q| <= |w.history| then w.history[..|w.history| - |q|] else []
  }

  /** A queued block event that nothing later in the queue supersedes. */
  ghost predicate QueuedCovered(w: World, q: seq<Letter>, i: nat)
    requires i < |q|
  {
    var e := q[i].event;
    e.kind.ConnectionBlocked? && e.requestId != "" && !Mentioned(q, i + 1, e.requestId) ==>
      Secure(w, e.requestId, BindingOf(e)) || Retired(q, i + 1, e.container)
  }

  /** The prompt stands for this block's triple. */
  predicate Shows(p: PendingBlock, e: ClearanceEvent) {
    On(p, e.container, e.Target())
  }

  /**
   What a prompt's subscriber heard last of its id is a block.  If the prompt shows that block's triple, and
   nothing in the queue supersedes it, the triple is secure or a purge is on its way.
   */
  ghost predicate PromptCovered(w: World, q: seq<Letter>, sub: Subscriber, r: string, smooth: bool)
    requires r in sub.pending
  {
    var p, last := sub.pending[r], LastMention(Delivered(w, q), r);
    && last.Some? && last.value.kind.ConnectionBlocked?
    && (smooth ==> Shows(p, last.value))
    && (r != "" && !Mentioned(q, 0, r) && Shows(p, last.value) ==>
          Secure(w, r, BindingOf(last.value)) || Retired(q, 0, p.container) || PurgeQueued(sub.tasks, p.container))
  }

  /** `smooth` adds that every prompt shows what its subscriber heard last of its id. */
  ghost predicate Tracks(w: World, q: seq<Letter>, sub: Subscriber, smooth: bool) {
    && (forall i | 0 <= i < |q| :: QueuedCovered(w, q, i))
    && (forall r | r in sub.pending :: PromptCovered(w, q, sub, r, smooth))
  }

  /** A queued block that nothing later in the queue mentions is the last word on its id. */
  lemma QueuedIsLast(w: World, q: seq<Letter>, i: nat, r: string)
    requires Waiting(w, q) && i < |q| && Mentions(q[i].event, r) && !Mentioned(q, i + 1, r)
    ensures LastMention(w.history, r) == Some(q[i].event)
  {
    var h, n := w.history, |w.history| - |q| + i + 1;
    forall k | n <= k < |h| ensures !Mentions(h[k].event, r) {
      assert q[k - (|h| - |q|)].event == h[k].event;
    }
    LastMentionSkips(h, n, r);
    assert h[..n][n - 1].event == q[i].event;
  }

  /** If the queue does not mention an id, the last word on it was delivered. */
  lemma DeliveredIsLast(w: World, q: seq<Letter>, r: string)
    requires Waiting(w, q) && !Mentioned(q, 0, r)
    ensures LastMention(w.history, r) == LastMention(Delivered(w, q), r)
  {
    var h, n := w.history, |w.history| - |q|;
    forall k | n <= k < |h| ensures !Mentions(h[k].event, r) {
      assert q[k - n].event == h[k].event;
    }
    LastMentionSkips(h, n, r);
  }

  // ---- a hub step ----

  lemma Extended(q: seq<Letter>, x: Letter, from: nat, r: string, c: string)
    requires from <= |q|
    ensures Mentioned(q + [x], from, r) <==> Mentioned(q, from, r) || Mentions(x.event, r)
    ensures Retired(q + [x], from, c) <==> Retired(q, from, c) || Retires(x.event, c)
  {
    var q' := q + [x];
    if Mentioned(q, from, r) {
      var k :| from <= k < |q| && Mentions(q[k].event, r);
      assert Mentions(q'[k].event, r);
    }
    if Mentions(x.event, r) { assert Mentions(q'[|q|].event, r); }
    if Retired(q, from, c) {
      var k :| from <= k < |q| && Retires(q[k].event, c);
      assert Retires(q'[k].event, c);
    }
    if Retires(x.event, c) { assert Retires(q'[|q|].event, c); }
  }

  /** A hub step and a queued block: it stays covered, or the event the step emits supersedes it. */
  lemma QueuedStep(w: World, a: Action, q: seq<Letter>, i: nat)
    requires Waiting(w, q) && i < |q| && QueuedCovered(w, q, i)
    requires BoundByLast(w, q[i].event.requestId)
    ensures var e, w' := q[i].event, Step(w, a);
            e.kind.ConnectionBlocked? && e.requestId != "" && !Mentioned(q, i + 1, e.requestId) ==>
              || Secure(w', e.requestId, BindingOf(e)) || Retired(q, i + 1, e.container)
              || Superseded(w, w', e.requestId, e.container)
  {
    var e := q[i].event;
    if Secure(w, e.requestId, BindingOf(e)) && e.kind.ConnectionBlocked? && !Mentioned(q, i + 1, e.requestId) {
      QueuedIsLast(w, q, i, e.requestId);
      SecureStep(w, a, e.requestId, BindingOf(e));
    }
  }

  /** The step emitted a word on `r`, or one that retires the container's prompts. */
  predicate Superseded(w: World, w': World, r: string, container: string) {
    && |w'.history| == |w.history| + 1
    && (Mentions(w'.history[|w.history|].event, r) || Retires(w'.history[|w.history|].event, container))
  }

  lemma PromptStep(w: World, a: Action, q: seq<Letter>, sub: Subscriber, r: string, smooth: bool)
    requires Waiting(w, q) && r in sub.pending && PromptCovered(w, q, sub, r, smooth) && BoundByLast(w, r)
    ensures var p, last, w' := sub.pending[r], LastMention(Delivered(w, q), r).value, Step(w, a);
            r != "" && !Mentioned(q, 0, r) && Shows(p, last) ==>
              || Secure(w', r, BindingOf(last)) || Retired(q, 0, p.container) || PurgeQueued(sub.tasks, p.container)
              || Superseded(w, w', r, p.container)
  {
    var last := LastMention(Delivered(w, q), r).value;
    if Secure(w, r, BindingOf(last)) && !Mentioned(q, 0, r) {
      DeliveredIsLast(w, q, r);
      SecureStep(w, a, r, BindingOf(last));
    }
  }

  lemma SilentStepTracks(w: World, a: Action, q: seq<Letter>, sub: Subscriber, smooth: bool)
    requires Waiting(w, q) && Tracks(w, q, sub, smooth) && |Step(w, a).history| == |w.history|
    requires BindingsCurrent(w)
    ensures Tracks(Step(w, a), q, sub, smooth)
  {
    HistoryGrows(w, a);
    assert Delivered(Step(w, a), q) == Delivered(w, q);
    forall i | 0 <= i < |q| ensures QueuedCovered(Step(w, a), q, i) {
      assert BoundByLast(w, q[i].event.requestId);
      QueuedStep(w, a, q, i);
    }
    forall r | r in sub.pending ensures PromptCovered(Step(w, a), q, sub, r, smooth) {
      assert BoundByLast(w, r);
      PromptStep(w, a, q, sub, r, smooth);
    }
  }

  lemma EmittedQueuedCovered(w: World, a: Action, q: seq<Letter>, x: Letter, i: nat)
    requires |Step(w, a).history| == |w.history| + 1 && x.event == Step(w, a).history[|w.history|].event
    requires i <= |q| && Waiting(w, q)
    requires i < |q| ==> QueuedCovered(w, q, i) && BoundByLast(w, q[i].event.requestId)
    ensures QueuedCovered(Step(w, a), q + [x], i)
  {
    var e := (q + [x])[i].event;
    if i < |q| {
      Extended(q, x, i + 1, e.requestId, e.container);
      QueuedStep(w, a, q, i);
    } else {
      BlockIsSecure(w, a);
    }
  }

  lemma EmittingStepTracks(w: World, a: Action, q: seq<Letter>, x: Letter, sub: Subscriber, smooth: bool)
    requires |Step(w, a).history| == |w.history| + 1 && x.event == Step(w, a).history[|w.history|].event
    requires Waiting(w, q) && Tracks(w, q, sub, smooth)
    requires BindingsCurrent(w)
    ensures Tracks(Step(w, a), q + [x], sub, smooth)
  {
    HistoryGrows(w, a);
    assert Delivered(Step(w, a), q + [x]) == Delivered(w, q);
    forall i | 0 <= i < |q + [x]| ensures QueuedCovered(Step(w, a), q + [x], i) {
      assert i < |q| ==> QueuedCovered(w, q, i) && BoundByLast(w, q[i].event.requestId);
      EmittedQueuedCovered(w, a, q, x, i);
    }
    forall r | r in sub.pending ensures PromptCovered(Step(w, a), q + [x], sub, r, smooth) {
      assert BoundByLast(w, r);
      Extended(q, x, 0, r, sub.pending[r].container);
      PromptStep(w, a, q, sub, r, smooth);
    }
  }

  // ---- a delivery ----

  lemma Shortened(q: seq<Letter>, from: nat, r: string, c: string)
    requires q != []
    ensures Mentioned(q[1..], from, r) <==> Mentioned(q, from + 1, r)
    ensures Retired(q[1..], from, c) <==> Retired(q, from + 1, c)
    ensures Mentioned(q, 0, r) <==> Mentions(q[0].event, r) || Mentioned(q, 1, r)
    ensures Retired(q, 0, c) <==> Retires(q[0].event, c) || Retired(q, 1, c)
  {
  }

  /** After a delivery a prompt was there before and its id is not the event's, or it is the event's own block. */
  lemma DeliveredPrompt(s: Screen, e: ClearanceEvent, now: string, raises: bool, r: string)
    requires r in OnEvent(s, e, now, raises).sub.pending
    ensures var p := OnEvent(s, e, now, raises).sub.pending[r];
            if Mentions(e, r) then
              && e.kind.ConnectionBlocked?
              && (NotifyBlocked in s.sub.enabled && e.Target() != "" && !raises ==> Shows(p, e))
            else r in s.sub.pending && s.sub.pending[r] == p
  {
  }

  /** What smoothness asks of a delivery: a block that comes in is shown, unless no block ever is. */
  predicate SmoothDelivery(sub: Subscriber, e: ClearanceEvent, raises: bool) {
    && (NotifyBlocked !in sub.enabled ==> sub.pending == map[])
    && (e.kind.ConnectionBlocked? ==> e.Target() != "" && !raises)
  }

  lemma DeliveryTracks(w: World, q: seq<Letter>, s: Screen, now: string, raises: bool, smooth: bool)
    requires q != [] && Waiting(w, q) && Tracks(w, q, s.sub, smooth)
    requires smooth ==> SmoothDelivery(s.sub, q[0].event, raises)
    ensures Tracks(w, q[1..], OnEvent(s, q[0].event, now, raises).sub, smooth)
  {
    forall i | 0 <= i < |q[1..]| ensures QueuedCovered(w, q[1..], i) {
      assert QueuedCovered(w, q, i + 1);
      Shortened(q, i + 1, q[i + 1].event.requestId, q[i + 1].event.container);
    }
    var sub' := OnEvent(s, q[0].event, now, raises).sub;
    forall r | r in sub'.pending ensures PromptCovered(w, q[1..], sub', r, smooth) {
      PromptDelivered(w, q, s, now, raises, smooth, r);
    }
  }

  lemma PromptDelivered(
    w: World, q: seq<Letter>, s: Screen, now: string, raises: bool, smooth: bool, r: string)
    requires q != [] && Waiting(w, q) && Tracks(w, q, s.sub, smooth)
    requires smooth ==> SmoothDelivery(s.sub, q[0].event, raises)
    requires r in OnEvent(s, q[0].event, now, raises).sub.pending
    ensures PromptCovered(w, q[1..], OnEvent(s, q[0].event, now, raises).sub, r, smooth)
  {
    var e := q[0].event;
    var p := OnEvent(s, e, now, raises).sub.pending[r];
    DeliveredPrompt(s, e, now, raises, r);
    DeliveredTasks(s, e, now, raises, p.container);
    Shortened(q, 0, r, p.container);
    var done := Delivered(w, q[1..]);
    assert done[..|done| - 1] == Delivered(w, q) && done[|done| - 1].event == e;
    if Mentions(e, r) {
      assert QueuedCovered(w, q, 0);
    } else {
      assert PromptCovered(w, q, s.sub, r, smooth);
    }
  }

  // ---- a background task ----

  lemma TaskTracks(w: World, q: seq<Letter>, s: Screen, raises: bool, smooth: bool)
    requires s.sub.tasks != [] && Tracks(w, q, s.sub, smooth)
    ensures Tracks(w, q, RunTask(s, raises).sub, smooth)
  {
    var sub' := RunTask(s, raises).sub;
    forall r | r in sub'.pending ensures PromptCovered(w, q, sub', r, smooth) {
      var p := sub'.pending[r];
      assert r in s.sub.pending && s.sub.pending[r] == p && !Purges(s.sub.tasks[0], p.container);
      assert PromptCovered(w, q, s.sub, r, smooth);
      PurgeQueuedFirst(s.sub.tasks, p.container);
    }
  }

  lemma ClickTracks(w: World, q: seq<Letter>, sub: Subscriber, click: Click, action: string, smooth: bool)
    requires Tracks(w, q, sub, smooth)
    ensures Tracks(w, q, OnClick(sub, click, action), smooth)
  {
    var sub' := OnClick(sub, click, action);
    forall r | r in sub'.pending ensures PromptCovered(w, q, sub', r, smooth) {
      assert PromptCovered(w, q, sub, r, smooth);
      ClickedTasks(sub, click, action, sub.pending[r].container);
    }
  }

  // ---- the loop ----

  /** The subscriber has been on the stream since it connected, and its queue never overflowed. */
  ghost predicate Lossless(s: Loop, id: nat) {
    id in s.desk.subs && id in s.net.boxes && id !in s.interrupted && s.net.boxes[id].dropped == []
  }

  ghost predicate Synced(s: Loop, id: nat, smooth: bool) {
    && (id in s.desk.subs && id !in s.interrupted ==> id in s.net.boxes)
    && (Lossless(s, id) ==> Tracks(s.world, s.net.boxes[id].items, s.desk.subs[id], smooth))
  }

  ghost predicate QueueIsTail(s: Loop, id: nat) {
    id in s.net.boxes ==> Waiting(s.world, s.net.boxes[id].items)
  }

  lemma QueuesAreTails(s: Loop, id: nat)
    requires SameHistory(s) && NetOk(s.net)
    ensures QueueIsTail(s, id)
  {
    if id in s.net.boxes {
      assert BoxOk(s.net.history, s.net.boxes[id]);
    }
  }

  lemma HubSynced(s: Loop, a: Action, id: nat, smooth: bool)
    requires QueueIsTail(s, id) && BindingsCurrent(s.world) && Synced(s, id, smooth)
    ensures Synced(HubDoes(s, a), id, smooth)
  {
    var s' := HubDoes(s, a);
    HistoryGrows(s.world, a);
    if Lossless(s', id) {
      assert Lossless(s, id);
      if |s'.world.history| > |s.world.history| {
        var x := Letter(s'.world.history[|s.world.history|].event, |s.net.history|);
        assert s'.net.boxes[id].items == s.net.boxes[id].items + [x];
        EmittingStepTracks(s.world, a, s.net.boxes[id].items, x, s.desk.subs[id], smooth);
      } else {
        SilentStepTracks(s.world, a, s.net.boxes[id].items, s.desk.subs[id], smooth);
      }
    }
  }

  lemma DeliverSynced(s: Loop, i: nat, now: string, raises: bool, id: nat, smooth: bool)
    requires QueueIsTail(s, id) && Synced(s, id, smooth)
    requires smooth ==> SmoothStep(s, DeliverNext(i, now, raises), id)
    ensures Synced(StepLoop(s, DeliverNext(i, now, raises)), id, smooth)
  {
    var s' := StepLoop(s, DeliverNext(i, now, raises));
    if i == id && Lossless(s', id) && s.net.boxes[id].items != [] {
      assert Lossless(s, id);
      DeliveryTracks(s.world, s.net.boxes[id].items, ScreenOf(s.desk, id), now, raises, smooth);
    }
  }

  lemma TaskSynced(s: Loop, i: nat, raises: bool, id: nat, smooth: bool)
    requires Synced(s, id, smooth)
    ensures Synced(StepLoop(s, RunNextTask(i, raises)), id, smooth)
  {
    if i == id && Lossless(s, id) && s.desk.subs[id].tasks != [] {
      TaskTracks(s.world, s.net.boxes[id].items, ScreenOf(s.desk, id), raises, smooth);
    }
  }

  lemma ClickSynced(s: Loop, nid: nat, action: string, id: nat, smooth: bool)
    requires Synced(s, id, smooth)
    ensures Synced(StepLoop(s, ClickOn(nid, action)), id, smooth)
  {
    if nid in s.desk.notifier.callbacks && Lossless(s, id) {
      ClickTracks(
        s.world, s.net.boxes[id].items, s.desk.subs[id], s.desk.notifier.callbacks[nid], action, smooth);
    }
  }

  ghost predicate SmoothStep(s: Loop, a: LoopAction, id: nat) {
    a.DeliverNext? && a.id == id && id in s.desk.subs && id in s.net.boxes && s.net.boxes[id].items != [] ==>
      SmoothDelivery(s.desk.subs[id], s.net.boxes[id].items[0].event, a.raises)
  }

  lemma SubmitSynced(s: Loop, i: nat, id: nat, smooth: bool)
    requires QueueIsTail(s, id) && BindingsCurrent(s.world) && Synced(s, id, smooth) && i < |s.calls|
    ensures Synced(StepLoop(s, Submit(i)), id, smooth)
  {
    var call := s.calls[i];
    HubSynced(s, Begin(call.container, call.requestId, call.dest, call.action), id, smooth);
  }

  lemma StepSynced(s: Loop, a: LoopAction, id: nat, smooth: bool)
    requires QueueIsTail(s, id) && BindingsCurrent(s.world) && Synced(s, id, smooth)
    requires smooth ==> SmoothStep(s, a, id)
    ensures Synced(StepLoop(s, a), id, smooth)
  {
    match a
    case HubStep(step) => HubSynced(s, step, id, smooth);
    case Connect(_, _) =>
    case Cut(_) =>
    case Reconnect(_) =>
    case DeliverNext(i, now, raises) => DeliverSynced(s, i, now, raises, id, smooth);
    case RunNextTask(i, raises) => TaskSynced(s, i, raises, id, smooth);
    case ClickOn(nid, action) => ClickSynced(s, nid, action, id, smooth);
    case Submit(i) => if i < |s.calls| { SubmitSynced(s, i, id, smooth); }
    case DropCall(i) =>
  }

  lemma LoopStepBinds(s: Loop, a: LoopAction, r: string)
    requires Traced(s.world) && BoundByLast(s.world, r)
    ensures BoundByLast(StepLoop(s, a).world, r)
  {
    if a.HubStep? {
      StepBinds(s.world, a.step, r);
    } else if a.Submit? && a.i < |s.calls| {
      var call := s.calls[a.i];
      StepBinds(s.world, Begin(call.container, call.requestId, call.dest, call.action), r);
    }
  }

  lemma {:induction false} AllBound(
    config: HubConfig, seeds: seq<string>, t0: real, actions: seq<LoopAction>, r: string)
    ensures BoundByLast(RunLoop(Opening(config, seeds, t0), actions).world, r)
  {
    if actions != [] {
      AllBound(config, seeds, t0, actions[..|actions| - 1], r);
      LoopInvariant(config, seeds, t0, actions[..|actions| - 1]);
      LoopStepBinds(RunLoop(Opening(config, seeds, t0), actions[..|actions| - 1]), actions[|actions| - 1], r);
    }
  }

  // ---- smooth runs ----

  ghost predicate ShowsNothingDisabled(d: DeskState, id: nat) {
    id in d.subs && NotifyBlocked !in d.subs[id].enabled ==> d.subs[id].pending == map[]
  }

  lemma StepShowsNothingDisabled(d: DeskState, a: DeskAction, id: nat)
    requires ShowsNothingDisabled(d, id)
    ensures ShowsNothingDisabled(StepDesk(d, a), id)
  {
  }

  lemma {:induction false} DisabledShowsNothing(
    config: HubConfig, seeds: seq<string>, t0: real, actions: seq<LoopAction>, id: nat)
    ensures ShowsNothingDisabled(RunLoop(Opening(config, seeds, t0), actions).desk, id)
  {
    if actions != [] {
      var prefix, last := actions[..|actions| - 1], actions[|actions| - 1];
      var s := RunLoop(Opening(config, seeds, t0), prefix);
      DisabledShowsNothing(config, seeds, t0, prefix, id);
      var a := DeskPart(s, last);
      StepOnDesk(s, last);
      if a.Some? { StepShowsNothingDisabled(s.desk, a.value, id); }
    }
  }

  /** Every block on the stream names a target, and no delivery to `id` met a raising hook. */
  ghost predicate Smooth(s: Loop, actions: seq<LoopAction>, id: nat) {
    && (forall i | 0 <= i < |s.world.history| ::
          s.world.history[i].event.kind.ConnectionBlocked? ==> s.world.history[i].event.Target() != "")
    && (forall a | a in actions :: a.DeliverNext? && a.id == id ==> !a.raises)
  }

  lemma SmoothRunStep(s: Loop, a: LoopAction, id: nat)
    requires QueueIsTail(s, id) && ShowsNothingDisabled(s.desk, id) && Smooth(s, [a], id)
    ensures SmoothStep(s, a, id)
  {
    assert a in [a];
    if id in s.net.boxes && s.net.boxes[id].items != [] {
      assert s.net.boxes[id].items[0].event
          == s.world.history[|s.world.history| - |s.net.boxes[id].items|].event;
    }
  }

  lemma EarlierSmooth(s: Loop, prefix: seq<LoopAction>, a: LoopAction, id: nat)
    requires Smooth(StepLoop(s, a), prefix + [a], id)
    ensures Smooth(s, prefix, id) && Smooth(s, [a], id)
  {
    VerdictAgreement.HistoryKept(s, a);
    var h, h' := s.world.history, StepLoop(s, a).world.history;
    forall i | 0 <= i < |h| ensures h[i] == h'[i] {
      assert h'[..|h|][i] == h[i];
    }
    assert a in prefix + [a];
  }

  // ---- the theorems ----

  /** The invariant of every run; with `smooth`, of every smooth one. */
  lemma {:induction false} RunSynced(
    config: HubConfig, seeds: seq<string>, t0: real, actions: seq<LoopAction>, id: nat, smooth: bool)
    requires smooth ==> Smooth(RunLoop(Opening(config, seeds, t0), actions), actions, id)
    ensures Synced(RunLoop(Opening(config, seeds, t0), actions), id, smooth)
  {
    if actions != [] {
      var prefix, last := actions[..|actions| - 1], actions[|actions| - 1];
      var s := RunLoop(Opening(config, seeds, t0), prefix);
      assert actions == prefix + [last];
      LoopInvariant(config, seeds, t0, prefix);
      QueuesAreTails(s, id);
      if smooth {
        EarlierSmooth(s, prefix, last, id);
        DisabledShowsNothing(config, seeds, t0, prefix, id);
        SmoothRunStep(s, last, id);
      }
      RunSynced(config, seeds, t0, prefix, id, smooth);
      forall r ensures BoundByLast(s.world, r) {
        AllBound(config, seeds, t0, prefix, r);
      }
      StepSynced(s, last, id, smooth);
    }
  }

  /** Nothing is under way for `id`: no queued event, no verdict in the helper, no clean-up task. */
  ghost predicate Quiet(s: Loop, id: nat) {
    Lossless(s, id) && s.net.boxes[id].items == [] && s.world.flights == []
    && forall c :: !PurgeQueued(s.desk.subs[id].tasks, c)
  }

  predicate Answerable(hub: HubState, p: PendingBlock) {
    p.requestId in hub.live && hub.live[p.requestId] == Binding(p.container, p.target)
  }

  /**
   The simulation, over every run.  When a lossless subscriber has caught up, the last word on the id of each
   prompt is a block, and the hub will accept a verdict on what the prompt shows exactly if the id is not
   empty, neither expiry nor an aborted call unbound it since that block, and the prompt shows that block's
   container and target.
   */
  lemma ScreenMatchesHub(
    config: HubConfig, seeds: seq<string>, t0: real, actions: seq<LoopAction>, id: nat, r: string)
    requires var s := RunLoop(Opening(config, seeds, t0), actions);
             Quiet(s, id) && r in s.desk.subs[id].pending
    ensures var s := RunLoop(Opening(config, seeds, t0), actions);
            var p, last := s.desk.subs[id].pending[r], LastMention(s.world.history, r);
            && last.Some? && last.value.kind.ConnectionBlocked?
            && (Answerable(s.world.hub, p) <==>
                r != "" && r !in s.world.unbound && Shows(p, last.value))
  {
    var s := RunLoop(Opening(config, seeds, t0), actions);
    RunSynced(config, seeds, t0, actions, id, false);
    LoopInvariant(config, seeds, t0, actions);
    AllBound(config, seeds, t0, actions, r);
    PromptFiled(s, id, r);
    QuietCovered(s, id, r, false);
    RestDecides(s.world, s.desk.subs[id].pending[r], r);
  }

  /** What the invariant says of a prompt once nothing is under way. */
  lemma QuietCovered(s: Loop, id: nat, r: string, smooth: bool)
    requires Synced(s, id, smooth) && Quiet(s, id) && r in s.desk.subs[id].pending
    ensures var p, last := s.desk.subs[id].pending[r], LastMention(s.world.history, r);
            && last.Some? && last.value.kind.ConnectionBlocked?
            && (smooth ==> Shows(p, last.value))
            && (r != "" && Shows(p, last.value) ==> Secure(s.world, r, BindingOf(last.value)))
  {
    assert PromptCovered(s.world, [], s.desk.subs[id], r, smooth);
    assert Delivered(s.world, []) == s.world.history;
  }

  lemma PromptFiled(s: Loop, id: nat, r: string)
    requires LoopOk(s) && id in s.desk.subs && r in s.desk.subs[id].pending
    ensures Coherent(s.world.hub) && s.desk.subs[id].pending[r].requestId == r
  {
    assert ScreenOk(ScreenOf(s.desk, id));
  }

  lemma RestDecides(w: World, p: PendingBlock, r: string)
    requires Coherent(w.hub) && w.flights == [] && BoundByLast(w, r) && p.requestId == r
    requires var last := LastMention(w.history, r);
             && last.Some? && last.value.kind.ConnectionBlocked?
             && (r != "" && Shows(p, last.value) ==> Secure(w, r, BindingOf(last.value)))
    ensures Answerable(w.hub, p) <==>
            r != "" && r !in w.unbound && Shows(p, LastMention(w.history, r).value)
  {
  }

  /**
   The other half: which live ids are on screen.  A verdict on a live id can be given from the screen exactly
   if what was delivered leaves a prompt standing for the triple the hub has bound.
   */
  lemma LiveOnScreen(
    config: HubConfig, seeds: seq<string>, t0: real, actions: seq<LoopAction>, id: nat, r: string)
    requires var s := RunLoop(Opening(config, seeds, t0), actions); Quiet(s, id) && r in s.world.hub.live
    ensures var s := RunLoop(Opening(config, seeds, t0), actions);
            var pending := s.desk.subs[id].pending;
            r in pending && Answerable(s.world.hub, pending[r]) <==>
            Standing(DeskTrace(Opening(config, seeds, t0), actions), id, r) == Some(s.world.hub.live[r])
  {
    var s := RunLoop(Opening(config, seeds, t0), actions);
    LoopRunsDesk(config, seeds, t0, actions);
    LoopInvariant(config, seeds, t0, actions);
    PromptIsAFold(DeskTrace(Opening(config, seeds, t0), actions), id, r);
    if r in s.desk.subs[id].pending { PromptFiled(s, id, r); }
  }

  /** Steps that can unbind an id without a word on the stream. */
  predicate Silent(a: LoopAction, ttl: Option<real>) {
    a.HubStep? && (a.step.Abort? || (a.step.Sweep? && ttl.Some?))
  }

  lemma StepUnbindsNothing(w: World, a: Action)
    requires w.unbound == {} && !a.Abort? && (a.Sweep? ==> w.hub.config.ttl.None?)
    ensures Step(w, a).unbound == {} && Step(w, a).hub.config == w.hub.config
  {
  }

  lemma {:induction false} NothingUnbound(config: HubConfig, seeds: seq<string>, t0: real, actions: seq<LoopAction>)
    requires forall a | a in actions :: !Silent(a, config.ttl)
    ensures var w := RunLoop(Opening(config, seeds, t0), actions).world; w.unbound == {} && w.hub.config == config
  {
    if actions != [] {
      var prefix, last := actions[..|actions| - 1], actions[|actions| - 1];
      var s := RunLoop(Opening(config, seeds, t0), prefix);
      NothingUnbound(config, seeds, t0, prefix);
      assert last in actions;
      if last.HubStep? {
        StepUnbindsNothing(s.world, last.step);
      } else if last.Submit? && last.i < |s.calls| {
        var call := s.calls[last.i];
        StepUnbindsNothing(s.world, Begin(call.container, call.requestId, call.dest, call.action));
      }
    }
  }

  /** A prompt shows the last block under its id, when ids are not reused. */
  lemma UniqueIdIsCurrent(s: Loop, id: nat, r: string)
    requires LoopOk(s) && VerdictAgreement.OneTripleEach(s.world.history) && r != ""
    requires id in s.desk.subs && r in s.desk.subs[id].pending
    requires var last := LastMention(s.world.history, r); last.Some? && last.value.kind.ConnectionBlocked?
    ensures Shows(s.desk.subs[id].pending[r], LastMention(s.world.history, r).value)
  {
    var p := s.desk.subs[id].pending[r];
    assert ScreenOk(ScreenOf(s.desk, id)) && KnownPrompts(s.world, s.desk.subs[id].pending);
    LastMentionIsThere(s.world.history, r);
    var k :| 0 <= k < |s.world.history| && s.world.history[k].event == LastMention(s.world.history, r).value
             && Mentions(s.world.history[k].event, r);
    var i :| 0 <= i < |s.world.history| && IsBlockOf(s.world.history[i], r, Binding(p.container, p.target));
    assert VerdictAgreement.SameTriple(s.world.history[i].event, s.world.history[k].event);
  }

  /**
   Two settings in which exactly the prompts with an id are answerable: nothing was unbound silently, and
   either no id names two triples, or every block is shown, whatever ids are reused.
   */
  lemma PromptsAnswerable(
    config: HubConfig, seeds: seq<string>, t0: real, actions: seq<LoopAction>, id: nat, r: string)
    requires forall a | a in actions :: !Silent(a, config.ttl)
    requires var s := RunLoop(Opening(config, seeds, t0), actions);
             && Quiet(s, id) && r in s.desk.subs[id].pending
             && (Smooth(s, actions, id) || VerdictAgreement.OneTripleEach(s.world.history))
    ensures var s := RunLoop(Opening(config, seeds, t0), actions);
            Answerable(s.world.hub, s.desk.subs[id].pending[r]) <==> r != ""
  {
    var s := RunLoop(Opening(config, seeds, t0), actions);
    NothingUnbound(config, seeds, t0, actions);
    ScreenMatchesHub(config, seeds, t0, actions, id, r);
    if Smooth(s, actions, id) {
      RunSynced(config, seeds, t0, actions, id, true);
      QuietCovered(s, id, r, true);
    } else if r != "" {
      LoopInvariant(config, seeds, t0, actions);
      UniqueIdIsCurrent(s, id, r);
    }
  }

  /**
   Both ways in which a prompt can fall behind: a second block under its id names no target, or meets a
   raising hook.  Whatever the two lines are, the prompt left under the id is answerable exactly if the
   second block was shown or named the same triple.
   */
  lemma SecondBlockDecides(config: HubConfig, first: RawEvent, second: RawEvent, t0: real, raises: bool)
    requires BlockLine(config, first) && BlockLine(config, second)
    requires BlockOf(config, first).requestId == BlockOf(config, second).requestId
    requires BlockOf(config, first).Target() != ""
    ensures var a, b := BlockOf(config, first), BlockOf(config, second);
            var read := StepLoop(AfterOneBlock(config, first, t0), HubStep(Read(second)));
            var s := StepLoop(read, DeliverNext(0, "", raises));
            && Quiet(s, 0) && s.world.unbound == {} && a.requestId in s.desk.subs[0].pending
            && (Answerable(s.world.hub, s.desk.subs[0].pending[a.requestId]) <==>
                (b.Target() != "" && !raises) || BindingOf(a) == BindingOf(b))
  {
    var a, b := BlockOf(config, first), BlockOf(config, second);
    var s := AfterOneBlock(config, first, t0);
    OneBlockShown(config, first, t0);
    ReadsBlock(s, second, b);
    var read := StepLoop(s, HubStep(Read(second)));
    assert ShowsOnly(read, a);
    SecondDelivered(read, a, b, raises);
  }

  lemma SecondDelivered(s: Loop, a: ClearanceEvent, b: ClearanceEvent, raises: bool)
    requires ShowsOnly(s, a) && Queue(s, [b]) && b.kind.ConnectionBlocked? && b.requestId == a.requestId
    ensures var s' := StepLoop(s, DeliverNext(0, "", raises));
            && s'.world == s.world && s'.interrupted == {} && Queue(s', [])
            && 0 in s'.desk.subs && s'.desk.subs[0].tasks == [] && a.requestId in s'.desk.subs[0].pending
            && s'.desk.subs[0].pending[a.requestId].requestId == a.requestId
            && Shows(s'.desk.subs[0].pending[a.requestId], if b.Target() != "" && !raises then b else a)
  {
  }

  /** A live id without a prompt: a failed verdict puts the binding back, and its outcome takes the prompt away. */
  lemma FailedVerdictHidesLive(config: HubConfig, raw: RawEvent, t0: real, action: string, stderr: string)
    requires BlockLine(config, raw) && BlockOf(config, raw).Target() != "" && IsVerdictAction(action)
    ensures var e := BlockOf(config, raw);
            var begun :=
              StepLoop(AfterOneBlock(config, raw, t0), HubStep(Begin(e.container, e.requestId, e.Target(), action)));
            var s := StepLoop(StepLoop(begun, HubStep(Reply(0, false, stderr))), DeliverNext(0, "", false));
            && Quiet(s, 0) && s.desk.subs[0].pending == map[]
            && s.world.hub.live == map[e.requestId := BindingOf(e)]
  {
    var e := BlockOf(config, raw);
    var s := AfterOneBlock(config, raw, t0);
    OneBlockShown(config, raw, t0);
    VerdictFails(s, e, action, stderr);
    var begun := StepLoop(s, HubStep(Begin(e.container, e.requestId, e.Target(), action)));
    OutcomeDelivered(StepLoop(begun, HubStep(Reply(0, false, stderr))), e);
  }

  lemma VerdictFails(s: Loop, e: ClearanceEvent, action: string, stderr: string)
    requires s.world.flights == [] && s.world.hub.live == map[e.requestId := BindingOf(e)]
    requires IsVerdictAction(action) && Queue(s, [])
    ensures var begun := StepLoop(s, HubStep(Begin(e.container, e.requestId, e.Target(), action)));
            var s' := StepLoop(begun, HubStep(Reply(0, false, stderr)));
            && s'.desk == s.desk && s'.interrupted == s.interrupted && s'.world.flights == []
            && s'.world.hub.live == s.world.hub.live
            && Queue(s', [s'.net.boxes[0].items[0].event])
            && s'.net.boxes[0].items[0].event.kind.VerdictApplied?
            && s'.net.boxes[0].items[0].event.requestId == e.requestId
  {
  }

  lemma OutcomeDelivered(s: Loop, e: ClearanceEvent)
    requires 0 in s.net.boxes && |s.net.boxes[0].items| == 1 && s.net.boxes[0].dropped == []
    requires s.net.boxes[0].items[0].event.kind.VerdictApplied?
    requires s.net.boxes[0].items[0].event.requestId == e.requestId
    requires ShowsOnly(s, e) && s.world.flights == []
    ensures var s' := StepLoop(s, DeliverNext(0, "", false));
            Quiet(s', 0) && s'.desk.subs[0].pending == map[] && s'.world == s.world
  {
  }
}
