/**
 The closed loop: hub, bounded queues, subscribers over one notifier, and the verdicts their clicks send
 back.  Hub steps, other clients' verdicts, deliveries, background tasks, clicks and calls interleave freely.
 */
module ClearanceLoop {
  import opened Events
  import opened HubModel
  import opened HubProtocol
  import opened FanOut
  import opened Notifications
  import opened SubscriberModel
  import opened Desk

  datatype Loop = Loop(
    world: World,
    net: Net,
    desk: DeskState,
    calls: seq<VerdictCall>,       // verdicts on their way to the hub
    refusals: seq<VerdictError>,   // what the hub answered to the ones it refused
    interrupted: set<nat>)         // subscribers whose stream was ever cut

  datatype LoopAction =
    | HubStep(step: Action)
    | Connect(id: nat, enabled: set<Category>)
    | Cut(id: nat)
    | Reconnect(id: nat)
    | DeliverNext(id: nat, now: string, raises: bool)
    | RunNextTask(id: nat, raises: bool)
    | ClickOn(nid: nat, action: string)
    | Submit(i: nat)
    | DropCall(i: nat)

  function Opening(config: HubConfig, seeds: seq<string>, t0: real): Loop {
    Loop(Start(config, seeds, t0), IDLE, EMPTY_DESK, [], [], {})
  }

  /** A hub step, with what it emits put on every queue. */
  function HubDoes(s: Loop, a: Action): Loop {
    var world := Step(s.world, a);
    s.(world := world,
    net := if |world.history| > |s.world.history| then StepNet(s.net, Publish(world.history[|s.world.history|].event))
    else s.net)
  }

  ghost function StepLoop(s: Loop, a: LoopAction): Loop {
    match a
    case HubStep(step) => HubDoes(s, step)
    case Connect(id, enabled) =>
      if id in s.desk.subs || id in s.net.boxes then s
      else s.(net := StepNet(s.net, Join(id)), desk := StepDesk(s.desk, Attach(id, enabled)))
    case Cut(id) => s.(net := StepNet(s.net, Leave(id)), interrupted := s.interrupted + {id})
    case Reconnect(id) =>
      s.(net := StepNet(s.net, Join(id)), interrupted := s.interrupted + {id})
    case DeliverNext(id, now, raises) =>
      if id in s.net.boxes && s.net.boxes[id].items != [] then
        s.(net := StepNet(s.net, Take(id)),
        desk := StepDesk(s.desk, Deliver(id, s.net.boxes[id].items[0].event, now, raises)))
      else s
    case RunNextTask(id, raises) =>
      if id in s.desk.subs && s.desk.subs[id].tasks != [] then
        var task := s.desk.subs[id].tasks[0];
        s.(desk := StepDesk(s.desk, RunNext(id, raises)),
        calls := if task.SendVerdict? then s.calls + [task.call] else s.calls)
      else s
    case ClickOn(nid, action) => s.(desk := StepDesk(s.desk, UserClick(nid, action)))
    case Submit(i) =>
      if i < |s.calls| then
        var call := s.calls[i];
        var answer := Admit(s.world.hub, call.container, call.requestId, call.dest, call.action);
        HubDoes(s, Begin(call.container, call.requestId, call.dest, call.action)).(
        calls := Without(s.calls, i),
        refusals := if answer.Err? then s.refusals + [answer.error] else s.refusals)
      else s
    case DropCall(i) => if i < |s.calls| then s.(calls := Without(s.calls, i)) else s
  }

  ghost function RunLoop(s: Loop, actions: seq<LoopAction>): Loop {
    if actions == [] then s else StepLoop(RunLoop(s, actions[..|actions| - 1]), actions[|actions| - 1])
  }

  /** What a step of the loop does to the desk. */
  ghost function DeskPart(s: Loop, a: LoopAction): Option<DeskAction> {
    match a
    case Connect(id, enabled) => if id in s.desk.subs || id in s.net.boxes then None else Some(Attach(id, enabled))
    case DeliverNext(id, now, raises) =>
      if id in s.net.boxes && s.net.boxes[id].items != [] then
        Some(Deliver(id, s.net.boxes[id].items[0].event, now, raises))
      else None
    case RunNextTask(id, raises) =>
      if id in s.desk.subs && s.desk.subs[id].tasks != [] then Some(RunNext(id, raises)) else None
    case ClickOn(nid, action) => Some(UserClick(nid, action))
    case _ => None
  }

  lemma StepOnDesk(s: Loop, a: LoopAction)
    ensures StepLoop(s, a).desk
         == var part := DeskPart(s, a); if part.Some? then StepDesk(s.desk, part.value) else s.desk
  {
  }

  /** What a run of the loop does to the desk. */
  ghost function DeskTrace(s: Loop, actions: seq<LoopAction>): seq<DeskAction> {
    if actions == [] then []
    else
      var prefix, last := actions[..|actions| - 1], actions[|actions| - 1];
      var part := DeskPart(RunLoop(s, prefix), last);
      DeskTrace(s, prefix) + if part.Some? then [part.value] else []
  }

  lemma {:induction false} LoopRunsDesk(config: HubConfig, seeds: seq<string>, t0: real, actions: seq<LoopAction>)
    ensures RunLoop(Opening(config, seeds, t0), actions).desk
         == RunDesk(EMPTY_DESK, DeskTrace(Opening(config, seeds, t0), actions))
  {
    if actions != [] {
      var prefix, last := actions[..|actions| - 1], actions[|actions| - 1];
      var s0 := Opening(config, seeds, t0);
      LoopRunsDesk(config, seeds, t0, prefix);
      StepOnDesk(RunLoop(s0, prefix), last);
      var trace, part := DeskTrace(s0, prefix), DeskPart(RunLoop(s0, prefix), last);
      if part.Some? {
        assert (trace + [part.value])[..|trace|] == trace;
      } else {
        assert trace + [] == trace;
      }
    }
  }

  // ---- what every run keeps ----

  ghost predicate SameHistory(s: Loop) {
    && |s.net.history| == |s.world.history|
    && forall i | 0 <= i < |s.net.history| :: s.net.history[i] == s.world.history[i].event
  }

  /** The hub put this triple on the stream. */
  ghost predicate Known(w: World, container: string, requestId: string, target: string) {
    Emitted(w.history, |w.history|, requestId, Binding(container, target))
  }

  ghost predicate KnownTasks(w: World, tasks: seq<Task>) {
    forall k | 0 <= k < |tasks| && tasks[k].SendVerdict? ::
      Known(w, tasks[k].call.container, tasks[k].call.requestId, tasks[k].call.dest)
  }

  ghost predicate KnownPrompts(w: World, pending: map<string, PendingBlock>) {
    forall r | r in pending :: Known(w, pending[r].container, pending[r].requestId, pending[r].target)
  }

  ghost predicate KnownClicks(w: World, callbacks: map<nat, Click>) {
    forall n | n in callbacks :: Known(w, callbacks[n].container, callbacks[n].requestId, callbacks[n].target)
  }

  ghost predicate KnownCalls(w: World, calls: seq<VerdictCall>) {
    forall k | 0 <= k < |calls| :: Known(w, calls[k].container, calls[k].requestId, calls[k].dest)
  }

  /** Every triple a client holds, in whatever form, was emitted. */
  ghost predicate AllKnown(s: Loop) {
    && KnownClicks(s.world, s.desk.notifier.callbacks)
    && (forall id | id in s.desk.subs :: KnownTasks(s.world, s.desk.subs[id].tasks))
    && (forall id | id in s.desk.subs :: KnownPrompts(s.world, s.desk.subs[id].pending))
    && KnownCalls(s.world, s.calls)
  }

  ghost predicate LoopOk(s: Loop) {
    Traced(s.world) && SameHistory(s) && NetOk(s.net) && DeskOk(s.desk) && AllKnown(s)
  }

  lemma KnownStays(w: World, a: Action)
    ensures forall c, r, t | Known(w, c, r, t) :: Known(Step(w, a), c, r, t)
  {
    HistoryGrows(w, a);
    var w' := Step(w, a);
    forall c, r, t | Known(w, c, r, t) ensures Known(w', c, r, t) {
      var i :| 0 <= i < |w.history| && IsBlockOf(w.history[i], r, Binding(c, t));
      assert w'.history[i] == w.history[..|w.history|][i];
      assert IsBlockOf(w'.history[i], r, Binding(c, t));
    }
  }

  lemma AllKnownStays(s: Loop, a: Action)
    requires AllKnown(s)
    ensures AllKnown(HubDoes(s, a))
  {
    KnownStays(s.world, a);
    var s' := HubDoes(s, a);
    forall id | id in s'.desk.subs
      ensures KnownTasks(s'.world, s'.desk.subs[id].tasks) && KnownPrompts(s'.world, s'.desk.subs[id].pending)
    {
      assert KnownTasks(s.world, s.desk.subs[id].tasks) && KnownPrompts(s.world, s.desk.subs[id].pending);
    }
  }

  lemma HubDoesHistory(s: Loop, a: Action)
    requires SameHistory(s) && NetOk(s.net)
    ensures SameHistory(HubDoes(s, a)) && NetOk(HubDoes(s, a).net)
  {
    HistoryGrows(s.world, a);
    var w' := Step(s.world, a);
    if |w'.history| > |s.world.history| {
      StepNetOk(s.net, Publish(w'.history[|s.world.history|].event));
      forall i | 0 <= i < |s.net.history| ensures s.net.history[i] == w'.history[i].event {
        assert w'.history[i] == w'.history[..|s.world.history|][i];
      }
    } else {
      assert w'.history == w'.history[..|s.world.history|];
    }
  }

  /** A queued block event names a triple that was emitted. */
  lemma QueuedIsKnown(s: Loop, id: nat)
    requires SameHistory(s) && NetOk(s.net) && id in s.net.boxes && s.net.boxes[id].items != []
    ensures var e := s.net.boxes[id].items[0].event;
            e.kind.ConnectionBlocked? ==> Known(s.world, e.container, e.requestId, e.Target())
  {
  }

  /** The triples of a screen's callbacks, tasks and prompts. */
  ghost predicate KnownScreen(w: World, s: Screen) {
    KnownClicks(w, s.notifier.callbacks) && KnownTasks(w, s.sub.tasks) && KnownPrompts(w, s.sub.pending)
  }

  lemma EventKnown(w: World, s: Screen, e: ClearanceEvent, now: string, raises: bool)
    requires KnownScreen(w, s)
    requires e.kind.ConnectionBlocked? ==> Known(w, e.container, e.requestId, e.Target())
    ensures KnownScreen(w, OnEvent(s, e, now, raises))
  {
  }

  lemma TaskKnown(w: World, s: Screen, raises: bool)
    requires KnownScreen(w, s) && s.sub.tasks != []
    ensures KnownScreen(w, RunTask(s, raises))
  {
  }

  lemma PutKnown(s: Loop, id: nat, screen: Screen)
    requires AllKnown(s) && id in s.desk.subs && KnownScreen(s.world, screen)
    ensures AllKnown(s.(desk := Put(s.desk, id, screen)))
  {
  }

  lemma ClickKnown(s: Loop, nid: nat, action: string)
    requires AllKnown(s)
    ensures AllKnown(s.(desk := Clicked(s.desk, nid, action)))
  {
  }

  lemma DeliverKnown(s: Loop, id: nat, now: string, raises: bool)
    requires SameHistory(s) && NetOk(s.net) && AllKnown(s)
    ensures AllKnown(StepLoop(s, DeliverNext(id, now, raises)))
  {
    if id in s.net.boxes && s.net.boxes[id].items != [] && id in s.desk.subs {
      var e := s.net.boxes[id].items[0].event;
      QueuedIsKnown(s, id);
      assert KnownTasks(s.world, s.desk.subs[id].tasks) && KnownPrompts(s.world, s.desk.subs[id].pending);
      EventKnown(s.world, ScreenOf(s.desk, id), e, now, raises);
      PutKnown(s, id, OnEvent(ScreenOf(s.desk, id), e, now, raises));
    }
  }

  lemma RunNextKnown(s: Loop, id: nat, raises: bool)
    requires AllKnown(s)
    ensures AllKnown(StepLoop(s, RunNextTask(id, raises)))
  {
    if id in s.desk.subs && s.desk.subs[id].tasks != [] {
      assert KnownTasks(s.world, s.desk.subs[id].tasks) && KnownPrompts(s.world, s.desk.subs[id].pending);
      TaskKnown(s.world, ScreenOf(s.desk, id), raises);
      PutKnown(s, id, RunTask(ScreenOf(s.desk, id), raises));
    }
  }

  lemma StepKnown(s: Loop, a: LoopAction)
    requires SameHistory(s) && NetOk(s.net) && AllKnown(s)
    ensures AllKnown(StepLoop(s, a))
  {
    match a
    case HubStep(step) => AllKnownStays(s, step);
    case Connect(_, _) =>
    case Cut(_) =>
    case Reconnect(_) =>
    case DeliverNext(id, now, raises) => DeliverKnown(s, id, now, raises);
    case RunNextTask(id, raises) => RunNextKnown(s, id, raises);
    case ClickOn(nid, action) => ClickKnown(s, nid, action);
    case Submit(i) => if i < |s.calls| { SubmitKnown(s, i); }
    case DropCall(_) =>
  }

  lemma SubmitKnown(s: Loop, i: nat)
    requires AllKnown(s) && i < |s.calls|
    ensures AllKnown(StepLoop(s, Submit(i)))
  {
    var call := s.calls[i];
    AllKnownStays(s, Begin(call.container, call.requestId, call.dest, call.action));
  }

  lemma StepHubAndNet(s: Loop, a: LoopAction)
    requires Traced(s.world) && SameHistory(s) && NetOk(s.net)
    ensures var s' := StepLoop(s, a); Traced(s'.world) && SameHistory(s') && NetOk(s'.net)
  {
    match a
    case HubStep(step) =>
      StepTraced(s.world, step);
      HubDoesHistory(s, step);
    case Connect(id, _) => StepNetOk(s.net, Join(id));
    case Cut(id) => StepNetOk(s.net, Leave(id));
    case Reconnect(id) => StepNetOk(s.net, Join(id));
    case DeliverNext(id, _, _) => StepNetOk(s.net, Take(id));
    case Submit(i) =>
      if i < |s.calls| {
        var call := s.calls[i];
        StepTraced(s.world, Begin(call.container, call.requestId, call.dest, call.action));
        HubDoesHistory(s, Begin(call.container, call.requestId, call.dest, call.action));
      }
    case _ =>
  }

  lemma StepLoopOk(s: Loop, a: LoopAction)
    requires LoopOk(s)
    ensures LoopOk(StepLoop(s, a))
  {
    StepHubAndNet(s, a);
    StepKnown(s, a);
    StepOnDesk(s, a);
    if DeskPart(s, a).Some? { StepDeskOk(s.desk, DeskPart(s, a).value); }
  }

  /** Every triple in a callback, a prompt, a task or a call on the wire was put on the stream by the hub. */
  lemma {:induction false} LoopInvariant(config: HubConfig, seeds: seq<string>, t0: real, actions: seq<LoopAction>)
    ensures LoopOk(RunLoop(Opening(config, seeds, t0), actions))
  {
    if actions != [] {
      LoopInvariant(config, seeds, t0, actions[..|actions| - 1]);
      StepLoopOk(RunLoop(Opening(config, seeds, t0), actions[..|actions| - 1]), actions[|actions| - 1]);
    }
  }
}
