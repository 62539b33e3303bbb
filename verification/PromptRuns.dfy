/** Which prompts a subscriber shows, as a fold over what was delivered to it. */
module PromptRuns {
  import opened Events
  import opened HubModel
  import opened Notifications
  import opened SubscriberModel
  import opened Desk

  predicate Retires(e: ClearanceEvent, container: string) {
    RetiresPrompts(e.kind) && e.container == container
  }

  predicate Purges(task: Task, container: string) {
    task == PurgePrompts(container) || task == CleanUpExited(container)
  }

  ghost predicate PurgeQueued(tasks: seq<Task>, container: string) {
    exists k :: 0 <= k < |tasks| && Purges(tasks[k], container)
  }

  lemma PurgeQueuedIn(tasks: seq<Task>, more: seq<Task>, c: string)
    ensures PurgeQueued(tasks + more, c) <==> PurgeQueued(tasks, c) || PurgeQueued(more, c)
  {
    if PurgeQueued(tasks, c) {
      var k :| 0 <= k < |tasks| && Purges(tasks[k], c);
      assert Purges((tasks + more)[k], c);
    }
    if PurgeQueued(more, c) {
      var k :| 0 <= k < |more| && Purges(more[k], c);
      assert Purges((tasks + more)[|tasks| + k], c);
    }
  }

  /** An event queues a purge exactly of the container whose prompts it retires. */
  lemma QueuesPurge(sub: Subscriber, e: ClearanceEvent, c: string)
    ensures PurgeQueued(Queued(sub, e), c) <==> Retires(e, c)
  {
    if RetiresPrompts(e.kind) {
      assert Queued(sub, e)[0] == PurgePrompts(e.container) || Queued(sub, e)[0] == CleanUpExited(e.container);
    }
  }

  lemma DeliveredTasks(s: Screen, e: ClearanceEvent, now: string, raises: bool, c: string)
    ensures PurgeQueued(OnEvent(s, e, now, raises).sub.tasks, c) <==> PurgeQueued(s.sub.tasks, c) || Retires(e, c)
  {
    if e.kind.ConnectionBlocked? || e.kind.VerdictApplied? {
      assert OnEvent(s, e, now, raises).sub.tasks == s.sub.tasks;
    } else {
      PurgeQueuedIn(s.sub.tasks, Queued(s.sub, e), c);
      QueuesPurge(s.sub, e, c);
    }
  }

  /** Running the oldest task changes what is queued by that task. */
  lemma PurgeQueuedFirst(tasks: seq<Task>, c: string)
    requires tasks != []
    ensures PurgeQueued(tasks, c) <==> Purges(tasks[0], c) || PurgeQueued(tasks[1..], c)
  {
    assert tasks == [tasks[0]] + tasks[1..];
    PurgeQueuedIn([tasks[0]], tasks[1..], c);
    assert Purges([tasks[0]][0], c) <==> PurgeQueued([tasks[0]], c);
  }

  lemma ClickedTasks(sub: Subscriber, click: Click, action: string, c: string)
    ensures PurgeQueued(OnClick(sub, click, action).tasks, c) <==> PurgeQueued(sub.tasks, c)
  {
    var more := OnClick(sub, click, action).tasks[|sub.tasks|..];
    assert OnClick(sub, click, action).tasks == sub.tasks + more;
    PurgeQueuedIn(sub.tasks, more, c);
  }

  /**
   The triple that the prompt under `r` should stand for after one more delivery.  A block shown while a purge
   of its container is still queued does not count: the purge will take its prompt too.
   */
  ghost function StandingAfter(sub: Subscriber, e: ClearanceEvent, raises: bool, r: string, before: Option<Binding>)
    : Option<Binding>
  {
    if e.kind.ConnectionBlocked? then
      if NotifyBlocked !in sub.enabled || e.Target() == "" || raises then before
      else if e.requestId == r then if PurgeQueued(sub.tasks, e.container) then None else Some(BindingOf(e))
      else if before == Some(BindingOf(e)) then None
      else before
    else if e.kind.VerdictApplied? then if e.requestId == r then None else before
    else if before.Some? && Retires(e, before.value.container) then None
    else before
  }

  ghost function Standing(actions: seq<DeskAction>, id: nat, r: string): Option<Binding> {
    if actions == [] then None
    else
      var prefix, last := actions[..|actions| - 1], actions[|actions| - 1];
      var d := RunDesk(EMPTY_DESK, prefix);
      if last.Deliver? && last.id == id && id in d.subs
      then StandingAfter(d.subs[id], last.event, last.raises, r, Standing(prefix, id, r))
      else Standing(prefix, id, r)
  }

  /** A standing prompt is on screen with no purge ahead of it; any other one left on screen will be purged. */
  ghost predicate Stands(sub: Subscriber, r: string, standing: Option<Binding>) {
    match standing
    case Some(b) =>
      r in sub.pending && On(sub.pending[r], b.container, b.target) && !PurgeQueued(sub.tasks, b.container)
    case None => r in sub.pending ==> PurgeQueued(sub.tasks, sub.pending[r].container)
  }

  lemma BlockStands(
    s: Screen, e: ClearanceEvent, now: string, raises: bool, r: string, standing: Option<Binding>)
    requires OnePromptPerTarget(s.sub.pending) && Stands(s.sub, r, standing) && e.kind.ConnectionBlocked?
    ensures Stands(OnEvent(s, e, now, raises).sub, r, StandingAfter(s.sub, e, raises, r, standing))
  {
  }

  lemma EventStands(
    s: Screen, e: ClearanceEvent, now: string, raises: bool, r: string, standing: Option<Binding>)
    requires OnePromptPerTarget(s.sub.pending) && Stands(s.sub, r, standing)
    ensures Stands(OnEvent(s, e, now, raises).sub, r, StandingAfter(s.sub, e, raises, r, standing))
  {
    if e.kind.ConnectionBlocked? {
      BlockStands(s, e, now, raises, r, standing);
    } else {
      if standing.Some? { DeliveredTasks(s, e, now, raises, standing.value.container); }
      if r in s.sub.pending { DeliveredTasks(s, e, now, raises, s.sub.pending[r].container); }
    }
  }

  lemma TaskStands(s: Screen, raises: bool, r: string, standing: Option<Binding>)
    requires s.sub.tasks != [] && Stands(s.sub, r, standing)
    ensures Stands(RunTask(s, raises).sub, r, standing)
  {
    if r in s.sub.pending { PurgeQueuedFirst(s.sub.tasks, s.sub.pending[r].container); }
  }

  lemma ClickStands(sub: Subscriber, click: Click, action: string, r: string, standing: Option<Binding>)
    requires Stands(sub, r, standing)
    ensures Stands(OnClick(sub, click, action), r, standing)
  {
    if r in sub.pending { ClickedTasks(sub, click, action, sub.pending[r].container); }
  }

  lemma StepStands(d: DeskState, a: DeskAction, id: nat, r: string, standing: Option<Binding>)
    requires id in d.subs && OnePromptPerTarget(d.subs[id].pending) && Stands(d.subs[id], r, standing)
    ensures id in StepDesk(d, a).subs
    ensures Stands(StepDesk(d, a).subs[id], r,
                   if a.Deliver? && a.id == id then StandingAfter(d.subs[id], a.event, a.raises, r, standing)
                   else standing)
  {
    match a
    case Attach(_, _) =>
    case Deliver(i, e, now, raises) => if i == id { EventStands(ScreenOf(d, id), e, now, raises, r, standing); }
    case RunNext(i, raises) =>
      if i == id && d.subs[id].tasks != [] { TaskStands(ScreenOf(d, id), raises, r, standing); }
    case UserClick(nid, action) =>
      if nid in d.notifier.callbacks && d.notifier.callbacks[nid].owner == id {
        ClickStands(d.subs[id], d.notifier.callbacks[nid], action, r, standing);
      }
  }

  lemma {:induction false} StandingHolds(actions: seq<DeskAction>, id: nat, r: string)
    ensures var d := RunDesk(EMPTY_DESK, actions);
            if id in d.subs then Stands(d.subs[id], r, Standing(actions, id, r)) else Standing(actions, id, r).None?
  {
    if actions != [] {
      var prefix, last := actions[..|actions| - 1], actions[|actions| - 1];
      var d := RunDesk(EMPTY_DESK, prefix);
      StandingHolds(prefix, id, r);
      if id in d.subs {
        DeskInvariant(prefix);
        assert ScreenOk(ScreenOf(d, id));
        StepStands(d, last, id, r, Standing(prefix, id, r));
      }
    }
  }

  /**
   With no purge queued, a prompt is on screen under `r`, for a given triple, exactly if the latest block
   shown under `r` named it with no purge of its container queued, and nothing delivered since was an outcome
   of `r`, a block shown on the same triple under another id, or an event that retires the container.
   */
  lemma PromptIsAFold(actions: seq<DeskAction>, id: nat, r: string)
    requires var d := RunDesk(EMPTY_DESK, actions);
             id in d.subs && forall c :: !PurgeQueued(d.subs[id].tasks, c)
    ensures var pending := RunDesk(EMPTY_DESK, actions).subs[id].pending;
            Standing(actions, id, r)
            == if r in pending then Some(Binding(pending[r].container, pending[r].target)) else None
  {
    StandingHolds(actions, id, r);
  }
}
