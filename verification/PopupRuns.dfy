/** What the popups say about the past: the shield-down alert as a fold, the repeat counter as a count. */
module PopupRuns {
  import opened Events
  import opened Notifications
  import opened SubscriberModel
  import opened Desk

  // ---- the shield-down alert ----

  /** The four events that decide whether a container's shield is down. */
  predicate SetsShield(kind: EventKind) {
    kind.ShieldUp? || kind.ShieldDown? || kind.ShieldDisengaged? || kind.ContainerExited?
  }

  predicate LowersShield(kind: EventKind) {
    kind.ShieldDown? || kind.ShieldDisengaged?
  }

  /** Whether the latest such event that subscriber `id` received for `c` lowered the shield. */
  ghost predicate ShieldLastDown(actions: seq<DeskAction>, id: nat, c: string) {
    if actions == [] then false
    else
      var prefix, last := actions[..|actions| - 1], actions[|actions| - 1];
      if last.Deliver? && last.id == id && id in RunDesk(EMPTY_DESK, prefix).subs
         && last.event.container == c && SetsShield(last.event.kind)
      then LowersShield(last.event.kind)
      else ShieldLastDown(prefix, id, c)
  }

  /**
   Whether the consumer accepted an alert for `c` since `id` last ran a task that closes it (the ones a
   shield_up or a container_exited dispatch).
   */
  ghost predicate AlertAccepted(actions: seq<DeskAction>, id: nat, c: string) {
    if actions == [] then false
    else
      var prefix, last := actions[..|actions| - 1], actions[|actions| - 1];
      var d := RunDesk(EMPTY_DESK, prefix);
      if last.RunNext? && last.id == id && id in d.subs && d.subs[id].tasks != []
      then TaskEffect(d.subs[id].tasks[0], AlertAccepted(prefix, id, c), last.raises, c)
      else AlertAccepted(prefix, id, c)
  }

  /** No alert popup of `id` was refused by a raising consumer hook. */
  ghost predicate HooksAccept(actions: seq<DeskAction>, id: nat) {
    actions == [] ||
    (var prefix, last := actions[..|actions| - 1], actions[|actions| - 1];
     && HooksAccept(prefix, id)
     && (last.RunNext? && last.id == id && last.raises ==>
           var d := RunDesk(EMPTY_DESK, prefix);
           id in d.subs && d.subs[id].tasks != [] ==> !d.subs[id].tasks[0].PostShieldDown?))
  }

  /** What one task does to "an alert for `c` is tracked". */
  predicate TaskEffect(task: Task, tracked: bool, raises: bool, c: string) {
    match task
    case PostShieldDown(x) => tracked || (x == c && !raises)
    case CloseStaleShieldDown(x) => tracked && x != c
    case CleanUpExited(x) => tracked && x != c
    case _ => tracked
  }

  /** The same once every queued task has run and no hook raised. */
  function Settled(tasks: seq<Task>, tracked: bool, c: string): bool {
    if tasks == [] then tracked else Settled(tasks[1..], TaskEffect(tasks[0], tracked, false, c), c)
  }

  lemma {:induction false} SettledConcat(a: seq<Task>, b: seq<Task>, tracked: bool, c: string)
    ensures Settled(a + b, tracked, c) == Settled(b, Settled(a, tracked, c), c)
  {
    if a == [] {
      assert a + b == b;
    } else {
      assert (a + b)[0] == a[0] && (a + b)[1..] == a[1..] + b;
      SettledConcat(a[1..], b, TaskEffect(a[0], tracked, false, c), c);
    }
  }

  /** An alert that is missing now cannot make one appear later. */
  lemma SettledMonotone(tasks: seq<Task>, c: string)
    ensures Settled(tasks, false, c) ==> Settled(tasks, true, c)
  {
  }

  ghost predicate NoAlertsQueued(sub: Subscriber) {
    sub.shieldDown == map[] && forall i | 0 <= i < |sub.tasks| :: !sub.tasks[i].PostShieldDown?
  }

  /**
   What the queue would make of the tracked alerts is at most what the stream last said, and exactly that if
   no hook raised.
   */
  ghost predicate AlertsFollow(sub: Subscriber, c: string, down: bool, accepting: bool) {
    if NotifyShieldDown in sub.enabled then
      var settled := Settled(sub.tasks, c in sub.shieldDown, c);
      (settled ==> down) && (accepting && down ==> settled)
    else NoAlertsQueued(sub)
  }

  predicate DownAfter(e: ClearanceEvent, c: string, down: bool) {
    if e.container == c && SetsShield(e.kind) then LowersShield(e.kind) else down
  }

  lemma QueuedEffect(sub: Subscriber, e: ClearanceEvent, c: string, down: bool)
    requires NotifyShieldDown in sub.enabled
    ensures Settled(Queued(sub, e), down, c) == DownAfter(e, c, down)
  {
    var more := Queued(sub, e);
    if |more| == 1 {
      SettledOne(more[0], down, c);
      assert more == [more[0]];
    } else if |more| == 2 {
      SettledTwo(more[0], more[1], down, c);
      assert more == [more[0], more[1]];
    }
  }

  lemma SettledOne(task: Task, tracked: bool, c: string)
    ensures Settled([task], tracked, c) == TaskEffect(task, tracked, false, c)
  {
  }

  lemma SettledTwo(first: Task, second: Task, tracked: bool, c: string)
    ensures Settled([first, second], tracked, c)
         == TaskEffect(second, TaskEffect(first, tracked, false, c), false, c)
  {
    assert [first, second][1..] == [second];
    SettledOne(second, TaskEffect(first, tracked, false, c), c);
  }

  lemma EventAlerts(
    s: Screen, e: ClearanceEvent, now: string, raises: bool, c: string, down: bool, accepting: bool)
    requires AlertsFollow(s.sub, c, down, accepting)
    ensures AlertsFollow(OnEvent(s, e, now, raises).sub, c, DownAfter(e, c, down), accepting)
  {
    if !e.kind.ConnectionBlocked? && !e.kind.VerdictApplied? {
      SettledConcat(s.sub.tasks, Queued(s.sub, e), c in s.sub.shieldDown, c);
      if NotifyShieldDown in s.sub.enabled {
        QueuedEffect(s.sub, e, c, Settled(s.sub.tasks, c in s.sub.shieldDown, c));
      }
    }
  }

  lemma TaskAlerts(s: Screen, raises: bool, c: string, down: bool, accepting: bool)
    requires AlertsFollow(s.sub, c, down, accepting) && s.sub.tasks != []
    requires raises && s.sub.tasks[0].PostShieldDown? ==> !accepting
    ensures AlertsFollow(RunTask(s, raises).sub, c, down, accepting)
  {
    SettledMonotone(s.sub.tasks[1..], c);
  }

  lemma ClickAlerts(sub: Subscriber, click: Click, action: string, c: string, down: bool, accepting: bool)
    requires AlertsFollow(sub, c, down, accepting)
    ensures AlertsFollow(OnClick(sub, click, action), c, down, accepting)
  {
    var more := OnClick(sub, click, action).tasks[|sub.tasks|..];
    SettledConcat(sub.tasks, more, c in sub.shieldDown, c);
    assert more == [more[0]] && more[1..] == [];
    assert OnClick(sub, click, action).tasks == sub.tasks + more;
  }

  lemma {:induction false} AlertsFollowStream(actions: seq<DeskAction>, id: nat, c: string, accepting: bool)
    requires accepting ==> HooksAccept(actions, id)
    ensures var d := RunDesk(EMPTY_DESK, actions);
            id in d.subs ==> AlertsFollow(d.subs[id], c, ShieldLastDown(actions, id, c), accepting)
    ensures id !in RunDesk(EMPTY_DESK, actions).subs ==> !ShieldLastDown(actions, id, c)
  {
    if actions != [] {
      var prefix, last := actions[..|actions| - 1], actions[|actions| - 1];
      var d, down := RunDesk(EMPTY_DESK, prefix), ShieldLastDown(prefix, id, c);
      AlertsFollowStream(prefix, id, c, accepting);
      match last {
        case Attach(_, _) =>
        case Deliver(i, e, now, raises) =>
          if i == id && id in d.subs { EventAlerts(ScreenOf(d, id), e, now, raises, c, down, accepting); }
        case RunNext(i, raises) =>
          if i == id && id in d.subs && d.subs[id].tasks != [] {
            TaskAlerts(ScreenOf(d, id), raises, c, down, accepting);
          }
        case UserClick(nid, action) =>
          if nid in d.notifier.callbacks && d.notifier.callbacks[nid].owner == id && id in d.subs {
            ClickAlerts(d.subs[id], d.notifier.callbacks[nid], action, c, down, accepting);
          }
      }
    }
  }

  /** In every state, drained or not, the alerts tracked are the accepted ones. */
  lemma {:induction false} TrackedIsAccepted(actions: seq<DeskAction>, id: nat, c: string)
    ensures var d := RunDesk(EMPTY_DESK, actions);
            AlertAccepted(actions, id, c) <==> id in d.subs && c in d.subs[id].shieldDown
  {
    if actions != [] {
      TrackedIsAccepted(actions[..|actions| - 1], id, c);
    }
  }

  /**
   Once a subscriber's tasks have drained it tracks an alert for a container exactly when the category is on,
   the latest of shield_up, shield_down, shield_disengaged and container_exited it received lowered the
   shield, and the consumer accepted an alert for it since it last closed one.  So whatever hooks raise, no
   stale "shield down" stays; and none is missing if no hook raised.
   */
  lemma AlertIsAFold(actions: seq<DeskAction>, id: nat, c: string)
    requires var d := RunDesk(EMPTY_DESK, actions); id in d.subs && d.subs[id].tasks == []
    ensures var sub := RunDesk(EMPTY_DESK, actions).subs[id];
            var lowered := NotifyShieldDown in sub.enabled && ShieldLastDown(actions, id, c);
            && (c in sub.shieldDown <==> lowered && AlertAccepted(actions, id, c))
            && (HooksAccept(actions, id) ==> (c in sub.shieldDown <==> lowered))
  {
    AlertsFollowStream(actions, id, c, HooksAccept(actions, id));
    TrackedIsAccepted(actions, id, c);
  }

  /** The third condition is needed: one shield_down whose alert hook raises leaves no alert. */
  lemma RaisingHookHidesAlert(id: nat, enabled: set<Category>, e: ClearanceEvent)
    requires NotifyShieldDown in enabled && LowersShield(e.kind)
    ensures var actions :=
              [Attach(id, enabled), Deliver(id, e, "", false), RunNext(id, false), RunNext(id, true)];
            var d := RunDesk(EMPTY_DESK, actions);
            && id in d.subs && d.subs[id].tasks == []
            && ShieldLastDown(actions, id, e.container) && e.container !in d.subs[id].shieldDown
  {
    var attach, deliver, purge, post :=
      Attach(id, enabled), Deliver(id, e, "", false), RunNext(id, false), RunNext(id, true);
    assert [attach, deliver, purge, post][..3] == [attach, deliver, purge];
    assert [attach, deliver, purge][..2] == [attach, deliver] && [attach, deliver][..1] == [attach];
    assert [attach][..0] == [];
    assert RunDesk(EMPTY_DESK, [attach]) == StepDesk(EMPTY_DESK, attach);
    var d := RunDesk(EMPTY_DESK, [attach, deliver]);
    assert d.subs[id].tasks == [PurgePrompts(e.container), PostShieldDown(e.container)];
    assert RunDesk(EMPTY_DESK, [attach, deliver, purge]).subs[id].tasks == [PostShieldDown(e.container)];
    assert ShieldLastDown([attach, deliver], id, e.container);
    assert ShieldLastDown([attach, deliver, purge], id, e.container);
  }

  ghost predicate AlertedThroughout(d: DeskState, actions: seq<DeskAction>, id: nat, c: string) {
    && (var now := RunDesk(d, actions); id in now.subs && c in now.subs[id].shieldDown)
    && (actions != [] ==> AlertedThroughout(d, actions[..|actions| - 1], id, c))
  }

  /** Consecutive downs update one popup: while a container stays alerted, the alert keeps its id. */
  lemma {:induction false} AlertKeepsId(before: seq<DeskAction>, actions: seq<DeskAction>, id: nat, c: string)
    requires AlertedThroughout(RunDesk(EMPTY_DESK, before), actions, id, c)
    ensures var d := RunDesk(EMPTY_DESK, before);
            && id in d.subs && c in d.subs[id].shieldDown
            && RunDesk(d, actions).subs[id].shieldDown[c] == d.subs[id].shieldDown[c]
  {
    if actions != [] {
      var d, prefix := RunDesk(EMPTY_DESK, before), actions[..|actions| - 1];
      AlertKeepsId(before, prefix, id, c);
      RunFrom(before, prefix);
      AlertIdIssued(before + prefix, id, c);
      StepKeepsAlertId(RunDesk(d, prefix), actions[|actions| - 1], id, c);
    }
  }

  lemma AlertIdIssued(actions: seq<DeskAction>, id: nat, c: string)
    requires var d := RunDesk(EMPTY_DESK, actions); id in d.subs && c in d.subs[id].shieldDown
    ensures RunDesk(EMPTY_DESK, actions).subs[id].shieldDown[c] != 0
  {
    DeskInvariant(actions);
    assert ScreenOk(ScreenOf(RunDesk(EMPTY_DESK, actions), id));
  }

  lemma {:induction false} RunFrom(before: seq<DeskAction>, actions: seq<DeskAction>)
    ensures RunDesk(RunDesk(EMPTY_DESK, before), actions) == RunDesk(EMPTY_DESK, before + actions)
  {
    if actions == [] {
      assert before + actions == before;
    } else {
      assert (before + actions)[..|before + actions| - 1] == before + actions[..|actions| - 1];
      RunFrom(before, actions[..|actions| - 1]);
    }
  }

  lemma StepKeepsAlertId(d: DeskState, a: DeskAction, id: nat, c: string)
    requires id in d.subs && c in d.subs[id].shieldDown && d.subs[id].shieldDown[c] != 0
    requires var d' := StepDesk(d, a); id in d'.subs && c in d'.subs[id].shieldDown
    ensures StepDesk(d, a).subs[id].shieldDown[c] == d.subs[id].shieldDown[c]
  {
  }

  // ---- the repeat counter ----

  ghost predicate HasPrompt(d: DeskState, id: nat, c: string, t: string) {
    id in d.subs && exists r :: r in d.subs[id].pending && On(d.subs[id].pending[r], c, t)
  }

  /** `a` is a block on (c, t) that subscriber `id` prompts for and the consumer accepts. */
  predicate Prompts(d: DeskState, a: DeskAction, id: nat, c: string, t: string) {
    && a.Deliver? && a.id == id && id in d.subs && !a.raises
    && a.event.kind.ConnectionBlocked? && NotifyBlocked in d.subs[id].enabled
    && a.event.container == c && a.event.Target() == t && t != ""
  }

  /** When the prompts on (c, t) since the pair last had no pending block came in. */
  ghost function Streak(actions: seq<DeskAction>, id: nat, c: string, t: string): seq<string> {
    if actions == [] || !HasPrompt(RunDesk(EMPTY_DESK, actions), id, c, t) then []
    else
      var prefix, last := actions[..|actions| - 1], actions[|actions| - 1];
      Streak(prefix, id, c, t) + if Prompts(RunDesk(EMPTY_DESK, prefix), last, id, c, t) then [last.now] else []
  }

  ghost predicate Counts(p: PendingBlock, streak: seq<string>) {
    streak != [] && p.count == |streak| && p.firstSeen == streak[0]
  }

  lemma EventKeepsBlocks(s: Screen, e: ClearanceEvent, now: string, raises: bool, c: string, t: string, r: string)
    requires OnePromptPerTarget(s.sub.pending) && t != ""
    requires raises || !e.kind.ConnectionBlocked? || NotifyBlocked !in s.sub.enabled
             || e.container != c || e.Target() != t
    requires var after := OnEvent(s, e, now, raises).sub.pending; r in after && On(after[r], c, t)
    ensures r in s.sub.pending && s.sub.pending[r] == OnEvent(s, e, now, raises).sub.pending[r]
  {
  }

  lemma TaskKeepsBlocks(s: Screen, raises: bool, r: string)
    requires s.sub.tasks != [] && r in RunTask(s, raises).sub.pending
    ensures r in s.sub.pending && s.sub.pending[r] == RunTask(s, raises).sub.pending[r]
  {
  }

  /** A step that does not prompt on (c, t) brings no block on (c, t) in and changes none. */
  lemma OtherStepKeepsBlocks(d: DeskState, a: DeskAction, id: nat, c: string, t: string, r: string)
    requires (id in d.subs ==> OnePromptPerTarget(d.subs[id].pending)) && !Prompts(d, a, id, c, t) && t != ""
    requires var d' := StepDesk(d, a); id in d'.subs && r in d'.subs[id].pending && On(d'.subs[id].pending[r], c, t)
    ensures id in d.subs && r in d.subs[id].pending && d.subs[id].pending[r] == StepDesk(d, a).subs[id].pending[r]
  {
    match a
    case Attach(_, _) =>
    case Deliver(i, e, now, raises) =>
      if i == id && id in d.subs {
        EventKeepsBlocks(ScreenOf(d, id), e, now, raises, c, t, r);
      }
    case RunNext(i, raises) =>
      if i == id && id in d.subs && d.subs[id].tasks != [] { TaskKeepsBlocks(ScreenOf(d, id), raises, r); }
    case UserClick(_, _) =>
  }

  lemma PromptsAreUnique(actions: seq<DeskAction>, id: nat)
    requires id in RunDesk(EMPTY_DESK, actions).subs
    ensures OnePromptPerTarget(RunDesk(EMPTY_DESK, actions).subs[id].pending)
  {
    DeskInvariant(actions);
    assert ScreenOk(ScreenOf(RunDesk(EMPTY_DESK, actions), id));
  }

  /** What an accepted prompt leaves on its pair: one block, counting on from the prior one. */
  lemma PromptCounts(s: Screen, e: ClearanceEvent, now: string, r: string)
    requires OnePromptPerTarget(s.sub.pending) && e.Target() != ""
    requires var after := HandleConnectionBlocked(s, e, now, false).sub.pending;
             OnePromptPerTarget(after) && r in after && On(after[r], e.container, e.Target())
    ensures var prior := LiveBlock(s.sub.pending, e.container, e.Target());
            var p := HandleConnectionBlocked(s, e, now, false).sub.pending[r];
            if prior.Some? then
              p.count == s.sub.pending[prior.value].count + 1 && p.firstSeen == s.sub.pending[prior.value].firstSeen
            else p.count == 1 && p.firstSeen == now
  {
  }

  /**
   A prompt's counter is the number of accepted blocks on its target since that target last had no prompt,
   and its time is that of the first of them.
   */
  lemma {:induction false} RepeatCounter(actions: seq<DeskAction>, id: nat, r: string)
    requires var d := RunDesk(EMPTY_DESK, actions); id in d.subs && r in d.subs[id].pending
    ensures var p := RunDesk(EMPTY_DESK, actions).subs[id].pending[r];
            Counts(p, Streak(actions, id, p.container, p.target))
  {
    var d' := RunDesk(EMPTY_DESK, actions);
    var p := d'.subs[id].pending[r];
    var c, t := p.container, p.target;
    assert HasPrompt(d', id, c, t);
    var prefix, last := actions[..|actions| - 1], actions[|actions| - 1];
    var d := RunDesk(EMPTY_DESK, prefix);
    PromptsAreUnique(actions, id);
    if id in d.subs { PromptsAreUnique(prefix, id); }
    if Prompts(d, last, id, c, t) {
      PromptCounts(ScreenOf(d, id), last.event, last.now, r);
      var prior := LiveBlock(d.subs[id].pending, c, t);
      if prior.Some? {
        RepeatCounter(prefix, id, prior.value);
      } else {
        assert !HasPrompt(d, id, c, t);
      }
    } else {
      OtherStepKeepsBlocks(d, last, id, c, t, r);
      RepeatCounter(prefix, id, r);
    }
  }
}
