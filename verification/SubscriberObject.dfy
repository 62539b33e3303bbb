/** The subscriber object over a shared notifier object, each handler tied to the step it performs. */
module SubscriberObject {
  import opened Events
  import opened Notifications
  import opened SubscriberModel
  import Desk

  /** One step of a purge: the next stale prompt and its popup join those already gone. */
  lemma OneMoreStale(
    pending: map<string, PendingBlock>, callbacks: map<nat, Click>, stale: set<string>, todo: set<string>, r: string)
    requires r in todo && r in stale && r in pending
    ensures pending - (stale - (todo - {r})) == pending - (stale - todo) - {r}
    ensures callbacks - PopupsOf(pending, stale - (todo - {r}))
         == callbacks - PopupsOf(pending, stale - todo) - {pending[r].notificationId}
  {
  }

  class EventSubscriber {
    const id: nat
    const enabled: set<Category>
    const notifier: CallbackNotifier
    var pending: map<string, PendingBlock>
    var shieldDown: map<string, nat>
    var tasks: seq<Task>

    ghost function State(): Screen
      reads this, notifier
    {
      Screen(Subscriber(id, enabled, pending, shieldDown, tasks), notifier.State())
    }

    /** The invariant every run keeps; see `Desk.DeskInvariant`. */
    ghost predicate Valid()
      reads this, notifier
    {
      Desk.ScreenOk(State())
    }

    constructor (id: nat, enabled: set<Category>, notifier: CallbackNotifier)
      requires 0 < notifier.nextId && forall n | n in notifier.callbacks :: 0 < n < notifier.nextId
      ensures Valid() && this.notifier == notifier
      ensures State() == Screen(NewSubscriber(id, enabled), notifier.State())
    {
      this.id, this.enabled, this.notifier := id, enabled, notifier;
      pending, shieldDown, tasks := map[], map[], [];
      new;
      Desk.FreshSubscriberOk(id, enabled, notifier.State());
    }

    // ---- event dispatch ----

    method HandleEvent(event: ClearanceEvent, now: string, raises: bool)
      requires Valid()
      modifies this, notifier
      ensures Valid() && State() == OnEvent(old(State()), event, now, raises)
    {
      Desk.OnEventOk(State(), event, now, raises);
      Route(event, now, raises);
    }

    method Route(event: ClearanceEvent, now: string, raises: bool)
      requires OnePromptPerTarget(pending) && Desk.IdsIssued(State())
      modifies this`pending, this`tasks, notifier
      ensures State() == OnEvent(old(State()), event, now, raises)
    {
      var c := event.container;
      match event.kind
      case ConnectionBlocked =>
        if NotifyBlocked in enabled {
          HandleBlocked(event, now, raises);
        }
      case VerdictApplied =>
        if NotifyVerdict in enabled {
          HandleVerdict(event, raises);
        } else {
          pending := pending - {event.requestId};
        }
      case ContainerStarted =>
        DispatchGated([], NotifyContainerStarted, PostNotice(c));
      case ContainerExited =>
        DispatchGated([CleanUpExited(c)], NotifyContainerExited, PostNotice(c));
      case ShieldUp =>
        DispatchGated([CloseStaleShieldDown(c)], NotifyShieldUp, PostNotice(c));
      case ShieldDown =>
        DispatchGated([PurgePrompts(c)], NotifyShieldDown, PostShieldDown(c));
      case ShieldDisengaged =>
        DispatchGated([PurgePrompts(c)], NotifyShieldDown, PostShieldDown(c));
    }

    /** State clean-up always runs; only the popup is gated by its category. */
    method DispatchGated(always: seq<Task>, category: Category, popup: Task)
      modifies this`tasks
      ensures tasks == old(tasks) + (always + if category in enabled then [popup] else [])
    {
      tasks := tasks + always;
      if category in enabled {
        tasks := tasks + [popup];
      }
    }

    method HandleBlocked(event: ClearanceEvent, now: string, raises: bool)
      requires OnePromptPerTarget(pending)
      modifies this`pending, notifier
      ensures State() == HandleConnectionBlocked(old(State()), event, now, raises)
    {
      var target := if event.domain != "" then event.domain else event.dest;
      if target == "" {
        return;
      }
      var prior := LiveBlockOn(event.container, target);
      var count := if prior.Some? then prior.value.count + 1 else 1;
      var firstSeen := if prior.Some? then prior.value.firstSeen else now;
      var nid := notifier.Notify(if prior.Some? then prior.value.notificationId else 0, raises);
      if nid.None? {
        return;
      }
      if prior.Some? {
        pending := pending - {prior.value.requestId};
      }
      pending := pending[event.requestId :=
      PendingBlock(nid.value, event.container, event.requestId, target, event.dossier, count, firstSeen)];
      notifier.OnAction(nid.value, Click(id, event.container, event.requestId, target));
    }

    method LiveBlockOn(container: string, target: string) returns (prior: Option<PendingBlock>)
      requires OnePromptPerTarget(pending)
      ensures match LiveBlock(pending, container, target)
              case None => prior == None
              case Some(r) => prior == Some(pending[r])
    {
      var todo := pending.Keys;
      while todo != {}
        invariant todo <= pending.Keys
        invariant forall r | r in pending && r !in todo :: !On(pending[r], container, target)
        decreases todo
      {
        var r :| r in todo;
        if On(pending[r], container, target) {
          return Some(pending[r]);
        }
        todo := todo - {r};
      }
      return None;
    }

    method HandleVerdict(event: ClearanceEvent, raises: bool)
      requires Desk.IdsIssued(State())
      modifies this`pending, notifier
      ensures State() == HandleVerdictApplied(old(State()), event)
    {
      if event.requestId !in pending {
        assert pending - {event.requestId} == pending;
        return;
      }
      var block := pending[event.requestId];
      pending := pending - {event.requestId};
      var _ := notifier.Notify(block.notificationId, raises);
    }

    // ---- background tasks ----

    /** The event loop starts the oldest task; a verdict task yields the call to make. */
    method RunNextTask(raises: bool) returns (call: Option<VerdictCall>)
      requires Valid() && tasks != []
      modifies this, notifier
      ensures Valid() && State() == RunTask(old(State()), raises)
      ensures call == if old(tasks)[0].SendVerdict? then Some(old(tasks)[0].call) else None
    {
      Desk.RunTaskOk(State(), raises);
      var task := tasks[0];
      tasks := tasks[1..];
      call := Perform(task, raises);
    }

    method Perform(task: Task, raises: bool) returns (call: Option<VerdictCall>)
      requires OnePromptPerTarget(pending)
      modifies this`pending, this`shieldDown, notifier
      ensures State() == Execute(old(State()), task, raises)
      ensures call == if task.SendVerdict? then Some(task.call) else None
    {
      call := None;
      match task
      case PurgePrompts(c) => PurgeAll(c);
      case CleanUpExited(c) =>
        PurgeAll(c);
        CloseAlert(c);
      case CloseStaleShieldDown(c) => CloseAlert(c);
      case PostShieldDown(c) => PostAlert(c, raises);
      case PostNotice(_) => var _ := notifier.Notify(0, raises);
      case SendVerdict(verdict) => call := Some(verdict);
    }

    method PurgeAll(container: string)
      requires OnePromptPerTarget(pending)
      modifies this`pending, notifier`callbacks
      ensures State() == PurgeContainer(old(State()), container)
    {
      ghost var was := pending;
      var stale := set r | r in pending && pending[r].container == container;
      var todo := stale;
      while todo != {}
        invariant todo <= stale
        invariant pending == was - (stale - todo)
        invariant notifier.callbacks == old(notifier.callbacks) - PopupsOf(was, stale - todo)
        decreases todo
      {
        var r :| r in todo;
        assert r in was && pending[r] == was[r];
        OneMoreStale(was, old(notifier.callbacks), stale, todo, r);
        Retire(pending[r]);
        todo := todo - {r};
      }
      assert stale - todo == stale;
    }

    method Retire(block: PendingBlock)
      modifies this`pending, notifier`callbacks
      ensures pending == old(pending) - {block.requestId}
      ensures notifier.callbacks == old(notifier.callbacks) - {block.notificationId}
    {
      pending := pending - {block.requestId};
      notifier.Close(block.notificationId);
    }

    method CloseAlert(container: string)
      modifies this`shieldDown, notifier`callbacks
      ensures State() == CloseShieldDown(old(State()), container)
    {
      if container in shieldDown {
        var nid := shieldDown[container];
        shieldDown := shieldDown - {container};
        notifier.Close(nid);
      }
    }

    method PostAlert(container: string, raises: bool)
      modifies this`shieldDown, notifier`nextId
      ensures State() == NotifyShieldDownPopup(old(State()), container, raises)
    {
      var nid := notifier.Notify(if container in shieldDown then shieldDown[container] else 0, raises);
      if nid.Some? {
        shieldDown := shieldDown[container := nid.value];
      }
    }

    /** A stored callback being called: the verdict goes out as one more task. */
    method Clicked(click: Click, action: string)
      modifies this`tasks
      ensures State().sub == OnClick(old(State()).sub, click, action)
    {
      tasks := tasks + [SendVerdict(VerdictCall(click.container, click.requestId, click.target, action))];
    }
  }
}
