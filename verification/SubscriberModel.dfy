/** What one subscriber handler or background task computes, with a notifier whose calls never suspend. */
module SubscriberModel {
  import opened Events
  import opened Notifications

  datatype Category =
    | NotifyBlocked
    | NotifyVerdict
    | NotifyShieldUp
    | NotifyShieldDown
    | NotifyContainerStarted
    | NotifyContainerExited

  datatype PendingBlock = PendingBlock(
    notificationId: nat,
    container: string,
    requestId: string,
    target: string,
    dossier: Dossier,
    count: nat,
    firstSeen: string)

  /** The dispatched coroutines, in the FIFO order the event loop starts them. */
  datatype Task =
    | PurgePrompts(container: string)
    | CleanUpExited(container: string)
    | CloseStaleShieldDown(container: string)
    | PostShieldDown(container: string)
    | PostNotice(container: string)        // shield-up, started and exited popups: never tracked
    | SendVerdict(call: VerdictCall)

  /** The `Verdict` a click sends to the hub. */
  datatype VerdictCall = VerdictCall(container: string, requestId: string, dest: string, action: string)

  datatype Subscriber = Subscriber(
    id: nat,
    enabled: set<Category>,
    pending: map<string, PendingBlock>,
    shieldDown: map<string, nat>,
    tasks: seq<Task>)

  datatype Screen = Screen(sub: Subscriber, notifier: NotifierState)

  predicate On(p: PendingBlock, container: string, target: string) {
    p.container == container && p.target == target
  }

  /** The request id of the pending block awaiting a verdict on this target, if any. */
  ghost function LiveBlock(pending: map<string, PendingBlock>, container: string, target: string): (r: Option<string>)
    ensures r.Some? ==> r.value in pending && On(pending[r.value], container, target)
    ensures r.None? ==> forall q | q in pending :: !On(pending[q], container, target)
  {
    if exists r :: r in pending && On(pending[r], container, target) then
      var r :| r in pending && On(pending[r], container, target);
      Some(r)
    else None
  }

  /** The popup a block replaces: its prior prompt's, or none (0). */
  function ReplacedId(pending: map<string, PendingBlock>, prior: Option<string>): nat
    requires prior.Some? ==> prior.value in pending
  {
    if prior.Some? then pending[prior.value].notificationId else 0
  }

  /** A prompt that the notifier accepted: the prior record goes, the new one and its callback come. */
  function Prompt(s: Screen, e: ClearanceEvent, prior: Option<string>, now: string): Screen
    requires prior.Some? ==> prior.value in s.sub.pending
  {
    var pending, replaced := s.sub.pending, ReplacedId(s.sub.pending, prior);
    var nid, notifier := IdFor(s.notifier, replaced), AfterNotify(s.notifier, replaced);
    var block :=
      PendingBlock(nid, e.container, e.requestId, e.Target(), e.dossier,
                   if prior.Some? then pending[prior.value].count + 1 else 1,
                   if prior.Some? then pending[prior.value].firstSeen else now);
    Screen(
      s.sub.(pending := (if prior.Some? then pending - {prior.value} else pending)[e.requestId := block]),
      notifier.(callbacks := notifier.callbacks[nid := Click(s.sub.id, e.container, e.requestId, e.Target())]))
  }

  ghost function HandleConnectionBlocked(s: Screen, e: ClearanceEvent, now: string, raises: bool): Screen {
    if e.Target() == "" then s
    else
      var prior := LiveBlock(s.sub.pending, e.container, e.Target());
      if raises then s.(notifier := AfterNotify(s.notifier, ReplacedId(s.sub.pending, prior)))
      else Prompt(s, e, prior, now)
  }

  /** The outcome popup updates in place, so the notifier's state does not change, raising or not. */
  function HandleVerdictApplied(s: Screen, e: ClearanceEvent): Screen {
    s.(sub := s.sub.(pending := s.sub.pending - {e.requestId}))
  }

  function Dispatched(sub: Subscriber, tasks: seq<Task>): Subscriber {
    sub.(tasks := sub.tasks + tasks)
  }

  function Gated(sub: Subscriber, category: Category, task: Task): seq<Task> {
    if category in sub.enabled then [task] else []
  }

  /** The tasks an event dispatches: clean-up always, popups when their category is on. */
  function Queued(sub: Subscriber, e: ClearanceEvent): seq<Task> {
    var c := e.container;
    match e.kind
    case ContainerStarted => Gated(sub, NotifyContainerStarted, PostNotice(c))
    case ContainerExited => [CleanUpExited(c)] + Gated(sub, NotifyContainerExited, PostNotice(c))
    case ShieldUp => [CloseStaleShieldDown(c)] + Gated(sub, NotifyShieldUp, PostNotice(c))
    case ShieldDown => [PurgePrompts(c)] + Gated(sub, NotifyShieldDown, PostShieldDown(c))
    case ShieldDisengaged => [PurgePrompts(c)] + Gated(sub, NotifyShieldDown, PostShieldDown(c))
    case _ => []
  }

  /** One event from the stream.  `raises` says that the consumer's hook raises on the prompt it triggers. */
  ghost function OnEvent(s: Screen, e: ClearanceEvent, now: string, raises: bool): Screen {
    match e.kind
    case ConnectionBlocked =>
      if NotifyBlocked in s.sub.enabled then HandleConnectionBlocked(s, e, now, raises) else s
    case VerdictApplied => HandleVerdictApplied(s, e)
    case _ => s.(sub := Dispatched(s.sub, Queued(s.sub, e)))
  }

  function StaleOn(pending: map<string, PendingBlock>, container: string): set<string> {
    set r | r in pending && pending[r].container == container
  }

  /** The popups of the prompts filed under `ids`. */
  function PopupsOf(pending: map<string, PendingBlock>, ids: set<string>): set<nat> {
    set r | r in ids && r in pending :: pending[r].notificationId
  }

  function PurgeContainer(s: Screen, container: string): Screen {
    Screen(s.sub.(pending := s.sub.pending - StaleOn(s.sub.pending, container)),
           AfterClose(s.notifier, PopupsOf(s.sub.pending, StaleOn(s.sub.pending, container))))
  }

  function CloseShieldDown(s: Screen, container: string): Screen {
    if container in s.sub.shieldDown then
      Screen(s.sub.(shieldDown := s.sub.shieldDown - {container}),
             AfterClose(s.notifier, {s.sub.shieldDown[container]}))
    else s
  }

  function NotifyShieldDownPopup(s: Screen, container: string, raises: bool): Screen {
    var replacing := if container in s.sub.shieldDown then s.sub.shieldDown[container] else 0;
    var notifier := AfterNotify(s.notifier, replacing);
    if raises then s.(notifier := notifier)
    else
      Screen(s.sub.(shieldDown := s.sub.shieldDown[container := IdFor(s.notifier, replacing)]), notifier)
  }

  function Execute(s: Screen, task: Task, raises: bool): Screen {
    match task
    case PurgePrompts(c) => PurgeContainer(s, c)
    case CleanUpExited(c) => CloseShieldDown(PurgeContainer(s, c), c)
    case CloseStaleShieldDown(c) => CloseShieldDown(s, c)
    case PostShieldDown(c) => NotifyShieldDownPopup(s, c, raises)
    case PostNotice(_) => s.(notifier := AfterNotify(s.notifier, 0))
    case SendVerdict(_) => s
  }

  /** The oldest dispatched task runs to completion. */
  function RunTask(s: Screen, raises: bool): Screen
    requires s.sub.tasks != []
  {
    Execute(s.(sub := s.sub.(tasks := s.sub.tasks[1..])), s.sub.tasks[0], raises)
  }

  /** A click on a popup whose callback this subscriber registered. */
  function OnClick(sub: Subscriber, click: Click, action: string): Subscriber {
    Dispatched(sub, [SendVerdict(VerdictCall(click.container, click.requestId, click.target, action))])
  }

  function NewSubscriber(id: nat, enabled: set<Category>): Subscriber {
    Subscriber(id, enabled, map[], map[], [])
  }

  // ---- what every subscriber keeps ----

  /** One decision, one target, one popup; and each prompt is filed under its own request id. */
  ghost predicate OnePromptPerTarget(pending: map<string, PendingBlock>) {
    && (forall r | r in pending :: pending[r].requestId == r && pending[r].target != "")
    && (forall r, q | r in pending && q in pending && On(pending[r], pending[q].container, pending[q].target) :: r == q)
  }
}
