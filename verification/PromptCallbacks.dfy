/** Which popups answer a click: the callback table as a fold over what every subscriber on the desk did. */
module PromptCallbacks {
  import opened Events
  import opened Notifications
  import opened SubscriberModel
  import opened Desk
  import opened PromptRuns

  /** `a` is a block that its subscriber prompts for and the consumer accepts. */
  ghost predicate Accepts(d: DeskState, a: DeskAction) {
    && a.Deliver? && a.id in d.subs && !a.raises
    && a.event.kind.ConnectionBlocked? && NotifyBlocked in d.subs[a.id].enabled && a.event.Target() != ""
  }

  lemma AcceptedIsPending(d: DeskState, a: DeskAction)
    requires Accepts(d, a)
    ensures a.id in StepDesk(d, a).subs && a.event.requestId in StepDesk(d, a).subs[a.id].pending
  {
  }

  /** The popup that an accepted block's prompt is shown under. */
  ghost function ShownUnder(d: DeskState, a: DeskAction): nat
    requires Accepts(d, a)
  {
    AcceptedIsPending(d, a);
    StepDesk(d, a).subs[a.id].pending[a.event.requestId].notificationId
  }

  ghost predicate ShowsUnder(d: DeskState, a: DeskAction, n: nat) {
    Accepts(d, a) && ShownUnder(d, a) == n
  }

  predicate ClicksOn(a: DeskAction, n: nat) {
    a.UserClick? && a.nid == n
  }

  /** `a` runs a purge task that drops a prompt shown under `n`. */
  ghost predicate PurgesUnder(d: DeskState, a: DeskAction, n: nat) {
    && a.RunNext? && a.id in d.subs && d.subs[a.id].tasks != []
    && exists r :: r in d.subs[a.id].pending && d.subs[a.id].pending[r].notificationId == n
                   && Purges(d.subs[a.id].tasks[0], d.subs[a.id].pending[r].container)
  }

  /** Of a prompt shown under `n`, a click on `n` and a purge of the prompt under `n`, the latest is the prompt. */
  ghost predicate Armed(actions: seq<DeskAction>, n: nat) {
    if actions == [] then false
    else
      var prefix, last := actions[..|actions| - 1], actions[|actions| - 1];
      var d := RunDesk(EMPTY_DESK, prefix);
      if ShowsUnder(d, last, n) then true
      else if ClicksOn(last, n) || PurgesUnder(d, last, n) then false
      else Armed(prefix, n)
  }

  lemma DeliverCallbacks(d: DeskState, a: DeskAction, n: nat)
    requires EachOk(d) && a.Deliver?
    ensures n in StepDesk(d, a).notifier.callbacks <==> ShowsUnder(d, a, n) || n in d.notifier.callbacks
  {
  }

  /** A purge closes the popups of exactly the prompts it drops. */
  lemma PurgedPopups(s: Screen, container: string, n: nat)
    ensures n in PurgeContainer(s, container).notifier.callbacks <==>
            && n in s.notifier.callbacks
            && !exists r :: r in s.sub.pending && s.sub.pending[r].notificationId == n
                            && s.sub.pending[r].container == container
  {
    if r :| r in s.sub.pending && s.sub.pending[r].notificationId == n && s.sub.pending[r].container == container {
      assert r in StaleOn(s.sub.pending, container);
      assert n in PopupsOf(s.sub.pending, StaleOn(s.sub.pending, container));
    }
  }

  /** An alert has no callback, so closing one changes none. */
  lemma AlertCloses(s: Screen, container: string)
    requires Routed(s)
    ensures CloseShieldDown(s, container).notifier.callbacks == s.notifier.callbacks
  {
  }

  lemma TaskCallbacks(s: Screen, raises: bool, n: nat)
    requires s.sub.tasks != [] && ScreenOk(s)
    ensures n in RunTask(s, raises).notifier.callbacks <==>
            && n in s.notifier.callbacks
            && !exists r :: r in s.sub.pending && s.sub.pending[r].notificationId == n
                            && Purges(s.sub.tasks[0], s.sub.pending[r].container)
  {
    var popped := s.(sub := s.sub.(tasks := s.sub.tasks[1..]));
    match s.sub.tasks[0]
    case PurgePrompts(c) => PurgedPopups(popped, c, n);
    case CleanUpExited(c) =>
      PurgedPopups(popped, c, n);
      QuietOk(s, popped);
      PurgeOk(popped, c);
      AlertCloses(PurgeContainer(popped, c), c);
    case CloseStaleShieldDown(c) => AlertCloses(popped, c);
    case PostShieldDown(c) =>
    case PostNotice(_) =>
    case SendVerdict(_) =>
  }

  lemma StepCallbacks(d: DeskState, a: DeskAction, n: nat)
    requires EachOk(d)
    ensures n in StepDesk(d, a).notifier.callbacks <==>
            ShowsUnder(d, a, n) || (n in d.notifier.callbacks && !ClicksOn(a, n) && !PurgesUnder(d, a, n))
  {
    match a
    case Attach(_, _) =>
    case Deliver(_, _, _, _) => DeliverCallbacks(d, a, n);
    case RunNext(id, raises) =>
      if id in d.subs && d.subs[id].tasks != [] {
        assert ScreenOk(ScreenOf(d, id));
        TaskCallbacks(ScreenOf(d, id), raises, n);
      }
    case UserClick(_, _) =>
  }

  /** Over every desk run the popups that answer a click are exactly the armed ones. */
  lemma {:induction false} CallbackIsAFold(actions: seq<DeskAction>, n: nat)
    ensures n in RunDesk(EMPTY_DESK, actions).notifier.callbacks <==> Armed(actions, n)
  {
    if actions != [] {
      var prefix := actions[..|actions| - 1];
      CallbackIsAFold(prefix, n);
      DeskInvariant(prefix);
      StepCallbacks(RunDesk(EMPTY_DESK, prefix), actions[|actions| - 1], n);
    }
  }

  // ---- a prompt on screen ----

  /** Of "a prompt shown under `n`" and "a click on `n`", the latest is the click. */
  ghost predicate Spent(actions: seq<DeskAction>, n: nat) {
    if actions == [] then false
    else
      var prefix, last := actions[..|actions| - 1], actions[|actions| - 1];
      if ShowsUnder(RunDesk(EMPTY_DESK, prefix), last, n) then false
      else ClicksOn(last, n) || Spent(prefix, n)
  }

  /** A prompt after a step is the one just accepted, or was there before, untouched. */
  lemma PromptBefore(d: DeskState, a: DeskAction, id: nat, r: string)
    requires id in StepDesk(d, a).subs && r in StepDesk(d, a).subs[id].pending
    ensures var p := StepDesk(d, a).subs[id].pending[r];
            || ShowsUnder(d, a, p.notificationId)
            || (id in d.subs && r in d.subs[id].pending && d.subs[id].pending[r] == p)
  {
  }

  /** The popup of a prompt that stays was not purged. */
  lemma KeptIsNotPurged(d: DeskState, a: DeskAction, id: nat, r: string)
    requires DeskOk(d) && id in d.subs && r in d.subs[id].pending
    requires id in StepDesk(d, a).subs && r in StepDesk(d, a).subs[id].pending
    requires StepDesk(d, a).subs[id].pending[r] == d.subs[id].pending[r]
    ensures !PurgesUnder(d, a, d.subs[id].pending[r].notificationId)
  {
    var n := d.subs[id].pending[r].notificationId;
    if PurgesUnder(d, a, n) {
      var q :| q in d.subs[a.id].pending && d.subs[a.id].pending[q].notificationId == n
               && Purges(d.subs[a.id].tasks[0], d.subs[a.id].pending[q].container);
      assert Owns(d.subs[id], n) && Owns(d.subs[a.id], n);
      assert false;
    }
  }

  /** A prompt on screen answers a click exactly if its popup was not clicked since a prompt was last shown there. */
  lemma {:induction false} PromptAnswersUnlessSpent(actions: seq<DeskAction>, id: nat, r: string)
    requires var d := RunDesk(EMPTY_DESK, actions); id in d.subs && r in d.subs[id].pending
    ensures var d := RunDesk(EMPTY_DESK, actions);
            var n := d.subs[id].pending[r].notificationId;
            n in d.notifier.callbacks <==> !Spent(actions, n)
  {
    var d' := RunDesk(EMPTY_DESK, actions);
    var n := d'.subs[id].pending[r].notificationId;
    var prefix, last := actions[..|actions| - 1], actions[|actions| - 1];
    var d := RunDesk(EMPTY_DESK, prefix);
    DeskInvariant(prefix);
    StepCallbacks(d, last, n);
    PromptBefore(d, last, id, r);
    if !ShowsUnder(d, last, n) {
      PromptAnswersUnlessSpent(prefix, id, r);
      KeptIsNotPurged(d, last, id, r);
    }
  }

  /** So a click on a prompt that was not clicked yet sends the verdict on what it shows now, and only once. */
  lemma UnspentClickSends(actions: seq<DeskAction>, id: nat, r: string, action: string)
    requires var d := RunDesk(EMPTY_DESK, actions);
             id in d.subs && r in d.subs[id].pending && !Spent(actions, d.subs[id].pending[r].notificationId)
    ensures var d := RunDesk(EMPTY_DESK, actions);
            var p := d.subs[id].pending[r];
            var d' := StepDesk(d, UserClick(p.notificationId, action));
            && d'.subs == d.subs[id := d.subs[id].(
                          tasks := d.subs[id].tasks
                          + [SendVerdict(VerdictCall(p.container, r, p.target, action))])]
            && StepDesk(d', UserClick(p.notificationId, action)) == d'
  {
    PromptAnswersUnlessSpent(actions, id, r);
    ClickRoutesToPrompt(actions, id, r, action);
  }

  // ---- popups and notices ----

  /**
   An accepted block updates the popup of the prompt on its target, or takes the next id; a refused one leaves
   every prompt and callback as it was.
   */
  lemma BlockedPopup(s: Screen, e: ClearanceEvent, now: string, r: string)
    requires ScreenOk(s) && e.kind.ConnectionBlocked? && e.Target() != "" && NotifyBlocked in s.sub.enabled
    ensures var s' := OnEvent(s, e, now, false);
            && e.requestId in s'.sub.pending && s'.sub.pending[e.requestId].dossier == e.dossier
            && (r in s.sub.pending && s.sub.pending[r].container == e.container
                && s.sub.pending[r].target == e.Target() ==>
                  s'.sub.pending[e.requestId].notificationId == s.sub.pending[r].notificationId
                  && s'.notifier.nextId == s.notifier.nextId)
            && ((forall q | q in s.sub.pending :: !On(s.sub.pending[q], e.container, e.Target())) ==>
                  s'.sub.pending[e.requestId].notificationId == s.notifier.nextId
                  && s'.notifier.nextId == s.notifier.nextId + 1)
    ensures var s' := OnEvent(s, e, now, true); s'.sub == s.sub && s'.notifier.callbacks == s.notifier.callbacks
  {
    LiveBlockUnique(s.sub.pending, e.container, e.Target());
  }

  /** An outcome drops its own prompt and touches no other one, no callback, no alert and no id. */
  lemma OutcomeInPlace(s: Screen, e: ClearanceEvent, now: string, raises: bool)
    requires e.kind.VerdictApplied?
    ensures var s' := OnEvent(s, e, now, raises);
            && s'.notifier.nextId == s.notifier.nextId && s'.notifier.callbacks == s.notifier.callbacks
            && s'.sub.shieldDown == s.sub.shieldDown && s'.sub.tasks == s.sub.tasks
            && (forall r :: r in s'.sub.pending <==> r in s.sub.pending && r != e.requestId)
            && (forall r | r in s'.sub.pending :: s'.sub.pending[r] == s.sub.pending[r])
  {
  }

  /** A notice takes one new id and is not tracked. */
  lemma NoticeTakesId(s: Screen, raises: bool)
    requires s.sub.tasks != [] && s.sub.tasks[0].PostNotice?
    ensures var s' := RunTask(s, raises);
            && s'.notifier.nextId == s.notifier.nextId + 1 && s'.notifier.callbacks == s.notifier.callbacks
            && s'.sub.pending == s.sub.pending && s'.sub.shieldDown == s.sub.shieldDown
            && [s.sub.tasks[0]] + s'.sub.tasks == s.sub.tasks
  {
  }

  /** Which notices and alerts an event brings, by the category that switches each on. */
  lemma PopupGates(sub: Subscriber, e: ClearanceEvent, c: string)
    ensures PostNotice(c) in Queued(sub, e) <==>
            && c == e.container
            && (|| (e.kind.ContainerStarted? && NotifyContainerStarted in sub.enabled)
                || (e.kind.ContainerExited? && NotifyContainerExited in sub.enabled)
                || (e.kind.ShieldUp? && NotifyShieldUp in sub.enabled))
    ensures PostShieldDown(c) in Queued(sub, e) <==>
            && c == e.container
            && (e.kind.ShieldDown? || e.kind.ShieldDisengaged?) && NotifyShieldDown in sub.enabled
    ensures CloseStaleShieldDown(c) in Queued(sub, e) <==> c == e.container && e.kind.ShieldUp?
    ensures CleanUpExited(c) in Queued(sub, e) <==> c == e.container && e.kind.ContainerExited?
    ensures PurgePrompts(c) in Queued(sub, e) <==>
            c == e.container && (e.kind.ShieldDown? || e.kind.ShieldDisengaged?)
  {
  }
}
