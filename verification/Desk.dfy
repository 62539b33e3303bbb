/** Several subscribers over one notifier: whose popup is whose, and where a click goes. */
module Desk {
  import opened Events
  import opened Notifications
  import opened SubscriberModel

  datatype DeskState = DeskState(notifier: NotifierState, subs: map<nat, Subscriber>)

  datatype DeskAction =
    | Attach(id: nat, enabled: set<Category>)
    | Deliver(id: nat, event: ClearanceEvent, now: string, raises: bool)
    | RunNext(id: nat, raises: bool)
    | UserClick(nid: nat, action: string)

  const EMPTY_DESK := DeskState(FRESH_NOTIFIER, map[])

  function ScreenOf(d: DeskState, id: nat): Screen
    requires id in d.subs
  {
    Screen(d.subs[id], d.notifier)
  }

  function Put(d: DeskState, id: nat, s: Screen): DeskState {
    DeskState(s.notifier, d.subs[id := s.sub])
  }

  /** The consumer invokes the callback stored under `nid`; it dispatches to the subscriber it belongs to. */
  function Clicked(d: DeskState, nid: nat, action: string): DeskState {
    if nid !in d.notifier.callbacks then d
    else
      var click := d.notifier.callbacks[nid];
      var closed := d.(notifier := AfterClose(d.notifier, {nid}));
      if click.owner !in d.subs then closed
      else closed.(subs := d.subs[click.owner := OnClick(d.subs[click.owner], click, action)])
  }

  ghost function StepDesk(d: DeskState, a: DeskAction): DeskState {
    match a
    case Attach(id, enabled) => if id in d.subs then d else d.(subs := d.subs[id := NewSubscriber(id, enabled)])
    case Deliver(id, e, now, raises) => if id in d.subs then Put(d, id, OnEvent(ScreenOf(d, id), e, now, raises)) else d
    case RunNext(id, raises) =>
      if id in d.subs && d.subs[id].tasks != [] then Put(d, id, RunTask(ScreenOf(d, id), raises)) else d
    case UserClick(nid, action) => Clicked(d, nid, action)
  }

  ghost function RunDesk(d: DeskState, actions: seq<DeskAction>): DeskState {
    if actions == [] then d else StepDesk(RunDesk(d, actions[..|actions| - 1]), actions[|actions| - 1])
  }

  // ---- one subscriber and the notifier ----

  ghost predicate PromptHolds(sub: Subscriber, nid: nat) {
    exists r :: r in sub.pending && sub.pending[r].notificationId == nid
  }

  ghost predicate AlertHolds(sub: Subscriber, nid: nat) {
    exists c :: c in sub.shieldDown && sub.shieldDown[c] == nid
  }

  /** The popups a subscriber tracks. */
  ghost predicate Owns(sub: Subscriber, nid: nat) {
    PromptHolds(sub, nid) || AlertHolds(sub, nid)
  }

  /** Within one subscriber no two tracked popups share an id. */
  ghost predicate DistinctIds(sub: Subscriber) {
    && (forall r, q | r in sub.pending && q in sub.pending && r != q ::
          sub.pending[r].notificationId != sub.pending[q].notificationId)
    && (forall c, d | c in sub.shieldDown && d in sub.shieldDown && c != d :: sub.shieldDown[c] != sub.shieldDown[d])
    && (forall r, c | r in sub.pending && c in sub.shieldDown :: sub.pending[r].notificationId != sub.shieldDown[c])
  }

  function ClickFor(id: nat, p: PendingBlock): Click {
    Click(id, p.container, p.requestId, p.target)
  }

  /** A callback under a prompt's id sends the verdict for what the prompt shows now; an alert has none. */
  ghost predicate Routed(s: Screen) {
    && (forall r | r in s.sub.pending && s.sub.pending[r].notificationId in s.notifier.callbacks ::
          s.notifier.callbacks[s.sub.pending[r].notificationId] == ClickFor(s.sub.id, s.sub.pending[r]))
    && (forall c | c in s.sub.shieldDown :: s.sub.shieldDown[c] !in s.notifier.callbacks)
  }

  ghost predicate IdsIssued(s: Screen) {
    && (forall r | r in s.sub.pending :: 0 < s.sub.pending[r].notificationId < s.notifier.nextId)
    && (forall c | c in s.sub.shieldDown :: 0 < s.sub.shieldDown[c] < s.notifier.nextId)
    && (forall n | n in s.notifier.callbacks :: 0 < n < s.notifier.nextId)
    && 0 < s.notifier.nextId
  }

  ghost predicate ScreenOk(s: Screen) {
    OnePromptPerTarget(s.sub.pending) && DistinctIds(s.sub) && IdsIssued(s) && Routed(s)
  }

  /** A step touches no popup but its own subscriber's and new ones. */
  ghost predicate Minds(s: Screen, s': Screen) {
    && s'.sub.id == s.sub.id
    && s.notifier.nextId <= s'.notifier.nextId
    && (forall n: nat | Owns(s'.sub, n) :: Owns(s.sub, n) || s.notifier.nextId <= n)
    && (forall n: nat | n < s.notifier.nextId && !Owns(s.sub, n) ::
          && (n in s'.notifier.callbacks <==> n in s.notifier.callbacks)
          && (n in s.notifier.callbacks ==> s'.notifier.callbacks[n] == s.notifier.callbacks[n]))
  }

  /** The prior prompt is the only one on its target. */
  lemma LiveBlockUnique(pending: map<string, PendingBlock>, container: string, target: string)
    requires OnePromptPerTarget(pending)
    ensures var prior := LiveBlock(pending, container, target);
            forall r :: r in pending && On(pending[r], container, target) <==> prior == Some(r)
  {
  }

  /** The prompts other than the new one were there before, and are not the prior one. */
  lemma PromptKeeps(s: Screen, e: ClearanceEvent, prior: Option<string>, now: string)
    requires prior.Some? ==> prior.value in s.sub.pending
    ensures var s' := Prompt(s, e, prior, now);
            && e.requestId in s'.sub.pending
            && forall r | r in s'.sub.pending && r != e.requestId ::
                 r in s.sub.pending && prior != Some(r) && s'.sub.pending[r] == s.sub.pending[r]
  {
  }

  lemma PromptIsOnly(s: Screen, e: ClearanceEvent, prior: Option<string>, now: string)
    requires OnePromptPerTarget(s.sub.pending) && e.Target() != ""
    requires forall r :: r in s.sub.pending && On(s.sub.pending[r], e.container, e.Target()) <==> prior == Some(r)
    ensures OnePromptPerTarget(Prompt(s, e, prior, now).sub.pending)
  {
  }

  /** The id the prompt gets is new, or the prior prompt's own. */
  lemma PromptId(s: Screen, prior: Option<string>)
    requires ScreenOk(s) && (prior.Some? ==> prior.value in s.sub.pending)
    ensures var nid := IdFor(s.notifier, ReplacedId(s.sub.pending, prior));
            && 0 < nid < AfterNotify(s.notifier, ReplacedId(s.sub.pending, prior)).nextId
            && (prior.None? ==> nid == s.notifier.nextId)
            && (prior.Some? ==> nid == s.sub.pending[prior.value].notificationId && PromptHolds(s.sub, nid))
            && (forall r | r in s.sub.pending && prior != Some(r) :: s.sub.pending[r].notificationId != nid)
            && (forall c | c in s.sub.shieldDown :: s.sub.shieldDown[c] != nid)
  {
  }

  lemma PromptIds(s: Screen, e: ClearanceEvent, prior: Option<string>, now: string)
    requires ScreenOk(s) && (prior.Some? ==> prior.value in s.sub.pending)
    ensures var s' := Prompt(s, e, prior, now); DistinctIds(s'.sub) && IdsIssued(s') && Routed(s')
  {
    PromptKeeps(s, e, prior, now);
    PromptId(s, prior);
  }

  lemma PromptMinds(s: Screen, e: ClearanceEvent, prior: Option<string>, now: string)
    requires ScreenOk(s) && (prior.Some? ==> prior.value in s.sub.pending)
    ensures Minds(s, Prompt(s, e, prior, now))
  {
  }

  lemma PurgeOk(s: Screen, container: string)
    requires ScreenOk(s)
    ensures ScreenOk(PurgeContainer(s, container)) && Minds(s, PurgeContainer(s, container))
  {
  }

  lemma CloseOk(s: Screen, container: string)
    requires ScreenOk(s)
    ensures ScreenOk(CloseShieldDown(s, container)) && Minds(s, CloseShieldDown(s, container))
  {
  }

  lemma AlertOk(s: Screen, container: string, raises: bool)
    requires ScreenOk(s)
    ensures var s' := NotifyShieldDownPopup(s, container, raises); ScreenOk(s') && Minds(s, s')
  {
    var s' := NotifyShieldDownPopup(s, container, raises);
    forall n: nat | Owns(s'.sub, n) ensures Owns(s.sub, n) || s.notifier.nextId <= n {
      if PromptHolds(s'.sub, n) {
        assert PromptHolds(s.sub, n);
      } else {
        var c :| c in s'.sub.shieldDown && s'.sub.shieldDown[c] == n;
        if c in s.sub.shieldDown { assert AlertHolds(s.sub, s.sub.shieldDown[c]); }
      }
    }
  }

  lemma VerdictOk(s: Screen, e: ClearanceEvent)
    requires ScreenOk(s)
    ensures ScreenOk(HandleVerdictApplied(s, e)) && Minds(s, HandleVerdictApplied(s, e))
  {
  }

  lemma QuietOk(s: Screen, s': Screen)
    requires ScreenOk(s) && s'.sub.id == s.sub.id
    requires s'.sub.pending == s.sub.pending && s'.sub.shieldDown == s.sub.shieldDown
    requires s'.notifier.callbacks == s.notifier.callbacks && s.notifier.nextId <= s'.notifier.nextId
    ensures ScreenOk(s') && Minds(s, s')
  {
  }

  lemma MindsTransitive(a: Screen, b: Screen, c: Screen)
    requires Minds(a, b) && Minds(b, c)
    ensures Minds(a, c)
  {
  }

  lemma BlockedOk(s: Screen, e: ClearanceEvent, now: string, raises: bool)
    requires ScreenOk(s)
    ensures var s' := HandleConnectionBlocked(s, e, now, raises); ScreenOk(s') && Minds(s, s')
  {
    if e.Target() == "" || raises {
      QuietOk(s, HandleConnectionBlocked(s, e, now, raises));
    } else {
      var prior := LiveBlock(s.sub.pending, e.container, e.Target());
      LiveBlockUnique(s.sub.pending, e.container, e.Target());
      PromptIsOnly(s, e, prior, now);
      PromptIds(s, e, prior, now);
      PromptMinds(s, e, prior, now);
    }
  }

  lemma OnEventOk(s: Screen, e: ClearanceEvent, now: string, raises: bool)
    requires ScreenOk(s)
    ensures var s' := OnEvent(s, e, now, raises); ScreenOk(s') && Minds(s, s')
  {
    if e.kind.ConnectionBlocked? && NotifyBlocked in s.sub.enabled {
      BlockedOk(s, e, now, raises);
    } else if e.kind.VerdictApplied? {
      VerdictOk(s, e);
    } else {
      QuietOk(s, OnEvent(s, e, now, raises));
    }
  }

  lemma ExecuteOk(s: Screen, task: Task, raises: bool)
    requires ScreenOk(s)
    ensures var s' := Execute(s, task, raises); ScreenOk(s') && Minds(s, s')
  {
    match task
    case PurgePrompts(c) => PurgeOk(s, c);
    case CleanUpExited(c) =>
      var mid := PurgeContainer(s, c);
      PurgeOk(s, c);
      CloseOk(mid, c);
      MindsTransitive(s, mid, CloseShieldDown(mid, c));
    case CloseStaleShieldDown(c) => CloseOk(s, c);
    case PostShieldDown(c) => AlertOk(s, c, raises);
    case PostNotice(_) => QuietOk(s, Execute(s, task, raises));
    case SendVerdict(_) => QuietOk(s, s);
  }

  lemma RunTaskOk(s: Screen, raises: bool)
    requires ScreenOk(s) && s.sub.tasks != []
    ensures var s' := RunTask(s, raises); ScreenOk(s') && Minds(s, s')
  {
    var popped := s.(sub := s.sub.(tasks := s.sub.tasks[1..]));
    QuietOk(s, popped);
    ExecuteOk(popped, s.sub.tasks[0], raises);
    MindsTransitive(s, popped, RunTask(s, raises));
  }

  // ---- all subscribers ----

  /** No popup belongs to both. */
  ghost predicate Disjoint(a: Subscriber, b: Subscriber) {
    forall n: nat | Owns(a, n) :: !Owns(b, n)
  }

  ghost predicate Apart(subs: map<nat, Subscriber>) {
    forall i, j | i in subs && j in subs && i != j :: Disjoint(subs[i], subs[j])
  }

  ghost predicate EachOk(d: DeskState) {
    forall id | id in d.subs :: d.subs[id].id == id && ScreenOk(ScreenOf(d, id))
  }

  ghost predicate DeskOk(d: DeskState) {
    && EachOk(d)
    && Apart(d.subs)
    && (forall n | n in d.notifier.callbacks :: 0 < n < d.notifier.nextId)
    && 0 < d.notifier.nextId
  }

  /** A subscriber that another one's step did not touch is still in order. */
  lemma BystanderOk(other: Subscriber, s: Screen, s': Screen)
    requires ScreenOk(Screen(other, s.notifier)) && Minds(s, s') && IdsIssued(s')
    requires Disjoint(other, s.sub)
    ensures ScreenOk(Screen(other, s'.notifier)) && Disjoint(other, s'.sub)
  {
  }

  lemma PutBystander(d: DeskState, id: nat, s': Screen, j: nat)
    requires DeskOk(d) && id in d.subs && ScreenOk(s') && Minds(ScreenOf(d, id), s') && j in d.subs && j != id
    ensures d.subs[j].id == j && ScreenOk(Screen(d.subs[j], s'.notifier))
    ensures Disjoint(d.subs[j], s'.sub) && Disjoint(s'.sub, d.subs[j])
  {
    assert d.subs[j].id == j && ScreenOk(ScreenOf(d, j)) && Disjoint(d.subs[j], d.subs[id]);
    BystanderOk(d.subs[j], ScreenOf(d, id), s');
  }

  lemma PutApart(subs: map<nat, Subscriber>, id: nat, sub': Subscriber)
    requires Apart(subs)
    requires forall j | j in subs && j != id :: Disjoint(subs[j], sub') && Disjoint(sub', subs[j])
    ensures Apart(subs[id := sub'])
  {
  }

  lemma PutEach(d: DeskState, id: nat, s': Screen)
    requires id in d.subs && s'.sub.id == id && ScreenOk(s')
    requires forall j | j in d.subs && j != id :: d.subs[j].id == j && ScreenOk(Screen(d.subs[j], s'.notifier))
    ensures EachOk(Put(d, id, s'))
  {
    var d' := Put(d, id, s');
    assert ScreenOf(d', id) == s';
    forall j | j in d'.subs ensures d'.subs[j].id == j && ScreenOk(ScreenOf(d', j)) {
      if j != id { assert ScreenOf(d', j) == Screen(d.subs[j], s'.notifier); }
    }
  }

  lemma PutOk(d: DeskState, id: nat, s': Screen)
    requires DeskOk(d) && id in d.subs && ScreenOk(s') && Minds(ScreenOf(d, id), s')
    ensures DeskOk(Put(d, id, s'))
  {
    forall j | j in d.subs && j != id
      ensures d.subs[j].id == j && ScreenOk(Screen(d.subs[j], s'.notifier))
      ensures Disjoint(d.subs[j], s'.sub) && Disjoint(s'.sub, d.subs[j])
    {
      PutBystander(d, id, s', j);
    }
    PutEach(d, id, s');
    PutApart(d.subs, id, s'.sub);
  }

  /** Dropping callbacks and queueing tasks disturbs no popup. */
  lemma SamePopupsOk(sub: Subscriber, sub': Subscriber, n: NotifierState, n': NotifierState)
    requires ScreenOk(Screen(sub, n)) && sub'.id == sub.id
    requires sub'.pending == sub.pending && sub'.shieldDown == sub.shieldDown && n'.nextId == n.nextId
    requires forall i | i in n'.callbacks :: i in n.callbacks && n'.callbacks[i] == n.callbacks[i]
    ensures ScreenOk(Screen(sub', n'))
    ensures forall i: nat :: Owns(sub', i) <==> Owns(sub, i)
  {
  }

  lemma ClickedOne(d: DeskState, nid: nat, action: string, id: nat)
    requires id in d.subs && d.subs[id].id == id && ScreenOk(ScreenOf(d, id))
    ensures var d' := Clicked(d, nid, action);
            && id in d'.subs && d'.subs[id].id == id && ScreenOk(ScreenOf(d', id))
            && forall n: nat :: Owns(d'.subs[id], n) <==> Owns(d.subs[id], n)
  {
    var d' := Clicked(d, nid, action);
    SamePopupsOk(d.subs[id], d'.subs[id], d.notifier, d'.notifier);
  }

  lemma SameOwnersApart(subs: map<nat, Subscriber>, subs': map<nat, Subscriber>)
    requires Apart(subs) && subs'.Keys == subs.Keys
    requires forall id | id in subs :: forall n: nat :: Owns(subs'[id], n) <==> Owns(subs[id], n)
    ensures Apart(subs')
  {
  }

  lemma ClickedEach(d: DeskState, nid: nat, action: string)
    requires EachOk(d)
    ensures EachOk(Clicked(d, nid, action))
  {
    var d' := Clicked(d, nid, action);
    assert d'.subs.Keys == d.subs.Keys;
    forall id | id in d'.subs ensures d'.subs[id].id == id && ScreenOk(ScreenOf(d', id)) {
      assert d.subs[id].id == id && ScreenOk(ScreenOf(d, id));
      ClickedOne(d, nid, action, id);
    }
  }

  lemma ClickedApart(d: DeskState, nid: nat, action: string)
    requires EachOk(d) && Apart(d.subs)
    ensures Apart(Clicked(d, nid, action).subs)
  {
    var d' := Clicked(d, nid, action);
    assert d'.subs.Keys == d.subs.Keys;
    forall id | id in d.subs ensures forall n: nat :: Owns(d'.subs[id], n) <==> Owns(d.subs[id], n) {
      assert d.subs[id].id == id && ScreenOk(ScreenOf(d, id));
      ClickedOne(d, nid, action, id);
    }
    SameOwnersApart(d.subs, d'.subs);
  }

  lemma ClickedOk(d: DeskState, nid: nat, action: string)
    requires DeskOk(d)
    ensures DeskOk(Clicked(d, nid, action))
  {
    ClickedEach(d, nid, action);
    ClickedApart(d, nid, action);
  }

  lemma FreshSubscriberOk(id: nat, enabled: set<Category>, n: NotifierState)
    requires 0 < n.nextId && forall i | i in n.callbacks :: 0 < i < n.nextId
    ensures ScreenOk(Screen(NewSubscriber(id, enabled), n))
    ensures forall i: nat :: !Owns(NewSubscriber(id, enabled), i)
  {
  }

  lemma AttachEach(d: DeskState, id: nat, enabled: set<Category>)
    requires DeskOk(d) && id !in d.subs
    ensures EachOk(d.(subs := d.subs[id := NewSubscriber(id, enabled)]))
  {
    var d' := d.(subs := d.subs[id := NewSubscriber(id, enabled)]);
    FreshSubscriberOk(id, enabled, d.notifier);
    forall j | j in d'.subs ensures d'.subs[j].id == j && ScreenOk(ScreenOf(d', j)) {
      if j != id { assert d.subs[j].id == j && ScreenOk(ScreenOf(d, j)); }
    }
  }

  lemma AttachOk(d: DeskState, id: nat, enabled: set<Category>)
    requires DeskOk(d) && id !in d.subs
    ensures DeskOk(d.(subs := d.subs[id := NewSubscriber(id, enabled)]))
  {
    AttachEach(d, id, enabled);
    FreshSubscriberOk(id, enabled, d.notifier);
    PutApart(d.subs, id, NewSubscriber(id, enabled));
  }

  lemma StepDeskOk(d: DeskState, a: DeskAction)
    requires DeskOk(d)
    ensures DeskOk(StepDesk(d, a))
  {
    match a
    case Attach(id, enabled) => if id !in d.subs { AttachOk(d, id, enabled); }
    case Deliver(id, e, now, raises) =>
      if id in d.subs {
        OnEventOk(ScreenOf(d, id), e, now, raises);
        PutOk(d, id, OnEvent(ScreenOf(d, id), e, now, raises));
      }
    case RunNext(id, raises) =>
      if id in d.subs && d.subs[id].tasks != [] {
        RunTaskOk(ScreenOf(d, id), raises);
        PutOk(d, id, RunTask(ScreenOf(d, id), raises));
      }
    case UserClick(nid, action) => ClickedOk(d, nid, action);
  }

  /**
   Over every run of any number of subscribers on one notifier: one prompt per target, tracked popup ids
   pairwise distinct, non-zero and already issued, and every callback under a prompt's id is that prompt's.
   */
  lemma {:induction false} DeskInvariant(actions: seq<DeskAction>)
    ensures DeskOk(RunDesk(EMPTY_DESK, actions))
  {
    if actions != [] {
      DeskInvariant(actions[..|actions| - 1]);
      StepDeskOk(RunDesk(EMPTY_DESK, actions[..|actions| - 1]), actions[|actions| - 1]);
    }
  }

  /** A click on a prompt that still has its callback queues the verdict for that prompt's current triple, once. */
  lemma ClickRoutesToPrompt(actions: seq<DeskAction>, id: nat, r: string, action: string)
    requires var d := RunDesk(EMPTY_DESK, actions);
             id in d.subs && r in d.subs[id].pending && d.subs[id].pending[r].notificationId in d.notifier.callbacks
    ensures var d := RunDesk(EMPTY_DESK, actions);
            var p := d.subs[id].pending[r];
            var d' := StepDesk(d, UserClick(p.notificationId, action));
            && d'.subs == d.subs[id := Dispatched(
                            d.subs[id], [SendVerdict(VerdictCall(p.container, r, p.target, action))])]
            && p.notificationId !in d'.notifier.callbacks
            && StepDesk(d', UserClick(p.notificationId, action)) == d'
  {
    DeskInvariant(actions);
    assert ScreenOk(ScreenOf(RunDesk(EMPTY_DESK, actions), id));
  }
}
