/**
 The hub as a concurrent protocol.  Every hub coroutine is atomic except a verdict, which is suspended
 once, in the helper call, with its binding out of the map: `Begin` starts it, `Reply` is the helper
 answering, `Abort` an exception or cancellation out of the call.  All steps interleave freely.
 */
module HubProtocol {
  import opened Events
  import opened HubModel
  import opened WireSanitize

  datatype Emission = Emission(event: ClearanceEvent, at: real)

  /** A call that reached the helper, with what its caller cited, and how much of the history existed by then. */
  datatype Execution = Execution(requestId: string, binding: Binding, action: string, after: nat)

  datatype Answer = Answer(flight: Flight, ok: bool, stderr: string)

  datatype World = World(
    hub: HubState,
    flights: seq<Flight>,          // verdicts suspended in the helper call; any of them may answer next
    clock: real,
    history: seq<Emission>,        // everything fanned out, in order
    executed: seq<Execution>,      // every call made to the helper
    answered: seq<Answer>,         // what each call that returned said
    lost: multiset<string>,        // ids whose binding was dropped without a verdict, once per binding
    unbound: set<string>,          // ids that expiry or an aborted call left without a binding since their last block
    sweptAt: real,                 // when expiry last ran (at first: when the hub started)
    restored: set<string>)         // ids put back since then whose binding expiry would already have taken

  datatype Action =
    | Read(raw: RawEvent)
    | Sweep
    | Begin(container: string, requestId: string, dest: string, action: string)
    | Reply(i: nat, ok: bool, stderr: string)
    | Abort(i: nat)
    | Mute(key: string, on: bool)
    | Tick(dt: real)

  function Start(config: HubConfig, seeds: seq<string>, clock: real): World {
    World(Launch(config, seeds), [], clock, [], [], [], multiset{}, {}, clock, {})
  }

  function Without<T>(s: seq<T>, i: nat): seq<T>
    requires i < |s|
  {
    s[..i] + s[i + 1..]
  }

  /** One more binding lost if a live one is about to be overwritten. */
  function Overwritten(hub: HubState, requestId: string): multiset<string> {
    if requestId in hub.live then multiset{requestId} else multiset{}
  }

  /** The bindings that relaying `event` takes away unanswered. */
  function LostTo(hub: HubState, event: ClearanceEvent): multiset<string> {
    if event.kind.ConnectionBlocked? then
      if event.requestId != "" then Overwritten(hub, event.requestId) else multiset{}
    else if RetiresPrompts(event.kind) then multiset(BoundTo(hub.live, event.container))
    else multiset{}
  }

  function StepRead(w: World, raw: RawEvent): World {
    match Relayed(w.hub, raw)
    case None => w
    case Some(event) =>
      w.(hub := Track(w.hub, event, w.clock),
      history := w.history + [Emission(event, w.clock)],
      lost := w.lost + LostTo(w.hub, event),
      unbound := if event.kind.ConnectionBlocked? then w.unbound - {event.requestId} else w.unbound,
      restored := if event.kind.ConnectionBlocked? then w.restored - {event.requestId} else w.restored)
  }

  function StepSweep(w: World): World {
    var stale := Stale(w.hub, w.clock);
    w.(hub := Unbind(w.hub, stale), lost := w.lost + multiset(stale), unbound := w.unbound + stale,
    sweptAt := w.clock, restored := {})
  }

  function StepBegin(w: World, container: string, requestId: string, dest: string, action: string): World {
    var hub := AfterAdmit(w.hub, container, requestId, dest, action);
    match Admit(w.hub, container, requestId, dest, action)
    case Err(_) => w.(hub := hub)
    case Ok(flight) =>
      w.(hub := hub, flights := w.flights + [flight],
      executed := w.executed + [Execution(requestId, Binding(container, dest), action, |w.history|)])
  }

  function NonNegative(x: real): real {
    if x < 0.0 then 0.0 else x
  }

  /** The last sweep would have expired a binding of this age, had it seen it. */
  predicate Overdue(w: World, stamp: real) {
    w.hub.config.ttl.Some? && w.sweptAt - stamp > NonNegative(w.hub.config.ttl.value)
  }

  function StepReply(w: World, i: nat, ok: bool, stderr: string): World
    requires i < |w.flights|
  {
    var flight := w.flights[i];
    var outcome := Outcome(flight, ok, stderr);
    w.(hub := AfterReply(w.hub, flight, ok),
    flights := Without(w.flights, i),
    history := w.history + [Emission(outcome, w.clock)],
    answered := w.answered + [Answer(flight, ok, stderr)],
    lost := if ok then w.lost else w.lost + Overwritten(w.hub, flight.requestId),
    restored :=
    if ok then w.restored
    else if flight.stamp.Some? && Overdue(w, flight.stamp.value) then w.restored + {flight.requestId}
    else w.restored - {flight.requestId})
  }

  function StepAbort(w: World, i: nat): World
    requires i < |w.flights|
  {
    var r := w.flights[i].requestId;
    w.(flights := Without(w.flights, i), lost := w.lost + multiset{r},
    unbound := if r in w.hub.live then w.unbound else w.unbound + {r})
  }

  /** One step.  A reply or abort of a call that is not in flight, or time running backwards, is no step at all. */
  function Step(w: World, a: Action): World {
    match a
    case Read(raw) => StepRead(w, raw)
    case Sweep => StepSweep(w)
    case Begin(container, requestId, dest, action) => StepBegin(w, container, requestId, dest, action)
    case Reply(i, ok, stderr) => if i < |w.flights| then StepReply(w, i, ok, stderr) else w
    case Abort(i) => if i < |w.flights| then StepAbort(w, i) else w
    case Mute(key, on) => w.(hub := AfterMute(w.hub, key, on))
    case Tick(dt) => if dt >= 0.0 then w.(clock := w.clock + dt) else w
  }

  function Run(w: World, actions: seq<Action>): World {
    if actions == [] then w else Step(Run(w, actions[..|actions| - 1]), actions[|actions| - 1])
  }

  /** A verdict on its way: an abort drops it without a trace on the stream or in the maps. */
  lemma AbortIsSilent(w: World, i: nat)
    requires i < |w.flights|
    ensures var w' := Step(w, Abort(i));
            && w'.hub == w.hub && w'.history == w.history && w'.executed == w.executed && w'.answered == w.answered
            && multiset(w'.flights) == multiset(w.flights) - multiset{w.flights[i]}
  {
    assert w.flights == w.flights[..i] + [w.flights[i]] + w.flights[i + 1..];
  }

  /** A run never changes what the hub was built for. */
  lemma {:induction false} ConfigFixed(w: World, actions: seq<Action>)
    ensures Run(w, actions).hub.config == w.hub.config
  {
    if actions != [] {
      ConfigFixed(w, actions[..|actions| - 1]);
    }
  }

  lemma HistoryGrows(w: World, a: Action)
    ensures var w' := Step(w, a);
            && |w.history| <= |w'.history| <= |w.history| + 1
            && w'.history[..|w.history|] == w.history
  {
  }

  // ---- coherence and provenance ----

  /** `at` is when the block event for (requestId, binding) went out, among the first `n` emissions. */
  ghost predicate EmittedAt(history: seq<Emission>, n: nat, requestId: string, binding: Binding, at: real)
    requires n <= |history|
  {
    exists i :: 0 <= i < n && IsBlockOf(history[i], requestId, binding) && history[i].at == at
  }

  ghost predicate Emitted(history: seq<Emission>, n: nat, requestId: string, binding: Binding)
    requires n <= |history|
  {
    exists i :: 0 <= i < n && IsBlockOf(history[i], requestId, binding)
  }

  predicate IsBlockOf(e: Emission, requestId: string, binding: Binding) {
    && e.event.kind.ConnectionBlocked?
    && e.event.requestId == requestId
    && BindingOf(e.event) == binding
  }

  ghost predicate Coherent(hub: HubState) {
    hub.live.Keys == hub.stamps.Keys && "" !in hub.live
  }

  ghost predicate Traced(w: World) {
    && Coherent(w.hub)
    && (forall r | r in w.hub.live ::
          EmittedAt(w.history, |w.history|, r, w.hub.live[r], w.hub.stamps[r]))
    && (forall i | 0 <= i < |w.flights| ::
          && w.flights[i].requestId != "" && IsVerdictAction(w.flights[i].action) && w.flights[i].stamp.Some?
          && EmittedAt(w.history, |w.history|, w.flights[i].requestId, w.flights[i].binding, w.flights[i].stamp.value))
    && (forall i | 0 <= i < |w.executed| ::
          && w.executed[i].after <= |w.history|
          && IsVerdictAction(w.executed[i].action)
          && Emitted(w.history, w.executed[i].after, w.executed[i].requestId, w.executed[i].binding))
  }

  lemma EmittedGrows(h: seq<Emission>, more: seq<Emission>)
    ensures forall n: nat, r, b, at | n <= |h| && EmittedAt(h, n, r, b, at) :: EmittedAt(h + more, |h + more|, r, b, at)
    ensures forall n: nat, r, b | n <= |h| && Emitted(h, n, r, b) :: Emitted(h + more, n, r, b)
  {
    var h' := h + more;
    forall n: nat, r, b, at | n <= |h| && EmittedAt(h, n, r, b, at) ensures EmittedAt(h', |h'|, r, b, at) {
      var i :| 0 <= i < n && IsBlockOf(h[i], r, b) && h[i].at == at;
      assert h'[i] == h[i];
    }
    forall n: nat, r, b | n <= |h| && Emitted(h, n, r, b) ensures Emitted(h', n, r, b) {
      var i :| 0 <= i < n && IsBlockOf(h[i], r, b);
      assert h'[i] == h[i];
    }
  }

  lemma ReadTraced(w: World, raw: RawEvent)
    requires Traced(w)
    ensures Traced(StepRead(w, raw))
  {
    var w' := StepRead(w, raw);
    match Relayed(w.hub, raw)
    case None =>
    case Some(event) =>
      var e := Emission(event, w.clock);
      EmittedGrows(w.history, [e]);
      if event.kind.ConnectionBlocked? && event.requestId != "" {
        assert w'.history[|w.history|] == e;
        assert IsBlockOf(w'.history[|w.history|], event.requestId, BindingOf(event));
      }
  }

  lemma BeginTraced(w: World, container: string, requestId: string, dest: string, action: string)
    requires Traced(w)
    ensures Traced(StepBegin(w, container, requestId, dest, action))
  {
    var w' := StepBegin(w, container, requestId, dest, action);
    match Admit(w.hub, container, requestId, dest, action)
    case Err(_) =>
    case Ok(flight) =>
      assert EmittedAt(w.history, |w.history|, requestId, w.hub.live[requestId], w.hub.stamps[requestId]);
      assert Emitted(w.history, |w.history|, requestId, w.hub.live[requestId]);
  }

  lemma ReplyTraced(w: World, i: nat, ok: bool, stderr: string)
    requires Traced(w) && i < |w.flights|
    ensures Traced(StepReply(w, i, ok, stderr))
  {
    EmittedGrows(w.history, [Emission(Outcome(w.flights[i], ok, stderr), w.clock)]);
  }

  lemma StepTraced(w: World, a: Action)
    requires Traced(w)
    ensures Traced(Step(w, a))
  {
    match a
    case Read(raw) => ReadTraced(w, raw);
    case Sweep =>
    case Begin(container, requestId, dest, action) => BeginTraced(w, container, requestId, dest, action);
    case Reply(i, ok, stderr) => if i < |w.flights| { ReplyTraced(w, i, ok, stderr); }
    case Abort(i) =>
    case Mute(key, on) =>
    case Tick(dt) =>
  }

  /**
   In every reachable state both maps have one key set without the empty key, every binding and its age
   belong to one relayed block event -- through put-backs, restores and re-blocks in flight -- and every
   triple that reached the helper had been emitted before, with a known action.
   */
  lemma {:induction false} BindingProvenance(config: HubConfig, seeds: seq<string>, t0: real, actions: seq<Action>)
    ensures Traced(Run(Start(config, seeds, t0), actions))
  {
    if actions != [] {
      BindingProvenance(config, seeds, t0, actions[..|actions| - 1]);
      StepTraced(Run(Start(config, seeds, t0), actions[..|actions| - 1]), actions[|actions| - 1]);
    }
  }

  // ---- conservation of verdict tokens ----

  function Blocks(history: seq<Emission>, r: string): nat {
    if history == [] then 0
    else
      var e := history[|history| - 1].event;
      Blocks(history[..|history| - 1], r) + if e.kind.ConnectionBlocked? && e.requestId == r then 1 else 0
  }

  /** Verdicts that landed. */
  function Successes(history: seq<Emission>, r: string): nat {
    if history == [] then 0
    else
      var e := history[|history| - 1].event;
      Successes(history[..|history| - 1], r) + if e.kind.VerdictApplied? && e.requestId == r && e.ok then 1 else 0
  }

  function InFlight(flights: seq<Flight>, r: string): nat {
    if flights == [] then 0
    else InFlight(flights[..|flights| - 1], r) + if flights[|flights| - 1].requestId == r then 1 else 0
  }

  lemma {:induction false} InFlightConcat(a: seq<Flight>, b: seq<Flight>, r: string)
    ensures InFlight(a + b, r) == InFlight(a, r) + InFlight(b, r)
  {
    if b == [] {
      assert a + b == a;
    } else {
      assert (a + b)[..|a + b| - 1] == a + b[..|b| - 1];
      InFlightConcat(a, b[..|b| - 1], r);
    }
  }

  lemma InFlightWithout(flights: seq<Flight>, i: nat, r: string)
    requires i < |flights|
    ensures InFlight(flights, r)
         == InFlight(Without(flights, i), r) + if flights[i].requestId == r then 1 else 0
  {
    var a, one, b := flights[..i], [flights[i]], flights[i + 1..];
    assert flights == (a + one) + b;
    InFlightConcat(a + one, b, r);
    InFlightConcat(a, one, r);
    InFlightConcat(a, b, r);
    assert one[..0] == [];
  }

  function Live(hub: HubState, r: string): nat {
    if r in hub.live then 1 else 0
  }

  /** Every block event of `r` is answered, waiting, in flight or lost, and only one of these. */
  ghost predicate Conserved(w: World, r: string) {
    Live(w.hub, r) + InFlight(w.flights, r) + Successes(w.history, r) + w.lost[r] == Blocks(w.history, r)
  }

  lemma Append<T>(s: seq<T>, x: T)
    ensures (s + [x])[..|s + [x]| - 1] == s && (s + [x])[|s + [x]| - 1] == x
  {
  }

  lemma CountsAppend(h: seq<Emission>, x: Emission, r: string)
    ensures Blocks(h + [x], r)
         == Blocks(h, r) + if x.event.kind.ConnectionBlocked? && x.event.requestId == r then 1 else 0
    ensures Successes(h + [x], r)
         == Successes(h, r) + if x.event.kind.VerdictApplied? && x.event.requestId == r && x.event.ok then 1 else 0
  {
  }

  lemma ReadConserves(w: World, raw: RawEvent, r: string)
    requires Coherent(w.hub) && r != "" && Conserved(w, r)
    ensures Conserved(StepRead(w, raw), r)
  {
    match Relayed(w.hub, raw)
    case None =>
    case Some(event) =>
      CountsAppend(w.history, Emission(event, w.clock), r);
      TrackConserves(w.hub, event, w.clock, r);
  }

  lemma TrackConserves(hub: HubState, event: ClearanceEvent, now: real, r: string)
    requires r != "" && !event.kind.VerdictApplied?
    ensures Live(Track(hub, event, now), r) + LostTo(hub, event)[r]
         == Live(hub, r) + if event.kind.ConnectionBlocked? && event.requestId == r then 1 else 0
  {
  }

  lemma ReplyConserves(w: World, i: nat, ok: bool, stderr: string, r: string)
    requires i < |w.flights| && Conserved(w, r)
    ensures Conserved(StepReply(w, i, ok, stderr), r)
  {
    CountsAppend(w.history, Emission(Outcome(w.flights[i], ok, stderr), w.clock), r);
    InFlightWithout(w.flights, i, r);
  }

  lemma BeginConserves(w: World, container: string, requestId: string, dest: string, action: string, r: string)
    requires Conserved(w, r)
    ensures Conserved(StepBegin(w, container, requestId, dest, action), r)
  {
  }

  lemma SweepConserves(w: World, r: string)
    requires Coherent(w.hub) && Conserved(w, r)
    ensures Conserved(StepSweep(w), r)
  {
  }

  lemma StepConserves(w: World, a: Action, r: string)
    requires Coherent(w.hub) && r != "" && Conserved(w, r)
    ensures Conserved(Step(w, a), r)
  {
    match a
    case Read(raw) => ReadConserves(w, raw, r);
    case Sweep => SweepConserves(w, r);
    case Begin(container, requestId, dest, action) => BeginConserves(w, container, requestId, dest, action, r);
    case Reply(i, ok, stderr) => if i < |w.flights| { ReplyConserves(w, i, ok, stderr, r); }
    case Abort(i) => if i < |w.flights| { InFlightWithout(w.flights, i, r); }
    case Mute(key, on) =>
    case Tick(dt) =>
  }

  /** Conservation over whole runs: nothing is answered twice and nothing disappears uncounted. */
  lemma {:induction false} VerdictTokens(
    config: HubConfig, seeds: seq<string>, t0: real, actions: seq<Action>, r: string)
    requires r != ""
    ensures Conserved(Run(Start(config, seeds, t0), actions), r)
  {
    if actions != [] {
      var prefix := actions[..|actions| - 1];
      VerdictTokens(config, seeds, t0, prefix, r);
      BindingProvenance(config, seeds, t0, prefix);
      StepConserves(Run(Start(config, seeds, t0), prefix), actions[|actions| - 1], r);
    }
  }

  lemma {:induction false} NoEmptyIdInFlight(flights: seq<Flight>)
    requires forall i | 0 <= i < |flights| :: flights[i].requestId != ""
    ensures InFlight(flights, "") == 0
  {
    if flights != [] {
      NoEmptyIdInFlight(flights[..|flights| - 1]);
    }
  }

  lemma StepEmptyId(w: World, a: Action)
    requires Traced(w) && Successes(w.history, "") == 0
    ensures Successes(Step(w, a).history, "") == 0
  {
  }

  /** The empty id is never bound, so no verdict on it is ever in flight or lands. */
  lemma {:induction false} EmptyIdNeverAnswered(config: HubConfig, seeds: seq<string>, t0: real, actions: seq<Action>)
    ensures var w := Run(Start(config, seeds, t0), actions);
            InFlight(w.flights, "") == 0 && Successes(w.history, "") == 0
  {
    BindingProvenance(config, seeds, t0, actions);
    NoEmptyIdInFlight(Run(Start(config, seeds, t0), actions).flights);
    if actions != [] {
      var prefix := actions[..|actions| - 1];
      EmptyIdNeverAnswered(config, seeds, t0, prefix);
      BindingProvenance(config, seeds, t0, prefix);
      StepEmptyId(Run(Start(config, seeds, t0), prefix), actions[|actions| - 1]);
    }
  }

  /**
   Ok outcomes never outnumber block events, for any id.  With an id emitted once, at most one verdict on
   it lands or is in flight, although a failed one puts the binding back.
   */
  lemma {:induction false} AtMostOneVerdict(
    config: HubConfig, seeds: seq<string>, t0: real, actions: seq<Action>, r: string)
    ensures var w := Run(Start(config, seeds, t0), actions);
            && Successes(w.history, r) + InFlight(w.flights, r) <= Blocks(w.history, r)
            && (Blocks(w.history, r) <= 1 ==> Successes(w.history, r) + InFlight(w.flights, r) <= 1)
  {
    if r == "" {
      EmptyIdNeverAnswered(config, seeds, t0, actions);
    } else {
      VerdictTokens(config, seeds, t0, actions, r);
    }
  }

  // ---- the event stream ----

  /** The verdict outcomes on the stream, in order. */
  function Outcomes(history: seq<Emission>): seq<ClearanceEvent> {
    if history == [] then []
    else
      var e := history[|history| - 1].event;
      Outcomes(history[..|history| - 1]) + if e.kind.VerdictApplied? then [e] else []
  }

  /** Each outcome on the stream follows a block event with its id and container. */
  ghost predicate OutcomesFollowBlocks(history: seq<Emission>) {
    forall j | 0 <= j < |history| && history[j].event.kind.VerdictApplied? :: FollowsBlock(history, j)
  }

  ghost predicate FollowsBlock(history: seq<Emission>, j: nat)
    requires j < |history|
  {
    exists i :: 0 <= i < j && BlockFor(history[i].event, history[j].event)
  }

  predicate BlockFor(block: ClearanceEvent, outcome: ClearanceEvent) {
    block.kind.ConnectionBlocked? && block.requestId == outcome.requestId && block.container == outcome.container
  }

  /** The stream says of one call what the helper answered. */
  predicate Reports(event: ClearanceEvent, answer: Answer) {
    && event.requestId == answer.flight.requestId
    && event.container == answer.flight.binding.container
    && event.action == answer.flight.action
    && event.ok == answer.ok
    && event.reason == (if answer.ok then "" else Sanitize(answer.stderr, 512))
    && event.dest == "" && event.domain == "" && event.port == 0 && event.proto == 0 && event.dossier == map[]
  }

  ghost predicate WellFormedStream(w: World) {
    && OutcomesFollowBlocks(w.history)
    && |Outcomes(w.history)| == |w.answered|
    && forall k | 0 <= k < |w.answered| :: Reports(Outcomes(w.history)[k], w.answered[k])
  }

  lemma AppendKeepsOrder(h: seq<Emission>, e: Emission)
    requires OutcomesFollowBlocks(h)
    requires e.event.kind.VerdictApplied? ==> exists i :: 0 <= i < |h| && BlockFor(h[i].event, e.event)
    ensures OutcomesFollowBlocks(h + [e])
  {
    var h' := h + [e];
    forall j | 0 <= j < |h'| && h'[j].event.kind.VerdictApplied? ensures FollowsBlock(h', j) {
      if j < |h| {
        assert FollowsBlock(h, j);
        var i :| 0 <= i < j && BlockFor(h[i].event, h[j].event);
        assert BlockFor(h'[i].event, h'[j].event);
      } else {
        var i :| 0 <= i < |h| && BlockFor(h[i].event, e.event);
        assert BlockFor(h'[i].event, h'[j].event);
      }
    }
  }

  lemma ReplyKeepsStream(w: World, i: nat, ok: bool, stderr: string)
    requires Traced(w) && WellFormedStream(w) && i < |w.flights|
    ensures WellFormedStream(StepReply(w, i, ok, stderr))
  {
  }

  lemma ReadKeepsStream(w: World, raw: RawEvent)
    requires WellFormedStream(w)
    ensures WellFormedStream(StepRead(w, raw))
  {
    if Relayed(w.hub, raw).Some? {
      var e := Emission(Relayed(w.hub, raw).value, w.clock);
      Append(w.history, e);
      AppendKeepsOrder(w.history, e);
    }
  }

  lemma StepKeepsStream(w: World, a: Action)
    requires Traced(w) && WellFormedStream(w)
    ensures WellFormedStream(Step(w, a))
  {
    match a
    case Read(raw) => ReadKeepsStream(w, raw);
    case Reply(i, ok, stderr) => if i < |w.flights| { ReplyKeepsStream(w, i, ok, stderr); }
    case _ =>
  }

  /**
   Every outcome on the stream follows its block, and each call the helper answered shows up exactly once,
   in order, with its own id, container, action and ok flag.
   */
  lemma {:induction false} StreamWellFormed(config: HubConfig, seeds: seq<string>, t0: real, actions: seq<Action>)
    ensures WellFormedStream(Run(Start(config, seeds, t0), actions))
  {
    if actions != [] {
      var prefix := actions[..|actions| - 1];
      StreamWellFormed(config, seeds, t0, prefix);
      BindingProvenance(config, seeds, t0, prefix);
      StepKeepsStream(Run(Start(config, seeds, t0), prefix), actions[|actions| - 1]);
    }
  }

  /** In every prefix of the stream, ok outcomes never outnumber block events of their id. */
  lemma {:induction false} NeverMoreOkThanBlocks(
    config: HubConfig, seeds: seq<string>, t0: real, actions: seq<Action>, n: nat, r: string)
    requires n <= |Run(Start(config, seeds, t0), actions).history|
    ensures var h := Run(Start(config, seeds, t0), actions).history[..n]; Successes(h, r) <= Blocks(h, r)
  {
    var h := Run(Start(config, seeds, t0), actions).history;
    if n == |h| {
      assert h[..n] == h;
      AtMostOneVerdict(config, seeds, t0, actions, r);
    } else {
      var before := Run(Start(config, seeds, t0), actions[..|actions| - 1]);
      HistoryGrows(before, actions[|actions| - 1]);
      assert h[..n] == h[..|before.history|][..n];
      NeverMoreOkThanBlocks(config, seeds, t0, actions[..|actions| - 1], n, r);
    }
  }
}
