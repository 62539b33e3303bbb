/** How old a pending verdict can get. */
module HubTiming {
  import opened Events
  import opened HubModel
  import opened HubProtocol
  import opened WireSanitize

  /** A binding is overdue exactly if a failed verdict put it back so; and none is while `calm` lasts. */
  ghost predicate Aging(w: World, calm: bool) {
    && Coherent(w.hub) && w.sweptAt <= w.clock
    && (forall r | r in w.hub.live ::
          w.hub.stamps[r] <= w.clock && (Overdue(w, w.hub.stamps[r]) <==> r in w.restored))
    && (forall i | 0 <= i < |w.flights| :: w.flights[i].stamp.Some? && w.flights[i].stamp.value <= w.clock)
    && (calm ==> w.restored == {} && NoneOverdue(w))
  }

  ghost predicate NoneOverdue(w: World) {
    forall i | 0 <= i < |w.flights| :: w.flights[i].stamp.Some? ==> !Overdue(w, w.flights[i].stamp.value)
  }

  lemma TrackStamps(hub: HubState, event: ClearanceEvent, now: real, r: string)
    requires Coherent(hub) && r in Track(hub, event, now).live
    ensures var hub' := Track(hub, event, now);
            && r in hub'.stamps && r != ""
            && if event.kind.ConnectionBlocked? && event.requestId == r then hub'.stamps[r] == now
               else r in hub.live && hub'.stamps[r] == hub.stamps[r]
  {
  }

  lemma ReadAges(w: World, raw: RawEvent, calm: bool)
    requires Aging(w, calm)
    ensures Aging(StepRead(w, raw), calm)
  {
    if Relayed(w.hub, raw).Some? {
      var event := Relayed(w.hub, raw).value;
      var w' := StepRead(w, raw);
      assert Coherent(w'.hub);
      forall r | r in w'.hub.live
        ensures w'.hub.stamps[r] <= w'.clock && (Overdue(w', w'.hub.stamps[r]) <==> r in w'.restored) {
        TrackStamps(w.hub, event, w.clock, r);
      }
    }
  }

  lemma SweepAges(w: World, calm: bool)
    requires Aging(w, calm) && (calm ==> w.flights == [])
    ensures Aging(StepSweep(w), calm)
  {
  }

  lemma BeginAges(w: World, container: string, requestId: string, dest: string, action: string, calm: bool)
    requires Aging(w, calm)
    ensures Aging(StepBegin(w, container, requestId, dest, action), calm)
  {
  }

  lemma AbortAges(w: World, i: nat, calm: bool)
    requires Aging(w, calm) && i < |w.flights|
    ensures Aging(StepAbort(w, i), calm)
  {
  }

  lemma TickAges(w: World, dt: real, calm: bool)
    requires Aging(w, calm)
    ensures Aging(Step(w, Tick(dt)), calm)
  {
  }

  lemma ReplyAges(w: World, i: nat, ok: bool, stderr: string, calm: bool)
    requires Aging(w, calm) && i < |w.flights| && w.flights[i].requestId != ""
    ensures Aging(StepReply(w, i, ok, stderr), calm)
  {
  }

  lemma StepAges(w: World, a: Action, calm: bool)
    requires Traced(w) && Aging(w, calm) && (calm && a.Sweep? ==> w.flights == [])
    ensures Aging(Step(w, a), calm)
  {
    match a
    case Read(raw) => ReadAges(w, raw, calm);
    case Sweep => SweepAges(w, calm);
    case Begin(container, requestId, dest, action) =>
      BeginAges(w, container, requestId, dest, action, calm);
    case Reply(i, ok, stderr) => if i < |w.flights| { ReplyAges(w, i, ok, stderr, calm); }
    case Abort(i) => if i < |w.flights| { AbortAges(w, i, calm); }
    case Mute(key, on) =>
    case Tick(dt) => TickAges(w, dt, calm);
  }

  /** No sweep of the run caught a verdict in flight. */
  ghost predicate CalmSweeps(w: World, actions: seq<Action>) {
    actions == [] ||
    (var prefix := actions[..|actions| - 1];
     CalmSweeps(w, prefix) && (actions[|actions| - 1].Sweep? ==> Run(w, prefix).flights == []))
  }

  lemma {:induction false} AgingHolds(
    config: HubConfig, seeds: seq<string>, t0: real, actions: seq<Action>, calm: bool)
    requires calm ==> CalmSweeps(Start(config, seeds, t0), actions)
    ensures Aging(Run(Start(config, seeds, t0), actions), calm)
  {
    if actions != [] {
      var prefix := actions[..|actions| - 1];
      AgingHolds(config, seeds, t0, prefix, calm);
      BindingProvenance(config, seeds, t0, prefix);
      StepAges(Run(Start(config, seeds, t0), prefix), actions[|actions| - 1], calm);
    }
  }

  /**
   A binding is older than the TTL plus the time since the last sweep exactly if a failed verdict put it back
   since that sweep at an age past the TTL.  When no sweep of the run caught a verdict in flight there is no
   such binding.
   */
  lemma AgeBound(config: HubConfig, seeds: seq<string>, t0: real, actions: seq<Action>, ttl: real, r: string)
    requires config.ttl == Some(ttl)
    requires r in Run(Start(config, seeds, t0), actions).hub.live
    ensures var w := Run(Start(config, seeds, t0), actions);
            && r in w.hub.stamps
            && (w.clock - w.hub.stamps[r] > NonNegative(ttl) + (w.clock - w.sweptAt) <==> r in w.restored)
            && (CalmSweeps(Start(config, seeds, t0), actions) ==> r !in w.restored)
  {
    AgingHolds(config, seeds, t0, actions, CalmSweeps(Start(config, seeds, t0), actions));
    ConfigFixed(Start(config, seeds, t0), actions);
  }

  /** Where the `j`-th flight is after one step; None once it was replied to or aborted. */
  function Moved(j: nat, a: Action): Option<nat> {
    if a.Reply? || a.Abort? then
      if a.i == j then None
      else if a.i < j then Some(j - 1)
      else Some(j)
    else Some(j)
  }

  function Whereabouts(i: nat, actions: seq<Action>): Option<nat> {
    if actions == [] then Some(i)
    else
      match Whereabouts(i, actions[..|actions| - 1])
      case None => None
      case Some(j) => Moved(j, actions[|actions| - 1])
  }

  lemma StepMoves(w: World, j: nat, a: Action)
    requires j < |w.flights| && Moved(j, a).Some?
    ensures Moved(j, a).value < |Step(w, a).flights| && Step(w, a).flights[Moved(j, a).value] == w.flights[j]
  {
  }

  /** Nothing but its own reply or abort touches a call in flight. */
  lemma {:induction false} FlightStays(w: World, i: nat, actions: seq<Action>)
    requires i < |w.flights| && Whereabouts(i, actions).Some?
    ensures var j := Whereabouts(i, actions).value;
            j < |Run(w, actions).flights| && Run(w, actions).flights[j] == w.flights[i]
  {
    if actions != [] {
      var prefix := actions[..|actions| - 1];
      FlightStays(w, i, prefix);
      StepMoves(Run(w, prefix), Whereabouts(i, prefix).value, actions[|actions| - 1]);
    }
  }

  /**
   From admission to a failed reply, whatever runs in between but a reply or abort of the call itself -- a
   re-block of the same id, a purge, a sweep included -- the binding comes back exactly as it was, with its
   age not refreshed.
   */
  lemma FailedRetryKeepsAge(
    w: World, container: string, requestId: string, dest: string, action: string, between: seq<Action>,
    stderr: string)
    requires Coherent(w.hub) && Admit(w.hub, container, requestId, dest, action).Ok?
    requires Whereabouts(|w.flights|, between).Some?
    ensures var admitted := StepBegin(w, container, requestId, dest, action);
            var j := Whereabouts(|w.flights|, between).value;
            var after := Step(Run(admitted, between), Reply(j, false, stderr)).hub;
            && requestId in after.live && after.live[requestId] == w.hub.live[requestId]
            && requestId in after.stamps && after.stamps[requestId] == w.hub.stamps[requestId]
  {
    FlightStays(StepBegin(w, container, requestId, dest, action), |w.flights|, between);
  }

  /**
   Such bindings exist: a sweep that passes while the verdict is in flight does not see its binding, so a
   failed verdict can bring back a binding of any age `dt`, with the last sweep just done.
   */
  lemma RestoredCanBeOlder(config: HubConfig, raw: RawEvent, t0: real, dt: real, stderr: string)
    requires dt >= 0.0
    requires var e := Decode(config, raw); e.Some? && e.value.kind.ConnectionBlocked? && e.value.requestId != ""
    ensures var e := Decode(config, raw).value;
            var blocked := Step(Start(config, [], t0), Read(raw));
            var clicked := Step(blocked, Begin(e.container, e.requestId, e.Target(), ALLOW));
            var swept := Step(Step(clicked, Tick(dt)), Sweep);
            var w := Step(swept, Reply(0, false, stderr));
            && w.clock == w.sweptAt
            && e.requestId in w.hub.live && e.requestId in w.hub.stamps
            && w.clock - w.hub.stamps[e.requestId] == dt
  {
    var e := Decode(config, raw).value;
    var w0 := Start(config, [], t0);
    var w1 := Step(w0, Read(raw));
    FirstBlock(w0, raw);
    var w2 := Step(w1, Begin(e.container, e.requestId, e.Target(), ALLOW));
    assert w2.flights == [Flight(e.requestId, BindingOf(e), Some(t0), ALLOW)];
    var w4 := Step(Step(w2, Tick(dt)), Sweep);
    assert w4.flights == w2.flights && w4.clock == w4.sweptAt == t0 + dt;
  }

  lemma FirstBlock(w: World, raw: RawEvent)
    requires w.hub.muted == {}
    requires var e := Decode(w.hub.config, raw); e.Some? && e.value.kind.ConnectionBlocked? && e.value.requestId != ""
    ensures var e := Decode(w.hub.config, raw).value;
            var w' := Step(w, Read(raw));
            && e.requestId in w'.hub.live && w'.hub.live[e.requestId] == BindingOf(e)
            && e.requestId in w'.hub.stamps && w'.hub.stamps[e.requestId] == w.clock
            && w'.flights == w.flights && w'.clock == w.clock
  {
  }

  /** With expiry disabled a sweep is a no-op; otherwise it removes exactly the entries past the TTL. */
  lemma SweepExact(w: World, r: string)
    requires Coherent(w.hub)
    ensures var after := StepSweep(w).hub;
            && (r in after.live <==> r in w.hub.live
                                     && (w.hub.config.ttl.Some? ==>
                                           w.clock - w.hub.stamps[r] <= w.hub.config.ttl.value))
            && (r in after.live ==> after.live[r] == w.hub.live[r] && after.stamps[r] == w.hub.stamps[r])
            && Coherent(after)
            && |after.live| == |w.hub.live| - |Stale(w.hub, w.clock)|
  {
  }
}
