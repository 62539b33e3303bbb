/** What a shield drop or an exit does to the bindings of its container, at that step and afterwards. */
module HubPurges {
  import opened Events
  import opened HubModel
  import opened HubProtocol

  /** A line this hub reads as an event that retires the prompts of `c`. */
  ghost predicate RetiresOn(config: HubConfig, raw: RawEvent, c: string) {
    var e := Decode(config, raw);
    e.Some? && RetiresPrompts(e.value.kind) && e.value.container == c
  }

  /** At the step itself every binding of the container goes, and no other one. */
  lemma PurgeExact(w: World, raw: RawEvent, c: string)
    requires Coherent(w.hub) && RetiresOn(w.hub.config, raw, c)
    ensures var after := Step(w, Read(raw)).hub;
            && Coherent(after)
            && (forall r :: r in after.live <==> r in w.hub.live && w.hub.live[r].container != c)
            && (forall r | r in after.live :: after.live[r] == w.hub.live[r] && after.stamps[r] == w.hub.stamps[r])
  {
  }

  /** Bound by a block event from position `n` on, or in flight back then. */
  ghost predicate Excused(w: World, n: nat, flights: seq<Flight>, r: string, b: Binding) {
    || (exists i :: n <= i < |w.history| && IsBlockOf(w.history[i], r, b))
    || (exists k :: 0 <= k < |flights| && flights[k].requestId == r && flights[k].binding == b)
  }

  ghost predicate OnlyExcused(w: World, n: nat, flights: seq<Flight>, c: string) {
    && n <= |w.history|
    && (forall r | r in w.hub.live && w.hub.live[r].container == c :: Excused(w, n, flights, r, w.hub.live[r]))
    && (forall i | 0 <= i < |w.flights| && w.flights[i].binding.container == c ::
          Excused(w, n, flights, w.flights[i].requestId, w.flights[i].binding))
  }

  lemma ExcusedGrows(w: World, a: Action, n: nat, flights: seq<Flight>)
    ensures forall r, b | Excused(w, n, flights, r, b) :: Excused(Step(w, a), n, flights, r, b)
  {
    var w' := Step(w, a);
    assert |w.history| <= |w'.history| && w'.history[..|w.history|] == w.history;
    forall r, b | Excused(w, n, flights, r, b) ensures Excused(w', n, flights, r, b) {
      if i :| n <= i < |w.history| && IsBlockOf(w.history[i], r, b) {
        assert w'.history[..|w.history|][i] == w.history[i];
        assert IsBlockOf(w'.history[i], r, b);
      }
    }
  }

  lemma ReadOnlyExcused(w: World, raw: RawEvent, n: nat, flights: seq<Flight>, c: string)
    requires OnlyExcused(w, n, flights, c)
    ensures OnlyExcused(StepRead(w, raw), n, flights, c)
  {
    ExcusedGrows(w, Read(raw), n, flights);
    var w' := StepRead(w, raw);
    if Relayed(w.hub, raw).Some? {
      var e := Relayed(w.hub, raw).value;
      assert w'.history[|w.history|].event == e;
      forall r | r in w'.hub.live && w'.hub.live[r].container == c ensures Excused(w', n, flights, r, w'.hub.live[r]) {
        if r in w.hub.live && w.hub.live[r] == w'.hub.live[r] {
          assert Excused(w, n, flights, r, w.hub.live[r]);
        } else {
          assert IsBlockOf(w'.history[|w.history|], r, w'.hub.live[r]);
        }
      }
    }
  }

  lemma StepOnlyExcused(w: World, a: Action, n: nat, flights: seq<Flight>, c: string)
    requires OnlyExcused(w, n, flights, c)
    ensures OnlyExcused(Step(w, a), n, flights, c)
  {
    ExcusedGrows(w, a, n, flights);
    match a
    case Read(raw) => ReadOnlyExcused(w, raw, n, flights, c);
    case Sweep =>
    case Begin(_, _, _, _) =>
    case Reply(_, _, _) =>
    case Abort(_) =>
    case Mute(_, _) =>
    case Tick(_) =>
  }

  /**
   The purge lasts: whatever runs afterwards, a binding of the container was bound by a later block event, or
   its verdict was in the helper when the purge happened.
   */
  lemma {:induction false} PurgeLasts(w: World, raw: RawEvent, c: string, actions: seq<Action>)
    requires Coherent(w.hub) && RetiresOn(w.hub.config, raw, c)
    ensures OnlyExcused(Run(Step(w, Read(raw)), actions), |w.history|, w.flights, c)
  {
    var purged := Step(w, Read(raw));
    if actions == [] {
      PurgeExact(w, raw, c);
      assert Relayed(w.hub, raw) == Decode(w.hub.config, raw);
      assert purged.flights == w.flights;
    } else {
      PurgeLasts(w, raw, c, actions[..|actions| - 1]);
      StepOnlyExcused(Run(purged, actions[..|actions| - 1]), actions[|actions| - 1], |w.history|, w.flights, c);
    }
  }

  /** The second excuse is real: a verdict in flight over the purge puts its binding back when it fails. */
  lemma FlightOutlivesPurge(w: World, raw: RawEvent, i: nat, stderr: string)
    requires i < |w.flights| && RetiresOn(w.hub.config, raw, w.flights[i].binding.container)
    ensures var after := Step(Step(w, Read(raw)), Reply(i, false, stderr));
            var f := w.flights[i];
            f.requestId in after.hub.live && after.hub.live[f.requestId] == f.binding
  {
  }
}
