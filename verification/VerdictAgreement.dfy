/** No verdict a subscriber sends is refused as a tuple mismatch, as long as ids are not reused. */
module VerdictAgreement {
  import opened Events
  import opened HubModel
  import opened HubProtocol
  import opened ClearanceLoop
  import opened Notifications
  import opened Scenarios
  import opened SubscriberModel

  /** Each request id names one (container, target). */
  ghost predicate OneTripleEach(history: seq<Emission>) {
    forall i, j | 0 <= i < |history| && 0 <= j < |history| :: SameTriple(history[i].event, history[j].event)
  }

  predicate SameTriple(a: ClearanceEvent, b: ClearanceEvent) {
    a.kind.ConnectionBlocked? && b.kind.ConnectionBlocked? && a.requestId == b.requestId && a.requestId != "" ==>
      a.container == b.container && a.Target() == b.Target()
  }

  lemma CallAgrees(s: Loop, k: nat)
    requires LoopOk(s) && OneTripleEach(s.world.history) && k < |s.calls|
    ensures Agrees(s.world.hub, s.calls[k])
  {
  }

  lemma HistoryKept(s: Loop, a: LoopAction)
    ensures var s' := StepLoop(s, a);
            |s.world.history| <= |s'.world.history| && s'.world.history[..|s.world.history|] == s.world.history
  {
  }

  lemma PrefixKeepsTriples(h: seq<Emission>, n: nat)
    requires OneTripleEach(h) && n <= |h|
    ensures OneTripleEach(h[..n])
  {
  }

  ghost predicate NoMismatch(refusals: seq<VerdictError>) {
    forall k | 0 <= k < |refusals| :: !refusals[k].TupleMismatch?
  }

  ghost predicate CallsAgree(s: Loop) {
    forall k | 0 <= k < |s.calls| :: Agrees(s.world.hub, s.calls[k])
  }

  /** The hub would not refuse this call as a mismatch. */
  predicate Agrees(hub: HubState, call: VerdictCall) {
    var answer := Admit(hub, call.container, call.requestId, call.dest, call.action);
    answer.Err? ==> !answer.error.TupleMismatch?
  }

  lemma StepRefuses(s: Loop, a: LoopAction)
    requires CallsAgree(s) && NoMismatch(s.refusals)
    ensures NoMismatch(StepLoop(s, a).refusals)
  {
  }

  /**
   Through any interleaving of re-blocks, purges, expiries, failed retries, cut streams and other clients: if
   no id on the stream ever named two different (container, target) pairs, the hub refused no subscriber's
   verdict as a tuple mismatch, and would refuse none of those still on the wire that way.
   */
  lemma {:induction false} NeverAMismatch(config: HubConfig, seeds: seq<string>, t0: real, actions: seq<LoopAction>)
    requires OneTripleEach(RunLoop(Opening(config, seeds, t0), actions).world.history)
    ensures var s := RunLoop(Opening(config, seeds, t0), actions); NoMismatch(s.refusals) && CallsAgree(s)
  {
    var s := RunLoop(Opening(config, seeds, t0), actions);
    LoopInvariant(config, seeds, t0, actions);
    forall k | 0 <= k < |s.calls| ensures Agrees(s.world.hub, s.calls[k]) {
      CallAgrees(s, k);
    }
    if actions != [] {
      var prefix, last := actions[..|actions| - 1], actions[|actions| - 1];
      var before := RunLoop(Opening(config, seeds, t0), prefix);
      HistoryKept(before, last);
      PrefixKeepsTriples(s.world.history, |before.world.history|);
      NeverAMismatch(config, seeds, t0, prefix);
      StepRefuses(before, last);
    }
  }

  /**
   The assumption is needed.  The first of two blocks under one id is on screen when the second reaches the
   hub; the operator clicks, and the verdict is refused, as a mismatch, exactly if the two triples differ.
   */
  lemma ReusedIdMismatches(config: HubConfig, first: RawEvent, second: RawEvent, t0: real, action: string)
    requires BlockLine(config, first) && BlockLine(config, second) && IsVerdictAction(action)
    requires BlockOf(config, first).requestId == BlockOf(config, second).requestId
    requires BlockOf(config, first).Target() != ""
    ensures var shown, now := BindingOf(BlockOf(config, first)), BindingOf(BlockOf(config, second));
            var read := StepLoop(AfterOneBlock(config, first, t0), HubStep(Read(second)));
            var sent := StepLoop(StepLoop(read, ClickOn(1, action)), RunNextTask(0, false));
            StepLoop(sent, Submit(0)).refusals == if shown == now then [] else [TupleMismatch(now, shown)]
  {
    var s := AfterOneBlock(config, first, t0);
    OneBlockShown(config, first, t0);
    ReadsBlock(s, second, BlockOf(config, second));
    var read := StepLoop(s, HubStep(Read(second)));
    ClickSends(read, BlockOf(config, first), action);
    SubmitAnswered(StepLoop(StepLoop(read, ClickOn(1, action)), RunNextTask(0, false)),
                   BlockOf(config, first), BlockOf(config, second), action);
  }

  lemma SubmitAnswered(s: Loop, shown: ClearanceEvent, now: ClearanceEvent, action: string)
    requires s.calls == [VerdictCall(shown.container, shown.requestId, shown.Target(), action)]
    requires IsVerdictAction(action) && s.refusals == []
    requires shown.requestId in s.world.hub.live && s.world.hub.live[shown.requestId] == BindingOf(now)
    ensures StepLoop(s, Submit(0)).refusals
         == if BindingOf(shown) == BindingOf(now) then [] else [TupleMismatch(BindingOf(now), BindingOf(shown))]
  {
  }

  /** A click on the one prompt puts its verdict on the wire. */
  lemma ClickSends(s: Loop, e: ClearanceEvent, action: string)
    requires 0 in s.desk.subs && s.desk.subs[0].tasks == [] && s.calls == []
    requires s.desk.notifier.callbacks == map[1 := Click(0, e.container, e.requestId, e.Target())]
    ensures var sent := StepLoop(StepLoop(s, ClickOn(1, action)), RunNextTask(0, false));
            && sent.calls == [VerdictCall(e.container, e.requestId, e.Target(), action)]
            && sent.world == s.world && sent.refusals == s.refusals
  {
  }
}
