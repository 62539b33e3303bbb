/** Short runs of the loop: one subscriber, and two block lines that reach the hub in a row. */
module Scenarios {
  import opened Events
  import opened HubModel
  import opened HubProtocol
  import opened FanOut
  import opened Notifications
  import opened SubscriberModel
  import opened Desk
  import opened ClearanceLoop

  /** The line is a block event with an id. */
  predicate BlockLine(config: HubConfig, raw: RawEvent) {
    var e := Decode(config, raw);
    e.Some? && e.value.kind.ConnectionBlocked? && e.value.requestId != ""
  }

  function BlockOf(config: HubConfig, raw: RawEvent): ClearanceEvent
    requires BlockLine(config, raw)
  {
    Decode(config, raw).value
  }

  /** A subscriber connects, and the first block is relayed and delivered to it. */
  ghost function AfterOneBlock(config: HubConfig, raw: RawEvent, t0: real): Loop {
    var connected := StepLoop(Opening(config, [], t0), Connect(0, {NotifyBlocked}));
    StepLoop(StepLoop(connected, HubStep(Read(raw))), DeliverNext(0, "", false))
  }

  /** Subscriber 0 shows one prompt, for `e`, under popup 1. */
  ghost predicate ShowsOnly(s: Loop, e: ClearanceEvent) {
    && 0 in s.desk.subs && s.desk.subs[0].id == 0 && s.desk.subs[0].tasks == []
    && NotifyBlocked in s.desk.subs[0].enabled
    && s.desk.subs[0].pending.Keys == {e.requestId}
    && s.desk.subs[0].pending[e.requestId].requestId == e.requestId
    && On(s.desk.subs[0].pending[e.requestId], e.container, e.Target())
    && s.desk.subs[0].pending[e.requestId].notificationId == 1
    && s.desk.notifier.callbacks == map[1 := Click(0, e.container, e.requestId, e.Target())]
    && s.calls == [] && s.refusals == [] && s.interrupted == {}
  }

  /** What waits for subscriber 0, who has lost nothing. */
  ghost predicate Queue(s: Loop, events: seq<ClearanceEvent>) {
    && 0 in s.net.boxes && s.net.boxes[0].dropped == [] && |s.net.boxes[0].items| == |events|
    && forall i | 0 <= i < |events| :: s.net.boxes[0].items[i].event == events[i]
  }

  /** Nothing is muted, in the helper or unbound. */
  predicate Calm(w: World, config: HubConfig) {
    w.hub.config == config && w.hub.muted == {} && w.flights == [] && w.unbound == {}
  }

  lemma OneBlockShown(config: HubConfig, raw: RawEvent, t0: real)
    requires BlockLine(config, raw) && BlockOf(config, raw).Target() != ""
    ensures var e, s := BlockOf(config, raw), AfterOneBlock(config, raw, t0);
            && Calm(s.world, config) && s.world.history == [Emission(e, t0)]
            && s.world.hub.live == map[e.requestId := BindingOf(e)]
            && ShowsOnly(s, e) && Queue(s, [])
  {
    var e := BlockOf(config, raw);
    var s1 := StepLoop(Opening(config, [], t0), Connect(0, {NotifyBlocked}));
    ReadsBlock(s1, raw, e);
    ShowsFirst(StepLoop(s1, HubStep(Read(raw))), e);
  }

  /** A block line on an idle hub with subscriber 0 caught up: it is bound and waits in the queue. */
  lemma ReadsBlock(s: Loop, raw: RawEvent, e: ClearanceEvent)
    requires Decode(s.world.hub.config, raw) == Some(e) && e.kind.ConnectionBlocked? && e.requestId != ""
    requires s.world.hub.muted == {} && Queue(s, [])
    ensures var s' := StepLoop(s, HubStep(Read(raw)));
            && s'.world.hub.live == s.world.hub.live[e.requestId := BindingOf(e)]
            && s'.world.hub.muted == {} && s'.world.hub.config == s.world.hub.config
            && s'.world.history == s.world.history + [Emission(e, s.world.clock)]
            && s'.world.flights == s.world.flights && s'.world.unbound == s.world.unbound - {e.requestId}
            && s'.desk == s.desk && s'.interrupted == s.interrupted
            && s'.calls == s.calls && s'.refusals == s.refusals
            && Queue(s', [e])
  {
  }

  lemma ShowsFirst(s: Loop, e: ClearanceEvent)
    requires s.desk == DeskState(FRESH_NOTIFIER, map[0 := NewSubscriber(0, {NotifyBlocked})])
    requires Queue(s, [e]) && s.calls == [] && s.refusals == [] && s.interrupted == {}
    requires e.kind.ConnectionBlocked? && e.Target() != ""
    ensures var s' := StepLoop(s, DeliverNext(0, "", false)); ShowsOnly(s', e) && Queue(s', []) && s'.world == s.world
  {
  }
}
