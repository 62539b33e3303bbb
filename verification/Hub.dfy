/** The hub object: dicts, sets and queues changed in place, each method tied to the step it performs. */
module Hub {
  import opened Events
  import opened FanOut
  import opened HubModel
  import opened WireSanitize
  import HubMutes

  datatype ShieldCliFailed = ShieldCliFailed(action: string, stderr: string)

  class ClearanceHub {
    const config: HubConfig
    var live: map<string, Binding>
    var stamps: map<string, real>
    var muted: set<string>
    var subscribers: set<SubscriberQueue>

    ghost function State(): HubState
      reads this
    {
      HubState(config, live, stamps, muted)
    }

    constructor (config: HubConfig, seeds: seq<string>)
      ensures this.config == config && State() == Launch(config, seeds) && subscribers == {}
    {
      this.config := config;
      live, stamps, muted, subscribers := map[], map[], {}, {};
      new;
      for i := 0 to |seeds|
        invariant live == map[] && stamps == map[] && subscribers == {} && muted == Seeded(config, seeds[..i])
      {
        SeedMute(seeds[i]);
        assert seeds[..i + 1] == seeds[..i] + [seeds[i]];
      }
      assert seeds[..|seeds|] == seeds;
    }

    method SeedMute(container: string)
      modifies this`muted
      ensures muted == old(muted) + Seeded(config, [container])
    {
      var key := MuteKey(config, container);
      if key.Ok? {
        muted := muted + {key.value};
      }
    }

    // ---- reader ingestion ----

    method RelayReaderEvent(raw: RawEvent, now: real)
      modifies this`live, this`stamps, this`muted, subscribers
      ensures State() == AfterRelay(old(State()), raw, now)
      ensures forall q | q in subscribers ::
                q.items == match Relayed(old(State()), raw)
                           case None => old(q.items)
                           case Some(event) => Push(old(q.items), event)
    {
      var kind := WireKind(TextOr(raw, "type", ""));
      if kind.None? {
        return;
      }
      var translated := Translate(kind.value, raw);
      if translated.None? {
        return;
      }
      var event := translated.value;
      if config.container.Some? && event.container != config.container.value {
        event := event.(container := config.container.value);
      }
      if event.kind.ConnectionBlocked? && event.container in muted {
        return;
      }
      UpdateLiveVerdicts(event, now);
      FanOut(event);
    }

    method UpdateLiveVerdicts(event: ClearanceEvent, now: real)
      modifies this`live, this`stamps, this`muted
      ensures State() == Track(old(State()), event, now)
    {
      if event.kind.ConnectionBlocked? && event.requestId != "" {
        var target := if event.domain != "" then event.domain else event.dest;
        live := live[event.requestId := Binding(event.container, target)];
        stamps := stamps[event.requestId := now];
      } else if event.kind.ShieldDown? || event.kind.ShieldDisengaged? || event.kind.ContainerExited? {
        PopAll(set rid | rid in live && live[rid].container == event.container);
        if event.kind.ContainerExited? {
          muted := muted - {event.container};
        }
      }
    }

    method PopAll(stale: set<string>)
      modifies this`live, this`stamps
      ensures State() == Unbind(old(State()), stale)
    {
      var todo := stale;
      while todo != {}
        invariant todo <= stale
        invariant live == old(live) - (stale - todo) && stamps == old(stamps) - (stale - todo)
        decreases todo
      {
        var rid :| rid in todo;
        live := live - {rid};
        stamps := stamps - {rid};
        todo := todo - {rid};
      }
      assert stale - todo == stale;
    }

    method CleanupStaleVerdicts(now: real) returns (removed: nat)
      modifies this`live, this`stamps
      ensures State() == Unbind(old(State()), Stale(old(State()), now))
      ensures removed == |Stale(old(State()), now)|
    {
      if config.ttl.None? {
        assert live - {} == live && stamps - {} == stamps;
        return 0;
      }
      var stale := set rid | rid in stamps && now - stamps[rid] > config.ttl.value;
      PopAll(stale);
      removed := |stale|;
    }

    method FanOut(event: ClearanceEvent)
      modifies subscribers
      ensures forall q | q in subscribers :: q.items == Push(old(q.items), event)
    {
      var todo := subscribers;
      while todo != {}
        invariant todo <= subscribers
        invariant forall q | q in subscribers ::
                    q.items == if q in todo then old(q.items) else Push(old(q.items), event)
        decreases todo
      {
        var queue :| queue in todo;
        queue.PutDroppingOldest(event);
        todo := todo - {queue};
      }
    }

    // ---- subscribers ----

    method Subscribe() returns (queue: SubscriberQueue)
      modifies this`subscribers
      ensures fresh(queue) && queue.items == [] && subscribers == old(subscribers) + {queue}
    {
      queue := new SubscriberQueue();
      subscribers := subscribers + {queue};
    }

    method Unsubscribe(queue: SubscriberQueue)
      modifies this`subscribers
      ensures subscribers == old(subscribers) - {queue}
    {
      subscribers := subscribers - {queue};
    }

    // ---- verdicts: everything before the helper call, and everything after it ----

    method BeginVerdict(container: string, requestId: string, dest: string, action: string)
      returns (r: Result<Flight, VerdictError>)
      modifies this`live, this`stamps
      ensures r == Admit(old(State()), container, requestId, dest, action)
      ensures State() == AfterAdmit(old(State()), container, requestId, dest, action)
    {
      if !IsVerdictAction(action) {
        return Err(InvalidAction(action));
      }
      var binding := if requestId in live then Some(live[requestId]) else None;
      var ts := if requestId in stamps then Some(stamps[requestId]) else None;
      live := live - {requestId};
      stamps := stamps - {requestId};
      if binding.None? {
        assert live == old(live);
        return Err(UnknownRequest(requestId));
      }
      if binding.value.container != container || binding.value.target != dest {
        live := live[requestId := binding.value];
        if ts.Some? {
          stamps := stamps[requestId := ts.value];
        }
        assert live == old(live) && stamps == old(stamps);
        return Err(TupleMismatch(binding.value, Binding(container, dest)));
      }
      return Ok(Flight(requestId, binding.value, ts, action));
    }

    method FinishVerdict(flight: Flight, ok: bool, stderr: string) returns (r: Result<bool, ShieldCliFailed>)
      modifies this`live, this`stamps, subscribers
      ensures State() == AfterReply(old(State()), flight, ok)
      ensures forall q | q in subscribers :: q.items == Push(old(q.items), Outcome(flight, ok, stderr))
      ensures r == if ok then Ok(true) else Err(ShieldCliFailed(flight.action, stderr))
    {
      if !ok {
        live := live[flight.requestId := flight.binding];
        if flight.stamp.Some? {
          stamps := stamps[flight.requestId := flight.stamp.value];
        }
      }
      FanOut(PlainEvent(VerdictApplied, flight.binding.container, map[]).(
             requestId := flight.requestId,
             action := flight.action,
             ok := ok,
             reason := if ok then "" else Sanitize(stderr, VERDICT_REASON_MAX_LEN)));
      if !ok {
        return Err(ShieldCliFailed(flight.action, stderr));
      }
      return Ok(true);
    }

    // ---- mutes ----

    method SetMute(container: string, on: bool) returns (r: Result<bool, MuteError>)
      modifies this`muted
      ensures State() == AfterMute(old(State()), container, on)
      ensures match MuteKey(config, container)
              case Err(e) => r == Err(e)
              case Ok(key) => r == Ok(on) && (key in muted <==> on)
    {
      var key := MuteKey(config, container);
      if key.Err? {
        return Err(key.error);
      }
      if on {
        muted := muted + {key.value};
      } else {
        muted := muted - {key.value};
      }
      return Ok(key.value in muted);
    }

    method Mutes() returns (listing: seq<string>)
      ensures HubMutes.ListingOf(listing, muted)
    {
      listing := HubMutes.Sorted(muted);
    }
  }
}
