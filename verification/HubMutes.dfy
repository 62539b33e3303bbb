/** Muting as a filter on the relayed stream, and the sorted listing of what is muted. */
module HubMutes {
  import opened Events
  import opened HubModel
  import opened HubProtocol

  // ---- who is muted ----

  /** What the history of a run says of `key`: the latest of seed, `SetMute` and exit decides. */
  predicate MutedSoFar(config: HubConfig, seeds: seq<string>, actions: seq<Action>, key: string) {
    if actions == [] then exists s :: s in seeds && MuteKey(config, s) == Ok(key)
    else
      var prefix, last := actions[..|actions| - 1], actions[|actions| - 1];
      if last.Mute? && MuteKey(config, last.key) == Ok(key) then last.on
      else if last.Read? && IsExitOf(config, last.raw, key) then false
      else MutedSoFar(config, seeds, prefix, key)
  }

  predicate IsExitOf(config: HubConfig, raw: RawEvent, key: string) {
    var e := Decode(config, raw);
    e.Some? && e.value.kind.ContainerExited? && e.value.container == key
  }

  lemma StepMutes(w: World, a: Action, key: string)
    ensures key in Step(w, a).hub.muted <==>
            if a.Mute? && MuteKey(w.hub.config, a.key) == Ok(key) then a.on
            else if a.Read? && IsExitOf(w.hub.config, a.raw, key) then false
            else key in w.hub.muted
  {
  }

  lemma {:induction false} LatestDecides(
    config: HubConfig, seeds: seq<string>, t0: real, actions: seq<Action>, key: string)
    ensures key in Run(Start(config, seeds, t0), actions).hub.muted <==> MutedSoFar(config, seeds, actions, key)
  {
    if actions != [] {
      var prefix := actions[..|actions| - 1];
      LatestDecides(config, seeds, t0, prefix, key);
      ConfigFixed(Start(config, seeds, t0), prefix);
      StepMutes(Run(Start(config, seeds, t0), prefix), actions[|actions| - 1], key);
    }
  }

  // ---- muting as a filter ----

  /** One decoded reader event, and whether it met a mute on arrival. */
  datatype Arrival = Arrival(event: ClearanceEvent, silenced: bool)

  function Arrivals(config: HubConfig, seeds: seq<string>, actions: seq<Action>): seq<Arrival> {
    if actions == [] then []
    else
      var prefix := actions[..|actions| - 1];
      Arrivals(config, seeds, prefix) + ArrivalAfter(config, seeds, prefix, actions[|actions| - 1])
  }

  /** What the action `last`, coming after `prefix`, brings in. */
  function ArrivalAfter(config: HubConfig, seeds: seq<string>, prefix: seq<Action>, last: Action): seq<Arrival> {
    if last.Read? && Decode(config, last.raw).Some? then
      var e := Decode(config, last.raw).value;
      [Arrival(e, e.kind.ConnectionBlocked? && MutedSoFar(config, seeds, prefix, e.container))]
    else []
  }

  /** The arrivals in order; with `all` false, without the silenced ones. */
  function Listen(arrivals: seq<Arrival>, all: bool): seq<ClearanceEvent> {
    if arrivals == [] then []
    else
      var a := arrivals[|arrivals| - 1];
      Listen(arrivals[..|arrivals| - 1], all) + if all || !a.silenced then [a.event] else []
  }

  /** The reader events of the stream: everything but the hub's own verdict outcomes. */
  function ReaderStream(history: seq<Emission>): seq<ClearanceEvent> {
    if history == [] then []
    else
      var e := history[|history| - 1].event;
      ReaderStream(history[..|history| - 1]) + if e.kind.VerdictApplied? then [] else [e]
  }

  lemma ReaderStreamAppend(h: seq<Emission>, x: Emission)
    ensures ReaderStream(h + [x]) == ReaderStream(h) + if x.event.kind.VerdictApplied? then [] else [x.event]
  {
  }

  /** The reader part of one step's output. */
  function Heard(w: World, a: Action): seq<ClearanceEvent> {
    if a.Read? && Relayed(w.hub, a.raw).Some? then [Relayed(w.hub, a.raw).value] else []
  }

  lemma StepHears(w: World, a: Action)
    ensures ReaderStream(Step(w, a).history) == ReaderStream(w.history) + Heard(w, a)
  {
    match a
    case Read(raw) =>
      if Relayed(w.hub, raw).Some? {
        ReaderStreamAppend(w.history, Emission(Relayed(w.hub, raw).value, w.clock));
      }
    case Reply(i, ok, stderr) =>
      if i < |w.flights| {
        ReaderStreamAppend(w.history, Emission(Outcome(w.flights[i], ok, stderr), w.clock));
      }
    case _ =>
  }

  function ListenOne(arrival: seq<Arrival>, all: bool): seq<ClearanceEvent>
    requires |arrival| <= 1
  {
    if arrival != [] && (all || !arrival[0].silenced) then [arrival[0].event] else []
  }

  lemma ListenAppend(arrivals: seq<Arrival>, one: seq<Arrival>, all: bool)
    requires |one| <= 1
    ensures Listen(arrivals + one, all) == Listen(arrivals, all) + ListenOne(one, all)
  {
    if one == [] {
      assert arrivals + one == arrivals;
    } else {
      assert one == [one[0]];
      Append(arrivals, one[0]);
    }
  }

  lemma HeardIsUnsilenced(
    config: HubConfig, seeds: seq<string>, t0: real, prefix: seq<Action>, last: Action)
    ensures Heard(Run(Start(config, seeds, t0), prefix), last)
         == ListenOne(ArrivalAfter(config, seeds, prefix, last), false)
  {
    ConfigFixed(Start(config, seeds, t0), prefix);
    if last.Read? && Decode(config, last.raw).Some? {
      LatestDecides(config, seeds, t0, prefix, Decode(config, last.raw).value.container);
    }
  }

  lemma {:induction false} MutedRunHears(config: HubConfig, seeds: seq<string>, t0: real, actions: seq<Action>)
    ensures ReaderStream(Run(Start(config, seeds, t0), actions).history)
         == Listen(Arrivals(config, seeds, actions), false)
  {
    if actions != [] {
      var prefix, last := actions[..|actions| - 1], actions[|actions| - 1];
      MutedRunHears(config, seeds, t0, prefix);
      StepHears(Run(Start(config, seeds, t0), prefix), last);
      HeardIsUnsilenced(config, seeds, t0, prefix, last);
      ListenAppend(Arrivals(config, seeds, prefix), ArrivalAfter(config, seeds, prefix, last), false);
    }
  }

  function WithoutMutes(actions: seq<Action>): seq<Action> {
    if actions == [] then []
    else
      var last := actions[|actions| - 1];
      WithoutMutes(actions[..|actions| - 1]) + if last.Mute? then [] else [last]
  }

  /** Without seeds and mutes nothing is silenced. */
  lemma UnmutedStepHears(w: World, seeds: seq<string>, prefix: seq<Action>, last: Action)
    requires w.hub.muted == {} && !last.Mute?
    ensures Step(w, last).hub.muted == {}
    ensures Heard(w, last) == ListenOne(ArrivalAfter(w.hub.config, seeds, prefix, last), true)
  {
  }

  lemma {:induction false} UnmutedRunHears(config: HubConfig, seeds: seq<string>, t0: real, actions: seq<Action>)
    ensures var w := Run(Start(config, [], t0), WithoutMutes(actions));
            w.hub.muted == {} && ReaderStream(w.history) == Listen(Arrivals(config, seeds, actions), true)
  {
    if actions != [] {
      var prefix, last := actions[..|actions| - 1], actions[|actions| - 1];
      var kept := WithoutMutes(prefix);
      var w := Run(Start(config, [], t0), kept);
      UnmutedRunHears(config, seeds, t0, prefix);
      ListenAppend(Arrivals(config, seeds, prefix), ArrivalAfter(config, seeds, prefix, last), true);
      if last.Mute? {
        assert WithoutMutes(actions) == kept;
      } else {
        ConfigFixed(Start(config, [], t0), kept);
        Append(kept, last);
        StepHears(w, last);
        UnmutedStepHears(w, seeds, prefix, last);
      }
    }
  }

  /**
   Whatever verdicts, sweeps and mutes interleave, the relayed reader events are those of the same run with
   no mutes, minus exactly the block events whose container was muted on arrival.
   */
  lemma {:induction false} MuteIsAFilter(config: HubConfig, seeds: seq<string>, t0: real, actions: seq<Action>)
    ensures var arrivals := Arrivals(config, seeds, actions);
            && ReaderStream(Run(Start(config, [], t0), WithoutMutes(actions)).history) == Listen(arrivals, true)
            && ReaderStream(Run(Start(config, seeds, t0), actions).history) == Listen(arrivals, false)
  {
    UnmutedRunHears(config, seeds, t0, actions);
    MutedRunHears(config, seeds, t0, actions);
  }

  // ---- the listing ----

  /** Python's order on strings: by the first code point that differs, a prefix first. */
  predicate Less(a: string, b: string) {
    if a == "" then b != ""
    else if b == "" then false
    else a[0] < b[0] || (a[0] == b[0] && Less(a[1..], b[1..]))
  }

  /** The strings agree up to `k`, where `a` ends first or has the smaller code point. */
  predicate FirstDifference(a: string, b: string, k: nat) {
    && k <= |a| && k < |b| && a[..k] == b[..k]
    && (k == |a| || (a[k] as int) < (b[k] as int))
  }

  /** At the first place where they differ the smaller code point comes first, and a proper prefix comes first. */
  lemma {:induction false} LessIsCodePointOrder(a: string, b: string)
    ensures Less(a, b) <==>
            exists k: nat :: FirstDifference(a, b, k)
  {
    if a != "" && b != "" {
      LessIsCodePointOrder(a[1..], b[1..]);
      if a[0] == b[0] && Less(a[1..], b[1..]) {
        var k: nat :| FirstDifference(a[1..], b[1..], k);
        assert a[..k + 1] == [a[0]] + a[1..][..k] && b[..k + 1] == [b[0]] + b[1..][..k];
        assert FirstDifference(a, b, k + 1);
      } else if Less(a, b) {
        assert FirstDifference(a, b, 0);
      }
      forall k: nat | FirstDifference(a, b, k) ensures Less(a, b) {
        if k > 0 {
          assert a[..k][0] == b[..k][0];
          assert a[1..][..k - 1] == a[..k][1..] && b[1..][..k - 1] == b[..k][1..];
          assert FirstDifference(a[1..], b[1..], k - 1);
        }
      }
    } else if b != "" {
      assert FirstDifference(a, b, 0);
    }
  }

  lemma {:induction false} LessTotal(a: string, b: string)
    ensures !Less(a, a)
    ensures Less(a, b) || Less(b, a) || a == b
    ensures !(Less(a, b) && Less(b, a))
  {
    if a != "" && b != "" {
      LessTotal(a[1..], b[1..]);
      LessTotal(a[1..], a[1..]);
      if a[1..] == b[1..] && a[0] == b[0] {
        assert a == [a[0]] + a[1..] && b == [b[0]] + b[1..];
      }
    } else if a != "" {
      LessTotal(a[1..], a[1..]);
    }
  }

  lemma {:induction false} LessTransitive(a: string, b: string, c: string)
    requires Less(a, b) && Less(b, c)
    ensures Less(a, c)
  {
    if a != "" && a[0] == b[0] && b[0] == c[0] {
      LessTransitive(a[1..], b[1..], c[1..]);
    }
  }

  /** Strictly ascending, hence duplicate-free. */
  ghost predicate Ascending(s: seq<string>) {
    forall i, j | 0 <= i < j < |s| :: Less(s[i], s[j])
  }

  ghost predicate ListingOf(s: seq<string>, keys: set<string>) {
    Ascending(s) && forall k :: k in s <==> k in keys
  }

  lemma HeadIn(s: seq<string>)
    requires s != []
    ensures s[0] in s
  {
  }

  /** Equal states give equal replies: a set has one ascending listing. */
  lemma {:induction false} ListingUnique(a: seq<string>, b: seq<string>, keys: set<string>)
    requires ListingOf(a, keys) && ListingOf(b, keys)
    ensures a == b
  {
    if a == [] {
      if b != [] { HeadIn(b); }
    } else {
      assert a[0] in b && (b != [] ==> b[0] in a);
      var i :| 0 <= i < |b| && b[i] == a[0];
      var j :| 0 <= j < |a| && a[j] == b[0];
      LessTotal(a[0], b[0]);
      assert a[0] == b[0];
      forall k ensures (k in a[1..] <==> k in keys - {a[0]}) && (k in b[1..] <==> k in keys - {a[0]}) {
        LessTotal(k, k);
        assert a == [a[0]] + a[1..] && b == [b[0]] + b[1..];
        assert k in a <==> k == a[0] || k in a[1..];
        assert k in b <==> k == b[0] || k in b[1..];
      }
      ListingUnique(a[1..], b[1..], keys - {a[0]});
      assert a == [a[0]] + a[1..] && b == [b[0]] + b[1..];
    }
  }

  /** A least key below every other one. */
  method Least(keys: set<string>) returns (least: string)
    requires keys != {}
    ensures least in keys && forall k | k in keys && k != least :: Less(least, k)
  {
    least :| least in keys;
    var rest := keys - {least};
    while rest != {}
      invariant rest <= keys && least in keys
      invariant forall k | k in keys && k !in rest && k != least :: Less(least, k)
      decreases rest
    {
      var k :| k in rest;
      rest := rest - {k};
      LessTotal(k, least);
      if Less(k, least) {
        forall other | other in keys && other !in rest && other != k ensures Less(k, other) {
          if other != least { LessTransitive(k, least, other); }
        }
        least := k;
      }
    }
  }

  /** Python's `sorted` on a set of keys. */
  method Sorted(keys: set<string>) returns (listing: seq<string>)
    ensures ListingOf(listing, keys)
  {
    listing := [];
    var rest := keys;
    while rest != {}
      invariant rest <= keys
      invariant ListingOf(listing, keys - rest)
      invariant forall k, r | k in listing && r in rest :: Less(k, r)
      decreases rest
    {
      var least := Least(rest);
      forall k, r | k in listing + [least] && r in rest - {least} ensures Less(k, r) {
        if k in listing { assert Less(k, r); }
      }
      assert forall i | 0 <= i < |listing| :: listing[i] in listing;
      rest := rest - {least};
      listing := listing + [least];
    }
    assert keys - {} == keys;
  }
}
