/** What every subscriber may rely on: clean strings, and one identity on a per-container hub. */
module HubWire {
  import opened Events
  import opened HubModel
  import opened HubProtocol
  import opened WireSanitize

  // ---- the wire invariant ----

  ghost predicate CleanField(s: string) {
    |s| <= 256 && forall i | 0 <= i < |s| :: ' ' <= s[i] <= '~'
  }

  ghost predicate CleanEvent(e: ClearanceEvent) {
    && CleanField(e.container) && CleanField(e.requestId) && CleanField(e.dest)
    && CleanField(e.domain) && CleanField(e.action)
    && (if e.kind.VerdictApplied? then Wire(e.reason, 512) else CleanField(e.reason))
    && forall k | k in e.dossier :: CleanField(e.dossier[k])
  }

  ghost predicate CleanBinding(requestId: string, b: Binding) {
    CleanField(requestId) && CleanField(b.container) && CleanField(b.target)
  }

  ghost predicate CleanWorld(w: World) {
    && ValidConfig(w.hub.config)
    && (forall i | 0 <= i < |w.history| :: CleanEvent(w.history[i].event))
    && (forall r | r in w.hub.live :: CleanBinding(r, w.hub.live[r]))
    && (forall i | 0 <= i < |w.flights| :: CleanBinding(w.flights[i].requestId, w.flights[i].binding))
    && (forall i | 0 <= i < |w.flights| :: IsVerdictAction(w.flights[i].action))
  }

  lemma PlainIsClean(kind: EventKind, container: string, dossier: Dossier)
    requires CleanField(container) && forall k | k in dossier :: CleanField(dossier[k])
    ensures CleanEvent(PlainEvent(kind, container, dossier))
  {
  }

  lemma TranslatedIsClean(kind: EventKind, raw: RawEvent)
    requires !kind.VerdictApplied?
    ensures Translate(kind, raw).Some? ==> CleanEvent(Translate(kind, raw).value)
  {
    if Translate(kind, raw).Some? {
      var container, dossier := Sanitize(raw.fields["container"].text), CoerceDossier(raw);
      SanitizedIsWire(raw.fields["container"].text, DEFAULT_MAX_LEN);
      if raw.dossier.Some? {
        MappingIsWire(raw.dossier.value, DEFAULT_MAX_LEN);
      }
      PlainIsClean(kind, container, dossier);
      SanitizedIsWire(TextOr(raw, "domain", ""), DEFAULT_MAX_LEN);
      SanitizedIsWire(TextOr(raw, "reason", ""), DEFAULT_MAX_LEN);
      if kind.ConnectionBlocked? {
        SanitizedIsWire(raw.fields["id"].text, DEFAULT_MAX_LEN);
        SanitizedIsWire(raw.fields["dest"].text, DEFAULT_MAX_LEN);
      }
    }
  }

  lemma ShortIdIsClean(key: string)
    requires ShortId(key)
    ensures CleanField(key)
  {
  }

  lemma DecodedIsClean(config: HubConfig, raw: RawEvent)
    requires ValidConfig(config)
    ensures Decode(config, raw).Some? ==> CleanEvent(Decode(config, raw).value)
  {
    var kind := WireKind(TextOr(raw, "type", ""));
    if kind.Some? {
      TranslatedIsClean(kind.value, raw);
      if config.container.Some? {
        ShortIdIsClean(config.container.value);
      }
    }
  }

  lemma OutcomeIsClean(f: Flight, ok: bool, stderr: string)
    requires CleanBinding(f.requestId, f.binding) && IsVerdictAction(f.action)
    ensures CleanEvent(Outcome(f, ok, stderr))
  {
  }

  lemma ReadKeepsClean(w: World, raw: RawEvent)
    requires CleanWorld(w)
    ensures CleanWorld(StepRead(w, raw))
  {
    DecodedIsClean(w.hub.config, raw);
    match Relayed(w.hub, raw)
    case None =>
    case Some(event) =>
      assert CleanEvent(event);
      assert forall r | r in Track(w.hub, event, w.clock).live ::
          CleanBinding(r, Track(w.hub, event, w.clock).live[r]);
  }

  lemma ReplyKeepsClean(w: World, i: nat, ok: bool, stderr: string)
    requires CleanWorld(w) && i < |w.flights|
    ensures CleanWorld(StepReply(w, i, ok, stderr))
  {
    OutcomeIsClean(w.flights[i], ok, stderr);
  }

  lemma StepKeepsClean(w: World, a: Action)
    requires CleanWorld(w)
    ensures CleanWorld(Step(w, a))
  {
    match a
    case Read(raw) => ReadKeepsClean(w, raw);
    case Reply(i, ok, stderr) => if i < |w.flights| { ReplyKeepsClean(w, i, ok, stderr); }
    case _ =>
  }

  /**
   Every event ever fanned out has only printable, length-capped fields -- the verdict outcomes too, whose
   id and container come from a verdict caller and are clean only because they matched a sanitised binding.
   */
  lemma {:induction false} WireInvariant(config: HubConfig, seeds: seq<string>, t0: real, actions: seq<Action>)
    requires ValidConfig(config)
    ensures CleanWorld(Run(Start(config, seeds, t0), actions))
  {
    if actions != [] {
      WireInvariant(config, seeds, t0, actions[..|actions| - 1]);
      StepKeepsClean(Run(Start(config, seeds, t0), actions[..|actions| - 1]), actions[|actions| - 1]);
    }
  }

  // ---- per-container identity ----

  ghost predicate Serves(w: World, c: string) {
    && ValidConfig(w.hub.config) && w.hub.config.container == Some(c)
    && (forall i | 0 <= i < |w.history| :: w.history[i].event.container == c)
    && (forall r | r in w.hub.live :: w.hub.live[r].container == c)
    && (forall i | 0 <= i < |w.flights| :: w.flights[i].binding.container == c)
    && (forall i | 0 <= i < |w.executed| :: w.executed[i].binding.container == c)
    && w.hub.muted <= {c}
  }

  lemma ReadServes(w: World, raw: RawEvent, c: string)
    requires Serves(w, c)
    ensures Serves(StepRead(w, raw), c)
  {
  }

  lemma StepServes(w: World, a: Action, c: string)
    requires Serves(w, c)
    ensures Serves(Step(w, a), c)
  {
    match a
    case Read(raw) => ReadServes(w, raw, c);
    case Sweep =>
    case Begin(container, requestId, dest, action) =>
    case Reply(i, ok, stderr) =>
    case Abort(i) =>
    case Mute(key, on) =>
    case Tick(dt) =>
  }

  /** Built for `c`, the hub binds, emits, executes and mutes nothing but `c`, under whatever key callers come. */
  lemma {:induction false} OneIdentity(
    config: HubConfig, seeds: seq<string>, t0: real, actions: seq<Action>, c: string)
    requires ValidConfig(config) && config.container == Some(c)
    ensures Serves(Run(Start(config, seeds, t0), actions), c)
  {
    if actions != [] {
      OneIdentity(config, seeds, t0, actions[..|actions| - 1], c);
      StepServes(Run(Start(config, seeds, t0), actions[..|actions| - 1]), actions[|actions| - 1], c);
    }
  }

  /** The events that retire a container's prompts, by the name the reader gives them. */
  predicate RetiringType(rawType: string) {
    rawType == "shield_down" || rawType == "shield_disengaged" || rawType == "container_exited"
  }

  /**
   On a per-container hub such an event, under any container key, leaves no binding at that step.
   (A verdict in flight may still put its own back later.)
   */
  lemma RetirementEmptiesTheMap(
    config: HubConfig, seeds: seq<string>, t0: real, actions: seq<Action>, c: string, raw: RawEvent)
    requires ValidConfig(config) && config.container == Some(c)
    requires RetiringType(TextOr(raw, "type", "")) && "container" in raw.fields
    ensures Run(Start(config, seeds, t0), actions + [Read(raw)]).hub.live == map[]
  {
    OneIdentity(config, seeds, t0, actions, c);
    var w := Run(Start(config, seeds, t0), actions);
    Append(actions, Read(raw));
    var event := Relayed(w.hub, raw).value;
    assert BoundTo(w.hub.live, event.container) == w.hub.live.Keys;
  }

  // ---- nothing is lost on the way in ----

  function Text(s: string): RawValue {
    RawValue(s, None)
  }

  /** A reader line that carries `e` in full. */
  function LineFor(e: ClearanceEvent, rawType: string): RawEvent {
    RawEvent(
      map["type" := Text(rawType), "container" := Text(e.container), "id" := Text(e.requestId),
          "dest" := Text(e.dest), "port" := RawValue("", Some(e.port)), "proto" := RawValue("", Some(e.proto)),
          "domain" := Text(e.domain), "reason" := Text(e.reason)],
      Some(e.dossier))
  }

  /** The fields a kind does not use are at their defaults. */
  predicate WellShaped(e: ClearanceEvent) {
    && e.action == "" && !e.ok
    && (!e.kind.ConnectionBlocked? ==>
          e.requestId == "" && e.dest == "" && e.port == 0 && e.proto == 0 && e.domain == "")
    && (!e.kind.ContainerExited? ==> e.reason == "")
  }

  lemma CleanMappingKept(d: Dossier)
    requires forall k | k in d :: CleanField(d[k])
    ensures SanitizeMapping(d) == d
  {
    forall k | k in d ensures Sanitize(d[k]) == d[k] {
      IdentityOnWire(d[k], DEFAULT_MAX_LEN);
    }
  }

  /** Round trip: a clean event written as a reader line comes out of the translator field for field. */
  lemma LineRoundTrip(e: ClearanceEvent, rawType: string)
    requires WireKind(rawType) == Some(e.kind) && CleanEvent(e) && WellShaped(e)
    ensures Translate(e.kind, LineFor(e, rawType)) == Some(e)
  {
    CleanMappingKept(e.dossier);
    IdentityOnWire(e.container, DEFAULT_MAX_LEN);
    IdentityOnWire(e.requestId, DEFAULT_MAX_LEN);
    IdentityOnWire(e.dest, DEFAULT_MAX_LEN);
    IdentityOnWire(e.domain, DEFAULT_MAX_LEN);
    IdentityOnWire(e.reason, DEFAULT_MAX_LEN);
    LineFields(e, rawType);
  }

  lemma LineFields(e: ClearanceEvent, rawType: string)
    ensures var f := LineFor(e, rawType).fields;
            && "container" in f && f["container"] == Text(e.container)
            && "id" in f && f["id"] == Text(e.requestId)
            && "dest" in f && f["dest"] == Text(e.dest)
            && "port" in f && f["port"].number == Some(e.port)
            && "proto" in f && f["proto"].number == Some(e.proto)
            && "domain" in f && f["domain"] == Text(e.domain)
            && "reason" in f && f["reason"] == Text(e.reason)
            && "type" in f && f["type"] == Text(rawType)
  {
  }
}
