/** What one hub step computes, as functions on the hub's own state. */
module HubModel {
  import opened Events
  import opened WireSanitize

  /** The (container, dest) pair a `Verdict` on a request must cite. */
  datatype Binding = Binding(container: string, target: string)

  function BindingOf(block: ClearanceEvent): Binding {
    Binding(block.container, block.Target())
  }

  datatype HubConfig = HubConfig(
    container: Option<string>,       // the one container served, or None for a multi-container hub
    muteKeys: map<string, string>,   // every key a mute may arrive under -> the key events carry
    ttl: Option<real>)               // seconds; None disables expiry

  datatype HubState = HubState(
    config: HubConfig,
    live: map<string, Binding>,
    stamps: map<string, real>,
    muted: set<string>)

  // ---- configuration ----

  datatype ConfigError = NotAShortId(given: string) | AliasesWithoutContainer

  predicate HexDigit(ch: char) {
    '0' <= ch <= '9' || 'a' <= ch <= 'f' || 'A' <= ch <= 'F'
  }

  predicate ShortId(key: string) {
    |key| == 12 && forall i | 0 <= i < |key| :: HexDigit(key[i])
  }

  /** The short id is twelve hexadecimal digits, in either case. */
  lemma ShortIdExact(key: string)
    ensures ShortId(key) <==> |key| == 12 && forall ch | ch in key :: ch in "0123456789abcdefABCDEF"
  {
    forall ch ensures HexDigit(ch) <==> ch in "0123456789abcdefABCDEF" {
    }
    if |key| == 12 && forall ch | ch in key :: ch in "0123456789abcdefABCDEF" {
      forall i | 0 <= i < |key| ensures HexDigit(key[i]) {
        assert key[i] in key;
      }
    }
  }

  /** A multi-container hub renames nothing; a per-container hub maps each key it knows to its own short id. */
  ghost predicate ValidConfig(config: HubConfig) {
    match config.container
    case None => config.muteKeys == map[]
    case Some(c) => ShortId(c) && c in config.muteKeys && forall k | k in config.muteKeys :: config.muteKeys[k] == c
  }

  function Configure(container: Option<string>, aliases: seq<string>, ttl: Option<real>)
    : (r: Result<HubConfig, ConfigError>)
    ensures r.Ok? ==> ValidConfig(r.value) && r.value.container == container && r.value.ttl == ttl
    ensures r.Ok? && container.Some? ==>
              r.value.muteKeys.Keys == {container.value} + (set a | a in aliases && a != "")
    ensures r.Ok? <==> (container.Some? ==> ShortId(container.value))
                       && (container.None? ==> forall a | a in aliases :: a == "")
  {
    match container
    case None =>
      if forall a | a in aliases :: a == "" then Ok(HubConfig(None, map[], ttl)) else Err(AliasesWithoutContainer)
    case Some(c) =>
      if !ShortId(c) then Err(NotAShortId(c))
      else
        Ok(HubConfig(Some(c), (map a | a in aliases && a != "" :: c)[c := c], ttl))
  }

  // ---- reader ingestion ----

  /** The reader's `pending` is the only renamed type; everything not listed is dropped. */
  function WireKind(rawType: string): (kind: Option<EventKind>)
    ensures kind != Some(VerdictApplied)  // no reader can forge an outcome
  {
    if rawType == "pending" || rawType == "connection_blocked" then Some(ConnectionBlocked)
    else if rawType == "container_started" then Some(ContainerStarted)
    else if rawType == "container_exited" then Some(ContainerExited)
    else if rawType == "shield_up" then Some(ShieldUp)
    else if rawType == "shield_down" then Some(ShieldDown)
    else if rawType == "shield_disengaged" then Some(ShieldDisengaged)
    else None
  }

  /** The wire's name for a kind. */
  function WireName(kind: EventKind): string {
    match kind
    case ConnectionBlocked => "connection_blocked"
    case VerdictApplied => "verdict_applied"
    case ContainerStarted => "container_started"
    case ContainerExited => "container_exited"
    case ShieldUp => "shield_up"
    case ShieldDown => "shield_down"
    case ShieldDisengaged => "shield_disengaged"
  }

  /** The allowlist, both ways: a reader type keeps its name, `pending` is a block, outcomes never pass. */
  lemma AllowlistExact(rawType: string, kind: EventKind)
    ensures WireKind(rawType) == Some(kind) <==>
            !kind.VerdictApplied? && (rawType == WireName(kind) || (rawType == "pending" && kind.ConnectionBlocked?))
  {
  }

  function TextOr(raw: RawEvent, key: string, absent: string): string {
    if key in raw.fields then raw.fields[key].text else absent
  }

  predicate HasNumber(raw: RawEvent, key: string) {
    key in raw.fields && raw.fields[key].number.Some?
  }

  function CoerceDossier(raw: RawEvent): Dossier {
    match raw.dossier
    case None => map[]
    case Some(d) => SanitizeMapping(d)
  }

  /** None is a `KeyError`, `ValueError` or `TypeError` in the translator: a malformed line. */
  function Translate(kind: EventKind, raw: RawEvent): Option<ClearanceEvent> {
    if "container" !in raw.fields then None
    else
      var container := Sanitize(raw.fields["container"].text);
      var dossier := CoerceDossier(raw);
      if kind.ConnectionBlocked? then
        if "id" !in raw.fields || "dest" !in raw.fields || !HasNumber(raw, "port") || !HasNumber(raw, "proto") then None
        else
          Some(PlainEvent(kind, container, dossier).(
               requestId := Sanitize(raw.fields["id"].text),
               dest := Sanitize(raw.fields["dest"].text),
               port := raw.fields["port"].number.value,
               proto := raw.fields["proto"].number.value,
               domain := Sanitize(TextOr(raw, "domain", ""))))
      else if kind.ContainerExited? then
        Some(PlainEvent(kind, container, dossier).(reason := Sanitize(TextOr(raw, "reason", ""))))
      else
        Some(PlainEvent(kind, container, dossier))
  }

  /** A per-container hub's events are about its container, whatever key the producer chose. */
  function Stamp(config: HubConfig, event: ClearanceEvent): ClearanceEvent {
    if config.container.Some? then event.(container := config.container.value) else event
  }

  /** The event a raw line stands for on this hub, before any mute is considered. */
  function Decode(config: HubConfig, raw: RawEvent): Option<ClearanceEvent> {
    match WireKind(TextOr(raw, "type", ""))
    case None => None
    case Some(kind) =>
      match Translate(kind, raw)
      case None => None
      case Some(event) => Some(Stamp(config, event))
  }

  predicate Silenced(muted: set<string>, event: ClearanceEvent) {
    event.kind.ConnectionBlocked? && event.container in muted
  }

  /** The ids whose binding names `container`. */
  function BoundTo(live: map<string, Binding>, container: string): set<string> {
    set r | r in live && live[r].container == container
  }

  function Bind(hub: HubState, requestId: string, binding: Binding, stamp: real): HubState {
    hub.(live := hub.live[requestId := binding], stamps := hub.stamps[requestId := stamp])
  }

  function Unbind(hub: HubState, ids: set<string>): HubState {
    hub.(live := hub.live - ids, stamps := hub.stamps - ids)
  }

  /** The authz map in lockstep with the event stream. */
  function Track(hub: HubState, event: ClearanceEvent, now: real): HubState {
    if event.kind.ConnectionBlocked? && event.requestId != "" then
      Bind(hub, event.requestId, BindingOf(event), now)
    else if RetiresPrompts(event.kind) then
      var purged := Unbind(hub, BoundTo(hub.live, event.container));
      if event.kind.ContainerExited? then purged.(muted := purged.muted - {event.container}) else purged
    else
      hub
  }

  /** The event a raw line makes the hub fan out, if any. */
  function Relayed(hub: HubState, raw: RawEvent): Option<ClearanceEvent> {
    match Decode(hub.config, raw)
    case None => None
    case Some(event) => if Silenced(hub.muted, event) then None else Some(event)
  }

  function AfterRelay(hub: HubState, raw: RawEvent, now: real): HubState {
    match Relayed(hub, raw)
    case None => hub
    case Some(event) => Track(hub, event, now)
  }

  // ---- expiry ----

  /** The ids recorded more than one TTL ago. */
  function Stale(hub: HubState, now: real): set<string> {
    if hub.config.ttl.None? then {}
    else set r | r in hub.stamps && now - hub.stamps[r] > hub.config.ttl.value
  }

  // ---- verdicts ----

  datatype VerdictError =
    | InvalidAction(action: string)
    | UnknownRequest(requestId: string)
    | TupleMismatch(expected: Binding, got: Binding)

  /** The local variables of a verdict suspended in the helper call. */
  datatype Flight = Flight(requestId: string, binding: Binding, stamp: Option<real>, action: string)

  /** The checks in the order the hub makes them. */
  function Admit(hub: HubState, container: string, requestId: string, dest: string, action: string)
    : Result<Flight, VerdictError>
  {
    if !IsVerdictAction(action) then Err(InvalidAction(action))
    else if requestId !in hub.live then Err(UnknownRequest(requestId))
    else if hub.live[requestId] != Binding(container, dest) then
      Err(TupleMismatch(hub.live[requestId], Binding(container, dest)))
    else
      Ok(Flight(requestId, hub.live[requestId],
                if requestId in hub.stamps then Some(hub.stamps[requestId]) else None, action))
  }

  /** A refused verdict changes nothing; an admitted one takes its binding out of the map. */
  function AfterAdmit(hub: HubState, container: string, requestId: string, dest: string, action: string): HubState {
    match Admit(hub, container, requestId, dest, action)
    case Ok(_) => Unbind(hub, {requestId})
    case Err(UnknownRequest(_)) => hub.(stamps := hub.stamps - {requestId})
    case Err(_) => hub
  }

  /**
   A verdict goes through exactly with a known action, on a live id, citing the triple bound to it; else the
   first of these that fails is the refusal, and nothing is consumed.
   */
  lemma AdmitExact(hub: HubState, container: string, requestId: string, dest: string, action: string)
    ensures var r := Admit(hub, container, requestId, dest, action);
            && (r == Err(InvalidAction(action)) <==> action != "allow" && action != "deny")
            && (r == Err(UnknownRequest(requestId)) <==>
                (action == "allow" || action == "deny") && requestId !in hub.live)
            && (r.Ok? <==>
                && (action == "allow" || action == "deny")
                && requestId in hub.live
                && hub.live[requestId].container == container && hub.live[requestId].target == dest)
            && (r.Ok? ==> && r.value.requestId == requestId && r.value.binding == Binding(container, dest)
                          && r.value.action == action
                          && AfterAdmit(hub, container, requestId, dest, action).live == hub.live - {requestId})
            && (r.Err? && r.error.TupleMismatch? ==>
                  requestId in hub.live && r.error == TupleMismatch(hub.live[requestId], Binding(container, dest)))
            && (r.Err? ==> AfterAdmit(hub, container, requestId, dest, action).live == hub.live)
            && (r.Err? && requestId in hub.live ==> AfterAdmit(hub, container, requestId, dest, action) == hub)
  {
    if requestId !in hub.live { assert hub.live - {requestId} == hub.live; }
  }

  /** A failed verdict puts its binding back, with the age it had. */
  function AfterReply(hub: HubState, flight: Flight, ok: bool): HubState {
    if ok then hub
    else
      hub.(live := hub.live[flight.requestId := flight.binding],
      stamps := if flight.stamp.Some? then hub.stamps[flight.requestId := flight.stamp.value] else hub.stamps)
  }

  const VERDICT_REASON_MAX_LEN := 512

  function Outcome(flight: Flight, ok: bool, stderr: string): ClearanceEvent {
    PlainEvent(VerdictApplied, flight.binding.container, map[]).(
    requestId := flight.requestId,
    action := flight.action,
    ok := ok,
    reason := if ok then "" else Sanitize(stderr, VERDICT_REASON_MAX_LEN))
  }

  // ---- mutes ----

  datatype MuteError = UnknownContainer(container: string, expected: string)

  function MuteKey(config: HubConfig, container: string): Result<string, MuteError> {
    match config.container
    case None => Ok(container)
    case Some(own) =>
      if container in config.muteKeys then Ok(config.muteKeys[container]) else Err(UnknownContainer(container, own))
  }

  /** A mute caller may use the short id and every alias the launcher named, and nothing else reaches a key. */
  lemma MuteAddressing(container: Option<string>, aliases: seq<string>, ttl: Option<real>, key: string)
    requires Configure(container, aliases, ttl).Ok?
    ensures var r := MuteKey(Configure(container, aliases, ttl).value, key);
            match container
            case None => r == Ok(key)
            case Some(own) =>
              if key == own || (key in aliases && key != "") then r == Ok(own) else r == Err(UnknownContainer(key, own))
  {
    var config := Configure(container, aliases, ttl).value;
    if container.Some? {
      assert key in config.muteKeys.Keys <==> key == container.value || (key in aliases && key != "");
    }
  }

  function AfterMute(hub: HubState, container: string, on: bool): HubState {
    match MuteKey(hub.config, container)
    case Err(_) => hub
    case Ok(key) => hub.(muted := if on then hub.muted + {key} else hub.muted - {key})
  }

  /** The launch default: each key that this hub serves starts muted, the others are ignored. */
  function Seeded(config: HubConfig, seeds: seq<string>): set<string> {
    set s | s in seeds && MuteKey(config, s).Ok? :: MuteKey(config, s).value
  }

  function Launch(config: HubConfig, seeds: seq<string>): HubState {
    HubState(config, map[], map[], Seeded(config, seeds))
  }
}
