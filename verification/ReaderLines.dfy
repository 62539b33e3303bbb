/**
 What a raw reader line comes to, said of the line's own keys and texts: which lines are relayed, what each
 field becomes, and the one target a block names from the hub's map to the operator's verdict.
 */
module ReaderLines {
  import opened Events
  import opened HubModel
  import opened HubProtocol
  import opened WireSanitize
  import opened Notifications
  import opened SubscriberModel
  import opened Desk

  // ---- which lines are relayed ----

  /** The line's type, in the reader's own words. */
  ghost predicate Says(raw: RawEvent, rawType: string) {
    "type" in raw.fields && raw.fields["type"].text == rawType
  }

  ghost predicate SaysBlocked(raw: RawEvent) {
    Says(raw, "pending") || Says(raw, "connection_blocked")
  }

  ghost predicate SaysLifecycle(raw: RawEvent) {
    || Says(raw, "container_started") || Says(raw, "container_exited")
    || Says(raw, "shield_up") || Says(raw, "shield_down") || Says(raw, "shield_disengaged")
  }

  /** A line counts exactly with an allowlisted type and a container and, for a block, what a block must carry. */
  lemma LineAccepted(config: HubConfig, raw: RawEvent)
    ensures Decode(config, raw).Some? <==>
            && "container" in raw.fields
            && (|| SaysLifecycle(raw)
                || (&& SaysBlocked(raw) && "id" in raw.fields && "dest" in raw.fields
                    && "port" in raw.fields && raw.fields["port"].number.Some?
                    && "proto" in raw.fields && raw.fields["proto"].number.Some?))
  {
  }

  /** The kind is the one the type names. */
  lemma KindOfLine(config: HubConfig, raw: RawEvent)
    requires Decode(config, raw).Some?
    ensures var kind := Decode(config, raw).value.kind;
            && (kind == ConnectionBlocked <==> SaysBlocked(raw))
            && (kind == ContainerStarted <==> Says(raw, "container_started"))
            && (kind == ContainerExited <==> Says(raw, "container_exited"))
            && (kind == ShieldUp <==> Says(raw, "shield_up"))
            && (kind == ShieldDown <==> Says(raw, "shield_down"))
            && (kind == ShieldDisengaged <==> Says(raw, "shield_disengaged"))
  {
  }

  // ---- what the fields become ----

  /** The field is the sanitised text under `key`, empty when the key is absent. */
  ghost predicate Carries(field: string, raw: RawEvent, key: string) {
    field == if key in raw.fields then Sanitize(raw.fields[key].text, 256) else ""
  }

  ghost predicate CarriesDossier(d: Dossier, raw: RawEvent) {
    match raw.dossier
    case None => d == map[]
    case Some(given) => d.Keys == given.Keys && forall k | k in d :: d[k] == Sanitize(given[k], 256)
  }

  /** Every field of an accepted line's event, from the raw texts; what its type does not use is empty. */
  lemma FieldsOfLine(config: HubConfig, raw: RawEvent)
    requires Decode(config, raw).Some?
    ensures var e := Decode(config, raw).value;
            && (if config.container.Some? then e.container == config.container.value
                else Carries(e.container, raw, "container"))
            && CarriesDossier(e.dossier, raw)
            && (if SaysBlocked(raw) then
                  && Carries(e.requestId, raw, "id") && Carries(e.dest, raw, "dest") && Carries(e.domain, raw, "domain")
                  && Some(e.port) == raw.fields["port"].number && Some(e.proto) == raw.fields["proto"].number
                else e.requestId == "" && e.dest == "" && e.domain == "" && e.port == 0 && e.proto == 0)
            && (if Says(raw, "container_exited") then Carries(e.reason, raw, "reason") else e.reason == "")
            && e.action == "" && !e.ok
  {
    if raw.dossier.Some? {
      MappingIsWire(raw.dossier.value, 256);
    }
  }

  /** The line with `key` present and nothing under it. */
  function WithEmpty(raw: RawEvent, key: string): RawEvent {
    raw.(fields := raw.fields[key := RawValue("", None)])
  }

  lemma EmptyUnder(raw: RawEvent, key: string, other: string)
    ensures var line := WithEmpty(raw, key);
            if other == key then other in line.fields && line.fields[other].text == ""
            else (other in line.fields <==> other in raw.fields)
                 && (other in raw.fields ==> line.fields[other] == raw.fields[other])
  {
  }

  /** An optional key left out reads as the key with nothing under it. */
  lemma AbsentReadsEmpty(config: HubConfig, raw: RawEvent, key: string)
    requires key !in raw.fields && (key == "domain" || key == "reason")
    ensures Decode(config, WithEmpty(raw, key)) == Decode(config, raw)
  {
    EmptyUnder(raw, key, "type");
    EmptyUnder(raw, key, "container");
    EmptyUnder(raw, key, "id");
    EmptyUnder(raw, key, "dest");
    EmptyUnder(raw, key, "port");
    EmptyUnder(raw, key, "proto");
    EmptyUnder(raw, key, "domain");
    EmptyUnder(raw, key, "reason");
    SameReading(raw, WithEmpty(raw, key));
  }

  /** Lines that agree on type, required keys and optional texts translate alike. */
  lemma SameReading(a: RawEvent, b: RawEvent)
    requires a.dossier == b.dossier
    requires TextOr(a, "type", "") == TextOr(b, "type", "")
    requires forall key | key in ["container", "id", "dest", "port", "proto"] ::
               (key in a.fields <==> key in b.fields) && (key in a.fields ==> a.fields[key] == b.fields[key])
    requires TextOr(a, "domain", "") == TextOr(b, "domain", "") && TextOr(a, "reason", "") == TextOr(b, "reason", "")
    ensures forall config :: Decode(config, a) == Decode(config, b)
  {
    var keys := ["container", "id", "dest", "port", "proto"];
    assert keys[0] in keys && keys[1] in keys && keys[2] in keys && keys[3] in keys && keys[4] in keys;
    forall kind ensures Translate(kind, a) == Translate(kind, b) {
    }
  }

  /** So does a line without a dossier, or with one that is not an object. */
  lemma NoDossierReadsEmpty(config: HubConfig, raw: RawEvent)
    ensures Decode(config, raw.(dossier := None)) == Decode(config, raw.(dossier := Some(map[])))
  {
    assert SanitizeMapping(map[]) == map[];
  }

  /** A per-container hub changes the container of a line's event and nothing else. */
  lemma StampsContainerOnly(config: HubConfig, raw: RawEvent, own: string)
    requires config.container == Some(own)
    ensures var plain := Decode(config.(container := None), raw);
            && (plain.None? <==> Decode(config, raw).None?)
            && (plain.Some? ==>
                  var (e, p) := (Decode(config, raw).value, plain.value);
                  && e.container == own
                  && e.kind == p.kind && e.requestId == p.requestId && e.dest == p.dest && e.port == p.port
                  && e.proto == p.proto && e.domain == p.domain && e.action == p.action && e.ok == p.ok
                  && e.reason == p.reason && e.dossier == p.dossier)
  {
  }

  // ---- the target ----

  /** The text under `key` is short and printable, so that it travels unchanged. */
  ghost predicate CleanText(raw: RawEvent, key: string) {
    && key in raw.fields && |raw.fields[key].text| <= 256
    && forall i | 0 <= i < |raw.fields[key].text| :: ' ' <= raw.fields[key].text[i] <= '~'
  }

  /** A block line with nothing to sanitise. */
  ghost predicate CleanBlockLine(raw: RawEvent) {
    && SaysBlocked(raw)
    && CleanText(raw, "container") && CleanText(raw, "id") && CleanText(raw, "dest")
    && ("domain" in raw.fields ==> CleanText(raw, "domain"))
    && "port" in raw.fields && raw.fields["port"].number.Some?
    && "proto" in raw.fields && raw.fields["proto"].number.Some?
  }

  /** The domain the reader resolved, else the address. */
  function TargetText(raw: RawEvent): string
    requires "dest" in raw.fields
  {
    if "domain" in raw.fields && raw.fields["domain"].text != "" then raw.fields["domain"].text
    else raw.fields["dest"].text
  }

  function ContainerText(config: HubConfig, raw: RawEvent): string
    requires "container" in raw.fields
  {
    if config.container.Some? then config.container.value else raw.fields["container"].text
  }

  lemma CleanLineDecoded(config: HubConfig, raw: RawEvent)
    requires CleanBlockLine(raw)
    ensures var e := Decode(config, raw);
            && e.Some? && e.value.kind == ConnectionBlocked && e.value.container == ContainerText(config, raw)
            && e.value.requestId == raw.fields["id"].text && e.value.dest == raw.fields["dest"].text
            && e.value.domain == if "domain" in raw.fields then raw.fields["domain"].text else ""
  {
    IdentityOnWire(raw.fields["container"].text, 256);
    IdentityOnWire(raw.fields["id"].text, 256);
    IdentityOnWire(raw.fields["dest"].text, 256);
    if "domain" in raw.fields { IdentityOnWire(raw.fields["domain"].text, 256); }
    LineAccepted(config, raw);
    KindOfLine(config, raw);
    FieldsOfLine(config, raw);
  }

  /** A block line that is not muted goes out, and its id is bound to the container and the target it names. */
  lemma BlockLineBinds(w: World, raw: RawEvent)
    requires CleanBlockLine(raw) && ContainerText(w.hub.config, raw) !in w.hub.muted
    ensures var w' := Step(w, Read(raw));
            && w'.history == w.history + [Emission(Decode(w.hub.config, raw).value, w.clock)]
            && (raw.fields["id"].text != "" ==>
                  && raw.fields["id"].text in w'.hub.live && raw.fields["id"].text in w'.hub.stamps
                  && w'.hub.live[raw.fields["id"].text].container == ContainerText(w.hub.config, raw)
                  && w'.hub.live[raw.fields["id"].text].target == TargetText(raw)
                  && w'.hub.stamps[raw.fields["id"].text] == w.clock)
  {
    CleanLineDecoded(w.hub.config, raw);
  }

  /**
   Delivered to a subscriber that prompts, the line becomes a prompt on that same target, and the click on its
   popup queues a verdict that cites it.
   */
  lemma BlockLinePrompts(config: HubConfig, raw: RawEvent, s: Screen, now: string, action: string)
    requires CleanBlockLine(raw) && TargetText(raw) != "" && NotifyBlocked in s.sub.enabled
    ensures var r, e := raw.fields["id"].text, Decode(config, raw);
            && e.Some?
            && var s' := OnEvent(s, e.value, now, false);
            && r in s'.sub.pending
            && var p := s'.sub.pending[r];
            && p.requestId == r && p.container == ContainerText(config, raw) && p.target == TargetText(raw)
            && p.dossier == e.value.dossier
            && p.notificationId in s'.notifier.callbacks
            && OnClick(s'.sub, s'.notifier.callbacks[p.notificationId], action).tasks
               == s'.sub.tasks + [SendVerdict(VerdictCall(ContainerText(config, raw), r, TargetText(raw), action))]
  {
    CleanLineDecoded(config, raw);
  }

  /** And that verdict is what the hub admits for the line's id, no other one. */
  lemma BlockLineAdmits(w: World, raw: RawEvent, container: string, dest: string, action: string)
    requires CleanBlockLine(raw) && ContainerText(w.hub.config, raw) !in w.hub.muted
    requires raw.fields["id"].text != "" && (action == "allow" || action == "deny")
    ensures Admit(Step(w, Read(raw)).hub, container, raw.fields["id"].text, dest, action).Ok? <==>
            container == ContainerText(w.hub.config, raw) && dest == TargetText(raw)
  {
    BlockLineBinds(w, raw);
    AdmitExact(Step(w, Read(raw)).hub, container, raw.fields["id"].text, dest, action);
  }
}
