/** The values that travel: raw reader events, wire events, and the small result types. */
module Events {

  datatype Option<+T> = None | Some(value: T)

  datatype Result<+T, +E> = Ok(value: T) | Err(error: E)

  type Dossier = map<string, string>

  /** The wire event types.  `VerdictApplied` is the hub's own; the rest come from readers. */
  datatype EventKind =
    | ConnectionBlocked
    | VerdictApplied
    | ContainerStarted
    | ContainerExited
    | ShieldUp
    | ShieldDown
    | ShieldDisengaged

  datatype ClearanceEvent = ClearanceEvent(
    kind: EventKind,
    container: string,
    requestId: string,
    dest: string,
    port: int,
    proto: int,
    domain: string,
    action: string,
    ok: bool,
    reason: string,
    dossier: Dossier)
  {
    /** What the shield operates on: the domain when one was resolved, else the address. */
    function Target(): string {
      if domain != "" then domain else dest
    }
  }

  /** An event of a kind that needs no more than a container and a dossier. */
  function PlainEvent(kind: EventKind, container: string, dossier: Dossier): ClearanceEvent {
    ClearanceEvent(kind, container, "", "", 0, 0, "", "", false, "", dossier)
  }

  /** One decoded JSON value, seen through the two conversions the hub applies to it. */
  datatype RawValue = RawValue(
    text: string,          // str() of the value
    number: Option<int>)   // int() of the value; None when int() raises

  /** A decoded reader line.  `dossier` is None when the key is missing or not an object. */
  datatype RawEvent = RawEvent(fields: map<string, RawValue>, dossier: Option<Dossier>)

  const ALLOW := "allow"
  const DENY := "deny"

  predicate IsVerdictAction(action: string) {
    action == ALLOW || action == DENY
  }

  /** The events after which no prompt of the container may stay answerable. */
  predicate RetiresPrompts(kind: EventKind) {
    kind.ShieldDown? || kind.ShieldDisengaged? || kind.ContainerExited?
  }
}
