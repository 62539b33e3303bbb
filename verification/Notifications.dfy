/** The headless notifier: id allocation and the callback table behind the popups. */
module Notifications {
  import opened Events

  /** What a stored action callback closes over: whose verdict it sends, and on which triple. */
  datatype Click = Click(owner: nat, container: string, requestId: string, target: string)

  datatype NotifierState = NotifierState(nextId: nat, callbacks: map<nat, Click>)

  const FRESH_NOTIFIER := NotifierState(1, map[])

  /** An update keeps the id it replaces; a new popup gets the next one. */
  function IdFor(n: NotifierState, replacesId: nat): nat {
    if replacesId != 0 then replacesId else n.nextId
  }

  function AfterNotify(n: NotifierState, replacesId: nat): NotifierState {
    if replacesId != 0 then n else n.(nextId := n.nextId + 1)
  }

  function AfterClose(n: NotifierState, ids: set<nat>): NotifierState {
    n.(callbacks := n.callbacks - ids)
  }

  class CallbackNotifier {
    var nextId: nat
    var callbacks: map<nat, Click>

    ghost function State(): NotifierState
      reads this
    {
      NotifierState(nextId, callbacks)
    }

    constructor ()
      ensures State() == FRESH_NOTIFIER
    {
      nextId, callbacks := 1, map[];
    }

    /** None is the consumer's `on_notify` hook raising, which it does after the id is taken. */
    method Notify(replacesId: nat, hookRaises: bool) returns (nid: Option<nat>)
      modifies this`nextId
      ensures State() == AfterNotify(old(State()), replacesId)
      ensures nextId == if replacesId != 0 then old(nextId) else old(nextId) + 1
      ensures nid == if hookRaises then None else Some(if replacesId != 0 then replacesId else old(nextId))
    {
      var id := if replacesId != 0 then replacesId else nextId;
      if replacesId == 0 {
        nextId := nextId + 1;
      }
      if hookRaises {
        return None;
      }
      return Some(id);
    }

    method OnAction(nid: nat, callback: Click)
      modifies this`callbacks
      ensures callbacks == old(callbacks)[nid := callback]
    {
      callbacks := callbacks[nid := callback];
    }

    method Close(nid: nat)
      modifies this`callbacks
      ensures callbacks == old(callbacks) - {nid}
    {
      callbacks := callbacks - {nid};
    }

    method Disconnect()
      modifies this`callbacks
      ensures callbacks == map[]
    {
      callbacks := map[];
    }

    /** Takes the stored callback out and hands it over to be called. */
    method InvokeAction(nid: nat) returns (callback: Option<Click>)
      modifies this`callbacks
      ensures callbacks == old(callbacks) - {nid}
      ensures callback == if nid in old(callbacks) then Some(old(callbacks)[nid]) else None
    {
      if nid in callbacks {
        callback := Some(callbacks[nid]);
        callbacks := callbacks - {nid};
      } else {
        callback := None;
        assert callbacks - {nid} == callbacks;
      }
    }
  }

  // ---- the table over a whole run ----

  datatype Op =
    | Notify(replacesId: nat)
    | OnAction(nid: nat, callback: Click)
    | Close(nid: nat)
    | Disconnect
    | Invoke(nid: nat)

  function StepOp(n: NotifierState, op: Op): NotifierState {
    match op
    case Notify(replacesId) => AfterNotify(n, replacesId)
    case OnAction(nid, callback) => n.(callbacks := n.callbacks[nid := callback])
    case Close(nid) => AfterClose(n, {nid})
    case Disconnect => n.(callbacks := map[])
    case Invoke(nid) => AfterClose(n, {nid})
  }

  function RunOps(ops: seq<Op>): NotifierState {
    if ops == [] then FRESH_NOTIFIER else StepOp(RunOps(ops[..|ops| - 1]), ops[|ops| - 1])
  }

  /** The registration the latest operation on `nid` leaves behind. */
  function Armed(ops: seq<Op>, nid: nat): Option<Click> {
    if ops == [] then None
    else
      match ops[|ops| - 1]
      case OnAction(n, callback) => if n == nid then Some(callback) else Armed(ops[..|ops| - 1], nid)
      case Close(n) => if n == nid then None else Armed(ops[..|ops| - 1], nid)
      case Invoke(n) => if n == nid then None else Armed(ops[..|ops| - 1], nid)
      case Disconnect => None
      case Notify(_) => Armed(ops[..|ops| - 1], nid)
  }

  function Registrations(ops: seq<Op>, nid: nat): nat {
    if ops == [] then 0
    else
      var last := ops[|ops| - 1];
      Registrations(ops[..|ops| - 1], nid) + if last.OnAction? && last.nid == nid then 1 else 0
  }

  /** How often a callback stored under `nid` was called. */
  function Fires(ops: seq<Op>, nid: nat): nat {
    if ops == [] then 0
    else
      var prefix, last := ops[..|ops| - 1], ops[|ops| - 1];
      Fires(prefix, nid) + if last.Invoke? && last.nid == nid && nid in RunOps(prefix).callbacks then 1 else 0
  }

  /**
   What a click reaches is the registration of the latest operation on that id, and every registration is
   called at most once: calls plus the one still armed never outnumber registrations.
   */
  lemma {:induction false} FiresAtMostOnce(ops: seq<Op>, nid: nat)
    ensures var n := RunOps(ops);
            && Armed(ops, nid) == (if nid in n.callbacks then Some(n.callbacks[nid]) else None)
            && Fires(ops, nid) + (if nid in n.callbacks then 1 else 0) <= Registrations(ops, nid)
  {
    if ops != [] {
      FiresAtMostOnce(ops[..|ops| - 1], nid);
    }
  }

  /** The ids of the popups that were not updates, in order. */
  function Issued(ops: seq<Op>): seq<nat> {
    if ops == [] then []
    else
      var prefix, last := ops[..|ops| - 1], ops[|ops| - 1];
      Issued(prefix) + if last == Notify(0) then [IdFor(RunOps(prefix), 0)] else []
  }

  /** New popups are numbered 1, 2, 3, ... whatever else happens in between; 0 is never an id. */
  lemma {:induction false} IdsCountUp(ops: seq<Op>)
    ensures RunOps(ops).nextId == |Issued(ops)| + 1
    ensures forall k | 0 <= k < |Issued(ops)| :: Issued(ops)[k] == k + 1
  {
    if ops != [] {
      IdsCountUp(ops[..|ops| - 1]);
    }
  }
}
