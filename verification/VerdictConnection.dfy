/**
 The hub's connection to the verdict helper under concurrent callers: lazily opened behind a double-checked
 lock, shared by all calls, dropped by any caller that sees it fail.
 */
module VerdictConnection {

  import opened Events

  /** Where one `apply` call is suspended. */
  datatype Caller =
    | WaitingForLock(attempt: nat)
    | Connecting(attempt: nat)             // holds the lock
    | Calling(attempt: nat, via: nat)      // awaits the reply on transport `via`
    | Finished(ok: bool)
    | Died                                 // cancelled, or an error that is not an OSError

  datatype Link = Link(
    transport: Option<nat>,
    proxy: Option<nat>,                    // the transport the proxy talks over
    holder: Option<nat>,                   // the caller holding the connect lock
    callers: map<nat, Caller>,
    unclosed: set<nat>,                    // transports opened and not closed
    next: nat)

  datatype LinkAction =
    | Apply(c: nat)
    | Acquire(c: nat)
    | Opened(c: nat)                       // the connect succeeded
    | OpenFails(c: nat, osError: bool)
    | BuildFails(c: nat, osError: bool)    // connected, but making the proxy raised
    | Replied(c: nat, ok: bool)
    | CallFails(c: nat, osError: bool)
    | WaitCancelled(c: nat)
    | Stop

  const UNCONNECTED := Link(None, None, None, map[], {}, 0)

  function At(l: Link, c: nat, caller: Caller): Link {
    l.(callers := l.callers[c := caller])
  }

  /** The first check of the double-checked lock: an existing proxy is used without locking. */
  function Ensure(l: Link, c: nat, attempt: nat): Link {
    At(l, c, if l.proxy.Some? then Calling(attempt, l.proxy.value) else WaitingForLock(attempt))
  }

  function Disconnect(l: Link): Link {
    l.(transport := None, proxy := None,
    unclosed := if l.transport.Some? then l.unclosed - {l.transport.value} else l.unclosed)
  }

  /** An OSError drops the shared connection; the first one is retried. */
  function AfterOsError(l: Link, c: nat, attempt: nat): Link {
    var dropped := Disconnect(l);
    if attempt == 1 then Ensure(dropped, c, 2) else At(dropped, c, Finished(false))
  }

  function Fails(l: Link, c: nat, attempt: nat, osError: bool): Link {
    if osError then AfterOsError(l, c, attempt) else At(l, c, Died)
  }

  /** The new transport replaces whatever the field held. */
  function Attached(l: Link): Link {
    l.(transport := Some(l.next), unclosed := l.unclosed + {l.next}, next := l.next + 1)
  }

  predicate IsAt(l: Link, c: nat, waiting: bool, connecting: bool, calling: bool) {
    c in l.callers && (waiting ==> l.callers[c].WaitingForLock?) && (connecting ==> l.callers[c].Connecting?)
    && (calling ==> l.callers[c].Calling?)
  }

  function StepLink(l: Link, a: LinkAction): Link {
    match a
    case Apply(c) => if c in l.callers then l else Ensure(l, c, 1)
    case Acquire(c) =>
      if IsAt(l, c, true, false, false) && l.holder.None? then
        // the second check, under the lock
        if l.proxy.Some? then At(l, c, Calling(l.callers[c].attempt, l.proxy.value))
        else At(l, c, Connecting(l.callers[c].attempt)).(holder := Some(c))
      else l
    case Opened(c) =>
      if IsAt(l, c, false, true, false) then
        At(Attached(l).(proxy := Some(l.next), holder := None), c, Calling(l.callers[c].attempt, l.next))
      else l
    case OpenFails(c, osError) =>
      if IsAt(l, c, false, true, false) then Fails(l.(holder := None), c, l.callers[c].attempt, osError) else l
    case BuildFails(c, osError) =>
      if IsAt(l, c, false, true, false) then Fails(Attached(l).(holder := None), c, l.callers[c].attempt, osError)
      else l
    case Replied(c, ok) => if IsAt(l, c, false, false, true) then At(l, c, Finished(ok)) else l
    case CallFails(c, osError) =>
      if IsAt(l, c, false, false, true) then Fails(l, c, l.callers[c].attempt, osError) else l
    case WaitCancelled(c) => if IsAt(l, c, true, false, false) then At(l, c, Died) else l
    case Stop => Disconnect(l)
  }

  function RunLink(l: Link, actions: seq<LinkAction>): Link {
    if actions == [] then l else StepLink(RunLink(l, actions[..|actions| - 1]), actions[|actions| - 1])
  }

  /** The transport the fields still lead to. */
  function Current(l: Link): set<nat> {
    if l.transport.Some? then {l.transport.value} else {}
  }

  /** `a` makes a new transport the current one while the field still holds an older one. */
  predicate Overwrites(l: Link, a: LinkAction) {
    && l.transport.Some?
    && ((a.Opened? && IsAt(l, a.c, false, true, false)) || (a.BuildFails? && IsAt(l, a.c, false, true, false)))
  }

  /** How often that happened. */
  function Overwritings(actions: seq<LinkAction>): nat {
    if actions == [] then 0
    else
      var prefix, last := actions[..|actions| - 1], actions[|actions| - 1];
      Overwritings(prefix) + if Overwrites(RunLink(UNCONNECTED, prefix), last) then 1 else 0
  }

  /** How often making a proxy raised something that is not an OSError. */
  function DeadBuilds(actions: seq<LinkAction>): nat {
    if actions == [] then 0
    else
      var last := actions[|actions| - 1];
      DeadBuilds(actions[..|actions| - 1]) + if last.BuildFails? && !last.osError then 1 else 0
  }

  ghost predicate Locked(l: Link) {
    && (forall c | c in l.callers :: l.callers[c].Connecting? <==> l.holder == Some(c))
    && (l.holder.Some? ==> l.holder.value in l.callers && l.proxy.None?)
    && (l.proxy.Some? ==> l.transport == l.proxy)
  }

  /** Exactly `leaks` transports are open that no field leads to. */
  ghost predicate Counted(l: Link, leaks: nat) {
    && (forall t | t in l.unclosed :: t < l.next)
    && Current(l) <= l.unclosed
    && |l.unclosed - Current(l)| == leaks
  }

  /** A transport without a proxy is what a dead build leaves; the next connect overwrites it. */
  function Orphaned(l: Link): nat {
    if l.transport.Some? && l.proxy.None? then 1 else 0
  }

  lemma StepLocked(l: Link, a: LinkAction)
    requires Locked(l)
    ensures Locked(StepLink(l, a))
  {
  }

  lemma DisconnectCounted(l: Link, leaks: nat)
    requires Counted(l, leaks)
    ensures Counted(Disconnect(l), leaks)
  {
    assert Disconnect(l).unclosed - Current(Disconnect(l)) == l.unclosed - Current(l);
  }

  lemma FailsCounted(l: Link, c: nat, attempt: nat, osError: bool, leaks: nat)
    requires Counted(l, leaks)
    ensures Counted(Fails(l, c, attempt, osError), leaks)
  {
    DisconnectCounted(l, leaks);
  }

  /** The new transport is the current one, and what the field held before is out of reach. */
  lemma AttachedCounted(l: Link, leaks: nat)
    requires Counted(l, leaks)
    ensures Counted(Attached(l), leaks + if l.transport.Some? then 1 else 0)
  {
    var l' := Attached(l);
    assert l'.unclosed - Current(l') == l.unclosed;
    assert l.unclosed == (l.unclosed - Current(l)) + Current(l);
  }

  lemma SameTransportsCounted(l: Link, l': Link, leaks: nat)
    requires Counted(l, leaks)
    requires l'.transport == l.transport && l'.unclosed == l.unclosed && l'.next == l.next
    ensures Counted(l', leaks)
  {
  }

  lemma ConnectedCounted(l: Link, a: LinkAction, leaks: nat)
    requires Counted(l, leaks) && (a.Opened? || a.BuildFails?)
    ensures Counted(StepLink(l, a), leaks + if Overwrites(l, a) then 1 else 0)
  {
    if IsAt(l, a.c, false, true, false) {
      var now := leaks + if l.transport.Some? then 1 else 0;
      AttachedCounted(l, leaks);
      if a.BuildFails? {
        SameTransportsCounted(Attached(l), Attached(l).(holder := None), now);
        FailsCounted(Attached(l).(holder := None), a.c, l.callers[a.c].attempt, a.osError, now);
      } else {
        SameTransportsCounted(Attached(l), StepLink(l, a), now);
      }
    }
  }

  lemma CallFailsCounted(l: Link, c: nat, osError: bool, leaks: nat)
    requires Counted(l, leaks)
    ensures Counted(StepLink(l, OpenFails(c, osError)), leaks) && Counted(StepLink(l, CallFails(c, osError)), leaks)
  {
    if c in l.callers && (l.callers[c].Connecting? || l.callers[c].Calling?) {
      SameTransportsCounted(l, l.(holder := None), leaks);
      FailsCounted(l.(holder := None), c, l.callers[c].attempt, osError, leaks);
      FailsCounted(l, c, l.callers[c].attempt, osError, leaks);
    }
  }

  lemma StepCounted(l: Link, a: LinkAction, leaks: nat)
    requires Counted(l, leaks)
    ensures Counted(StepLink(l, a), leaks + if Overwrites(l, a) then 1 else 0)
  {
    match a
    case Opened(_) => ConnectedCounted(l, a, leaks);
    case BuildFails(_, _) => ConnectedCounted(l, a, leaks);
    case OpenFails(c, osError) => CallFailsCounted(l, c, osError, leaks);
    case CallFails(c, osError) => CallFailsCounted(l, c, osError, leaks);
    case Stop => DisconnectCounted(l, leaks);
    case _ => SameTransportsCounted(l, StepLink(l, a), leaks);
  }

  /** Only a dead build makes an orphan, and an overwriting uses one up. */
  lemma StepOrphans(l: Link, a: LinkAction)
    requires Locked(l)
    ensures Orphaned(StepLink(l, a)) + (if Overwrites(l, a) then 1 else 0)
         <= Orphaned(l) + if a.BuildFails? && !a.osError then 1 else 0
  {
  }

  lemma {:induction false} LinkInvariant(actions: seq<LinkAction>)
    ensures var l := RunLink(UNCONNECTED, actions);
            && Locked(l) && Counted(l, Overwritings(actions))
            && Overwritings(actions) + Orphaned(l) <= DeadBuilds(actions)
  {
    if actions != [] {
      var prefix, last := actions[..|actions| - 1], actions[|actions| - 1];
      var l := RunLink(UNCONNECTED, prefix);
      LinkInvariant(prefix);
      StepLocked(l, last);
      StepCounted(l, last, Overwritings(prefix));
      StepOrphans(l, last);
    }
  }

  /**
   Any number of concurrent callers, whatever fails, is cancelled or is dropped by another caller.  The
   transports open out of the fields' reach are exactly as many as were overwritten; so more than one transport
   is open only if one was overwritten and another is held, or two were overwritten.  Each
   overwriting is preceded by a proxy build of its own that died with something other than an OSError.
   */
  lemma AtMostOneTransport(actions: seq<LinkAction>)
    ensures var l, n := RunLink(UNCONNECTED, actions), Overwritings(actions);
            && |l.unclosed - Current(l)| == n
            && (l.unclosed == Current(l) <==> n == 0)
            && (|l.unclosed| <= 1 <==> n == 0 || (n == 1 && l.transport.None?))
            && n <= DeadBuilds(actions)
            && (DeadBuilds(actions) == 0 ==> l.proxy == l.transport)
  {
    LinkInvariant(actions);
    var l := RunLink(UNCONNECTED, actions);
    assert l.unclosed == (l.unclosed - Current(l)) + Current(l);
    assert l.unclosed - Current(l) == {} ==> l.unclosed == Current(l);
  }

  /** After a dead build the fields hold a transport without a proxy, and the next call connects over it... */
  lemma DeadBuildLeaks()
    ensures var one := StepLink(StepLink(StepLink(UNCONNECTED, Apply(0)), Acquire(0)), BuildFails(0, false));
            var two := StepLink(StepLink(StepLink(one, Apply(1)), Acquire(1)), Opened(1));
            two.unclosed == {0, 1} && Current(two) == {1}
  {
  }

  /** ...unless the client is stopped first, in whatever state the build left it: then nothing new leaks. */
  lemma StopClosesOrphan(l: Link)
    requires Locked(l) && Current(l) <= l.unclosed
    ensures var l' := StepLink(l, Stop); Orphaned(l') == 0 && l'.unclosed == l.unclosed - Current(l)
  {
  }

  // ---- what becomes of one call ----

  /** The helper's answer to `c`, if one got through. */
  function AnswerTo(actions: seq<LinkAction>, c: nat): Option<bool> {
    if actions == [] then None
    else
      var prefix, last := actions[..|actions| - 1], actions[|actions| - 1];
      var l := RunLink(UNCONNECTED, prefix);
      if last.Replied? && last.c == c && c in l.callers && l.callers[c].Calling? then Some(last.ok)
      else AnswerTo(prefix, c)
  }

  /** `a` is an OSError out of the connect or the call that `c` awaits. */
  predicate HitsOsError(l: Link, a: LinkAction, c: nat) {
    && c in l.callers
    && ((a.OpenFails? && a.c == c && a.osError && l.callers[c].Connecting?)
        || (a.BuildFails? && a.c == c && a.osError && l.callers[c].Connecting?)
        || (a.CallFails? && a.c == c && a.osError && l.callers[c].Calling?))
  }

  function OsErrors(actions: seq<LinkAction>, c: nat): nat {
    if actions == [] then 0
    else
      var prefix, last := actions[..|actions| - 1], actions[|actions| - 1];
      OsErrors(prefix, c) + if HitsOsError(RunLink(UNCONNECTED, prefix), last, c) then 1 else 0
  }

  ghost predicate FateOk(l: Link, c: nat, answer: Option<bool>, errors: nat) {
    if c !in l.callers then answer.None? && errors == 0
    else
      match l.callers[c]
      case WaitingForLock(attempt) => answer.None? && errors + 1 == attempt <= 2
      case Connecting(attempt) => answer.None? && errors + 1 == attempt <= 2
      case Calling(attempt, _) => answer.None? && errors + 1 == attempt <= 2
      case Finished(ok) => if answer.Some? then answer.value == ok && errors < 2 else !ok && errors == 2
      case Died => answer.None? && errors < 2
  }

  lemma StepFate(l: Link, a: LinkAction, c: nat, answer: Option<bool>, errors: nat)
    requires FateOk(l, c, answer, errors)
    ensures FateOk(StepLink(l, a), c,
                   if a.Replied? && a.c == c && c in l.callers && l.callers[c].Calling? then Some(a.ok) else answer,
                   errors + if HitsOsError(l, a, c) then 1 else 0)
  {
  }

  /**
   Among any number of concurrent callers: a call ends with the flag of the reply that got through, or refused
   after exactly two OSErrors; until then it is at its first attempt, or its second after one.
   */
  lemma {:induction false} CallFate(actions: seq<LinkAction>, c: nat)
    ensures var l := RunLink(UNCONNECTED, actions);
            && FateOk(l, c, AnswerTo(actions, c), OsErrors(actions, c))
            && (c in l.callers && l.callers[c] == Finished(true) <==> AnswerTo(actions, c) == Some(true))
            && (c in l.callers && l.callers[c] == Finished(false) <==>
                AnswerTo(actions, c) == Some(false) || OsErrors(actions, c) == 2)
            && OsErrors(actions, c) <= 2
  {
    if actions != [] {
      var prefix := actions[..|actions| - 1];
      CallFate(prefix, c);
      StepFate(RunLink(UNCONNECTED, prefix), actions[|actions| - 1], c, AnswerTo(prefix, c), OsErrors(prefix, c));
    }
  }

  /** An OSError drops the shared connection, so the next attempt makes a fresh one; only a stop does so too. */
  lemma OsErrorDropsConnection(l: Link, a: LinkAction)
    requires Locked(l)
    ensures var l' := StepLink(l, a);
            var dropped := a.Stop? || HitsOsError(l, a, a.c);
            && (dropped ==> l'.proxy.None? && l'.transport.None?)
            && (!dropped && l.proxy.Some? ==> l'.proxy == l.proxy)
  {
  }

  /** A live connection is shared: a new caller uses it without the lock, and one that waited for the lock does too. */
  lemma LiveProxyIsShared(l: Link, c: nat)
    requires l.proxy.Some?
    ensures c !in l.callers ==>
              StepLink(l, Apply(c)) == l.(callers := l.callers[c := Calling(1, l.proxy.value)])
    ensures c in l.callers && l.callers[c].WaitingForLock? && l.holder.None? ==>
              StepLink(l, Acquire(c)) == l.(callers := l.callers[c := Calling(l.callers[c].attempt, l.proxy.value)])
  {
  }

  // ---- the client object, one caller at a time ----

  /** What an await can raise.  Only an OSError is handled here; anything else goes to the caller. */
  datatype Failure = OsError(text: string) | Other(text: string)

  /** How a connect goes, if one is made. */
  datatype Connect = Connects | Refused(error: Failure) | BuildRaises(error: Failure)

  /** The helper's `(ok, stderr)`. */
  datatype Reply = Reply(ok: bool, stderr: string)

  /** What the outside does to one attempt. */
  datatype Trial = Trial(connect: Connect, reply: Result<Reply, Failure>)

  class VerdictClient {
    var transport: Option<nat>
    var proxy: Option<nat>
    ghost var unclosed: set<nat>
    var next: nat

    /** A proxy talks over the held transport; a transport may be held without one, after a dead build. */
    ghost predicate Valid()
      reads this
    {
      && (proxy.Some? ==> proxy == transport)
      && Held() <= unclosed
      && forall t | t in unclosed :: t < next
    }

    ghost function Held(): set<nat>
      reads this
    {
      if transport.Some? then {transport.value} else {}
    }

    /** Open, and out of the client's reach. */
    ghost function Stray(): set<nat>
      reads this
    {
      unclosed - Held()
    }

    constructor ()
      ensures Valid() && transport.None? && unclosed == {}
    {
      transport, proxy, unclosed, next := None, None, {}, 0;
    }

    /** A new transport goes into the field before its proxy is made, over whatever the field held. */
    method EnsureConnected(connect: Connect) returns (error: Option<Failure>)
      requires Valid()
      modifies this
      ensures Valid()
      ensures error == if old(proxy).Some? || connect.Connects? then None else Some(connect.error)
      ensures proxy == if old(proxy).None? && connect.Connects? then Some(old(next)) else old(proxy)
      ensures if old(proxy).Some? || connect.Refused? then transport == old(transport) && unclosed == old(unclosed)
              else transport == Some(old(next)) && unclosed == old(unclosed) + {old(next)}
    {
      if proxy.Some? {
        return None;
      }
      if connect.Refused? {
        return Some(connect.error);
      }
      transport := Some(next);
      unclosed := unclosed + {next};
      next := next + 1;
      if connect.BuildRaises? {
        return Some(connect.error);
      }
      proxy := transport;
      return None;
    }

    method Disconnect()
      requires Valid()
      modifies this
      ensures Valid() && transport.None? && proxy.None?
      ensures unclosed == old(unclosed) - old(Held())
    {
      var dropped := transport;
      transport := None;
      proxy := None;
      if dropped.Some? {
        unclosed := unclosed - {dropped.value};
      }
    }

    /**
     One auto-reconnect: an attempt lost to an OSError is made once more over a fresh connection.  The call
     adds to the open transports out of reach exactly the one a dead build had left, if it connects over it.
     */
    method Apply(trials: seq<Trial>) returns (r: Result<Reply, Failure>)
      requires |trials| == 2 && Valid()
      modifies this
      ensures Valid()
      // the first attempt decides unless an OSError ends it
      ensures var through := old(proxy).Some? || trials[0].connect.Connects?;
              && (through && (trials[0].reply.Ok? || trials[0].reply.error.Other?) ==> r == trials[0].reply)
              && (!through && trials[0].connect.error.Other? ==> r == Err(trials[0].connect.error))
      // then the second does, and a second OSError is a refusal
      ensures var through := old(proxy).Some? || trials[0].connect.Connects?;
              (if through then trials[0].reply.Err? && trials[0].reply.error.OsError?
               else trials[0].connect.error.OsError?) ==>
                match trials[1].connect
                case Connects =>
                  (match trials[1].reply
                   case Ok(reply) => r == Ok(reply)
                   case Err(OsError(text)) => r == Ok(Reply(false, "verdict helper unreachable: " + text))
                   case Err(error) => r == Err(error))
                case Refused(OsError(text)) => r == Ok(Reply(false, "verdict helper unreachable: " + text))
                case BuildRaises(OsError(text)) => r == Ok(Reply(false, "verdict helper unreachable: " + text))
                case Refused(error) => r == Err(error)
                case BuildRaises(error) => r == Err(error)
      ensures Stray() == old(Stray()) + if old(proxy).None? && !trials[0].connect.Refused? then old(Held()) else {}
      ensures r.Ok? && r.value.ok ==> proxy.Some?
    {
      ghost var strays := Stray() + if proxy.None? && !trials[0].connect.Refused? then Held() else {};
      ghost var through := proxy.Some? || trials[0].connect.Connects?;
      r := Ok(Reply(false, "verdict helper unreachable"));
      for attempt := 0 to 2
        invariant Valid()
        invariant attempt == 0 ==> proxy == old(proxy) && transport == old(transport) && unclosed == old(unclosed)
        invariant attempt > 0 ==> transport.None? && proxy.None? && Stray() == strays
        invariant attempt > 0 ==> if through then trials[0].reply.Err? && trials[0].reply.error.OsError?
            else trials[0].connect.error.OsError?
        invariant r.Ok? && !r.value.ok
        invariant attempt == 2 ==>
            var error := if trials[1].connect.Connects? then trials[1].reply else Err(trials[1].connect.error);
            && error.Err? && error.error.OsError?
            && r == Ok(Reply(false, "verdict helper unreachable: " + error.error.text))
      {
        var error := EnsureConnected(trials[attempt].connect);
        if error.None? {
          if trials[attempt].reply.Ok? {
            return trials[attempt].reply;
          }
          error := Some(trials[attempt].reply.error);
        }
        if error.value.Other? {
          return Err(error.value);
        }
        Disconnect();
        r := Ok(Reply(false, "verdict helper unreachable: " + error.value.text));
      }
    }
  }
}
