/** The client's two connections and its reconnect loop. */
module ClientTransport {
  import opened Events

  /** How one `_connect` goes: which of its steps raises. */
  datatype Connecting = SubscribeFails | RpcFails | ProxyFails(rpcProxy: bool) | Connects

  /** One turn of the stream loop: the stream ends, then the client waits and tries again. */
  datatype Turn = Turn(stopping: bool, poked: bool, connecting: Connecting)

  const MAX_BACKOFF: nat := 10

  function Pow2(n: nat): nat {
    if n == 0 then 1 else 2 * Pow2(n - 1)
  }

  function Min(a: nat, b: nat): nat {
    if a < b then a else b
  }

  /** How many turns in a row, just before turn `k`, waited without a poke and then failed to connect. */
  function FailuresBefore(turns: seq<Turn>, k: nat): nat
    requires k <= |turns|
  {
    if k == 0 then 0
    else if turns[k - 1].poked || turns[k - 1].connecting.Connects? then 0
    else FailuresBefore(turns, k - 1) + 1
  }

  /** The wait before turn `k`'s reconnect. */
  function WaitBefore(turns: seq<Turn>, k: nat): nat
    requires k <= |turns|
  {
    Min(Pow2(FailuresBefore(turns, k)), MAX_BACKOFF)
  }

  lemma NextWait(turns: seq<Turn>, k: nat)
    requires k < |turns|
    ensures WaitBefore(turns, k + 1)
         == if turns[k].poked || turns[k].connecting.Connects? then 1 else Min(WaitBefore(turns, k) * 2, MAX_BACKOFF)
  {
  }

  /** The ladder of waits: 1, 2, 4, 8 and then always 10 seconds, by the failures in a row. */
  lemma WaitLadder(turns: seq<Turn>, k: nat)
    requires k <= |turns|
    ensures var n := FailuresBefore(turns, k);
            WaitBefore(turns, k)
            == if n == 0 then 1 else if n == 1 then 2 else if n == 2 then 4 else if n == 3 then 8 else 10
  {
    var n := FailuresBefore(turns, k);
    if n >= 4 { Pow2Grows(n); }
  }

  lemma {:induction false} Pow2Grows(n: nat)
    requires n >= 4
    ensures Pow2(n) >= 16
  {
    if n > 4 { Pow2Grows(n - 1); }
  }

  class ClearanceClient {
    var subTransport: Option<nat>
    var rpcTransport: Option<nat>
    var subProxy: Option<nat>
    var rpcProxy: Option<nat>
    var stopping: bool
    ghost var unclosed: set<nat>   // every transport of this client that is open
    var next: nat

    ghost predicate Closed()
      reads this
    {
      && subTransport.None? && rpcTransport.None? && subProxy.None? && rpcProxy.None?
      && unclosed == {}
    }

    /** Transports are numbered as they open. */
    ghost predicate Numbered()
      reads this
    {
      forall t | t in unclosed :: t < next
    }

    /** Both connections are up, each with its proxy, and nothing else is open. */
    ghost predicate Connected()
      reads this
    {
      && subTransport.Some? && rpcTransport.Some? && subTransport != rpcTransport
      && subProxy == subTransport && rpcProxy == rpcTransport
      && unclosed == {subTransport.value, rpcTransport.value}
    }

    constructor ()
      ensures Closed() && Numbered() && !stopping
    {
      subTransport, rpcTransport, subProxy, rpcProxy := None, None, None, None;
      stopping, unclosed, next := false, {}, 0;
    }

    method Open() returns (t: nat)
      modifies this`unclosed, this`next
      ensures t == old(next) && next == t + 1 && unclosed == old(unclosed) + {t}
    {
      t := next;
      next := next + 1;
      unclosed := unclosed + {t};
    }

    ghost function Held(t: Option<nat>): set<nat> {
      if t.Some? then {t.value} else {}
    }

    /**
     All-or-nothing: a failure at any step closes what this attempt opened.  From a closed client the open
     transports are then exactly the fields'; over an open one, the transports a field is made to forget
     before the failure stay open, both of them on success.
     */
    method Connect(outcome: Connecting) returns (ok: bool)
      requires Numbered()
      modifies this`subTransport, this`rpcTransport, this`subProxy, this`rpcProxy, this`unclosed, this`next
      ensures Numbered() && (ok <==> outcome.Connects?)
      ensures old(Closed()) ==> if ok then Connected() else Closed()
      ensures ok ==> subTransport.Some? && rpcTransport.Some? && subTransport != rpcTransport
                     && subProxy == subTransport && rpcProxy == rpcTransport
                     && unclosed == old(unclosed) + {subTransport.value, rpcTransport.value}
                     && {subTransport.value, rpcTransport.value} !! old(unclosed)
      ensures !ok ==> subTransport.None? && rpcTransport.None? && subProxy.None? && rpcProxy.None?
      ensures !ok ==> unclosed == old(unclosed)
                                  - (if outcome.SubscribeFails? then Held(old(subTransport)) else {})
                                  - (if outcome.ProxyFails? then {} else Held(old(rpcTransport)))
    {
      if outcome.SubscribeFails? {
        CloseTransports();
        return false;
      }
      var sub := Open();
      subTransport := Some(sub);
      if outcome.RpcFails? {
        CloseTransports();
        return false;
      }
      var rpc := Open();
      rpcTransport := Some(rpc);
      if outcome.ProxyFails? && !outcome.rpcProxy {
        CloseTransports();
        return false;
      }
      subProxy := Some(sub);
      if outcome.ProxyFails? {
        CloseTransports();
        return false;
      }
      rpcProxy := Some(rpc);
      return true;
    }

    /** Closes exactly the two transports the fields hold, if any. */
    method CloseTransports()
      modifies this`subTransport, this`rpcTransport, this`subProxy, this`rpcProxy, this`unclosed
      ensures subTransport.None? && rpcTransport.None? && subProxy.None? && rpcProxy.None?
      ensures unclosed == old(unclosed) - Held(old(subTransport)) - Held(old(rpcTransport))
    {
      if subTransport.Some? {
        unclosed := unclosed - {subTransport.value};
      }
      if rpcTransport.Some? {
        unclosed := unclosed - {rpcTransport.value};
      }
      subTransport := None;
      rpcTransport := None;
      subProxy := None;
      rpcProxy := None;
    }

    method Start(outcome: Connecting) returns (ok: bool)
      requires Numbered()
      modifies this
      ensures Numbered() && !stopping && (ok <==> outcome.Connects?)
      ensures old(Closed()) ==> if ok then Connected() else Closed()
    {
      stopping := false;
      ok := Connect(outcome);
    }

    method Stop()
      modifies this
      ensures stopping && subTransport.None? && rpcTransport.None? && subProxy.None? && rpcProxy.None?
      ensures old(Connected() || Closed()) ==> Closed()
    {
      stopping := true;
      CloseTransports();
    }

    /** The stream ended: both connections go. */
    method Drop()
      requires Numbered() && (Connected() || Closed())
      modifies this`subTransport, this`rpcTransport, this`subProxy, this`rpcProxy, this`unclosed
      ensures Numbered() && Closed()
    {
      CloseTransports();
    }

    /** The wait is over: try for new ones. */
    method Reconnect(outcome: Connecting) returns (ok: bool)
      requires Numbered() && Closed()
      modifies this`subTransport, this`rpcTransport, this`subProxy, this`rpcProxy, this`unclosed, this`next
      ensures Numbered() && (ok <==> outcome.Connects?)
      ensures if ok then Connected() else Closed()
    {
      ok := Connect(outcome);
    }

    /**
     The stream loop over the turns the outside gives it, up to the first with the stop flag raised.  The wait
     before a reconnect after n un-poked failures in a row is min(2^n, 10) seconds, and when the loop ends the
     open transports are exactly the fields'.
     */
    method RunStream(turns: seq<Turn>) returns (waits: seq<nat>)
      requires Connected() && Numbered() && !stopping
      modifies this
      ensures Numbered() && (Connected() || Closed())
      ensures |waits| <= |turns|
      ensures forall k | 0 <= k < |waits| :: waits[k] == WaitBefore(turns, k)
      ensures forall k | 0 <= k < |waits| :: !turns[k].stopping
      ensures if stopping then |waits| < |turns| && turns[|waits|].stopping else |waits| == |turns|
      ensures turns != [] && !stopping ==> (Connected() <==> turns[|turns| - 1].connecting.Connects?)
    {
      var backoff := 1;
      waits := [];
      for i := 0 to |turns|
        invariant Numbered() && (Connected() || Closed())
        invariant !stopping && |waits| == i
        invariant backoff == WaitBefore(turns, i)
        invariant forall k | 0 <= k < i :: waits[k] == WaitBefore(turns, k)
        invariant forall k | 0 <= k < i :: !turns[k].stopping
        invariant i > 0 ==> (Connected() <==> turns[i - 1].connecting.Connects?)
      {
        if turns[i].stopping {
          stopping := true;
          return;
        }
        Drop();
        waits := waits + [backoff];
        NextWait(turns, i);
        backoff := if turns[i].poked then 1 else Min(backoff * 2, MAX_BACKOFF);
        var ok := Reconnect(turns[i].connecting);
        if ok {
          backoff := 1;
        }
      }
    }
  }
}
