/**
 The prompt table under a notifier whose calls suspend.  Events arrive one at a time, but a purge task may
 run at every await of an event handler, and is itself suspended at every popup it closes.
 */
module SuspendedPrompts {
  import opened Events
  import opened Notifications
  import opened SubscriberModel

  datatype Handler =
    | Ready                                                        // no event is being handled
    | Prompting(event: ClearanceEvent, prior: Option<PendingBlock>) // awaiting `notify` for a block
    | Wrapping                                                     // awaiting `on_action`, or an outcome's `notify`

  datatype Board = Board(pending: map<string, PendingBlock>, handler: Handler, purges: seq<seq<PendingBlock>>)

  datatype BoardAction =
    | Block(event: ClearanceEvent)
    | Accepted(nid: nat, now: string)    // `notify` returned an id
    | Refused                            // `notify` raised
    | Outcome(requestId: string)         // a verdict_applied event
    | Wrapped                            // the last await of a handler ended
    | PurgeBegins(container: string, order: seq<PendingBlock>)
    | PurgeNext(i: nat)

  /** The list a purge snapshots: the container's blocks, in some order. */
  ghost predicate Snapshot(pending: map<string, PendingBlock>, container: string, order: seq<PendingBlock>) {
    forall p :: p in order <==> exists r :: r in pending && pending[r] == p && p.container == container
  }

  ghost function Prior(pending: map<string, PendingBlock>, e: ClearanceEvent): Option<PendingBlock> {
    var r := LiveBlock(pending, e.container, e.Target());
    if r.Some? then Some(pending[r.value]) else None
  }

  function NewBlock(e: ClearanceEvent, prior: Option<PendingBlock>, nid: nat, now: string): PendingBlock {
    PendingBlock(nid, e.container, e.requestId, e.Target(), e.dossier,
                 if prior.Some? then prior.value.count + 1 else 1,
                 if prior.Some? then prior.value.firstSeen else now)
  }

  ghost function StepBoard(b: Board, a: BoardAction): Board {
    match a
    case Block(e) =>
      if b.handler.Ready? && e.Target() != "" then b.(handler := Prompting(e, Prior(b.pending, e))) else b
    case Accepted(nid, now) =>
      if !b.handler.Prompting? then b
      else
        var e, prior := b.handler.event, b.handler.prior;
        var kept := if prior.Some? then b.pending - {prior.value.requestId} else b.pending;
        b.(pending := kept[e.requestId := NewBlock(e, prior, nid, now)], handler := Wrapping)
    case Refused => if b.handler.Prompting? then b.(handler := Ready) else b
    case Outcome(r) => if b.handler.Ready? then b.(pending := b.pending - {r}, handler := Wrapping) else b
    case Wrapped => if b.handler.Wrapping? then b.(handler := Ready) else b
    case PurgeBegins(c, order) => if Snapshot(b.pending, c, order) then b.(purges := b.purges + [order]) else b
    case PurgeNext(i) =>
      if i < |b.purges| && b.purges[i] != [] then
        b.(pending := b.pending - {b.purges[i][0].requestId}, purges := b.purges[i := b.purges[i][1..]])
      else b
  }

  ghost function RunBoard(b: Board, actions: seq<BoardAction>): Board {
    if actions == [] then b else StepBoard(RunBoard(b, actions[..|actions| - 1]), actions[|actions| - 1])
  }

  const EMPTY_BOARD := Board(map[], Ready, [])

  /** While a prompt is awaited, nothing but the prior one can be pending on its target. */
  ghost predicate BoardOk(b: Board) {
    && OnePromptPerTarget(b.pending)
    && (b.handler.Prompting? ==>
          && b.handler.event.Target() != ""
          && forall r | r in b.pending && On(b.pending[r], b.handler.event.container, b.handler.event.Target()) ::
               b.handler.prior == Some(b.pending[r]))
  }

  lemma StepBoardOk(b: Board, a: BoardAction)
    requires BoardOk(b)
    ensures BoardOk(StepBoard(b, a))
  {
  }

  /**
   Wherever purges interleave with the awaits of a handler, no two pending prompts share a (container, target)
   and each is filed under its own request id.
   */
  lemma {:induction false} OneLivePrompt(actions: seq<BoardAction>)
    ensures OnePromptPerTarget(RunBoard(EMPTY_BOARD, actions).pending) && BoardOk(RunBoard(EMPTY_BOARD, actions))
  {
    if actions != [] {
      OneLivePrompt(actions[..|actions| - 1]);
      StepBoardOk(RunBoard(EMPTY_BOARD, actions[..|actions| - 1]), actions[|actions| - 1]);
    }
  }

  /** `meanwhile` neither ends the handler's `notify` nor lets a purge drop `r`. */
  ghost predicate Undisturbed(b: Board, meanwhile: seq<BoardAction>, r: string) {
    meanwhile == [] ||
    (var prefix, last := meanwhile[..|meanwhile| - 1], meanwhile[|meanwhile| - 1];
     var mid := RunBoard(b, prefix);
     && Undisturbed(b, prefix, r)
     && !last.Accepted? && !last.Refused?
     && (last.PurgeNext? && last.i < |mid.purges| && mid.purges[last.i] != [] ==> mid.purges[last.i][0].requestId != r))
  }

  lemma {:induction false} PriorStays(b: Board, meanwhile: seq<BoardAction>, r: string)
    requires b.handler.Prompting? && r in b.pending && Undisturbed(b, meanwhile, r)
    ensures var mid := RunBoard(b, meanwhile);
            r in mid.pending && mid.pending[r] == b.pending[r] && mid.handler == b.handler
  {
    if meanwhile != [] {
      PriorStays(b, meanwhile[..|meanwhile| - 1], r);
    }
  }

  /** A raising `notify` leaves the prior prompt in place, unless a purge dropped it during the await. */
  lemma RaisingNotifyKeepsPrior(before: seq<BoardAction>, e: ClearanceEvent, meanwhile: seq<BoardAction>)
    requires var b := RunBoard(EMPTY_BOARD, before);
             b.handler.Ready? && e.Target() != "" && Prior(b.pending, e).Some?
    requires var b := RunBoard(EMPTY_BOARD, before);
             Undisturbed(StepBoard(b, Block(e)), meanwhile, Prior(b.pending, e).value.requestId)
    ensures var b := RunBoard(EMPTY_BOARD, before);
            var prior := Prior(b.pending, e).value;
            var after := StepBoard(RunBoard(StepBoard(b, Block(e)), meanwhile), Refused);
            after.handler.Ready? && prior.requestId in after.pending && after.pending[prior.requestId] == prior
  {
    OneLivePrompt(before);
    var b := RunBoard(EMPTY_BOARD, before);
    PriorStays(StepBoard(b, Block(e)), meanwhile, Prior(b.pending, e).value.requestId);
  }

  /** With nothing interleaved the suspended handler is the atomic one. */
  lemma AtomicWhenUninterrupted(s: Screen, e: ClearanceEvent, now: string)
    requires OnePromptPerTarget(s.sub.pending) && e.Target() != ""
    ensures var prior := LiveBlock(s.sub.pending, e.container, e.Target());
            var nid := IdFor(s.notifier, ReplacedId(s.sub.pending, prior));
            var b := Board(s.sub.pending, Ready, []);
            StepBoard(StepBoard(b, Block(e)), Accepted(nid, now)).pending
            == HandleConnectionBlocked(s, e, now, false).sub.pending
  {
  }
}
