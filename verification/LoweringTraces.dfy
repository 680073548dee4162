/** Consequences of the meaning of a lowered draft: what every run of it shows
    to the host. */
module LoweringTraces {
  import opened Text
  import opened JsonTree
  import opened Lowering
  import opened LoweringSemantics
  import opened LoweringScopes

  // ----- the operations, in draft order -----

  function OperationPart(events: seq<Event>): seq<Event> {
    if events == [] then [] else OfOperation(events[0]) + OperationPart(events[1..])
  }

  function OfOperation(e: Event): seq<Event> { if e.OperationEnforced? || e.OperationCalled? then [e] else [] }

  /** Each operation enforced and then called, once, in draft order, with the
      transaction the include map gives it. */
  function EachOnce(txs: seq<Transaction>, ops: seq<Operation>, s: Setting): seq<Event> {
    if ops == [] then [] else OperationEvents(ops[0], OwnerId(txs, ops[0].id), s) + EachOnce(txs, ops[1..], s)
  }

  lemma {:induction false} OperationPartAppend(a: seq<Event>, b: seq<Event>)
    ensures OperationPart(a + b) == OperationPart(a) + OperationPart(b)
  {
    if a == [] {
      assert a + b == b;
    } else {
      assert (a + b)[1..] == a[1..] + b && (a + b)[0] == a[0];
      OperationPartAppend(a[1..], b);
      Regroup(OfOperation(a[0]), OperationPart(a[1..]), OperationPart(b));
    }
  }

  lemma {:induction false} OperationPartOfPieces(op: Operation, tx: Option<string>, open: Option<TransactionEnvelope>, next: Option<TransactionEnvelope>, s: Setting)
    ensures OperationPart(OperationEvents(op, tx, s)) == OperationEvents(op, tx, s)
    ensures OperationPart(Closing(open)) == [] && OperationPart(Opening(next)) == []
  {
    var e := EnvelopeOf(op, tx, s);
    assert OperationEvents(op, tx, s)[1..] == [OperationCalled(e)] && [OperationCalled(e)][1..] == [];
    assert OperationPart([OperationCalled(e)]) == [OperationCalled(e)];
    if open.Some? { assert Closing(open)[1..] == []; }
    if next.Some? {
      assert Opening(next)[1..] == [TransactionBegun(next.value)] && [TransactionBegun(next.value)][1..] == [];
      assert OperationPart([TransactionBegun(next.value)]) == [];
    }
  }

  lemma {:induction false} OperationsInOrder(txs: seq<Transaction>, ops: seq<Operation>, open: Option<TransactionEnvelope>, s: Setting)
    ensures OperationPart(EventsFrom(txs, ops, open, s)) == EachOnce(txs, ops, s)
  {
    if ops == [] {
      if open.Some? { assert Closing(open)[1..] == []; }
    } else {
      var owner := OwnerEnvelope(txs, ops[0], s);
      OwnerEnvelopeId(txs, ops[0], s);
      var change := if IdOf(owner) == IdOf(open) then [] else Closing(open) + Opening(owner);
      var here, rest := OperationEvents(ops[0], IdOf(owner), s), EventsFrom(txs, ops[1..], owner, s);
      OperationPartOfPieces(ops[0], IdOf(owner), open, owner, s);
      OperationPartAppend(Closing(open), Opening(owner));
      OperationPartAppend(change, here);
      OperationPartAppend(change + here, rest);
      OperationsInOrder(txs, ops[1..], owner, s);
    }
  }

  // ----- brackets -----

  /** `events`, after a bracket `open`, is well bracketed: a bracket is enforced and
      begun, holds only its own operations, and ends before the next one. */
  ghost predicate Bracketed(events: seq<Event>, open: Option<TransactionEnvelope>)
    decreases |events|
  {
    if events == [] then open.None?
    else
      match events[0]
      case TransactionEnforced(t) =>
        open.None? && |events| > 1 && events[1] == TransactionBegun(t) && Bracketed(events[2..], Some(t))
      case OperationEnforced(e) =>
        e.transactionId == IdOf(open) && |events| > 1 && events[1] == OperationCalled(e) && Bracketed(events[2..], open)
      case TransactionEnded(t) => open == Some(t) && Bracketed(events[1..], None)
      case _ => false
  }

  lemma {:induction false} EventsAreBracketed(txs: seq<Transaction>, ops: seq<Operation>, open: Option<TransactionEnvelope>, s: Setting)
    requires forall op: Operation | open.Some? && OwnerId(txs, op.id) == IdOf(open) :: OwnerEnvelope(txs, op, s) == open
    ensures Bracketed(EventsFrom(txs, ops, open, s), open)
  {
    if ops == [] {
      if open.Some? { assert Closing(open)[1..] == []; }
    } else {
      var owner := OwnerEnvelope(txs, ops[0], s);
      OwnerEnvelopeId(txs, ops[0], s);
      EventsAreBracketed(txs, ops[1..], owner, s);
      var here, rest := OperationEvents(ops[0], IdOf(owner), s), EventsFrom(txs, ops[1..], owner, s);
      BracketOperation(ops[0], owner, rest, s);
      if IdOf(owner) == IdOf(open) {
        assert owner == open;
        assert [] + here + rest == here + rest;
      } else {
        BracketChange(open, owner, here + rest);
        RegroupFour(Closing(open), Opening(owner), here, rest);
      }
    }
  }

  lemma {:induction false} BracketOperation(op: Operation, open: Option<TransactionEnvelope>, rest: seq<Event>, s: Setting)
    requires Bracketed(rest, open)
    ensures Bracketed(OperationEvents(op, IdOf(open), s) + rest, open)
  {
    assert (OperationEvents(op, IdOf(open), s) + rest)[2..] == rest;
  }

  lemma {:induction false} BracketChange(open: Option<TransactionEnvelope>, next: Option<TransactionEnvelope>, rest: seq<Event>)
    requires Bracketed(rest, next)
    ensures Bracketed(Closing(open) + (Opening(next) + rest), open)
  {
    var inner := Opening(next) + rest;
    if next.Some? {
      assert inner[2..] == rest;
    } else {
      assert inner == rest;
    }
    if open.Some? {
      assert (Closing(open) + inner)[1..] == inner;
    } else {
      assert Closing(open) + inner == inner;
    }
  }

  /** Brackets next to each other never share a transaction id. */
  ghost predicate NeighboursDiffer(events: seq<Event>) {
    forall i | 0 <= i < |events| - 1 && events[i].TransactionEnded? && events[i + 1].TransactionEnforced? ::
      events[i].tx.transactionId != events[i + 1].tx.transactionId
  }

  lemma {:induction false} NeighbouringBracketsDiffer(txs: seq<Transaction>, ops: seq<Operation>, open: Option<TransactionEnvelope>, s: Setting)
    ensures NeighboursDiffer(EventsFrom(txs, ops, open, s))
    ensures var events := EventsFrom(txs, ops, open, s);
            events != [] && events[0].TransactionEnforced? ==> open.None?
  {
    if ops != [] {
      var owner := OwnerEnvelope(txs, ops[0], s);
      NeighbouringBracketsDiffer(txs, ops[1..], owner, s);
      var change := if IdOf(owner) == IdOf(open) then [] else Closing(open) + Opening(owner);
      var head := change + OperationEvents(ops[0], IdOf(owner), s);
      var rest := EventsFrom(txs, ops[1..], owner, s);
      assert NeighboursDiffer(head);
      assert head[|head| - 1].OperationCalled?;
      NeighboursAppend(head, rest);
    }
  }

  lemma {:induction false} NeighboursAppend(a: seq<Event>, b: seq<Event>)
    requires NeighboursDiffer(a) && NeighboursDiffer(b)
    requires a != [] ==> !a[|a| - 1].TransactionEnded?
    ensures NeighboursDiffer(a + b)
  {
    forall i | 0 <= i < |a + b| - 1 && (a + b)[i].TransactionEnded? && (a + b)[i + 1].TransactionEnforced?
      ensures (a + b)[i].tx.transactionId != (a + b)[i + 1].tx.transactionId
    {
      if i >= |a| { assert b[i - |a|] == (a + b)[i] && b[i + 1 - |a|] == (a + b)[i + 1]; }
    }
  }

  /** How many brackets for `id` begin. */
  function Begun(events: seq<Event>, id: string): nat {
    if events == [] then 0
    else (if events[0].TransactionBegun? && events[0].tx.transactionId == id then 1 else 0) + Begun(events[1..], id)
  }

  /** How many runs of operations owned by `id` the task order has, after `before`. */
  function Runs(txs: seq<Transaction>, ops: seq<Operation>, before: Option<string>, id: string): nat {
    if ops == [] then 0
    else
      var owner := OwnerId(txs, ops[0].id);
      (if owner == Some(id) && before != Some(id) then 1 else 0) + Runs(txs, ops[1..], owner, id)
  }

  lemma {:induction false} BegunAppend(a: seq<Event>, b: seq<Event>, id: string)
    ensures Begun(a + b, id) == Begun(a, id) + Begun(b, id)
  {
    if a == [] {
      assert a + b == b;
    } else {
      assert (a + b)[1..] == a[1..] + b && (a + b)[0] == a[0];
      BegunAppend(a[1..], b, id);
    }
  }

  lemma {:induction false} BegunInPieces(op: Operation, tx: Option<string>, open: Option<TransactionEnvelope>, next: Option<TransactionEnvelope>, s: Setting, id: string)
    ensures Begun(OperationEvents(op, tx, s), id) == 0 && Begun(Closing(open), id) == 0
    ensures Begun(Opening(next), id) == if IdOf(next) == Some(id) then 1 else 0
  {
    var e := EnvelopeOf(op, tx, s);
    assert OperationEvents(op, tx, s)[1..] == [OperationCalled(e)] && [OperationCalled(e)][1..] == [];
    assert Begun([OperationCalled(e)], id) == 0;
    if open.Some? { assert Closing(open)[1..] == []; }
    if next.Some? {
      assert Opening(next)[1..] == [TransactionBegun(next.value)] && [TransactionBegun(next.value)][1..] == [];
      assert Begun([TransactionBegun(next.value)], id) == if next.value.transactionId == id then 1 else 0;
    }
  }

  /** Every run gets exactly one bracket. */
  lemma {:induction false} OneBracketPerRun(txs: seq<Transaction>, ops: seq<Operation>, open: Option<TransactionEnvelope>, s: Setting, id: string)
    ensures Begun(EventsFrom(txs, ops, open, s), id) == Runs(txs, ops, IdOf(open), id)
  {
    if ops == [] {
      if open.Some? { assert Closing(open)[1..] == []; }
    } else {
      var owner := OwnerEnvelope(txs, ops[0], s);
      OwnerEnvelopeId(txs, ops[0], s);
      var change := if IdOf(owner) == IdOf(open) then [] else Closing(open) + Opening(owner);
      var here, rest := OperationEvents(ops[0], IdOf(owner), s), EventsFrom(txs, ops[1..], owner, s);
      BegunInPieces(ops[0], IdOf(owner), open, owner, s, id);
      BegunAppend(Closing(open), Opening(owner), id);
      BegunAppend(change, here, id);
      BegunAppend(change + here, rest, id);
      OneBracketPerRun(txs, ops[1..], owner, s, id);
    }
  }

  lemma {:induction false} RunsOutside(txs: seq<Transaction>, ops: seq<Operation>, before: Option<string>, id: string)
    requires forall op | op in ops :: OwnerId(txs, op.id) != Some(id)
    ensures Runs(txs, ops, before, id) == 0
  {
    if ops != [] {
      assert ops[0] in ops;
      RunsOutside(txs, ops[1..], OwnerId(txs, ops[0].id), id);
    }
  }

  lemma {:induction false} ContiguousIsOneRun(txs: seq<Transaction>, ops: seq<Operation>, before: Option<string>, id: string, a: nat, b: nat)
    requires a < b <= |ops|
    requires forall i | 0 <= i < |ops| :: OwnerId(txs, ops[i].id) == Some(id) <==> a <= i < b
    requires a > 0 ==> before != Some(id)
    ensures Runs(txs, ops, before, id) == if before == Some(id) then 0 else 1
    decreases |ops|
  {
    var owner := OwnerId(txs, ops[0].id);
    if a > 0 {
      ContiguousIsOneRun(txs, ops[1..], owner, id, a - 1, b - 1);
    } else if b > 1 {
      ContiguousIsOneRun(txs, ops[1..], owner, id, 0, b - 1);
    } else {
      forall op | op in ops[1..] ensures OwnerId(txs, op.id) != Some(id) {
        var i :| 0 <= i < |ops[1..]| && ops[1..][i] == op;
        assert ops[i + 1] == op;
      }
      RunsOutside(txs, ops[1..], owner, id);
    }
  }

  lemma {:induction false} NoRunOwnsNothing(txs: seq<Transaction>, ops: seq<Operation>, before: Option<string>, id: string)
    requires before != Some(id) && Runs(txs, ops, before, id) == 0
    ensures forall i | 0 <= i < |ops| :: OwnerId(txs, ops[i].id) != Some(id)
  {
    if ops != [] {
      NoRunOwnsNothing(txs, ops[1..], OwnerId(txs, ops[0].id), id);
      forall i | 0 <= i < |ops| ensures OwnerId(txs, ops[i].id) != Some(id) { assert i > 0 ==> ops[i] == ops[1..][i - 1]; }
    }
  }

  /** The operations of a single run are a stretch of the draft. */
  lemma {:induction false} OneRunIsContiguous(txs: seq<Transaction>, ops: seq<Operation>, before: Option<string>, id: string)
    returns (a: nat, b: nat)
    requires Runs(txs, ops, before, id) == if before == Some(id) then 0 else 1
    ensures a <= b <= |ops| && (if before == Some(id) then a == 0 else a < b)
    ensures forall i | 0 <= i < |ops| :: OwnerId(txs, ops[i].id) == Some(id) <==> a <= i < b
    decreases |ops|
  {
    a, b := 0, 0;
    if ops != [] {
      var owner := OwnerId(txs, ops[0].id);
      if owner != Some(id) && before == Some(id) {
        NoRunOwnsNothing(txs, ops[1..], owner, id);
      } else {
        a, b := OneRunIsContiguous(txs, ops[1..], owner, id);
        a, b := if owner == Some(id) then 0 else a + 1, b + 1;
      }
      assert forall i | 0 < i < |ops| :: ops[i] == ops[1..][i - 1];
    }
  }

  /** The operations that go to `id` are the ones from `a` up to `b`. */
  ghost predicate Stretch(txs: seq<Transaction>, ops: seq<Operation>, id: string, a: nat, b: nat) {
    a < b <= |ops| && forall i | 0 <= i < |ops| :: OwnerId(txs, ops[i].id) == Some(id) <==> a <= i < b
  }

  /** A transaction gets exactly one bracket exactly when it owns some operations and they
      are contiguous. */
  lemma {:induction false} OneBracketExactly(txs: seq<Transaction>, ops: seq<Operation>, s: Setting, id: string)
    ensures Begun(EventsFrom(txs, ops, None, s), id) == 1 <==> exists a: nat, b: nat :: Stretch(txs, ops, id, a, b)
  {
    OneBracketPerRun(txs, ops, None, s, id);
    if a: nat, b: nat :| Stretch(txs, ops, id, a, b) { ContiguousIsOneRun(txs, ops, None, id, a, b); }
    if Runs(txs, ops, None, id) == 1 {
      var a, b := OneRunIsContiguous(txs, ops, None, id);
      assert Stretch(txs, ops, id, a, b);
    }
  }

  // ----- every run, whatever the host refuses -----

  /** The host let the `i`-th of these events happen. */
  predicate AcceptedAt(t: seq<Event>, i: nat, h: Host)
    requires i < |t|
  {
    h.accepts(t[..i], t[i])
  }

  /** A run shows a prefix of the events, all of them accepted up to the last one. */
  ghost predicate PrefixRun(shown: seq<Event>, events: seq<Event>, h: Host) {
    && shown <= events
    && forall i | 0 <= i < |shown| - 1 :: AcceptedAt(shown, i, h)
  }

  lemma {:induction false} PlayShowsPrefix(events: seq<Event>, o: Outcome, h: Host)
    requires o.status.Running? && forall i | 0 <= i < |o.trace| :: AcceptedAt(o.trace, i, h)
    ensures PrefixRun(Play(events, o, h).trace, o.trace + events, h)
    ensures Play(events, o, h).status.Running? ==> Play(events, o, h).trace == o.trace + events
  {
    if events != [] {
      var p := Perform(events[0], o, h);
      assert p.trace + events[1..] == o.trace + events;
      assert p.trace[..|o.trace|] == o.trace;
      forall i | 0 <= i < |o.trace| ensures AcceptedAt(p.trace, i, h) {
        assert AcceptedAt(o.trace, i, h) && p.trace[..i] == o.trace[..i];
      }
      if p.status.Running? {
        PlayShowsPrefix(events[1..], p, h);
      } else {
        PlayStopped(events[1..], p, h);
      }
    } else {
      assert o.trace + events == o.trace;
    }
  }

  /** Everything the host can ever be shown for a draft. */
  function FullTrace(d: Draft, s: Setting, h: Host): seq<Event> {
    ModuleEvents(d, s, h) + EventsFrom(d.transactions, d.operations, None, s)
  }

  lemma {:induction false} ModuleAccepted(d: Draft, s: Setting, h: Host)
    requires Play(ModuleEvents(d, s, h), START, h).status.Running?
    ensures var t := Play(ModuleEvents(d, s, h), START, h).trace;
            t == ModuleEvents(d, s, h) && forall i | 0 <= i < |t| :: AcceptedAt(t, i, h)
  {
    ModulePlays(d, s, h);
    assert [ModuleEvent(d, s)][..0] == [] && START.trace + [ModuleEvent(d, s)] == [ModuleEvent(d, s)];
  }

  lemma {:induction false} ExecutionShowsPrefix(d: Draft, s: Setting, h: Host)
    ensures PrefixRun(Execute(Program(d, s), h).trace, FullTrace(d, s, h), h)
  {
    LoweringPreservesMeaning(d, s, h);
    if NoClash(d) {
      var o := Play(ModuleEvents(d, s, h), START, h);
      var events := EventsFrom(d.transactions, d.operations, None, s);
      PlayShowsPrefix(ModuleEvents(d, s, h), START, h);
      assert START.trace + ModuleEvents(d, s, h) == ModuleEvents(d, s, h);
      if o.status.Running? && h.complete {
        ModuleAccepted(d, s, h);
        PlayShowsPrefix(events, o, h);
      }
    }
  }

  /** In a bracketed sequence a call follows its own enforcement directly. */
  lemma {:induction false} CallFollowsEnforcement(events: seq<Event>, open: Option<TransactionEnvelope>, i: nat)
    requires Bracketed(events, open) && i < |events| && events[i].OperationCalled?
    ensures i > 0 && events[i - 1] == OperationEnforced(events[i].op)
    decreases |events|
  {
    match events[0]
    case TransactionEnforced(t) => CallFollowsEnforcement(events[2..], Some(t), i - 2);
    case OperationEnforced(e) => if i > 1 { CallFollowsEnforcement(events[2..], open, i - 2); }
    case TransactionEnded(t) => CallFollowsEnforcement(events[1..], None, i - 1);
  }

  /** In a bracketed sequence an operation of a transaction runs after the begin of
      that transaction, with no end in between. */
  lemma {:induction false} CallRunsInsideBracket(events: seq<Event>, open: Option<TransactionEnvelope>, i: nat) returns (j: int)
    requires Bracketed(events, open) && i < |events| && events[i].OperationCalled? && events[i].op.transactionId.Some?
    ensures -1 <= j < i && forall k | j < k < i :: !events[k].TransactionEnded?
    ensures if j == -1 then IdOf(open) == events[i].op.transactionId
            else events[j].TransactionBegun? && Some(events[j].tx.transactionId) == events[i].op.transactionId
    decreases |events|
  {
    match events[0]
    case TransactionEnforced(t) =>
      j := CallRunsInsideBracket(events[2..], Some(t), i - 2);
      assert forall k | 2 <= k < i :: events[2..][k - 2] == events[k];
      j := j + 2;
    case OperationEnforced(e) =>
      if i > 1 {
        j := CallRunsInsideBracket(events[2..], open, i - 2);
        assert forall k | 2 <= k < i :: events[2..][k - 2] == events[k];
        j := if j == -1 then -1 else j + 2;
      } else {
        j := -1;
      }
    case TransactionEnded(t) =>
      j := CallRunsInsideBracket(events[1..], None, i - 1);
      assert forall k | 1 <= k < i :: events[1..][k - 1] == events[k];
      j := j + 1;
  }

  /** What fail closed means for the call at `i`: the host has just accepted the enforcement of
      the same envelope, and the call of a transaction's operation lies in a body of that
      transaction, begun at `j`, that the host accepted and that has not ended. */
  ghost predicate Guarded(t: seq<Event>, i: nat, j: nat, h: Host)
    requires i < |t| && t[i].OperationCalled?
  {
    && i > 0 && t[i - 1] == OperationEnforced(t[i].op) && AcceptedAt(t, i - 1, h)
    && (t[i].op.transactionId.Some? ==>
          && j < i && t[j].TransactionBegun? && Some(t[j].tx.transactionId) == t[i].op.transactionId
          && AcceptedAt(t, j, h) && forall k | j < k < i :: !t[k].TransactionEnded?)
  }

  lemma {:induction false} BracketedCall(t: seq<Event>, first: seq<Event>, events: seq<Event>, i: nat, h: Host) returns (j: nat)
    requires PrefixRun(t, first + events, h) && Bracketed(events, None)
    requires |first| <= i < |t| && t[i].OperationCalled?
    ensures Guarded(t, i, j, h)
  {
    var n := |first|;
    assert forall k | n <= k < |t| :: t[k] == events[k - n];
    CallFollowsEnforcement(events, None, i - n);
    j := 0;
    if t[i].op.transactionId.Some? {
      var b := CallRunsInsideBracket(events, None, i - n);
      j := b + n;
      assert forall k | j < k < i :: t[k] == events[k - n];
    }
  }

  lemma {:induction false} ModuleIsNoCall(d: Draft, s: Setting, h: Host, t: seq<Event>, i: nat)
    requires t <= FullTrace(d, s, h) && i < |t| && t[i].OperationCalled?
    ensures |ModuleEvents(d, s, h)| <= i
  {
  }

  /** Fail closed: in every run under every host, every call is guarded. */
  lemma {:induction false} CallsAreEnforced(d: Draft, s: Setting, h: Host, i: nat) returns (j: nat)
    requires var t := Execute(Program(d, s), h).trace; i < |t| && t[i].OperationCalled?
    ensures Guarded(Execute(Program(d, s), h).trace, i, j, h)
  {
    var t := Execute(Program(d, s), h).trace;
    ExecutionShowsPrefix(d, s, h);
    EventsAreBracketed(d.transactions, d.operations, None, s);
    ModuleIsNoCall(d, s, h, t, i);
    j := BracketedCall(t, ModuleEvents(d, s, h), EventsFrom(d.transactions, d.operations, None, s), i, h);
  }

  lemma {:induction false} AcceptedRun(d: Draft, s: Setting, h: Host)
    requires NoClash(d) && h.complete && forall t, e :: h.accepts(t, e)
    ensures var o := Execute(Program(d, s), h); o.status == Returned && o.trace == FullTrace(d, s, h)
  {
    LoweringPreservesMeaning(d, s, h);
    var events := EventsFrom(d.transactions, d.operations, None, s);
    var o := Play(ModuleEvents(d, s, h), START, h);
    NeverAborted(ModuleEvents(d, s, h), START, h);
    ModuleAccepted(d, s, h);
    NeverAborted(events, o, h);
    PlayShowsPrefix(events, o, h);
  }

  lemma {:induction false} FullTraceParts(first: seq<Event>, events: seq<Event>)
    requires OperationPart(first) == [] && (first != [] ==> !first[|first| - 1].TransactionEnded?)
    requires NeighboursDiffer(first) && NeighboursDiffer(events)
    ensures OperationPart(first + events) == OperationPart(events) && NeighboursDiffer(first + events)
    ensures (first + events)[|first|..] == events
  {
    OperationPartAppend(first, events);
    NeighboursAppend(first, events);
  }

  /** Against a host that accepts every call, the whole trace is shown: each
      operation exactly once, in draft order, in its transaction. */
  lemma {:induction false} AcceptingHostSeesEverything(d: Draft, s: Setting, h: Host)
    requires NoClash(d) && h.complete && forall t, e :: h.accepts(t, e)
    ensures var o := Execute(Program(d, s), h);
            && o.status == Returned && o.trace == FullTrace(d, s, h)
            && OperationPart(o.trace) == EachOnce(d.transactions, d.operations, s)
            && Bracketed(o.trace[|ModuleEvents(d, s, h)|..], None) && NeighboursDiffer(o.trace)
  {
    var txs, ops := d.transactions, d.operations;
    AcceptedRun(d, s, h);
    OperationsInOrder(txs, ops, None, s);
    OperationPartOfModule(d, s, h);
    EventsAreBracketed(txs, ops, None, s);
    NeighbouringBracketsDiffer(txs, ops, None, s);
    FullTraceParts(ModuleEvents(d, s, h), EventsFrom(txs, ops, None, s));
  }

  lemma {:induction false} OperationPartOfModule(d: Draft, s: Setting, h: Host)
    ensures OperationPart(ModuleEvents(d, s, h)) == []
  {
    assert [ModuleEvent(d, s)][1..] == [];
    assert OperationPart([]) == [];
  }

  lemma {:induction false} NeverAborted(events: seq<Event>, o: Outcome, h: Host)
    requires o.status.Running? && forall t, e :: h.accepts(t, e)
    ensures Play(events, o, h).status.Running?
  {
    if events != [] { NeverAborted(events[1..], Perform(events[0], o, h), h); }
  }
}
