/** Hosts that run a transaction body any number of times, and catch what it throws. The
    interface leaves this to them; the guards around every call hold all the same. */
module LoweringRetries {
  import opened Text
  import opened JsonTree
  import opened Lowering
  import opened LoweringSemantics
  import opened LoweringScopes
  import opened LoweringTraces

  /** Whether to run the body once more, from what has happened so far, and how often at
      most. */
  datatype Runner = Runner(limit: nat, again: (TransactionEnvelope, Outcome) -> bool)

  /** What a body throws does not leave `runTransaction` before the last run. */
  function Caught(o: Outcome): Outcome { if o.status.Aborted? then o.(status := Running) else o }

  // ----- running lines -----

  /** Length of the body at the front, up to its closing line. */
  function BodyLength(lines: seq<Line>): (k: nat)
    ensures k <= |lines|
  {
    if lines == [] || lines[0].CloseTransaction? then 0 else 1 + BodyLength(lines[1..])
  }

  /** Every run of a body starts in a fresh block. */
  function RunBody(body: seq<Line>, t: TransactionEnvelope, m: Machine, h: Host, r: Runner, n: nat): Machine
    decreases n
  {
    if n == 0 || !m.out.status.Running? || !r.again(t, m.out) then m
    else RunBody(body, t, m.(out := Caught(Run(body, m, h).out)), h, r, n - 1)
  }

  function RunMany(lines: seq<Line>, m: Machine, h: Host, r: Runner): Machine
    decreases |lines|
  {
    if lines == [] then m
    else
      var e := Step(lines[0], m, h);
      if !lines[0].OpenTransaction? then RunMany(lines[1..], e, h, r)
      else if !e.out.status.Running? || e.brackets == [] then e
      else
        var k := BodyLength(lines[1..]);
        var t := e.brackets[|e.brackets| - 1];
        RunMany(lines[1..][k..], RunBody(lines[1..][..k], t, e, h, r, r.limit), h, r)
  }

  function ExecuteMany(lines: seq<Line>, h: Host, r: Runner): Outcome {
    if Compiles(lines) then RunMany(lines, Machine([map[]], [], START), h, r).out
    else START.(status := Broken)
  }

  // ----- the direct meaning -----

  function PlayRuns(events: seq<Event>, t: TransactionEnvelope, o: Outcome, h: Host, r: Runner, n: nat): Outcome
    decreases n
  {
    if n == 0 || !o.status.Running? || !r.again(t, o) then o
    else PlayRuns(events, t, Caught(Play(events, o, h)), h, r, n - 1)
  }

  /** One bracket: enforced, begun, its run of operations as often as the host decides, and
      ended. */
  function BracketMeaning(t: TransactionEnvelope, events: seq<Event>, o: Outcome, h: Host, r: Runner): Outcome {
    var e := Play(Opening(Some(t)), o, h);
    if e.status.Running? then Perform(TransactionEnded(t), PlayRuns(events, t, e, h, r, r.limit), h) else e
  }

  function ManyMeaning(txs: seq<Transaction>, ops: seq<Operation>, s: Setting, o: Outcome, h: Host, r: Runner): Outcome
    decreases |ops|
  {
    if ops == [] || !o.status.Running? then o
    else
      match OwnerId(txs, ops[0].id)
      case None => ManyMeaning(txs, ops[1..], s, Play(OperationEvents(ops[0], None, s), o, h), h, r)
      case Some(id) =>
        OwnerIsKnown(txs, ops[0].id);
        var k := RunLength(txs, ops, id);
        var t := TransactionEnvelopeOf(ById(txs, id).value, s);
        ManyMeaning(txs, ops[k..], s, BracketMeaning(t, RunEvents(ops[..k], Some(id), s), o, h, r), h, r)
  }

  function MeaningMany(d: Draft, s: Setting, h: Host, r: Runner): Outcome {
    var o := Play(ModuleEvents(d, s, h), START, h);
    if !o.status.Running? then o
    else if !h.complete then o.(status := HooksMissing)
    else Finish(ManyMeaning(d.transactions, d.operations, s, o, h, r))
  }

  // ----- the program has that meaning -----

  ghost predicate NoBracket(lines: seq<Line>) {
    forall l | l in lines :: !l.OpenTransaction? && !l.CloseTransaction?
  }

  lemma {:induction false} RunLinesHaveNoBracket(ops: seq<Operation>, tx: Option<string>, s: Setting)
    ensures NoBracket(RunLines(ops, tx, s))
  {
    if ops != [] {
      var n := |ops| - 1;
      RunLinesHaveNoBracket(ops[..n], tx, s);
      forall l | l in RunLines(ops, tx, s) ensures !l.OpenTransaction? && !l.CloseTransaction? {
        assert l in RunLines(ops[..n], tx, s) || l in OperationLines(ops[n], tx, s);
      }
    }
  }

  lemma {:induction false} BodyLengthIs(body: seq<Line>, rest: seq<Line>)
    requires NoBracket(body) && rest != [] && rest[0].CloseTransaction?
    ensures BodyLength(body + rest) == |body|
  {
    if body == [] {
      assert body + rest == rest;
    } else {
      assert body[0] in body && (body + rest)[0] == body[0];
      assert (body + rest)[1..] == body[1..] + rest;
      assert forall l | l in body[1..] :: l in body;
      BodyLengthIs(body[1..], rest);
    }
  }

  lemma {:induction false} RunManyFlat(a: seq<Line>, b: seq<Line>, m: Machine, h: Host, r: Runner)
    requires forall l | l in a :: !l.OpenTransaction?
    ensures RunMany(a + b, m, h, r) == RunMany(b, Run(a, m, h), h, r)
  {
    if a == [] {
      assert a + b == b;
    } else {
      assert a[0] in a && (a + b)[0] == a[0];
      assert (a + b)[1..] == a[1..] + b;
      assert forall l | l in a[1..] :: l in a;
      RunManyFlat(a[1..], b, Step(a[0], m, h), h, r);
    }
  }

  lemma {:induction false} RunManyStopped(lines: seq<Line>, m: Machine, h: Host, r: Runner)
    requires !m.out.status.Running?
    ensures RunMany(lines, m, h, r) == m
  {
    if lines != [] && !lines[0].OpenTransaction? { RunManyStopped(lines[1..], m, h, r); }
  }

  lemma {:induction false} BodyPlaysMany(ops: seq<Operation>, tx: Option<string>, s: Setting, t: TransactionEnvelope, m: Machine, h: Host, r: Runner, n: nat)
    requires m.scopes != []
    ensures RunBody(RunLines(ops, tx, s), t, m, h, r, n) == m.(out := PlayRuns(RunEvents(ops, tx, s), t, m.out, h, r, n))
    decreases n
  {
    if n > 0 && m.out.status.Running? && r.again(t, m.out) {
      RunPlays(ops, tx, s, m, h);
      BodyPlaysMany(ops, tx, s, t, m.(out := Caught(Run(RunLines(ops, tx, s), m, h).out)), h, r, n - 1);
    }
  }

  lemma {:induction false} OpenThenBody(open: Line, body: seq<Line>, rest: seq<Line>, m: Machine, e: Machine, t: TransactionEnvelope, h: Host, r: Runner)
    requires open.OpenTransaction? && NoBracket(body) && rest != [] && rest[0].CloseTransaction?
    requires e == Step(open, m, h) && e.out.status.Running? && e.brackets != [] && e.brackets[|e.brackets| - 1] == t
    ensures RunMany([open] + (body + rest), m, h, r) == RunMany(rest, RunBody(body, t, e, h, r, r.limit), h, r)
  {
    var lines := [open] + (body + rest);
    BodyLengthIs(body, rest);
    assert lines[0] == open && lines[1..] == body + rest;
    assert (body + rest)[..|body|] == body && (body + rest)[|body|..] == rest;
  }

  /** The machine after the two lines before the body and the one that opens it. */
  lemma {:induction false} OpensBody(tx: Transaction, s: Setting, m: Machine, h: Host) returns (p: Machine, e: Machine)
    requires m.scopes != [] && m.out.status.Running?
    ensures var name, t := TransactionName(tx), TransactionEnvelopeOf(tx, s);
            && p == Run([ConstTransaction(name, t), EnforceTransaction(name)], m, h) && e == Step(OpenTransaction(name), p, h)
            && e.out == Play(Opening(Some(t)), m.out, h) && e.scopes != []
            && (e.out.status.Running? ==> |e.scopes| == |m.scopes| + 1 && e.brackets == m.brackets + [t])
  {
    var name, t := TransactionName(tx), TransactionEnvelopeOf(tx, s);
    p := Run([ConstTransaction(name, t), EnforceTransaction(name)], m, h);
    e := Step(OpenTransaction(name), p, h);
    RunTwo(ConstTransaction(name, t), EnforceTransaction(name), m, h);
    RunThree(ConstTransaction(name, t), EnforceTransaction(name), OpenTransaction(name), m, h);
    OpeningPlays(tx, s, m, h);
    KeepsScopes([ConstTransaction(name, t), EnforceTransaction(name)], m, h);
  }

  lemma {:induction false} ClosesBody(t: TransactionEnvelope, m: Machine, e: Machine, o: Outcome, h: Host) returns (c: Machine)
    requires m.scopes != [] && |e.scopes| == |m.scopes| + 1 && e.brackets == m.brackets + [t]
    ensures c == Run([CloseTransaction, Inert], e.(out := o), h) && c.scopes != []
    ensures c.out == Perform(TransactionEnded(t), o, h)
  {
    var b := e.(out := o);
    c := Run([CloseTransaction, Inert], b, h);
    RunTwo(CloseTransaction, Inert, b, h);
  }

  lemma {:induction false} BracketRuns(tx: Transaction, ops: seq<Operation>, s: Setting, rest: seq<Line>, m: Machine, h: Host, r: Runner)
    returns (c: Machine)
    requires m.scopes != [] && m.out.status.Running?
    ensures RunMany(BracketLines(tx, ops, s) + rest, m, h, r) == RunMany(rest, c, h, r) && c.scopes != []
    ensures c.out == BracketMeaning(TransactionEnvelopeOf(tx, s), RunEvents(ops, Some(tx.id), s), m.out, h, r)
  {
    var name, t := TransactionName(tx), TransactionEnvelopeOf(tx, s);
    var declare, open := [ConstTransaction(name, t), EnforceTransaction(name)], OpenTransaction(name);
    var body, foot := RunLines(ops, Some(tx.id), s), [CloseTransaction, Inert];
    var p, e := OpensBody(tx, s, m, h);
    BracketSplits(declare, open, body, foot, rest);
    assert BracketLines(tx, ops, s) == declare + [open] + body + foot;
    RunManyFlat(declare, [open] + (body + (foot + rest)), m, h, r);
    if e.out.status.Running? {
      RunLinesHaveNoBracket(ops, Some(tx.id), s);
      OpenThenBody(open, body, foot + rest, p, e, t, h, r);
      BodyPlaysMany(ops, Some(tx.id), s, t, e, h, r, r.limit);
      c := ClosesBody(t, m, e, PlayRuns(RunEvents(ops, Some(tx.id), s), t, e.out, h, r, r.limit), h);
      RunManyFlat(foot, rest, e.(out := PlayRuns(RunEvents(ops, Some(tx.id), s), t, e.out, h, r, r.limit)), h, r);
    } else {
      c := e;
      RunManyStopped(rest, c, h, r);
      assert ([open] + (body + (foot + rest)))[0] == open;
    }
  }

  lemma {:induction false} BracketSplits(declare: seq<Line>, open: Line, body: seq<Line>, foot: seq<Line>, rest: seq<Line>)
    ensures (declare + [open] + body + foot) + rest == declare + ([open] + (body + (foot + rest)))
  {
  }

  /** The body of the program, followed by anything. */
  lemma {:induction false} BodyRunsMany(txs: seq<Transaction>, ops: seq<Operation>, s: Setting, rest: seq<Line>, m: Machine, h: Host, r: Runner)
    returns (c: Machine)
    requires m.scopes != []
    ensures RunMany(BodyLines(txs, ops, s) + rest, m, h, r) == RunMany(rest, c, h, r) && c.scopes != []
    ensures c.out == ManyMeaning(txs, ops, s, m.out, h, r)
    decreases |ops|
  {
    c := m;
    if !m.out.status.Running? {
      RunManyStopped(BodyLines(txs, ops, s) + rest, m, h, r);
      RunManyStopped(rest, m, h, r);
    } else if ops == [] {
      assert BodyLines(txs, ops, s) + rest == rest;
    } else if OwnerId(txs, ops[0].id).None? {
      var head, more := OperationLines(ops[0], None, s), BodyLines(txs, ops[1..], s);
      Regroup(head, more, rest);
      OperationPlays(ops[0], None, s, m, h);
      RunManyFlat(head, more + rest, m, h, r);
      var q := Run(head, m, h);
      OperationKeepsScopes(ops[0], None, s, m, h);
      c := BodyRunsMany(txs, ops[1..], s, rest, q, h, r);
    } else {
      var id := OwnerId(txs, ops[0].id).value;
      OwnerIsKnown(txs, ops[0].id);
      var tx, k := ById(txs, id).value, RunLength(txs, ops, id);
      Regroup(BracketLines(tx, ops[..k], s), BodyLines(txs, ops[k..], s), rest);
      var b := BracketRuns(tx, ops[..k], s, BodyLines(txs, ops[k..], s) + rest, m, h, r);
      c := BodyRunsMany(txs, ops[k..], s, rest, b, h, r);
    }
  }

  lemma {:induction false} OperationKeepsScopes(op: Operation, tx: Option<string>, s: Setting, m: Machine, h: Host)
    requires m.scopes != []
    ensures Run(OperationLines(op, tx, s), m, h).scopes != []
  {
    KeepsScopes(OperationLines(op, tx, s), m, h);
  }

  lemma {:induction false} KeepsScopes(lines: seq<Line>, m: Machine, h: Host)
    requires m.scopes != [] && NoBracket(lines)
    ensures Run(lines, m, h).scopes != []
  {
    if lines != [] {
      assert lines[0] in lines && forall l | l in lines[1..] :: l in lines;
      KeepsScopes(lines[1..], Step(lines[0], m, h), h);
    }
  }

  lemma {:induction false} ReturnRuns(foot: Line, c: Machine, h: Host, r: Runner)
    requires foot.ReturnOk?
    ensures RunMany([foot], c, h, r).out == Finish(c.out)
  {
    assert [foot][1..] == [];
    assert RunMany([], Step(foot, c, h), h, r) == Step(foot, c, h);
  }

  lemma {:induction false} PreludeThenBody(d: Draft, s: Setting, rest: seq<Line>, h: Host, r: Runner) returns (p: Machine)
    ensures RunMany(Prelude(d, s) + rest, Machine([map[]], [], START), h, r) == RunMany(rest, p, h, r) && p.scopes != []
    ensures var o := Play(ModuleEvents(d, s, h), START, h);
            p.out == if o.status.Running? && !h.complete then o.(status := HooksMissing) else o
  {
    var m := Machine([map[]], [], START);
    RunManyFlat(Prelude(d, s), rest, m, h, r);
    PreludeRuns(d, s, m, h);
    p := Run(Prelude(d, s), m, h);
  }

  lemma {:induction false} StoppedMeaning(txs: seq<Transaction>, ops: seq<Operation>, s: Setting, o: Outcome, h: Host, r: Runner)
    requires !o.status.Running?
    ensures Finish(ManyMeaning(txs, ops, s, o, h, r)) == o
  {
  }

  lemma {:induction false} ProgramMeans(d: Draft, s: Setting, h: Host, r: Runner)
    ensures RunMany(Program(d, s), Machine([map[]], [], START), h, r).out == MeaningMany(d, s, h, r)
  {
    var head, body, foot := Prelude(d, s), BodyLines(d.transactions, d.operations, s), ReturnOk(d.returnExpr);
    Regroup(head, body, [foot]);
    var p := PreludeThenBody(d, s, body + [foot], h, r);
    var c := BodyRunsMany(d.transactions, d.operations, s, [foot], p, h, r);
    ReturnRuns(foot, c, h, r);
    if !p.out.status.Running? { StoppedMeaning(d.transactions, d.operations, s, p.out, h, r); }
  }

  /** Lowering preserves meaning for every host that runs bodies as often as it likes. */
  lemma {:induction false} LoweringPreservesRetries(d: Draft, s: Setting, h: Host, r: Runner)
    ensures NoClash(d) ==> ExecuteMany(Program(d, s), h, r) == MeaningMany(d, s, h, r)
    ensures !NoClash(d) ==> ExecuteMany(Program(d, s), h, r) == START.(status := Broken)
  {
    CompilesExactly(d, s);
    ProgramMeans(d, s, h, r);
  }

  // ----- every call is guarded, however often a body runs -----

  ghost predicate Secure(t: seq<Event>, h: Host) {
    forall i | 0 <= i < |t| && t[i].OperationCalled? :: GuardedCall(t, i, h)
  }

  ghost predicate GuardedCall(t: seq<Event>, i: nat, h: Host)
    requires i < |t| && t[i].OperationCalled?
  {
    exists j: nat :: Guarded(t, i, j, h)
  }

  lemma {:induction false} AcceptedEarlier(t: seq<Event>, u: seq<Event>, i: nat, h: Host)
    requires t <= u && i < |t|
    ensures AcceptedAt(t, i, h) <==> AcceptedAt(u, i, h)
  {
    assert t[..i] == u[..i] && t[i] == u[i];
  }

  lemma {:induction false} GuardedLater(t: seq<Event>, u: seq<Event>, i: nat, h: Host)
    requires t <= u && i < |t| && t[i].OperationCalled? && GuardedCall(t, i, h)
    ensures GuardedCall(u, i, h)
  {
    var j: nat :| Guarded(t, i, j, h);
    AcceptedEarlier(t, u, i - 1, h);
    if t[i].op.transactionId.Some? { AcceptedEarlier(t, u, j, h); }
    assert Guarded(u, i, j, h);
  }

  /** Another event keeps the guards, if it is no call or comes with its own. */
  lemma {:induction false} SecureMore(t: seq<Event>, e: Event, h: Host)
    requires Secure(t, h) && (e.OperationCalled? ==> GuardedCall(t + [e], |t|, h))
    ensures Secure(t + [e], h)
  {
    var u := t + [e];
    forall i | 0 <= i < |u| && u[i].OperationCalled? ensures GuardedCall(u, i, h) {
      if i < |t| {
        assert GuardedCall(t, i, h);
        GuardedLater(t, u, i, h);
      }
    }
  }

  /** A body of the transaction `tx` has begun at `j` and is still open. */
  ghost predicate BodyAt(t: seq<Event>, j: nat, tx: Option<string>, h: Host) {
    tx.Some? ==>
      && j < |t| && t[j].TransactionBegun? && Some(t[j].tx.transactionId) == tx
      && AcceptedAt(t, j, h) && forall k | j < k < |t| :: !t[k].TransactionEnded?
  }

  lemma {:induction false} BodyStays(t: seq<Event>, e: Event, j: nat, tx: Option<string>, h: Host)
    requires BodyAt(t, j, tx, h) && !e.TransactionEnded?
    ensures BodyAt(t + [e], j, tx, h)
  {
    if tx.Some? { AcceptedEarlier(t, t + [e], j, h); }
  }

  lemma {:induction false} CallGuarded(t: seq<Event>, e: OperationEnvelope, j: nat, h: Host)
    requires BodyAt(t, j, e.transactionId, h) && h.accepts(t, OperationEnforced(e))
    ensures var u := t + [OperationEnforced(e)] + [OperationCalled(e)]; GuardedCall(u, |t| + 1, h)
  {
    var v := t + [OperationEnforced(e)];
    var u := v + [OperationCalled(e)];
    assert u[..|t|] == t;
    assert AcceptedAt(u, |t|, h);
    if e.transactionId.Some? {
      BodyStays(t, OperationEnforced(e), j, e.transactionId, h);
      AcceptedEarlier(v, u, j, h);
    }
    assert Guarded(u, |t| + 1, j, h);
  }

  lemma {:induction false} OperationSecure(op: Operation, tx: Option<string>, s: Setting, o: Outcome, j: nat, h: Host)
    requires Secure(o.trace, h) && BodyAt(o.trace, j, tx, h)
    ensures var p := Play(OperationEvents(op, tx, s), o, h); Secure(p.trace, h) && BodyAt(p.trace, j, tx, h)
  {
    var e := EnvelopeOf(op, tx, s);
    PlayTwo(OperationEnforced(e), OperationCalled(e), o, h);
    SecureMore(o.trace, OperationEnforced(e), h);
    BodyStays(o.trace, OperationEnforced(e), j, tx, h);
    var v := o.trace + [OperationEnforced(e)];
    if o.status.Running? && h.accepts(o.trace, OperationEnforced(e)) {
      CallGuarded(o.trace, e, j, h);
      SecureMore(v, OperationCalled(e), h);
      BodyStays(v, OperationCalled(e), j, tx, h);
    }
  }

  lemma {:induction false} RunSecure(ops: seq<Operation>, tx: Option<string>, s: Setting, o: Outcome, j: nat, h: Host)
    requires Secure(o.trace, h) && BodyAt(o.trace, j, tx, h)
    ensures var p := Play(RunEvents(ops, tx, s), o, h); Secure(p.trace, h) && BodyAt(p.trace, j, tx, h)
  {
    if ops != [] {
      var n := |ops| - 1;
      RunSecure(ops[..n], tx, s, o, j, h);
      PlayAppend(RunEvents(ops[..n], tx, s), OperationEvents(ops[n], tx, s), o, h);
      OperationSecure(ops[n], tx, s, Play(RunEvents(ops[..n], tx, s), o, h), j, h);
    }
  }

  lemma {:induction false} RunsSecure(ops: seq<Operation>, tx: Option<string>, s: Setting, t: TransactionEnvelope, o: Outcome, j: nat, h: Host, r: Runner, n: nat)
    requires Secure(o.trace, h) && BodyAt(o.trace, j, tx, h)
    ensures Secure(PlayRuns(RunEvents(ops, tx, s), t, o, h, r, n).trace, h)
    decreases n
  {
    if n > 0 && o.status.Running? && r.again(t, o) {
      RunSecure(ops, tx, s, o, j, h);
      RunsSecure(ops, tx, s, t, Caught(Play(RunEvents(ops, tx, s), o, h)), j, h, r, n - 1);
    }
  }

  lemma {:induction false} BracketSecure(t: TransactionEnvelope, ops: seq<Operation>, s: Setting, o: Outcome, h: Host, r: Runner)
    requires Secure(o.trace, h) && o.status.Running?
    ensures Secure(BracketMeaning(t, RunEvents(ops, Some(t.transactionId), s), o, h, r).trace, h)
  {
    var tx := Some(t.transactionId);
    var e := Play(Opening(Some(t)), o, h);
    PlayTwo(TransactionEnforced(t), TransactionBegun(t), o, h);
    SecureMore(o.trace, TransactionEnforced(t), h);
    var v := o.trace + [TransactionEnforced(t)];
    SecureMore(v, TransactionBegun(t), h);
    if e.status.Running? {
      assert e.trace == v + [TransactionBegun(t)] && e.trace[..|v|] == v;
      assert BodyAt(e.trace, |v|, tx, h);
      RunsSecure(ops, tx, s, t, e, |v|, h, r, r.limit);
      SecureMore(PlayRuns(RunEvents(ops, tx, s), t, e, h, r, r.limit).trace, TransactionEnded(t), h);
    }
  }

  lemma {:induction false} ManySecure(txs: seq<Transaction>, ops: seq<Operation>, s: Setting, o: Outcome, h: Host, r: Runner)
    requires Secure(o.trace, h)
    ensures Secure(ManyMeaning(txs, ops, s, o, h, r).trace, h)
    decreases |ops|
  {
    if ops != [] && o.status.Running? {
      if OwnerId(txs, ops[0].id).None? {
        OperationSecure(ops[0], None, s, o, 0, h);
        ManySecure(txs, ops[1..], s, Play(OperationEvents(ops[0], None, s), o, h), h, r);
      } else {
        var id := OwnerId(txs, ops[0].id).value;
        OwnerIsKnown(txs, ops[0].id);
        var k := RunLength(txs, ops, id);
        var t := TransactionEnvelopeOf(ById(txs, id).value, s);
        BracketSecure(t, ops[..k], s, o, h, r);
        ManySecure(txs, ops[k..], s, BracketMeaning(t, RunEvents(ops[..k], Some(id), s), o, h, r), h, r);
      }
    }
  }

  lemma {:induction false} ModuleSecure(d: Draft, s: Setting, h: Host)
    ensures Secure(Play(ModuleEvents(d, s, h), START, h).trace, h)
  {
    ModulePlays(d, s, h);
  }

  /** Fail closed, for every host and every way of running bodies: each call directly follows
      the accepted enforcement of its envelope and, in a transaction, lies in a body of it
      that the host accepted to begin and has not ended. */
  lemma {:induction false} RetriedCallsAreEnforced(d: Draft, s: Setting, h: Host, r: Runner, i: nat) returns (j: nat)
    requires var t := ExecuteMany(Program(d, s), h, r).trace; i < |t| && t[i].OperationCalled?
    ensures Guarded(ExecuteMany(Program(d, s), h, r).trace, i, j, h)
  {
    LoweringPreservesRetries(d, s, h, r);
    ModuleSecure(d, s, h);
    ManySecure(d.transactions, d.operations, s, Play(ModuleEvents(d, s, h), START, h), h, r);
    var t := ExecuteMany(Program(d, s), h, r).trace;
    assert Secure(t, h) && GuardedCall(t, i, h);
    j :| Guarded(t, i, j, h);
  }

  // ----- hosts that accept everything -----

  function Times(k: nat, events: seq<Event>): seq<Event> { if k == 0 then [] else events + Times(k - 1, events) }

  /** Under such a host a bracket holds a whole number of runs, each with every operation of
      the run enforced and then called, in draft order. */
  lemma {:induction false} WholeRuns(events: seq<Event>, t: TransactionEnvelope, o: Outcome, h: Host, r: Runner, n: nat) returns (k: nat)
    requires o.status.Running? && (forall u, e :: h.accepts(u, e)) && forall i | 0 <= i < |o.trace| :: AcceptedAt(o.trace, i, h)
    ensures k <= n && PlayRuns(events, t, o, h, r, n).trace == o.trace + Times(k, events)
    ensures PlayRuns(events, t, o, h, r, n).status.Running?
    decreases n
  {
    k := 0;
    if n > 0 && r.again(t, o) {
      NeverAborted(events, o, h);
      PlayShowsPrefix(events, o, h);
      var p := Play(events, o, h);
      forall i | 0 <= i < |p.trace| ensures AcceptedAt(p.trace, i, h) { }
      var more := WholeRuns(events, t, p, h, r, n - 1);
      k := more + 1;
      Regroup(o.trace, events, Times(more, events));
    } else {
      assert o.trace + [] == o.trace;
    }
  }

  /** A runner that runs each body once. */
  ghost predicate RunsOnce(r: Runner) {
    r.limit >= 1 && forall t, o :: r.again(t, o) <==> o.trace != [] && o.trace[|o.trace| - 1].TransactionBegun?
  }

  lemma {:induction false} LastIsCall(ops: seq<Operation>, tx: Option<string>, s: Setting)
    requires ops != []
    ensures var events := RunEvents(ops, tx, s); events != [] && events[|events| - 1].OperationCalled?
  {
  }

  lemma {:induction false} OneRun(ops: seq<Operation>, tx: Option<string>, s: Setting, t: TransactionEnvelope, o: Outcome, h: Host, r: Runner)
    requires ops != [] && o.status.Running? && (forall u, e :: h.accepts(u, e)) && RunsOnce(r)
    requires o.trace != [] && o.trace[|o.trace| - 1].TransactionBegun? && forall i | 0 <= i < |o.trace| :: AcceptedAt(o.trace, i, h)
    ensures PlayRuns(RunEvents(ops, tx, s), t, o, h, r, r.limit) == Play(RunEvents(ops, tx, s), o, h)
  {
    var events := RunEvents(ops, tx, s);
    NeverAborted(events, o, h);
    PlayShowsPrefix(events, o, h);
    LastIsCall(ops, tx, s);
    var p := Play(events, o, h);
    assert p.trace[|p.trace| - 1] == events[|events| - 1];
    assert !r.again(t, p);
    assert PlayRuns(events, t, p, h, r, r.limit - 1) == p;
  }

  lemma {:induction false} OneBracket(t: TransactionEnvelope, ops: seq<Operation>, s: Setting, o: Outcome, h: Host, r: Runner)
    requires ops != [] && o.status.Running? && (forall u, e :: h.accepts(u, e)) && RunsOnce(r)
    requires forall i | 0 <= i < |o.trace| :: AcceptedAt(o.trace, i, h)
    ensures var events := RunEvents(ops, Some(t.transactionId), s);
            BracketMeaning(t, events, o, h, r) == Play(Opening(Some(t)) + events + [TransactionEnded(t)], o, h)
  {
    var events := RunEvents(ops, Some(t.transactionId), s);
    var e := Play(Opening(Some(t)), o, h);
    NeverAborted(Opening(Some(t)), o, h);
    PlayShowsPrefix(Opening(Some(t)), o, h);
    OneRun(ops, Some(t.transactionId), s, t, e, h, r);
    PlayAppend(Opening(Some(t)), events, o, h);
    PlayAppend(Opening(Some(t)) + events, [TransactionEnded(t)], o, h);
    assert [TransactionEnded(t)][1..] == [];
    var p := Play(events, e, h);
    assert Play([], Perform(TransactionEnded(t), p, h), h) == Perform(TransactionEnded(t), p, h);
  }

  /** For a host that accepts everything and runs each body once, the body plays the events of
      the draft. */
  lemma {:induction false} OnceIsMeaning(txs: seq<Transaction>, ops: seq<Operation>, s: Setting, o: Outcome, h: Host, r: Runner)
    requires o.status.Running? && (forall u, e :: h.accepts(u, e)) && RunsOnce(r)
    ensures ManyMeaning(txs, ops, s, o, h, r) == Play(EventsFrom(txs, ops, None, s), o, h)
    decreases |ops|
  {
    AllAccepted(o.trace, h);
    if ops != [] {
      var events, k;
      if OwnerId(txs, ops[0].id).None? {
        k := 1;
        events := OperationEvents(ops[0], None, s);
        assert EventsFrom(txs, ops, None, s) == [] + events + EventsFrom(txs, ops[1..], None, s);
        assert [] + events == events;
      } else {
        EventsOfRun(txs, ops, s);
        var id := OwnerId(txs, ops[0].id).value;
        OwnerIsKnown(txs, ops[0].id);
        k := RunLength(txs, ops, id);
        events := BracketEvents(ById(txs, id).value, ops[..k], s);
        OneBracket(TransactionEnvelopeOf(ById(txs, id).value, s), ops[..k], s, o, h, r);
      }
      NeverAborted(events, o, h);
      OnceIsMeaning(txs, ops[k..], s, Play(events, o, h), h, r);
      PlayAppend(events, EventsFrom(txs, ops[k..], None, s), o, h);
    }
  }

  lemma {:induction false} AllAccepted(t: seq<Event>, h: Host)
    requires forall u, e :: h.accepts(u, e)
    ensures forall i | 0 <= i < |t| :: AcceptedAt(t, i, h)
  {
  }

  /** So such a host makes of the program what the draft means. */
  lemma {:induction false} OnceMeansTheSame(d: Draft, s: Setting, h: Host, r: Runner)
    requires (forall u, e :: h.accepts(u, e)) && RunsOnce(r)
    ensures MeaningMany(d, s, h, r) == Meaning(d, s, h)
  {
    NeverAborted(ModuleEvents(d, s, h), START, h);
    OnceIsMeaning(d.transactions, d.operations, s, Play(ModuleEvents(d, s, h), START, h), h, r);
  }
}
