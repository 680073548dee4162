/** What the lowered program does when a host runs it, and why that is what the
    draft asked for. */
module LoweringSemantics {
  import opened Text
  import opened JsonTree
  import opened Lowering

  // ----- the host -----

  datatype Event =
    | ModuleEnforced(m: ModuleEnvelope)
    | TransactionEnforced(tx: TransactionEnvelope)
    | TransactionBegun(tx: TransactionEnvelope)
    | OperationEnforced(op: OperationEnvelope)
    | OperationCalled(op: OperationEnvelope)
    | TransactionEnded(tx: TransactionEnvelope)

  /** A host may refuse any call by throwing, after whatever it has seen so far. It may come
      without the module hook; `complete` says whether its required hooks are present. */
  datatype Host = Host(
    accepts: (seq<Event>, Event) -> bool,
    result: (OperationEnvelope, map<string, string>) -> string,
    moduleHook: bool,
    complete: bool)

  datatype Status = Running | Aborted | HooksMissing | Broken | Returned

  datatype Outcome = Outcome(trace: seq<Event>, state: map<string, string>, status: Status)

  const START := Outcome([], map[], Running)

  function Notify(e: Event, o: Outcome, h: Host): Outcome {
    o.(trace := o.trace + [e], status := if h.accepts(o.trace, e) then o.status else Aborted)
  }

  // ----- running lines -----

  datatype Binding = OperationBinding(op: OperationEnvelope) | TransactionBinding(tx: TransactionEnvelope)

  /** Block scopes from the outermost to the innermost, and the open bodies. */
  datatype Machine = Machine(scopes: seq<map<string, Binding>>, brackets: seq<TransactionEnvelope>, out: Outcome)

  function Find(scopes: seq<map<string, Binding>>, name: string): Option<Binding> {
    if scopes == [] then None
    else if name in scopes[|scopes| - 1] then Some(scopes[|scopes| - 1][name])
    else Find(scopes[..|scopes| - 1], name)
  }

  function Bind(m: Machine, name: string, b: Binding): Machine {
    if m.scopes == [] then Fail(m)
    else
      var n := |m.scopes| - 1;
      m.(scopes := m.scopes[..n] + [m.scopes[n][name := b]])
  }

  function Fail(m: Machine): Machine { m.(out := m.out.(status := Broken)) }

  function Step(line: Line, m: Machine, h: Host): Machine {
    if !m.out.status.Running? then m
    else
      match line
      case Inert => m
      case EnforceModule(e) => if h.moduleHook then m.(out := Notify(ModuleEnforced(e), m.out, h)) else m
      case HostGuard => if h.complete then m else m.(out := m.out.(status := HooksMissing))
      case ConstOperation(name, e) => Bind(m, name, OperationBinding(e))
      case ConstTransaction(name, t) => Bind(m, name, TransactionBinding(t))
      case EnforceOperation(name) => (match Find(m.scopes, name)
        case Some(OperationBinding(e)) => m.(out := Notify(OperationEnforced(e), m.out, h))
        case _ => Fail(m))
      case StoreCall(key, name) => (match Find(m.scopes, name)
        case Some(OperationBinding(e)) =>
          var o := Notify(OperationCalled(e), m.out, h);
          m.(out := if o.status.Running? then o.(state := o.state[key := h.result(e, o.state)]) else o)
        case _ => Fail(m))
      case EnforceTransaction(name) => (match Find(m.scopes, name)
        case Some(TransactionBinding(t)) => m.(out := Notify(TransactionEnforced(t), m.out, h))
        case _ => Fail(m))
      case OpenTransaction(name) => (match Find(m.scopes, name)
        case Some(TransactionBinding(t)) =>
          m.(scopes := m.scopes + [map[]], brackets := m.brackets + [t], out := Notify(TransactionBegun(t), m.out, h))
        case _ => Fail(m))
      case CloseTransaction =>
        if m.scopes == [] || m.brackets == [] then Fail(m)
        else
          var n := |m.brackets| - 1;
          Machine(m.scopes[..|m.scopes| - 1], m.brackets[..n], Notify(TransactionEnded(m.brackets[n]), m.out, h))
      case ReturnOk(_) => m.(out := m.out.(status := Returned))
  }

  function Run(lines: seq<Line>, m: Machine, h: Host): Machine {
    if lines == [] then m else Run(lines[1..], Step(lines[0], m, h), h)
  }

  // ----- the direct meaning of a draft -----

  function OwnerEnvelope(txs: seq<Transaction>, op: Operation, s: Setting): Option<TransactionEnvelope> {
    match OwnerId(txs, op.id)
    case None => None
    case Some(id) =>
      OwnerIsKnown(txs, op.id);
      Some(TransactionEnvelopeOf(ById(txs, id).value, s))
  }

  function IdOf(open: Option<TransactionEnvelope>): Option<string> {
    match open case None => None case Some(t) => Some(t.transactionId)
  }

  function Closing(open: Option<TransactionEnvelope>): seq<Event> {
    match open case None => [] case Some(t) => [TransactionEnded(t)]
  }

  function Opening(next: Option<TransactionEnvelope>): seq<Event> {
    match next case None => [] case Some(t) => [TransactionEnforced(t), TransactionBegun(t)]
  }

  function OperationEvents(op: Operation, tx: Option<string>, s: Setting): seq<Event> {
    [OperationEnforced(EnvelopeOf(op, tx, s)), OperationCalled(EnvelopeOf(op, tx, s))]
  }

  /** Operation by operation, changing brackets only where the owner changes. */
  function EventsFrom(txs: seq<Transaction>, ops: seq<Operation>, open: Option<TransactionEnvelope>, s: Setting): seq<Event> {
    if ops == [] then Closing(open)
    else
      var owner := OwnerEnvelope(txs, ops[0], s);
      (if IdOf(owner) == IdOf(open) then [] else Closing(open) + Opening(owner))
      + OperationEvents(ops[0], IdOf(owner), s)
      + EventsFrom(txs, ops[1..], owner, s)
  }

  /** A host call, with the state update of a finished operation call. */
  function Perform(e: Event, o: Outcome, h: Host): Outcome {
    if !o.status.Running? then o
    else
      var p := Notify(e, o, h);
      if e.OperationCalled? && p.status.Running?
      then p.(state := p.state[e.op.operationId := h.result(e.op, p.state)])
      else p
  }

  function Play(events: seq<Event>, o: Outcome, h: Host): Outcome {
    if events == [] then o else Play(events[1..], Perform(events[0], o, h), h)
  }

  function Finish(o: Outcome): Outcome {
    if o.status.Running? then o.(status := Returned) else o
  }

  function ModuleEvent(d: Draft, s: Setting): Event {
    ModuleEnforced(ModuleEnvelope(d.moduleId, d.workflow, d.task, s.environment))
  }

  /** The module is enforced where the host has the hook. */
  function ModuleEvents(d: Draft, s: Setting, h: Host): seq<Event> {
    if h.moduleHook then [ModuleEvent(d, s)] else []
  }

  /** The meaning of a draft for a host that runs each transaction body once. */
  function Meaning(d: Draft, s: Setting, h: Host): Outcome {
    var o := Play(ModuleEvents(d, s, h), START, h);
    if !o.status.Running? then o
    else if !h.complete then o.(status := HooksMissing)
    else Finish(Play(EventsFrom(d.transactions, d.operations, None, s), o, h))
  }

  // ----- the program has that meaning -----

  lemma {:induction false} RunAppend(a: seq<Line>, b: seq<Line>, m: Machine, h: Host)
    ensures Run(a + b, m, h) == Run(b, Run(a, m, h), h)
  {
    if a == [] {
      assert a + b == b;
    } else {
      assert (a + b)[1..] == a[1..] + b;
      RunAppend(a[1..], b, Step(a[0], m, h), h);
    }
  }

  lemma {:induction false} PlayAppend(a: seq<Event>, b: seq<Event>, o: Outcome, h: Host)
    ensures Play(a + b, o, h) == Play(b, Play(a, o, h), h)
  {
    if a == [] {
      assert a + b == b;
    } else {
      assert (a + b)[1..] == a[1..] + b;
      PlayAppend(a[1..], b, Perform(a[0], o, h), h);
    }
  }

  lemma {:induction false} RunStopped(lines: seq<Line>, m: Machine, h: Host)
    requires !m.out.status.Running?
    ensures Run(lines, m, h) == m
  {
    if lines != [] { RunStopped(lines[1..], m, h); }
  }

  lemma {:induction false} PlayStopped(events: seq<Event>, o: Outcome, h: Host)
    requires !o.status.Running?
    ensures Play(events, o, h) == o
  {
    if events != [] { PlayStopped(events[1..], o, h); }
  }

  /** `lines` plays `events` and, unless stopped, leaves the blocks as they were. */
  ghost predicate Plays(lines: seq<Line>, events: seq<Event>, m: Machine, h: Host) {
    var r := Run(lines, m, h);
    && r.out == Play(events, m.out, h)
    && (r.out.status.Running? ==>
          |r.scopes| == |m.scopes| && Outer(r.scopes) == Outer(m.scopes) && r.brackets == m.brackets)
  }

  function Outer(scopes: seq<map<string, Binding>>): seq<map<string, Binding>> {
    if scopes == [] then [] else scopes[..|scopes| - 1]
  }

  lemma {:induction false} PlaysInTurn(a: seq<Line>, x: seq<Event>, b: seq<Line>, y: seq<Event>, m: Machine, h: Host)
    requires m.scopes != [] && Plays(a, x, m, h)
    requires Run(a, m, h).out.status.Running? ==> Plays(b, y, Run(a, m, h), h)
    ensures Plays(a + b, x + y, m, h)
  {
    RunAppend(a, b, m, h);
    PlayAppend(x, y, m.out, h);
    var r := Run(a, m, h);
    if !r.out.status.Running? {
      RunStopped(b, r, h);
      PlayStopped(y, r.out, h);
    }
  }

  lemma {:induction false} RunTwo(a: Line, b: Line, m: Machine, h: Host)
    ensures Run([a, b], m, h) == Step(b, Step(a, m, h), h)
  {
    assert [a, b][1..] == [b] && [b][1..] == [];
    assert Run([], Step(b, Step(a, m, h), h), h) == Step(b, Step(a, m, h), h);
    assert Run([b], Step(a, m, h), h) == Step(b, Step(a, m, h), h);
  }

  lemma {:induction false} RunThree(a: Line, b: Line, c: Line, m: Machine, h: Host)
    ensures Run([a, b, c], m, h) == Step(c, Step(b, Step(a, m, h), h), h)
  {
    assert [a, b, c][1..] == [b, c];
    RunTwo(b, c, Step(a, m, h), h);
  }

  lemma {:induction false} PlayTwo(a: Event, b: Event, o: Outcome, h: Host)
    ensures Play([a, b], o, h) == Perform(b, Perform(a, o, h), h)
  {
    assert [a, b][1..] == [b] && [b][1..] == [];
    assert Play([], Perform(b, Perform(a, o, h), h), h) == Perform(b, Perform(a, o, h), h);
    assert Play([b], Perform(a, o, h), h) == Perform(b, Perform(a, o, h), h);
  }

  lemma {:induction false} OperationPlays(op: Operation, tx: Option<string>, s: Setting, m: Machine, h: Host)
    requires m.scopes != [] && m.out.status.Running?
    ensures Plays(OperationLines(op, tx, s), OperationEvents(op, tx, s), m, h)
  {
    var e, name := EnvelopeOf(op, tx, s), OperationName(op);
    var declare, use := [Inert, ConstOperation(name, e)], [EnforceOperation(name), StoreCall(op.id, name), Inert];
    assert OperationLines(op, tx, s) == declare + use;
    RunAppend(declare, use, m, h);
    RunTwo(Inert, ConstOperation(name, e), m, h);
    var bound := Bind(m, name, OperationBinding(e));
    RunThree(EnforceOperation(name), StoreCall(op.id, name), Inert, bound, h);
    PlayTwo(OperationEnforced(e), OperationCalled(e), m.out, h);
    UseOperation(op.id, name, e, bound, h);
  }

  lemma {:induction false} UseOperation(key: string, name: string, e: OperationEnvelope, m: Machine, h: Host)
    requires m.out.status.Running? && Find(m.scopes, name) == Some(OperationBinding(e)) && key == e.operationId
    ensures var r := Step(Inert, Step(StoreCall(key, name), Step(EnforceOperation(name), m, h), h), h);
            && r.out == Perform(OperationCalled(e), Perform(OperationEnforced(e), m.out, h), h)
            && r.scopes == m.scopes && r.brackets == m.brackets
  {
  }

  function RunEvents(ops: seq<Operation>, tx: Option<string>, s: Setting): seq<Event> {
    if ops == [] then [] else RunEvents(ops[..|ops| - 1], tx, s) + OperationEvents(ops[|ops| - 1], tx, s)
  }

  lemma {:induction false} RunPlays(ops: seq<Operation>, tx: Option<string>, s: Setting, m: Machine, h: Host)
    requires m.scopes != [] && m.out.status.Running?
    ensures Plays(RunLines(ops, tx, s), RunEvents(ops, tx, s), m, h)
  {
    if ops != [] {
      var n := |ops| - 1;
      RunPlays(ops[..n], tx, s, m, h);
      var r := Run(RunLines(ops[..n], tx, s), m, h);
      if r.out.status.Running? { OperationPlays(ops[n], tx, s, r, h); }
      PlaysInTurn(RunLines(ops[..n], tx, s), RunEvents(ops[..n], tx, s),
                  OperationLines(ops[n], tx, s), OperationEvents(ops[n], tx, s), m, h);
    }
  }

  /** The opening lines enforce and begin the transaction and enter its body. */
  lemma {:induction false} OpeningPlays(tx: Transaction, s: Setting, m: Machine, h: Host)
    requires m.scopes != [] && m.out.status.Running?
    ensures var t := TransactionEnvelopeOf(tx, s);
            var r := Run(OpenLines(tx, s), m, h);
            && r.out == Play(Opening(Some(t)), m.out, h)
            && (r.out.status.Running? ==>
                  && |r.scopes| == |m.scopes| + 1
                  && Outer(Outer(r.scopes)) == Outer(m.scopes)
                  && r.brackets == m.brackets + [t])
  {
    var t, name := TransactionEnvelopeOf(tx, s), TransactionName(tx);
    RunThree(ConstTransaction(name, t), EnforceTransaction(name), OpenTransaction(name), m, h);
    PlayTwo(TransactionEnforced(t), TransactionBegun(t), m.out, h);
    var bound := Bind(m, name, TransactionBinding(t));
    assert Find(bound.scopes, name) == Some(TransactionBinding(t));
    assert Outer(bound.scopes) == Outer(m.scopes);
    assert Outer(bound.scopes + [map[]]) == bound.scopes;
  }

  function BracketEvents(tx: Transaction, ops: seq<Operation>, s: Setting): seq<Event> {
    var t := TransactionEnvelopeOf(tx, s);
    Opening(Some(t)) + RunEvents(ops, Some(tx.id), s) + [TransactionEnded(t)]
  }

  lemma {:induction false} BracketPlays(tx: Transaction, ops: seq<Operation>, s: Setting, m: Machine, h: Host)
    requires m.scopes != [] && m.out.status.Running?
    ensures Plays(BracketLines(tx, ops, s), BracketEvents(tx, ops, s), m, h)
  {
    var t := TransactionEnvelopeOf(tx, s);
    var head, body, foot := OpenLines(tx, s), RunLines(ops, Some(tx.id), s), [CloseTransaction, Inert];
    var x, y, z := Opening(Some(t)), RunEvents(ops, Some(tx.id), s), [TransactionEnded(t)];
    OpeningPlays(tx, s, m, h);
    RunAppend(head, body, m, h);
    RunAppend(head + body, foot, m, h);
    PlayAppend(x, y, m.out, h);
    PlayAppend(x + y, z, m.out, h);
    var r := Run(head, m, h);
    if !r.out.status.Running? {
      RunStopped(body, r, h);
      RunStopped(foot, r, h);
      PlayStopped(y, r.out, h);
      PlayStopped(z, r.out, h);
    } else {
      RunPlays(ops, Some(tx.id), s, r, h);
      var q := Run(body, r, h);
      if !q.out.status.Running? {
        RunStopped(foot, q, h);
        PlayStopped(z, q.out, h);
      } else {
        RunTwo(CloseTransaction, Inert, q, h);
        ClosingPlays(t, m, r, q, h);
      }
    }
  }

  lemma {:induction false} ClosingPlays(t: TransactionEnvelope, m: Machine, r: Machine, q: Machine, h: Host)
    requires m.scopes != [] && q.out.status.Running?
    requires |r.scopes| == |m.scopes| + 1 && Outer(Outer(r.scopes)) == Outer(m.scopes) && r.brackets == m.brackets + [t]
    requires |q.scopes| == |r.scopes| && Outer(q.scopes) == Outer(r.scopes) && q.brackets == r.brackets
    ensures var c := Step(Inert, Step(CloseTransaction, q, h), h);
            && c.out == Play([TransactionEnded(t)], q.out, h)
            && |c.scopes| == |m.scopes| && Outer(c.scopes) == Outer(m.scopes) && c.brackets == m.brackets
  {
    assert [TransactionEnded(t)][1..] == [];
    assert Play([], Perform(TransactionEnded(t), q.out, h), h) == Perform(TransactionEnded(t), q.out, h);
  }

  // ----- brackets in the direct meaning -----

  lemma {:induction false} RunEventsFront(ops: seq<Operation>, tx: Option<string>, s: Setting)
    requires ops != []
    ensures RunEvents(ops, tx, s) == OperationEvents(ops[0], tx, s) + RunEvents(ops[1..], tx, s)
  {
    var n := |ops| - 1;
    if n == 0 {
      assert ops[..0] == [] && ops[1..] == [];
    } else {
      RunEventsFront(ops[..n], tx, s);
      assert ops[..n][1..] == ops[1..][..n - 1];
    }
  }

  lemma {:induction false} OwnerEnvelopeId(txs: seq<Transaction>, op: Operation, s: Setting)
    ensures IdOf(OwnerEnvelope(txs, op, s)) == OwnerId(txs, op.id)
    ensures forall other: Operation | OwnerId(txs, other.id) == OwnerId(txs, op.id) ::
              OwnerEnvelope(txs, other, s) == OwnerEnvelope(txs, op, s)
  {
    if OwnerId(txs, op.id).Some? { OwnerIsKnown(txs, op.id); }
  }

  lemma {:induction false} StayInside(txs: seq<Transaction>, ops: seq<Operation>, t: TransactionEnvelope, s: Setting)
    requires ops != [] && OwnerEnvelope(txs, ops[0], s) == Some(t)
    ensures EventsFrom(txs, ops, Some(t), s)
         == OperationEvents(ops[0], Some(t.transactionId), s) + EventsFrom(txs, ops[1..], Some(t), s)
  {
    assert [] + OperationEvents(ops[0], Some(t.transactionId), s) == OperationEvents(ops[0], Some(t.transactionId), s);
  }

  lemma {:induction false} EnterBracket(txs: seq<Transaction>, ops: seq<Operation>, t: TransactionEnvelope, s: Setting)
    requires ops != [] && OwnerEnvelope(txs, ops[0], s) == Some(t)
    ensures EventsFrom(txs, ops, None, s) == Opening(Some(t)) + EventsFrom(txs, ops, Some(t), s)
  {
    StayInside(txs, ops, t, s);
    assert [] + Opening(Some(t)) == Opening(Some(t));
    Regroup(Opening(Some(t)), OperationEvents(ops[0], Some(t.transactionId), s), EventsFrom(txs, ops[1..], Some(t), s));
  }

  lemma {:induction false} LeaveBracket(txs: seq<Transaction>, ops: seq<Operation>, t: TransactionEnvelope, s: Setting)
    requires ops == [] || OwnerId(txs, ops[0].id) != Some(t.transactionId)
    ensures EventsFrom(txs, ops, Some(t), s) == [TransactionEnded(t)] + EventsFrom(txs, ops, None, s)
  {
    if ops != [] {
      OwnerEnvelopeId(txs, ops[0], s);
      var owner := OwnerEnvelope(txs, ops[0], s);
      var here, rest := OperationEvents(ops[0], IdOf(owner), s), EventsFrom(txs, ops[1..], owner, s);
      assert [] + Opening(owner) == Opening(owner);
      if owner.None? {
        assert [TransactionEnded(t)] + Opening(owner) == [TransactionEnded(t)];
        Regroup([TransactionEnded(t)], here, rest);
        assert [] + here == here;
      } else {
        Regroup([TransactionEnded(t)], Opening(owner), here);
        Regroup([TransactionEnded(t)], Opening(owner) + here, rest);
      }
    }
  }

  /** Inside an open bracket, a run plays its operations and then closes. */
  lemma {:induction false} EventsInsideRun(txs: seq<Transaction>, ops: seq<Operation>, t: TransactionEnvelope, s: Setting)
    requires forall op: Operation | OwnerId(txs, op.id) == Some(t.transactionId) :: OwnerEnvelope(txs, op, s) == Some(t)
    ensures var k := RunLength(txs, ops, t.transactionId);
            EventsFrom(txs, ops, Some(t), s)
              == RunEvents(ops[..k], Some(t.transactionId), s) + ([TransactionEnded(t)] + EventsFrom(txs, ops[k..], None, s))
  {
    var id := t.transactionId;
    var k := RunLength(txs, ops, id);
    if k == 0 {
      LeaveBracket(txs, ops, t, s);
      assert ops[..k] == [] && ops[k..] == ops;
    } else {
      EventsInsideRun(txs, ops[1..], t, s);
      StayInside(txs, ops, t, s);
      RunEventsFront(ops[..k], Some(id), s);
      assert ops[..k][1..] == ops[1..][..k - 1] && ops[k..] == ops[1..][k - 1..];
      Regroup(OperationEvents(ops[0], Some(id), s), RunEvents(ops[1..][..k - 1], Some(id), s),
              [TransactionEnded(t)] + EventsFrom(txs, ops[k..], None, s));
    }
  }

  lemma {:induction false} EventsOfRun(txs: seq<Transaction>, ops: seq<Operation>, s: Setting)
    requires ops != [] && OwnerId(txs, ops[0].id).Some?
    ensures var id := OwnerId(txs, ops[0].id).value;
            var k := RunLength(txs, ops, id);
            && ById(txs, id).Some? && 0 < k
            && EventsFrom(txs, ops, None, s)
                 == BracketEvents(ById(txs, id).value, ops[..k], s) + EventsFrom(txs, ops[k..], None, s)
  {
    OwnerIsKnown(txs, ops[0].id);
    OwnerEnvelopeId(txs, ops[0], s);
    var id := OwnerId(txs, ops[0].id).value;
    var k := RunLength(txs, ops, id);
    var t := OwnerEnvelope(txs, ops[0], s).value;
    EnterBracket(txs, ops, t, s);
    EventsInsideRun(txs, ops, t, s);
    RegroupFour(Opening(Some(t)), RunEvents(ops[..k], Some(id), s), [TransactionEnded(t)], EventsFrom(txs, ops[k..], None, s));
  }

  lemma {:induction false} BodyPlays(txs: seq<Transaction>, ops: seq<Operation>, s: Setting, m: Machine, h: Host)
    requires m.scopes != [] && m.out.status.Running?
    ensures Plays(BodyLines(txs, ops, s), EventsFrom(txs, ops, None, s), m, h)
    decreases |ops|
  {
    if ops != [] {
      var lines, events, k;
      if OwnerId(txs, ops[0].id).None? {
        k := 1;
        lines, events := OperationLines(ops[0], None, s), OperationEvents(ops[0], None, s);
        OperationPlays(ops[0], None, s, m, h);
        assert EventsFrom(txs, ops, None, s) == [] + events + EventsFrom(txs, ops[1..], None, s);
        assert [] + events == events;
      } else {
        EventsOfRun(txs, ops, s);
        var id := OwnerId(txs, ops[0].id).value;
        k := RunLength(txs, ops, id);
        lines, events := BracketLines(ById(txs, id).value, ops[..k], s), BracketEvents(ById(txs, id).value, ops[..k], s);
        BracketPlays(ById(txs, id).value, ops[..k], s, m, h);
      }
      var r := Run(lines, m, h);
      if r.out.status.Running? { BodyPlays(txs, ops[k..], s, r, h); }
      PlaysInTurn(lines, events, BodyLines(txs, ops[k..], s), EventsFrom(txs, ops[k..], None, s), m, h);
    }
  }
}
