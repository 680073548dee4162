/** Block scoping of the lowered program: TypeScript refuses a second `const` of
    one name in a block, so the whole program runs only if its names fit. */
module LoweringScopes {
  import opened JsonTree
  import opened Lowering
  import opened LoweringSemantics

  // ----- the scope check -----

  /** The declared names, block by block, after a line; None when it is refused. */
  function Declare(line: Line, scopes: seq<set<string>>): Option<seq<set<string>>> {
    if scopes == [] then None
    else
      var n := |scopes| - 1;
      match line
      case ConstOperation(name, _) => if name in scopes[n] then None else Some(scopes[..n] + [scopes[n] + {name}])
      case ConstTransaction(name, _) => if name in scopes[n] then None else Some(scopes[..n] + [scopes[n] + {name}])
      case EnforceOperation(name) => if Declared(name, scopes) then Some(scopes) else None
      case StoreCall(_, name) => if Declared(name, scopes) then Some(scopes) else None
      case EnforceTransaction(name) => if Declared(name, scopes) then Some(scopes) else None
      case OpenTransaction(name) => if Declared(name, scopes) then Some(scopes + [{}]) else None
      case CloseTransaction => if n == 0 then None else Some(scopes[..n])
      case _ => Some(scopes)
  }

  predicate Declared(name: string, scopes: seq<set<string>>) {
    exists i | 0 <= i < |scopes| :: name in scopes[i]
  }

  function Compile(lines: seq<Line>, scopes: seq<set<string>>): Option<seq<set<string>>> {
    if lines == [] then Some(scopes)
    else
      match Declare(lines[0], scopes)
      case None => None
      case Some(next) => Compile(lines[1..], next)
  }

  predicate Compiles(lines: seq<Line>) { Compile(lines, [{}]).Some? }

  /** A program that does not compile does nothing at all. */
  function Execute(lines: seq<Line>, h: Host): Outcome {
    if Compiles(lines) then Run(lines, Machine([map[]], [], START), h).out
    else START.(status := Broken)
  }

  // ----- which names meet in one block -----

  ghost predicate SameRun(txs: seq<Transaction>, ops: seq<Operation>, i: nat, j: nat)
    requires i < j < |ops|
  {
    OwnerId(txs, ops[i].id).Some? &&
    forall k | i <= k <= j :: OwnerId(txs, ops[k].id) == OwnerId(txs, ops[i].id)
  }

  predicate StartsRun(txs: seq<Transaction>, ops: seq<Operation>, i: nat)
    requires i < |ops|
  {
    && OwnerId(txs, ops[i].id).Some?
    && (i == 0 || OwnerId(txs, ops[i - 1].id) != OwnerId(txs, ops[i].id))
  }

  /** Two operations whose constants collide: both outside transactions, or in one
      bracket; or two brackets whose transaction constants collide. */
  ghost predicate Clash(txs: seq<Transaction>, ops: seq<Operation>, i: nat, j: nat)
    requires i < j < |ops|
  {
    var x, y := OwnerId(txs, ops[i].id), OwnerId(txs, ops[j].id);
    || (x.None? && y.None? && Suffix(ops[i].id) == Suffix(ops[j].id))
    || (SameRun(txs, ops, i, j) && Suffix(ops[i].id) == Suffix(ops[j].id))
    || (StartsRun(txs, ops, i) && StartsRun(txs, ops, j) && Suffix(x.value) == Suffix(y.value))
  }

  ghost predicate NoClashBetween(txs: seq<Transaction>, ops: seq<Operation>, p: nat, q: nat)
    requires q <= |ops|
  {
    forall i, j | 0 <= i < j < q && p <= j :: !Clash(txs, ops, i, j)
  }

  ghost predicate ClashesAt(txs: seq<Transaction>, ops: seq<Operation>, p: nat)
    requires p < |ops|
  {
    exists i | 0 <= i < p :: Clash(txs, ops, i, p)
  }

  ghost predicate ClashesInside(txs: seq<Transaction>, ops: seq<Operation>, p: nat, q: nat)
    requires q <= |ops|
  {
    exists i, j | 0 <= i < j && p < j < q :: Clash(txs, ops, i, j)
  }

  ghost predicate NoClash(d: Draft) { NoClashBetween(d.transactions, d.operations, 0, |d.operations|) }

  // ----- compiling the pieces -----

  lemma {:induction false} CompileAppend(a: seq<Line>, b: seq<Line>, scopes: seq<set<string>>)
    ensures Compile(a + b, scopes) ==
              match Compile(a, scopes)
              case None => None
              case Some(mid) => Compile(b, mid)
  {
    if a == [] {
      assert a + b == b;
    } else {
      assert (a + b)[1..] == a[1..] + b && (a + b)[0] == a[0];
      var next := Declare(a[0], scopes);
      if next.Some? { CompileAppend(a[1..], b, next.value); }
    }
  }

  lemma {:induction false} CompileTwo(a: Line, b: Line, scopes: seq<set<string>>)
    ensures Compile([a, b], scopes) ==
              match Declare(a, scopes)
              case None => None
              case Some(next) => Declare(b, next)
  {
    assert [a, b][1..] == [b] && [b][1..] == [];
    forall x: seq<set<string>> ensures Compile([], x) == Some(x) { }
    forall x: seq<set<string>> ensures Compile([b], x) == Declare(b, x) { assert [b][1..] == []; }
  }

  lemma {:induction false} CompileThree(a: Line, b: Line, c: Line, scopes: seq<set<string>>)
    ensures Compile([a, b, c], scopes) ==
              match Declare(a, scopes)
              case None => None
              case Some(next) => (match Declare(b, next) case None => None case Some(last) => Declare(c, last))
  {
    assert [a, b, c][1..] == [b, c];
    if Declare(a, scopes).Some? { CompileTwo(b, c, Declare(a, scopes).value); }
  }

  lemma {:induction false} OperationCompiles(op: Operation, tx: Option<string>, s: Setting, outer: seq<set<string>>, names: set<string>)
    ensures Compile(OperationLines(op, tx, s), outer + [names]) ==
              if OperationName(op) in names then None else Some(outer + [names + {OperationName(op)}])
  {
    var e, name := EnvelopeOf(op, tx, s), OperationName(op);
    var declare, use := [Inert, ConstOperation(name, e)], [EnforceOperation(name), StoreCall(op.id, name), Inert];
    assert OperationLines(op, tx, s) == declare + use;
    var scopes := outer + [names];
    CompileAppend(declare, use, scopes);
    CompileTwo(Inert, ConstOperation(name, e), scopes);
    assert scopes[..|outer|] == outer && scopes[|outer|] == names;
    if name !in names {
      var next := outer + [names + {name}];
      assert name in next[|outer|];
      CompileThree(EnforceOperation(name), StoreCall(op.id, name), Inert, next);
    }
  }

  function NamesOf(ops: seq<Operation>): set<string> {
    if ops == [] then {} else NamesOf(ops[..|ops| - 1]) + {OperationName(ops[|ops| - 1])}
  }

  /** The operation constants of one bracket are pairwise different. */
  predicate NamesDiffer(ops: seq<Operation>) {
    ops == [] || (NamesDiffer(ops[..|ops| - 1]) && OperationName(ops[|ops| - 1]) !in NamesOf(ops[..|ops| - 1]))
  }

  lemma {:induction false} NamesOfContents(ops: seq<Operation>, name: string)
    ensures name in NamesOf(ops) <==> NameTaken(ops, name)
  {
    if ops != [] {
      var n := |ops| - 1;
      NamesOfContents(ops[..n], name);
      assert forall i | 0 <= i < n :: ops[..n][i] == ops[i];
    }
  }

  ghost predicate PairwiseDifferent(ops: seq<Operation>) {
    forall i, j | 0 <= i < j < |ops| :: OperationName(ops[i]) != OperationName(ops[j])
  }

  ghost predicate NameTaken(ops: seq<Operation>, name: string) { exists i | 0 <= i < |ops| :: OperationName(ops[i]) == name }

  lemma {:induction false} PairwiseLast(front: seq<Operation>, op: Operation)
    ensures PairwiseDifferent(front + [op]) <==> PairwiseDifferent(front) && !NameTaken(front, OperationName(op))
  {
    var ops := front + [op];
    assert forall i | 0 <= i < |front| :: ops[i] == front[i];
    if PairwiseDifferent(ops) {
      forall i | 0 <= i < |front| ensures OperationName(front[i]) != OperationName(op) {
        assert OperationName(ops[i]) != OperationName(ops[|front|]);
      }
    }
  }

  lemma {:induction false} NamesDifferMeans(ops: seq<Operation>)
    ensures NamesDiffer(ops) <==> PairwiseDifferent(ops)
  {
    if ops != [] {
      var front, op := ops[..|ops| - 1], ops[|ops| - 1];
      assert ops == front + [op];
      NamesDifferMeans(front);
      NamesOfContents(front, OperationName(op));
      PairwiseLast(front, op);
    }
  }

  lemma {:induction false} RunCompiles(ops: seq<Operation>, tx: Option<string>, s: Setting, outer: seq<set<string>>)
    ensures Compile(RunLines(ops, tx, s), outer + [{}]) == if NamesDiffer(ops) then Some(outer + [NamesOf(ops)]) else None
  {
    if ops != [] {
      var n := |ops| - 1;
      RunCompiles(ops[..n], tx, s, outer);
      CompileAppend(RunLines(ops[..n], tx, s), OperationLines(ops[n], tx, s), outer + [{}]);
      OperationCompiles(ops[n], tx, s, outer, NamesOf(ops[..n]));
    }
  }

  lemma {:induction false} BracketCompiles(tx: Transaction, ops: seq<Operation>, s: Setting, names: set<string>)
    ensures Compile(BracketLines(tx, ops, s), [names]) ==
              if TransactionName(tx) in names || !NamesDiffer(ops) then None else Some([names + {TransactionName(tx)}])
  {
    var head, body, foot := OpenLines(tx, s), RunLines(ops, Some(tx.id), s), [CloseTransaction, Inert];
    var next := [names + {TransactionName(tx)}];
    OpeningCompiles(tx, s, names);
    RunCompiles(ops, Some(tx.id), s, next);
    CompileTwo(CloseTransaction, Inert, next + [NamesOf(ops)]);
    assert (next + [NamesOf(ops)])[..1] == next;
    CompileAppend(head, body, [names]);
    CompileAppend(head + body, foot, [names]);
  }

  lemma {:induction false} OpeningCompiles(tx: Transaction, s: Setting, names: set<string>)
    ensures Compile(OpenLines(tx, s), [names]) ==
              if TransactionName(tx) in names then None else Some([names + {TransactionName(tx)}] + [{}])
  {
    var t, name := TransactionEnvelopeOf(tx, s), TransactionName(tx);
    CompileThree(ConstTransaction(name, t), EnforceTransaction(name), OpenTransaction(name), [names]);
    var next := [names + {name}];
    assert [names][..0] + [[names][0] + {name}] == next;
    assert name in next[0];
  }

  // ----- the names of the function body -----

  lemma {:induction false} NamesIdentify(a: Operation, b: Operation, t: Transaction, u: Transaction)
    ensures OperationName(a) == OperationName(b) <==> Suffix(a.id) == Suffix(b.id)
    ensures TransactionName(t) == TransactionName(u) <==> Suffix(t.id) == Suffix(u.id)
    ensures OperationName(a) != TransactionName(t) && OperationName(a) != TransactionName(u)
    ensures OperationName(b) != TransactionName(t) && OperationName(b) != TransactionName(u)
  {
    assert OperationName(a)[9..] == Suffix(a.id) && OperationName(b)[9..] == Suffix(b.id);
    assert TransactionName(t)[3..] == Suffix(t.id) && TransactionName(u)[3..] == Suffix(u.id);
    assert OperationName(a)[0] == 'e' && OperationName(b)[0] == 'e';
    assert TransactionName(t)[0] == 't' && TransactionName(u)[0] == 't';
  }

  /** What operation `i` adds to the names of the function body. */
  function Added(txs: seq<Transaction>, ops: seq<Operation>, i: nat): set<string>
    requires i < |ops|
  {
    match OwnerId(txs, ops[i].id)
    case None => {OperationName(ops[i])}
    case Some(id) => if StartsRun(txs, ops, i) then {"tx_" + Suffix(id)} else {}
  }

  function TopNames(txs: seq<Transaction>, ops: seq<Operation>, p: nat): set<string>
    requires p <= |ops|
  {
    if p == 0 then {} else TopNames(txs, ops, p - 1) + Added(txs, ops, p - 1)
  }

  lemma {:induction false} TopNamesContents(txs: seq<Transaction>, ops: seq<Operation>, p: nat, name: string)
    requires p <= |ops|
    ensures name in TopNames(txs, ops, p) <==> exists i | 0 <= i < p :: name in Added(txs, ops, i)
  {
    if p > 0 { TopNamesContents(txs, ops, p - 1, name); }
  }

  lemma {:induction false} AddedClash(txs: seq<Transaction>, ops: seq<Operation>, i: nat, p: nat)
    requires i < p < |ops|
    requires OwnerId(txs, ops[p].id).None? || StartsRun(txs, ops, p)
    ensures Clash(txs, ops, i, p) <==> FirstName(txs, ops, p) in Added(txs, ops, i)
  {
    var x, y := OwnerId(txs, ops[i].id), OwnerId(txs, ops[p].id);
    var t := Transaction(if x.Some? then x.value else "", [], "");
    var u := Transaction(if y.Some? then y.value else "", [], "");
    NamesIdentify(ops[i], ops[p], t, u);
    assert !SameRun(txs, ops, i, p) by {
      if y.Some? { assert OwnerId(txs, ops[p - 1].id) != y; }
    }
  }

  /** The constant that operation `p` puts first into the function body. */
  function FirstName(txs: seq<Transaction>, ops: seq<Operation>, p: nat): string
    requires p < |ops|
  {
    match OwnerId(txs, ops[p].id)
    case None => OperationName(ops[p])
    case Some(id) => "tx_" + Suffix(id)
  }

  lemma {:induction false} TopNamesClash(txs: seq<Transaction>, ops: seq<Operation>, p: nat)
    requires p < |ops|
    requires OwnerId(txs, ops[p].id).None? || StartsRun(txs, ops, p)
    ensures FirstName(txs, ops, p) in TopNames(txs, ops, p) <==> ClashesAt(txs, ops, p)
  {
    var name := FirstName(txs, ops, p);
    TopNamesContents(txs, ops, p, name);
    forall i | 0 <= i < p ensures Clash(txs, ops, i, p) <==> name in Added(txs, ops, i) { AddedClash(txs, ops, i, p); }
  }

  ghost predicate Boundary(txs: seq<Transaction>, ops: seq<Operation>, p: nat)
    requires p <= |ops|
  {
    0 < p < |ops| ==> OwnerId(txs, ops[p].id).None? || OwnerId(txs, ops[p - 1].id) != OwnerId(txs, ops[p].id)
  }

  /** Main scope result: from any run boundary on, the rest of the body compiles
      exactly when none of its operations clashes with an earlier one. */
  lemma {:induction false} BodyCompilesExactly(txs: seq<Transaction>, ops: seq<Operation>, p: nat, s: Setting)
    requires p <= |ops| && Boundary(txs, ops, p)
    ensures Compile(BodyLines(txs, ops[p..], s), [TopNames(txs, ops, p)]).Some? <==> NoClashBetween(txs, ops, p, |ops|)
    decreases |ops| - p
  {
    if p < |ops| {
      var q := BodyStepCompiles(txs, ops, p, s);
      BodyCompilesExactly(txs, ops, q, s);
      NoClashSplit(txs, ops, p, q);
    }
  }

  lemma {:induction false} NoClashSplit(txs: seq<Transaction>, ops: seq<Operation>, p: nat, q: nat)
    requires p <= q <= |ops|
    ensures NoClashBetween(txs, ops, p, |ops|) <==> NoClashBetween(txs, ops, p, q) && NoClashBetween(txs, ops, q, |ops|)
  {
  }

  /** One operation outside transactions, or one bracket, and then the rest. */
  lemma {:induction false} BodyStepCompiles(txs: seq<Transaction>, ops: seq<Operation>, p: nat, s: Setting) returns (q: nat)
    requires p < |ops| && Boundary(txs, ops, p)
    ensures p < q <= |ops| && Boundary(txs, ops, q)
    ensures Compile(BodyLines(txs, ops[p..], s), [TopNames(txs, ops, p)]) ==
              if NoClashBetween(txs, ops, p, q) then Compile(BodyLines(txs, ops[q..], s), [TopNames(txs, ops, q)]) else None
  {
    if OwnerId(txs, ops[p].id).None? {
      q := p + 1;
      PlainStepCompiles(txs, ops, p, s);
    } else {
      var id;
      q, id := NextRun(txs, ops, p, s);
      RunStepCompiles(txs, ops, p, q, id, s);
    }
  }

  lemma {:induction false} NextRun(txs: seq<Transaction>, ops: seq<Operation>, p: nat, s: Setting) returns (q: nat, id: string)
    requires p < |ops| && OwnerId(txs, ops[p].id).Some?
    ensures p < q <= |ops| && ById(txs, id).Some?
    ensures forall k | p <= k < q :: OwnerId(txs, ops[k].id) == Some(id)
    ensures q < |ops| ==> OwnerId(txs, ops[q].id) != Some(id)
    ensures BodyLines(txs, ops[p..], s) == BracketLines(ById(txs, id).value, ops[p..q], s) + BodyLines(txs, ops[q..], s)
  {
    id := OwnerId(txs, ops[p].id).value;
    q := p + RunLength(txs, ops[p..], id);
    NextRunLines(txs, ops, p, q, id, s);
    RunIsOwned(txs, ops, p, q, id);
  }

  lemma {:induction false} NextRunLines(txs: seq<Transaction>, ops: seq<Operation>, p: nat, q: nat, id: string, s: Setting)
    requires p < |ops| && OwnerId(txs, ops[p].id) == Some(id) && q == p + RunLength(txs, ops[p..], id)
    ensures p < q <= |ops| && ById(txs, id).Some?
    ensures BodyLines(txs, ops[p..], s) == BracketLines(ById(txs, id).value, ops[p..q], s) + BodyLines(txs, ops[q..], s)
  {
    var rest := ops[p..];
    var k := RunLength(txs, rest, id);
    assert rest[0] == ops[p];
    BodyLinesHead(txs, rest, id, s);
    assert rest[..k] == ops[p..q];
    assert rest[k..] == ops[q..];
  }

  lemma {:induction false} BodyLinesHead(txs: seq<Transaction>, rest: seq<Operation>, id: string, s: Setting)
    requires rest != [] && OwnerId(txs, rest[0].id) == Some(id)
    ensures RunLength(txs, rest, id) > 0 && ById(txs, id).Some?
    ensures var k := RunLength(txs, rest, id);
            BodyLines(txs, rest, s) == BracketLines(ById(txs, id).value, rest[..k], s) + BodyLines(txs, rest[k..], s)
  {
    OwnerIsKnown(txs, rest[0].id);
  }

  lemma {:induction false} PlainStepCompiles(txs: seq<Transaction>, ops: seq<Operation>, p: nat, s: Setting)
    requires p < |ops| && OwnerId(txs, ops[p].id).None?
    ensures Compile(BodyLines(txs, ops[p..], s), [TopNames(txs, ops, p)]) ==
              if NoClashBetween(txs, ops, p, p + 1)
              then Compile(BodyLines(txs, ops[p + 1..], s), [TopNames(txs, ops, p + 1)]) else None
  {
    BodyLinesOutside(txs, ops, p, s);
    PlainPieceCompiles(txs, ops, p, s);
    CompileThen(OperationLines(ops[p], None, s), BodyLines(txs, ops[p + 1..], s),
                TopNames(txs, ops, p), TopNames(txs, ops, p + 1), NoClashBetween(txs, ops, p, p + 1));
  }

  lemma {:induction false} RunStepCompiles(txs: seq<Transaction>, ops: seq<Operation>, p: nat, q: nat, id: string, s: Setting)
    requires p < q <= |ops| && Boundary(txs, ops, p) && ById(txs, id).Some?
    requires forall k | p <= k < q :: OwnerId(txs, ops[k].id) == Some(id)
    requires BodyLines(txs, ops[p..], s) == BracketLines(ById(txs, id).value, ops[p..q], s) + BodyLines(txs, ops[q..], s)
    ensures Compile(BodyLines(txs, ops[p..], s), [TopNames(txs, ops, p)]) ==
              if NoClashBetween(txs, ops, p, q)
              then Compile(BodyLines(txs, ops[q..], s), [TopNames(txs, ops, q)]) else None
  {
    RunPieceCompiles(txs, ops, p, q, id, s);
    CompileThen(BracketLines(ById(txs, id).value, ops[p..q], s), BodyLines(txs, ops[q..], s),
                TopNames(txs, ops, p), TopNames(txs, ops, q), NoClashBetween(txs, ops, p, q));
  }

  lemma {:induction false} RunIsOwned(txs: seq<Transaction>, ops: seq<Operation>, p: nat, q: nat, id: string)
    requires p < |ops| && q == p + RunLength(txs, ops[p..], id)
    ensures q <= |ops|
    ensures forall k | p <= k < q :: OwnerId(txs, ops[k].id) == Some(id)
    ensures q < |ops| ==> OwnerId(txs, ops[q].id) != Some(id)
  {
    assert forall k | p <= k < q :: ops[p..][k - p] == ops[k];
    assert q < |ops| ==> ops[p..][q - p] == ops[q];
  }

  lemma {:induction false} CompileThen(piece: seq<Line>, rest: seq<Line>, top: set<string>, next: set<string>, ok: bool)
    requires Compile(piece, [top]) == if ok then Some([next]) else None
    ensures Compile(piece + rest, [top]) == if ok then Compile(rest, [next]) else None
  {
    CompileAppend(piece, rest, [top]);
  }

  lemma {:induction false} PlainPieceCompiles(txs: seq<Transaction>, ops: seq<Operation>, p: nat, s: Setting)
    requires p < |ops| && OwnerId(txs, ops[p].id).None?
    ensures Compile(OperationLines(ops[p], None, s), [TopNames(txs, ops, p)]) ==
              if NoClashBetween(txs, ops, p, p + 1) then Some([TopNames(txs, ops, p + 1)]) else None
  {
    var names := TopNames(txs, ops, p);
    TopNamesClash(txs, ops, p);
    OperationCompiles(ops[p], None, s, [], names);
    assert [] + [names] == [names];
    assert [] + [names + {OperationName(ops[p])}] == [TopNames(txs, ops, p + 1)];
  }

  lemma {:induction false} RunPieceCompiles(txs: seq<Transaction>, ops: seq<Operation>, p: nat, q: nat, id: string, s: Setting)
    requires p < q <= |ops| && Boundary(txs, ops, p) && ById(txs, id).Some?
    requires forall k | p <= k < q :: OwnerId(txs, ops[k].id) == Some(id)
    ensures Compile(BracketLines(ById(txs, id).value, ops[p..q], s), [TopNames(txs, ops, p)]) ==
              if NoClashBetween(txs, ops, p, q) then Some([TopNames(txs, ops, q)]) else None
  {
    ByIdMeans(txs, id);
    TopNamesClash(txs, ops, p);
    RunClashes(txs, ops, p, q, id);
    NamesDifferMeans(ops[p..q]);
    TopNamesOfRun(txs, ops, p, q, id);
    BracketCompiles(ById(txs, id).value, ops[p..q], s, TopNames(txs, ops, p));
    NoClashSplits(txs, ops, p, q);
  }

  lemma {:induction false} NoClashSplits(txs: seq<Transaction>, ops: seq<Operation>, p: nat, q: nat)
    requires p < q <= |ops|
    ensures NoClashBetween(txs, ops, p, q) <==> !ClashesAt(txs, ops, p) && !ClashesInside(txs, ops, p, q)
  {
  }

  /** Within a run, clashes are exactly equal operation constants. */
  lemma {:induction false} RunClashes(txs: seq<Transaction>, ops: seq<Operation>, p: nat, q: nat, id: string)
    requires p < q <= |ops| && Boundary(txs, ops, p)
    requires forall k | p <= k < q :: OwnerId(txs, ops[k].id) == Some(id)
    ensures ClashesInside(txs, ops, p, q) <==> !PairwiseDifferent(ops[p..q])
  {
    if PairwiseDifferent(ops[p..q]) {
      RunFreeOfClashes(txs, ops, p, q, id);
    } else {
      RunHasClash(txs, ops, p, q, id);
    }
  }

  lemma {:induction false} RunHasClash(txs: seq<Transaction>, ops: seq<Operation>, p: nat, q: nat, id: string)
    requires p < q <= |ops| && Boundary(txs, ops, p) && !PairwiseDifferent(ops[p..q])
    requires forall k | p <= k < q :: OwnerId(txs, ops[k].id) == Some(id)
    ensures ClashesInside(txs, ops, p, q)
  {
    var run := ops[p..q];
    var i, j :| 0 <= i < j < |run| && OperationName(run[i]) == OperationName(run[j]);
    RunClash(txs, ops, p, q, id, p + i, p + j);
    assert Clash(txs, ops, p + i, p + j);
  }

  lemma {:induction false} RunFreeOfClashes(txs: seq<Transaction>, ops: seq<Operation>, p: nat, q: nat, id: string)
    requires p < q <= |ops| && Boundary(txs, ops, p) && PairwiseDifferent(ops[p..q])
    requires forall k | p <= k < q :: OwnerId(txs, ops[k].id) == Some(id)
    ensures !ClashesInside(txs, ops, p, q)
  {
    forall i, j | 0 <= i < j && p < j < q ensures !Clash(txs, ops, i, j) {
      RunClash(txs, ops, p, q, id, i, j);
      if p <= i { DifferentInRun(ops, p, q, i, j); }
    }
  }

  lemma {:induction false} DifferentInRun(ops: seq<Operation>, p: nat, q: nat, i: nat, j: nat)
    requires p <= i < j < q <= |ops| && PairwiseDifferent(ops[p..q])
    ensures OperationName(ops[i]) != OperationName(ops[j])
  {
    var run := ops[p..q];
    assert OperationName(run[i - p]) != OperationName(run[j - p]);
  }

  lemma {:induction false} RunClash(txs: seq<Transaction>, ops: seq<Operation>, p: nat, q: nat, id: string, i: nat, j: nat)
    requires p < j < q <= |ops| && i < j && Boundary(txs, ops, p)
    requires forall k | p <= k < q :: OwnerId(txs, ops[k].id) == Some(id)
    ensures Clash(txs, ops, i, j) <==> p <= i && OperationName(ops[i]) == OperationName(ops[j])
  {
    assert !StartsRun(txs, ops, j);
    if p <= i {
      assert SameRun(txs, ops, i, j);
      NamesIdentify(ops[i], ops[j], Transaction(id, [], ""), Transaction(id, [], ""));
    } else {
      assert OwnerId(txs, ops[p - 1].id) != OwnerId(txs, ops[p].id);
      assert !SameRun(txs, ops, i, j);
    }
  }

  lemma {:induction false} TopNamesOfRun(txs: seq<Transaction>, ops: seq<Operation>, p: nat, q: nat, id: string)
    requires p < q <= |ops| && Boundary(txs, ops, p)
    requires forall k | p <= k < q :: OwnerId(txs, ops[k].id) == Some(id)
    ensures TopNames(txs, ops, q) == TopNames(txs, ops, p) + {"tx_" + Suffix(id)}
    decreases q
  {
    if q == p + 1 {
      assert StartsRun(txs, ops, p);
    } else {
      TopNamesOfRun(txs, ops, p, q - 1, id);
      assert !StartsRun(txs, ops, q - 1);
    }
  }

  // ----- main results -----

  lemma {:induction false} CompilesExactly(d: Draft, s: Setting)
    ensures Compiles(Program(d, s)) <==> NoClash(d)
  {
    var body := BodyLines(d.transactions, d.operations, s);
    BodyCompilesExactly(d.transactions, d.operations, 0, s);
    assert d.operations[0..] == d.operations;
    PreludeCompiles(d, s);
    CompileAppend(Prelude(d, s), body, [{}]);
    CompileAppend(Prelude(d, s) + body, [ReturnOk(d.returnExpr)], [{}]);
    var mid := Compile(body, [{}]);
    if mid.Some? {
      CompileKeepsBlocks(body, [{}]);
      assert [ReturnOk(d.returnExpr)][1..] == [];
    }
  }

  lemma {:induction false} PreludeCompiles(d: Draft, s: Setting)
    ensures Compile(Prelude(d, s), [{}]) == Some([{}])
  {
    var e := EnforceModule(ModuleEnvelope(d.moduleId, d.workflow, d.task, s.environment));
    assert Prelude(d, s) == [Inert, e] + [Inert, HostGuard, Inert];
    CompileAppend([Inert, e], [Inert, HostGuard, Inert], [{}]);
    CompileTwo(Inert, e, [{}]);
    CompileThree(Inert, HostGuard, Inert, [{}]);
  }

  lemma {:induction false} CompileKeepsBlocks(lines: seq<Line>, scopes: seq<set<string>>)
    requires scopes != [] && Compile(lines, scopes).Some?
    ensures Compile(lines, scopes).value != []
  {
    if lines != [] { CompileKeepsBlocks(lines[1..], Declare(lines[0], scopes).value); }
  }

  /** Lowering preserves meaning. For every host, the lowered program either does
      exactly what the draft means, or, when two constants clash, nothing. */
  lemma {:induction false} LoweringPreservesMeaning(d: Draft, s: Setting, h: Host)
    ensures NoClash(d) ==> Execute(Program(d, s), h) == Meaning(d, s, h)
    ensures !NoClash(d) ==> Execute(Program(d, s), h) == START.(status := Broken)
  {
    CompilesExactly(d, s);
    var m := Machine([map[]], [], START);
    var body := BodyLines(d.transactions, d.operations, s);
    var foot := [ReturnOk(d.returnExpr)];
    PreludeRuns(d, s, m, h);
    RunAppend(Prelude(d, s), body, m, h);
    RunAppend(Prelude(d, s) + body, foot, m, h);
    var r := Run(Prelude(d, s), m, h);
    if r.out.status.Running? {
      BodyPlays(d.transactions, d.operations, s, r, h);
    } else {
      RunStopped(body, r, h);
    }
    var q := Run(body, r, h);
    assert foot[1..] == [];
    assert Run(foot, q, h) == Step(foot[0], q, h);
  }

  lemma {:induction false} PreludeRuns(d: Draft, s: Setting, m: Machine, h: Host)
    requires m.out == START && m.scopes != []
    ensures var r := Run(Prelude(d, s), m, h);
            var o := Play(ModuleEvents(d, s, h), START, h);
            && r.scopes == m.scopes
            && r.out == if o.status.Running? && !h.complete then o.(status := HooksMissing) else o
  {
    var e := EnforceModule(ModuleEnvelope(d.moduleId, d.workflow, d.task, s.environment));
    assert Prelude(d, s) == [Inert, e] + [Inert, HostGuard, Inert];
    RunAppend([Inert, e], [Inert, HostGuard, Inert], m, h);
    RunTwo(Inert, e, m, h);
    RunThree(Inert, HostGuard, Inert, Step(e, m, h), h);
    ModulePlays(d, s, h);
  }

  lemma {:induction false} ModulePlays(d: Draft, s: Setting, h: Host)
    ensures Play(ModuleEvents(d, s, h), START, h) == if h.moduleHook then Perform(ModuleEvent(d, s), START, h) else START
  {
    if h.moduleHook {
      assert [ModuleEvent(d, s)][1..] == [];
      assert Play([], Perform(ModuleEvent(d, s), START, h), h) == Perform(ModuleEvent(d, s), START, h);
    }
  }

  /** A draft that the lowerer accepts and whose program does not compile: its two
      operations have different safe ids and one constant name. */
  lemma {:induction false} DotAndUnderscoreClash(s: Setting, ty: string, ret: string)
    requires s.allowedType(ty) && s.allowedReturn(ret)
    ensures var a, b := Operation("a.b", "op", [], [], []), Operation("a_b", "op", [], [], []);
            var d := Draft("m", "w", "t", ty, ty, ret, [a, b], []);
            SafeId(a.id) && SafeId(b.id) && a.id != b.id && Lowerable(d, s) && !Compiles(Program(d, s))
  {
    var a, b := Operation("a.b", "op", [], [], []), Operation("a_b", "op", [], [], []);
    var d := Draft("m", "w", "t", ty, ty, ret, [a, b], []);
    assert Underscored("b") == "b" && Underscored(".b") == "_b" && Underscored("_b") == "_b";
    assert "a.b"[1..] == ".b" && "a_b"[1..] == "_b" && ".b"[1..] == "b" && "_b"[1..] == "b";
    assert Suffix(a.id) == "a_b" == Suffix(b.id);
    assert Clash(d.transactions, d.operations, 0, 1);
    CompilesExactly(d, s);
  }

  // ----- a condition a caller can check -----

  predicate PlainId(id: string) { |id| <= 80 && forall c | c in id :: IsWord(c) }

  /** Each transaction owns one run of the task order (TX013 of the verifier). */
  ghost predicate Contiguous(d: Draft) {
    forall i, j | 0 <= i < j < |d.operations| && StartsRun(d.transactions, d.operations, i) && StartsRun(d.transactions, d.operations, j) ::
      OwnerId(d.transactions, d.operations[i].id) != OwnerId(d.transactions, d.operations[j].id)
  }

  lemma {:induction false} PlainSuffix(id: string)
    requires forall c | c in id :: IsWord(c)
    ensures Underscored(id) == id
  {
    if id != "" {
      assert id[0] in id;
      PlainSuffix(id[1..]);
      assert id == [id[0]] + id[1..];
    }
  }

  /** Unique ids of at most 80 word characters, and contiguous transactions, are
      enough for every name to fit. */
  lemma {:induction false} PlainIdsFit(d: Draft)
    requires forall op | op in d.operations :: PlainId(op.id)
    requires forall tx | tx in d.transactions :: PlainId(tx.id)
    requires forall i, j | 0 <= i < j < |d.operations| :: d.operations[i].id != d.operations[j].id
    requires Contiguous(d)
    ensures NoClash(d)
  {
    var txs, ops := d.transactions, d.operations;
    forall i, j | 0 <= i < j < |ops| ensures !Clash(txs, ops, i, j) {
      assert ops[i] in ops && ops[j] in ops;
      PlainSuffix(ops[i].id);
      PlainSuffix(ops[j].id);
      if StartsRun(txs, ops, i) && StartsRun(txs, ops, j) { PlainOwners(d, i, j); }
    }
  }

  lemma {:induction false} PlainOwners(d: Draft, i: nat, j: nat)
    requires forall tx | tx in d.transactions :: PlainId(tx.id)
    requires Contiguous(d) && i < j < |d.operations|
    requires StartsRun(d.transactions, d.operations, i) && StartsRun(d.transactions, d.operations, j)
    ensures Suffix(OwnerId(d.transactions, d.operations[i].id).value) != Suffix(OwnerId(d.transactions, d.operations[j].id).value)
  {
    var txs := d.transactions;
    OwnerIsKnown(txs, d.operations[i].id);
    OwnerIsKnown(txs, d.operations[j].id);
    PlainSuffix(OwnerId(txs, d.operations[i].id).value);
    PlainSuffix(OwnerId(txs, d.operations[j].id).value);
  }
}
