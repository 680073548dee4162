/** src/ainir/lowering.py: from a checked draft to a TypeScript skeleton, kept as
    the sequence of its lines. */
module Lowering {
  import opened Text
  import opened JsonTree

  datatype Operation = Operation(
    id: string, op: string, effects: seq<string>, capabilities: seq<string>, policies: seq<string>)

  datatype Transaction = Transaction(id: string, includes: seq<string>, mode: string)

  /** What the lowerer takes from the registries and the trusted context: the
      printed canonical name of an operation, the normal form of an effect and
      the sorted risk families of a list of effects. */
  datatype Setting = Setting(
    environment: string,
    canonicalText: string -> string,
    normalizeEffect: string -> string,
    riskFamilies: seq<string> -> seq<string>,
    allowedType: string -> bool,
    allowedReturn: string -> bool)

  datatype ModuleEnvelope = ModuleEnvelope(moduleId: string, workflow: string, task: string, environment: string)

  datatype TransactionEnvelope = TransactionEnvelope(
    transactionId: string, mode: string, includes: seq<string>, environment: string)

  datatype OperationEnvelope = OperationEnvelope(
    operationId: string, canonicalOp: string, effects: seq<string>, capabilities: seq<string>,
    policies: seq<string>, riskFamilies: seq<string>, environment: string, transactionId: Option<string>)

  datatype Draft = Draft(
    moduleId: string, workflow: string, task: string, inputType: string, outputType: string,
    returnExpr: string, operations: seq<Operation>, transactions: seq<Transaction>)

  // ----- identifiers -----

  predicate IsWord(c: char) { IsLetter(c) || IsDigit(c) || c == '_' }

  predicate SafeId(s: string) {
    1 <= |s| <= 128 && IsLetter(s[0]) && forall c | c in s :: IsWord(c) || c == '.' || c == '-'
  }

  /** `re.match(r"^...$")`: the dollar also matches before one final newline. */
  predicate SafeOperationId(s: string) {
    SafeId(s) || (s != "" && s[|s| - 1] == '\n' && SafeId(s[..|s| - 1]))
  }

  function Underscored(s: string): (r: string)
    ensures |r| == |s|
  {
    if s == "" then "" else [if IsWord(s[0]) then s[0] else '_'] + Underscored(s[1..])
  }

  function Take(s: string, n: nat): string { if |s| <= n then s else s[..n] }

  /** `_safe_var_suffix`. */
  function Suffix(id: string): string { Take(Underscored(id), 80) }

  // ----- lines -----

  datatype Line =
    | Inert                                              // comments, blank lines, type declarations
    | EnforceModule(m: ModuleEnvelope)
    | HostGuard
    | ConstOperation(name: string, op: OperationEnvelope)
    | EnforceOperation(name: string)
    | StoreCall(key: string, name: string)
    | ConstTransaction(name: string, tx: TransactionEnvelope)
    | EnforceTransaction(name: string)
    | OpenTransaction(name: string)
    | CloseTransaction
    | ReturnOk(expr: string)

  function Normalized(effects: seq<string>, s: Setting): seq<string> {
    if effects == [] then [] else [s.normalizeEffect(effects[0])] + Normalized(effects[1..], s)
  }

  function EnvelopeOf(op: Operation, tx: Option<string>, s: Setting): OperationEnvelope {
    var effects := Normalized(op.effects, s);
    OperationEnvelope(
      op.id, s.canonicalText(op.op), effects, op.capabilities, op.policies,
      s.riskFamilies(effects), s.environment, tx)
  }

  function TransactionEnvelopeOf(tx: Transaction, s: Setting): TransactionEnvelope {
    TransactionEnvelope(tx.id, tx.mode, tx.includes, s.environment)
  }

  function OperationName(op: Operation): string { "envelope_" + Suffix(op.id) }

  function TransactionName(tx: Transaction): string { "tx_" + Suffix(tx.id) }

  /** The five lines `_emit_operation` appends. */
  function OperationLines(op: Operation, tx: Option<string>, s: Setting): seq<Line> {
    var name := OperationName(op);
    [Inert, ConstOperation(name, EnvelopeOf(op, tx, s)), EnforceOperation(name), StoreCall(op.id, name), Inert]
  }

  function RunLines(ops: seq<Operation>, tx: Option<string>, s: Setting): seq<Line> {
    if ops == [] then [] else RunLines(ops[..|ops| - 1], tx, s) + OperationLines(ops[|ops| - 1], tx, s)
  }

  function OpenLines(tx: Transaction, s: Setting): seq<Line> {
    var name := TransactionName(tx);
    [ConstTransaction(name, TransactionEnvelopeOf(tx, s)), EnforceTransaction(name), OpenTransaction(name)]
  }

  function BracketLines(tx: Transaction, ops: seq<Operation>, s: Setting): seq<Line> {
    OpenLines(tx, s) + RunLines(ops, Some(tx.id), s) + [CloseTransaction, Inert]
  }

  function Prelude(d: Draft, s: Setting): seq<Line> {
    [Inert, EnforceModule(ModuleEnvelope(d.moduleId, d.workflow, d.task, s.environment)), Inert, HostGuard, Inert]
  }

  // ----- the include map -----

  /** `{op_id: tx.id for tx in transactions for op_id in tx.includes}`: the last
      transaction that names an operation wins. */
  function OwnerId(txs: seq<Transaction>, opId: string): Option<string> {
    if txs == [] then None
    else if opId in txs[|txs| - 1].includes then Some(txs[|txs| - 1].id)
    else OwnerId(txs[..|txs| - 1], opId)
  }

  /** `{tx.id: tx for tx in transactions}`. */
  function ById(txs: seq<Transaction>, id: string): Option<Transaction> {
    if txs == [] then None
    else if txs[|txs| - 1].id == id then Some(txs[|txs| - 1])
    else ById(txs[..|txs| - 1], id)
  }

  lemma {:induction false} OwnerIsKnown(txs: seq<Transaction>, opId: string)
    requires OwnerId(txs, opId).Some?
    ensures var id := OwnerId(txs, opId).value;
            ById(txs, id).Some? && ById(txs, id).value.id == id && ById(txs, id).value in txs
  {
    var n := |txs| - 1;
    if opId !in txs[n].includes {
      OwnerIsKnown(txs[..n], opId);
    }
    ByIdMeans(txs, OwnerId(txs, opId).value);
  }

  lemma {:induction false} ByIdMeans(txs: seq<Transaction>, id: string)
    ensures ById(txs, id).Some? ==> ById(txs, id).value.id == id && ById(txs, id).value in txs
    ensures (exists tx | tx in txs :: tx.id == id) ==> ById(txs, id).Some?
  {
    if txs != [] {
      var n := |txs| - 1;
      ByIdMeans(txs[..n], id);
      assert forall tx :: tx in txs <==> tx in txs[..n] || tx == txs[n];
    }
  }

  // ----- the emitted body -----

  /** Length of the leading run of operations owned by transaction `id`. */
  function RunLength(txs: seq<Transaction>, ops: seq<Operation>, id: string): (k: nat)
    ensures k <= |ops|
    ensures forall i | 0 <= i < k :: OwnerId(txs, ops[i].id) == Some(id)
    ensures k < |ops| ==> OwnerId(txs, ops[k].id) != Some(id)
  {
    if ops != [] && OwnerId(txs, ops[0].id) == Some(id) then 1 + RunLength(txs, ops[1..], id) else 0
  }

  /** One bracket for each maximal run of operations with the same transaction. */
  function BodyLines(txs: seq<Transaction>, ops: seq<Operation>, s: Setting): seq<Line>
    decreases |ops|
  {
    if ops == [] then []
    else
      match OwnerId(txs, ops[0].id)
      case None => OperationLines(ops[0], None, s) + BodyLines(txs, ops[1..], s)
      case Some(id) =>
        OwnerIsKnown(txs, ops[0].id);
        var k := RunLength(txs, ops, id);
        BracketLines(ById(txs, id).value, ops[..k], s) + BodyLines(txs, ops[k..], s)
  }

  lemma {:induction false} RunLinesGrows(ops: seq<Operation>, n: nat, tx: Option<string>, s: Setting)
    requires n < |ops|
    ensures RunLines(ops[..n + 1], tx, s) == RunLines(ops[..n], tx, s) + OperationLines(ops[n], tx, s)
    ensures AllSafe(ops[..n + 1]) <==> AllSafe(ops[..n]) && SafeOperationId(ops[n].id)
    ensures !SafeOperationId(ops[n].id) ==> !AllSafe(ops)
  {
    assert ops[..n + 1][..n] == ops[..n] && ops[..n + 1] == ops[..n] + [ops[n]];
  }

  /** What the loop has to emit for an operation outside every transaction. */
  lemma {:induction false} BodyLinesOutside(txs: seq<Transaction>, ops: seq<Operation>, i: nat, s: Setting)
    requires i < |ops| && OwnerId(txs, ops[i].id).None?
    ensures BodyLines(txs, ops[i..], s) == OperationLines(ops[i], None, s) + BodyLines(txs, ops[i + 1..], s)
  {
    assert ops[i..][0] == ops[i] && ops[i..][1..] == ops[i + 1..];
  }

  /** What the loop has to emit for the run that starts at `i`. */
  lemma {:induction false} BodyLinesInside(txs: seq<Transaction>, ops: seq<Operation>, i: nat, id: string, s: Setting)
    requires i < |ops| && OwnerId(txs, ops[i].id) == Some(id)
    ensures var next := i + RunLength(txs, ops[i..], id);
            && i < next <= |ops| && ById(txs, id).Some? && ById(txs, id).value.id == id
            && BodyLines(txs, ops[i..], s)
                 == BracketLines(ById(txs, id).value, ops[i..next], s) + BodyLines(txs, ops[next..], s)
  {
    var rest := ops[i..];
    assert rest[0] == ops[i];
    OwnerIsKnown(txs, ops[i].id);
    var k := RunLength(txs, rest, id);
    assert rest[..k] == ops[i..i + k] && rest[k..] == ops[i + k..];
  }

  function Program(d: Draft, s: Setting): seq<Line> {
    Prelude(d, s) + BodyLines(d.transactions, d.operations, s) + [ReturnOk(d.returnExpr)]
  }

  predicate Lowerable(d: Draft, s: Setting) {
    && s.allowedType(d.inputType) && s.allowedType(d.outputType) && s.allowedReturn(d.returnExpr)
    && AllSafe(d.operations)
  }

  predicate AllSafe(ops: seq<Operation>) { forall op | op in ops :: SafeOperationId(op.id) }

  lemma {:induction false} AllSafeSplit(ops: seq<Operation>, i: nat, j: nat)
    requires i <= j <= |ops|
    ensures AllSafe(ops[..j]) <==> AllSafe(ops[..i]) && AllSafe(ops[i..j])
    ensures !AllSafe(ops[i..j]) ==> !AllSafe(ops)
  {
    assert ops[..j] == ops[..i] + ops[i..j];
    assert forall op | op in ops[i..j] :: op in ops;
  }

  /** The lowerer: `lines` is the list that the source appends to. */
  class TypeScriptLowerer {
    var lines: seq<Line>
    const setting: Setting

    constructor (setting: Setting)
      ensures this.setting == setting && lines == []
    {
      this.setting := setting;
      lines := [];
    }

    /** `_emit_operation`: false stands for the raised error. */
    method EmitOperation(op: Operation, tx: Option<string>) returns (ok: bool)
      modifies this
      ensures ok == SafeOperationId(op.id)
      ensures lines == old(lines) + if ok then OperationLines(op, tx, setting) else []
    {
      if !SafeOperationId(op.id) { return false; }
      var name := OperationName(op);
      var envelope := EnvelopeOf(op, tx, setting);
      lines := lines + [Inert, ConstOperation(name, envelope), EnforceOperation(name)];
      lines := lines + [StoreCall(op.id, name), Inert];
      return true;
    }

    /** `{op_id: tx.id for tx in transactions for op_id in tx.includes}`. */
    method IndexOperations(txs: seq<Transaction>) returns (owner: map<string, string>)
      ensures forall x :: (x in owner <==> OwnerId(txs, x).Some?) && (x in owner ==> OwnerId(txs, x) == Some(owner[x]))
    {
      owner := map[];
      for i := 0 to |txs|
        invariant forall x :: (x in owner <==> OwnerId(txs[..i], x).Some?) && (x in owner ==> OwnerId(txs[..i], x) == Some(owner[x]))
      {
        assert txs[..i + 1][..i] == txs[..i];
        var tx := txs[i];
        ghost var before := owner;
        for j := 0 to |tx.includes|
          invariant forall x :: x in owner <==> x in before || x in tx.includes[..j]
          invariant forall x | x in owner :: owner[x] == if x in tx.includes[..j] then tx.id else before[x]
        {
          owner := owner[tx.includes[j] := tx.id];
        }
        assert tx.includes[..|tx.includes|] == tx.includes;
      }
      assert txs[..|txs|] == txs;
    }

    /** The inner `while`: the run of operations that starts at `i`. */
    method CollectRun(txs: seq<Transaction>, owner: map<string, string>, ops: seq<Operation>, i: nat, id: string)
      returns (txOps: seq<Operation>, next: nat)
      requires forall x :: (x in owner <==> OwnerId(txs, x).Some?) && (x in owner ==> OwnerId(txs, x) == Some(owner[x]))
      requires i < |ops|
      ensures next == i + RunLength(txs, ops[i..], id) && next <= |ops| && txOps == ops[i..next]
    {
      txOps, next := [], i;
      while next < |ops| && ops[next].id in owner && owner[ops[next].id] == id
        invariant i <= next <= |ops| && txOps == ops[i..next]
        invariant RunLength(txs, ops[i..], id) == next - i + RunLength(txs, ops[next..], id)
      {
        assert ops[next..][0] == ops[next] && ops[next..][1..] == ops[next + 1..];
        txOps := txOps + [ops[next]];
        next := next + 1;
      }
      assert next < |ops| ==> ops[next..][0] == ops[next];
    }

    /** The inner `for`: the operations of one run. */
    method EmitRun(id: string, txOps: seq<Operation>) returns (ok: bool)
      modifies this
      ensures ok == AllSafe(txOps)
      ensures ok ==> lines == old(lines) + RunLines(txOps, Some(id), setting)
    {
      for n := 0 to |txOps|
        invariant lines == old(lines) + RunLines(txOps[..n], Some(id), setting)
        invariant AllSafe(txOps[..n])
      {
        ghost var before := RunLines(txOps[..n], Some(id), setting);
        RunLinesGrows(txOps, n, Some(id), setting);
        var emitted := EmitOperation(txOps[n], Some(id));
        if !emitted { return false; }
        Regroup(old(lines), before, OperationLines(txOps[n], Some(id), setting));
      }
      assert txOps[..|txOps|] == txOps;
      return true;
    }

    /** The body of the outer loop for a run owned by `tx`. */
    method EmitBracket(tx: Transaction, txOps: seq<Operation>) returns (ok: bool)
      modifies this
      ensures ok == AllSafe(txOps)
      ensures ok ==> lines == old(lines) + BracketLines(tx, txOps, setting)
    {
      lines := lines + OpenLines(tx, setting);
      ok := EmitRun(tx.id, txOps);
      lines := lines + [CloseTransaction, Inert];
    }

    /** One round of the outer `while`, for an operation outside every transaction. */
    method EmitOutside(ops: seq<Operation>, i: nat) returns (ok: bool)
      requires i < |ops|
      modifies this
      ensures ok == AllSafe(ops[i..i + 1])
      ensures ok ==> lines == old(lines) + OperationLines(ops[i], None, setting)
    {
      ok := EmitOperation(ops[i], None);
      assert ops[i..i + 1] == [ops[i]];
    }

    /** One round of the outer `while`, for the run of `tx` that starts at `i`. */
    method EmitInside(txs: seq<Transaction>, owner: map<string, string>, ops: seq<Operation>, i: nat, tx: Transaction)
      returns (ok: bool, next: nat)
      requires forall x :: (x in owner <==> OwnerId(txs, x).Some?) && (x in owner ==> OwnerId(txs, x) == Some(owner[x]))
      requires i < |ops|
      modifies this
      ensures next == i + RunLength(txs, ops[i..], tx.id) && next <= |ops| && ok == AllSafe(ops[i..next])
      ensures ok ==> lines == old(lines) + BracketLines(tx, ops[i..next], setting)
    {
      var txOps;
      txOps, next := CollectRun(txs, owner, ops, i, tx.id);
      ok := EmitBracket(tx, txOps);
    }

    /** One round of the outer `while`, for the operation or run that starts at `i`. */
    method EmitNext(txs: seq<Transaction>, owner: map<string, string>, ops: seq<Operation>, i: nat)
      returns (ok: bool, next: nat, ghost piece: seq<Line>)
      requires forall x :: (x in owner <==> OwnerId(txs, x).Some?) && (x in owner ==> OwnerId(txs, x) == Some(owner[x]))
      requires i < |ops|
      modifies this
      ensures i < next <= |ops| && ok == AllSafe(ops[i..next])
      ensures ok ==> lines == old(lines) + piece
      ensures BodyLines(txs, ops[i..], setting) == piece + BodyLines(txs, ops[next..], setting)
    {
      if ops[i].id !in owner {
        BodyLinesOutside(txs, ops, i, setting);
        next, piece := i + 1, OperationLines(ops[i], None, setting);
        ok := EmitOutside(ops, i);
      } else {
        var id := owner[ops[i].id];
        BodyLinesInside(txs, ops, i, id, setting);
        var tx := ById(txs, id).value;
        ok, next := EmitInside(txs, owner, ops, i, tx);
        piece := BracketLines(tx, ops[i..next], setting);
      }
    }

    /** The outer `while`. */
    method EmitBody(txs: seq<Transaction>, ops: seq<Operation>) returns (ok: bool)
      modifies this
      ensures ok == AllSafe(ops)
      ensures ok ==> lines == old(lines) + BodyLines(txs, ops, setting)
    {
      var owner := IndexOperations(txs);
      var i := 0;
      assert ops[0..] == ops;
      while i < |ops|
        invariant 0 <= i <= |ops|
        invariant lines + BodyLines(txs, ops[i..], setting) == old(lines) + BodyLines(txs, ops, setting)
        invariant AllSafe(ops[..i])
      {
        ghost var before := lines;
        var emitted, next, piece := EmitNext(txs, owner, ops, i);
        AllSafeSplit(ops, i, next);
        if !emitted { return false; }
        Regroup(before, piece, BodyLines(txs, ops[next..], setting));
        i := next;
      }
      assert ops[|ops|..] == [] && ops[..|ops|] == ops;
      return true;
    }

    /** `lower_to_typescript` after its gate: false stands for a refusal. */
    method LowerToTypescript(d: Draft) returns (ok: bool)
      modifies this
      ensures ok == Lowerable(d, setting)
      ensures ok ==> lines == Program(d, setting)
    {
      if !setting.allowedType(d.inputType) || !setting.allowedType(d.outputType) || !setting.allowedReturn(d.returnExpr) {
        return false;
      }
      lines := Prelude(d, setting);
      ok := EmitBody(d.transactions, d.operations);
      if ok { lines := lines + [ReturnOk(d.returnExpr)]; }
    }
  }
}
