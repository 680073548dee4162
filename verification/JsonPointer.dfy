/** src/ainir/mcp_tool_call.py: JSON Pointers (RFC 6901, sections 3 and 4) and the
    scan that reports credential-like keys and strings by pointer. */
module JsonPointer {
  import opened Text
  import opened JsonTree

  // ----- places in a tree -----

  datatype Step = Key(k: string) | Index(i: nat)

  /** The node reached from `v` by following `loc`. */
  function At(v: Json, loc: seq<Step>): Option<Json> {
    if loc == [] then Some(v)
    else
      match (v, loc[0])
      case (Obj(ms), Key(k)) => (match Lookup(ms, k)
        case Some(child) => At(child, loc[1..])
        case None => None)
      case (Arr(items), Index(i)) => if i < |items| then At(items[i], loc[1..]) else None
      case (_, _) => None
  }

  // ----- pointer text -----

  /** Python's `s.replace(c, by)` for one character. */
  function ReplaceChar(s: string, c: char, sub: string): string {
    if s == "" then "" else (if s[0] == c then sub else [s[0]]) + ReplaceChar(s[1..], c, sub)
  }

  /** Python's `s.replace("ab", c)`, scanning from the left. */
  function ReplacePair(s: string, a: char, b: char, c: char): string {
    if s == "" then ""
    else if |s| >= 2 && s[0] == a && s[1] == b then [c] + ReplacePair(s[2..], a, b, c)
    else [s[0]] + ReplacePair(s[1..], a, b, c)
  }

  function EscapeKey(k: string): string { ReplaceChar(ReplaceChar(k, '~', "~0"), '/', "~1") }

  function UnescapePart(p: string): string { ReplacePair(ReplacePair(p, '~', '1', '/'), '~', '0', '~') }

  function StepText(step: Step): string {
    match step
    case Key(k) => EscapeKey(k)
    case Index(i) => NatText(i)
  }

  function Pointer(loc: seq<Step>): string {
    if loc == [] then "" else "/" + StepText(loc[0]) + Pointer(loc[1..])
  }

  lemma {:induction false} ReplaceCharDrops(s: string, c: char, sub: string)
    requires c !in sub
    ensures c !in ReplaceChar(s, c, sub)
  {
    if s != "" { ReplaceCharDrops(s[1..], c, sub); }
  }

  lemma {:induction false} EscapeRoundTrip(k: string)
    ensures UnescapePart(EscapeKey(k)) == k
    ensures '/' !in EscapeKey(k)
  {
    ReplaceCharDrops(ReplaceChar(k, '~', "~0"), '/', "~1");
    SlashRoundTrip(k);
    TildeRoundTrip(k);
  }

  /** Undoing `~1` leaves exactly the text in which only `~` was escaped. */
  lemma {:induction false} SlashRoundTrip(k: string)
    ensures ReplacePair(EscapeKey(k), '~', '1', '/') == ReplaceChar(k, '~', "~0")
  {
    if k != "" {
      SlashRoundTrip(k[1..]);
      var mid := ReplaceChar(k[1..], '~', "~0");
      var rest := ReplaceChar(mid, '/', "~1");
      if k[0] == '~' {
        var m := "~0" + mid;
        assert m[1..] == "0" + mid && ("0" + mid)[1..] == mid;
        assert ReplaceChar("0" + mid, '/', "~1") == "0" + rest;
        assert EscapeKey(k) == "~" + ("0" + rest);
        assert EscapeKey(k)[1..] == "0" + rest && ("0" + rest)[1..] == rest;
      } else {
        assert ([k[0]] + mid)[1..] == mid;
        if k[0] == '/' {
          assert EscapeKey(k) == "~1" + rest;
          assert EscapeKey(k)[2..] == rest;
        } else {
          assert EscapeKey(k) == [k[0]] + rest;
          assert EscapeKey(k)[1..] == rest;
        }
      }
    }
  }

  lemma {:induction false} TildeRoundTrip(k: string)
    ensures ReplacePair(ReplaceChar(k, '~', "~0"), '~', '0', '~') == k
  {
    if k != "" {
      TildeRoundTrip(k[1..]);
      var mid := ReplaceChar(k[1..], '~', "~0");
      if k[0] == '~' {
        assert ("~0" + mid)[2..] == mid;
      } else {
        assert ([k[0]] + mid)[1..] == mid;
      }
      assert k == [k[0]] + k[1..];
    }
  }

  // ----- `_json_pointer_get` -----

  /** Follows reference tokens; indexes are any run of digits, leading zeros included. */
  function Resolve(v: Json, parts: seq<string>): Option<Json> {
    if parts == [] then Some(v)
    else
      match v
      case Obj(ms) => (match Lookup(ms, UnescapePart(parts[0]))
        case Some(child) => Resolve(child, parts[1..])
        case None => None)
      case Arr(items) =>
        var part := UnescapePart(parts[0]);
        if part != "" && AllDigits(part) && NatValue(part) < |items|
        then Resolve(items[NatValue(part)], parts[1..])
        else None
      case _ => None
  }

  function PointerGet(v: Json, pointer: string): Option<Json> {
    if pointer == "" then Some(v)
    else if pointer[0] != '/' then None
    else Resolve(v, Split(pointer[1..], '/'))
  }

  method JsonPointerGet(value: Json, pointer: string) returns (r: Option<Json>)
    ensures r == PointerGet(value, pointer)
  {
    if pointer == "" { return Some(value); }
    if pointer[0] != '/' { return None; }
    var current := value;
    var parts := Split(pointer[1..], '/');
    for i := 0 to |parts|
      invariant Resolve(current, parts[i..]) == Resolve(value, parts)
    {
      assert parts[i..][1..] == parts[i + 1..];
      var part := UnescapePart(parts[i]);
      if current.Obj? {
        var child := Lookup(current.members, part);
        if child.None? { return None; }
        current := child.value;
      } else if current.Arr? && part != "" && AllDigits(part) {
        var index := NatValue(part);
        if index >= |current.items| { return None; }
        current := current.items[index];
      } else {
        return None;
      }
    }
    return Some(current);
  }

  lemma {:induction false} StepTextHasNoSlash(step: Step)
    ensures '/' !in StepText(step)
  {
    match step
    case Key(k) => EscapeRoundTrip(k);
    case Index(i) => assert AllDigits(NatText(i));
  }

  function StepTexts(loc: seq<Step>): (r: seq<string>)
    ensures |r| == |loc|
  {
    if loc == [] then [] else [StepText(loc[0])] + StepTexts(loc[1..])
  }

  lemma {:induction false} PointerSplits(loc: seq<Step>)
    requires loc != []
    ensures Split(Pointer(loc)[1..], '/') == StepTexts(loc)
  {
    StepTextHasNoSlash(loc[0]);
    var head := StepText(loc[0]);
    if |loc| == 1 {
      assert Pointer(loc[1..]) == "";
      assert Pointer(loc)[1..] == head;
      SplitAtSeparator(head, "", '/');
      assert StepTexts(loc[1..]) == [];
    } else {
      var tail := Pointer(loc[1..])[1..];
      PointerSplits(loc[1..]);
      assert Pointer(loc[1..]) == "/" + tail;
      assert Pointer(loc)[1..] == head + ['/'] + tail;
      SplitAtSeparator(head, tail, '/');
    }
  }

  lemma {:induction false} TextsResolve(v: Json, loc: seq<Step>)
    requires At(v, loc).Some?
    ensures Resolve(v, StepTexts(loc)) == At(v, loc)
  {
    if loc != [] {
      assert StepTexts(loc)[1..] == StepTexts(loc[1..]);
      match loc[0]
      case Key(k) =>
        EscapeRoundTrip(k);
        TextsResolve(Lookup(v.members, k).value, loc[1..]);
      case Index(i) =>
        NatTextRoundTrip(i);
        DigitsNeedNoEscape(NatText(i));
        TextsResolve(v.items[i], loc[1..]);
    }
  }

  lemma {:induction false} PairFreeIsKept(s: string, a: char, b: char, c: char)
    requires a !in s
    ensures ReplacePair(s, a, b, c) == s
  {
    if s != "" {
      PairFreeIsKept(s[1..], a, b, c);
      assert s == [s[0]] + s[1..];
    }
  }

  lemma {:induction false} DigitsNeedNoEscape(s: string)
    requires AllDigits(s)
    ensures UnescapePart(s) == s
  {
    assert '~' !in s;
    PairFreeIsKept(s, '~', '1', '/');
    PairFreeIsKept(s, '~', '0', '~');
  }

  /** Every place in a tree is found again by its pointer. */
  lemma {:induction false} PointerFindsPlace(v: Json, loc: seq<Step>)
    requires At(v, loc).Some?
    ensures PointerGet(v, Pointer(loc)) == At(v, loc)
  {
    if loc != [] {
      PointerSplits(loc);
      TextsResolve(v, loc);
    }
  }

  // ----- `_scan_sensitive_paths` -----

  /** The two regular-expression tests, kept abstract. */
  datatype Sensitivity = Sensitivity(key: string -> bool, text: string -> bool)

  function Scan(v: Json, path: string, sens: Sensitivity): seq<string>
    decreases v, 1
  {
    SortedSet(Scanned(v, path, sens))
  }

  function Scanned(v: Json, path: string, sens: Sensitivity): seq<string>
    decreases v, 0
  {
    match v
    case Obj(ms) => ScanMembers(ms, path, sens)
    case Arr(items) => ScanItems(items, path, sens)
    case Str(s) => if sens.text(s) then [if path == "" then "/" else path] else []
    case _ => []
  }

  function ChildPath(path: string, key: string): string { path + "/" + EscapeKey(key) }

  function ScanMembers(ms: seq<Member>, path: string, sens: Sensitivity): seq<string>
    decreases ms, 0
  {
    if ms == [] then []
    else
      var n := |ms| - 1;
      var child := ChildPath(path, ms[n].key);
      ScanMembers(ms[..n], path, sens)
      + (if sens.key(ms[n].key) then [child] else [])
      + Scan(ms[n].value, child, sens)
  }

  function ScanItems(items: seq<Json>, path: string, sens: Sensitivity): seq<string>
    decreases items, 0
  {
    if items == [] then []
    else
      var n := |items| - 1;
      ScanItems(items[..n], path, sens) + Scan(items[n], path + "/" + NatText(n), sens)
  }

  lemma {:induction false} ScanMembersStep(ms: seq<Member>, i: nat, path: string, sens: Sensitivity)
    requires i < |ms|
    ensures var child := ChildPath(path, ms[i].key);
            ScanMembers(ms[..i + 1], path, sens)
              == ScanMembers(ms[..i], path, sens)
                 + (if sens.key(ms[i].key) then [child] else [])
                 + Scan(ms[i].value, child, sens)
  {
    assert ms[..i + 1][..i] == ms[..i];
  }

  lemma {:induction false} ScanItemsStep(items: seq<Json>, i: nat, path: string, sens: Sensitivity)
    requires i < |items|
    ensures ScanItems(items[..i + 1], path, sens)
         == ScanItems(items[..i], path, sens) + Scan(items[i], path + "/" + NatText(i), sens)
  {
    assert items[..i + 1][..i] == items[..i];
  }

  method ScanSensitivePaths(value: Json, path: string, sens: Sensitivity) returns (r: seq<string>)
    ensures r == Scan(value, path, sens)
    decreases value
  {
    var results: seq<string> := [];
    if value.Obj? {
      var ms := value.members;
      for i := 0 to |ms|
        invariant results == ScanMembers(ms[..i], path, sens)
      {
        ScanMembersStep(ms, i, path, sens);
        var child := ChildPath(path, ms[i].key);
        if sens.key(ms[i].key) { results := results + [child]; }
        var inner := ScanSensitivePaths(ms[i].value, child, sens);
        results := results + inner;
      }
      assert ms[..|ms|] == ms;
    } else if value.Arr? {
      var items := value.items;
      for i := 0 to |items|
        invariant results == ScanItems(items[..i], path, sens)
      {
        ScanItemsStep(items, i, path, sens);
        var inner := ScanSensitivePaths(items[i], path + "/" + NatText(i), sens);
        results := results + inner;
      }
      assert items[..|items|] == items;
    } else if value.Str? && sens.text(value.s) {
      results := [if path == "" then "/" else path];
    }
    assert results == Scanned(value, path, sens);
    return SortedSet(results);
  }

  /** A place holds something sensitive: its own key, or its string. */
  ghost predicate SensitivePlace(v: Json, loc: seq<Step>, sens: Sensitivity) {
    && At(v, loc).Some?
    && (|| (loc != [] && loc[|loc| - 1].Key? && sens.key(loc[|loc| - 1].k))
        || (At(v, loc).value.Str? && sens.text(At(v, loc).value.s)))
  }

  /** The same place seen from one step further up. */
  lemma {:induction false} SensitiveBelow(v: Json, child: Json, loc: seq<Step>, sens: Sensitivity)
    requires loc != [] && At(v, [loc[0]]) == Some(child)
    ensures At(v, loc) == At(child, loc[1..])
    ensures SensitivePlace(v, loc, sens) <==>
              || (|loc| == 1 && loc[0].Key? && sens.key(loc[0].k))
              || SensitivePlace(child, loc[1..], sens)
  {
    assert [loc[0]][1..] == [];
    if |loc| == 1 {
      assert loc[1..] == [];
    } else {
      assert loc[1..][|loc| - 2] == loc[|loc| - 1];
    }
  }

  lemma {:induction false} PointerUnder(path: string, loc: seq<Step>)
    requires loc != []
    ensures path + Pointer(loc) == (path + "/" + StepText(loc[0])) + Pointer(loc[1..])
  {
    RegroupFour(path, "/", StepText(loc[0]), Pointer(loc[1..]));
  }

  lemma {:induction false} ScanComplete(v: Json, path: string, loc: seq<Step>, sens: Sensitivity)
    requires SensitivePlace(v, loc, sens) && path + Pointer(loc) != ""
    ensures path + Pointer(loc) in Scanned(v, path, sens)
    decreases v, 1
  {
    if loc == [] {
      assert path + Pointer(loc) == path;
    } else {
      match v
      case Obj(ms) => ScanCompleteBelowMember(ms, path, loc, sens);
      case Arr(items) => ScanCompleteBelowItem(items, path, loc, sens);
      case _ =>
    }
  }

  lemma {:induction false} ScanCompleteBelowMember(ms: seq<Member>, path: string, loc: seq<Step>, sens: Sensitivity)
    requires loc != [] && SensitivePlace(Obj(ms), loc, sens)
    ensures path + Pointer(loc) in ScanMembers(ms, path, sens)
    decreases ms, 0
  {
    var k := loc[0].k;
    var child := Lookup(ms, k).value;
    assert [loc[0]][1..] == [];
    SensitiveBelow(Obj(ms), child, loc, sens);
    PointerUnder(path, loc);
    var i :| 0 <= i < |ms| && ms[i] == Member(k, child);
    if SensitivePlace(child, loc[1..], sens) {
      ScanComplete(child, ChildPath(path, k), loc[1..], sens);
    } else {
      assert loc[1..] == [];
      assert ChildPath(path, k) + "" == ChildPath(path, k);
    }
    MemberIsScanned(ms, i, path, path + Pointer(loc), sens);
  }

  lemma {:induction false} ScanCompleteBelowItem(items: seq<Json>, path: string, loc: seq<Step>, sens: Sensitivity)
    requires loc != [] && SensitivePlace(Arr(items), loc, sens)
    ensures path + Pointer(loc) in ScanItems(items, path, sens)
    decreases items, 0
  {
    var i := loc[0].i;
    assert [loc[0]][1..] == [];
    SensitiveBelow(Arr(items), items[i], loc, sens);
    PointerUnder(path, loc);
    ScanComplete(items[i], path + "/" + NatText(i), loc[1..], sens);
    ItemIsScanned(items, i, path, path + Pointer(loc), sens);
  }

  lemma {:induction false} MemberIsScanned(ms: seq<Member>, i: nat, path: string, p: string, sens: Sensitivity)
    requires i < |ms|
    requires var child := ChildPath(path, ms[i].key);
             (sens.key(ms[i].key) && p == child) || p in Scan(ms[i].value, child, sens)
    ensures p in ScanMembers(ms, path, sens)
    decreases |ms|
  {
    if i < |ms| - 1 { MemberIsScanned(ms[..|ms| - 1], i, path, p, sens); }
  }

  lemma {:induction false} ItemIsScanned(items: seq<Json>, i: nat, path: string, p: string, sens: Sensitivity)
    requires i < |items| && p in Scan(items[i], path + "/" + NatText(i), sens)
    ensures p in ScanItems(items, path, sens)
    decreases |items|
  {
    if i < |items| - 1 { ItemIsScanned(items[..|items| - 1], i, path, p, sens); }
  }

  lemma {:induction false} ScanSound(v: Json, path: string, p: string, sens: Sensitivity) returns (loc: seq<Step>)
    requires WellFormed(v) && (path != "" || v.Obj? || v.Arr?)
    requires p in Scanned(v, path, sens)
    ensures SensitivePlace(v, loc, sens) && p == path + Pointer(loc)
    decreases v, 1
  {
    if v.Obj? {
      loc := ScanSoundBelowMember(v.members, path, p, sens);
    } else if v.Arr? {
      loc := ScanSoundBelowItem(v.items, path, p, sens);
    } else {
      loc := [];
      assert path + Pointer(loc) == path;
    }
  }

  lemma {:induction false} ScanSoundBelowMember(ms: seq<Member>, path: string, p: string, sens: Sensitivity)
    returns (loc: seq<Step>)
    requires WellFormed(Obj(ms)) && p in ScanMembers(ms, path, sens)
    ensures SensitivePlace(Obj(ms), loc, sens) && p == path + Pointer(loc)
    decreases ms, 0
  {
    var i := ScannedMember(ms, path, p, sens);
    var k, child := ms[i].key, ms[i].value;
    LookupAt(ms, i);
    assert ms[i] in ms;
    var rest: seq<Step> := [];
    if p in Scan(child, ChildPath(path, k), sens) {
      rest := ScanSound(child, ChildPath(path, k), p, sens);
    }
    loc := [Key(k)] + rest;
    assert loc[1..] == rest && [loc[0]][1..] == [];
    SensitiveBelow(Obj(ms), child, loc, sens);
    PointerUnder(path, loc);
    assert ChildPath(path, k) + "" == ChildPath(path, k);
  }

  lemma {:induction false} ScanSoundBelowItem(items: seq<Json>, path: string, p: string, sens: Sensitivity)
    returns (loc: seq<Step>)
    requires WellFormed(Arr(items)) && p in ScanItems(items, path, sens)
    ensures SensitivePlace(Arr(items), loc, sens) && p == path + Pointer(loc)
    decreases items, 0
  {
    var i := ScannedItem(items, path, p, sens);
    assert items[i] in items;
    var rest := ScanSound(items[i], path + "/" + NatText(i), p, sens);
    loc := [Index(i)] + rest;
    assert loc[1..] == rest && [loc[0]][1..] == [];
    SensitiveBelow(Arr(items), items[i], loc, sens);
    PointerUnder(path, loc);
  }

  lemma {:induction false} ScannedMember(ms: seq<Member>, path: string, p: string, sens: Sensitivity) returns (i: nat)
    requires p in ScanMembers(ms, path, sens)
    ensures i < |ms|
    ensures var child := ChildPath(path, ms[i].key);
            (sens.key(ms[i].key) && p == child) || p in Scan(ms[i].value, child, sens)
    decreases |ms|
  {
    var n := |ms| - 1;
    if p in ScanMembers(ms[..n], path, sens) {
      i := ScannedMember(ms[..n], path, p, sens);
    } else {
      i := n;
    }
  }

  lemma {:induction false} ScannedItem(items: seq<Json>, path: string, p: string, sens: Sensitivity) returns (i: nat)
    requires p in ScanItems(items, path, sens)
    ensures i < |items| && p in Scan(items[i], path + "/" + NatText(i), sens)
    decreases |items|
  {
    var n := |items| - 1;
    if p in ScanItems(items[..n], path, sens) {
      i := ScannedItem(items[..n], path, p, sens);
    } else {
      i := n;
    }
  }

  lemma {:induction false} ReportedPlace(v: Json, sens: Sensitivity, p: string) returns (loc: seq<Step>)
    requires WellFormed(v) && (v.Obj? || v.Arr?) && p in Scan(v, "", sens)
    ensures SensitivePlace(v, loc, sens) && p == Pointer(loc)
  {
    loc := ScanSound(v, "", p, sens);
    assert "" + Pointer(loc) == Pointer(loc);
  }

  lemma {:induction false} PlaceIsReported(v: Json, sens: Sensitivity, loc: seq<Step>)
    requires (v.Obj? || v.Arr?) && SensitivePlace(v, loc, sens)
    ensures Pointer(loc) in Scan(v, "", sens)
  {
    assert loc != [] && "" + Pointer(loc) == Pointer(loc);
    ScanComplete(v, "", loc, sens);
  }

  /** On a dictionary or list, the scan reports exactly the pointers of the
      sensitive places, and each of them leads back to its place. */
  lemma {:induction false} ScanExact(v: Json, sens: Sensitivity, p: string)
    requires WellFormed(v) && (v.Obj? || v.Arr?)
    ensures p in Scan(v, "", sens) <==>
              exists loc :: SensitivePlace(v, loc, sens) && p == Pointer(loc) && PointerGet(v, p) == At(v, loc)
  {
    if p in Scan(v, "", sens) {
      var loc := ReportedPlace(v, sens, p);
      PointerFindsPlace(v, loc);
    }
    if loc :| SensitivePlace(v, loc, sens) && p == Pointer(loc) {
      PlaceIsReported(v, sens, loc);
    }
  }

  /** Nothing sensitive anywhere is the only way to an empty report. */
  lemma {:induction false} ScanEmptyExactly(v: Json, sens: Sensitivity)
    requires WellFormed(v) && (v.Obj? || v.Arr?)
    ensures Scan(v, "", sens) == [] <==> forall loc :: !SensitivePlace(v, loc, sens)
  {
    if Scan(v, "", sens) == [] {
      forall loc ensures !SensitivePlace(v, loc, sens) {
        if SensitivePlace(v, loc, sens) { PlaceIsReported(v, sens, loc); }
      }
    } else {
      var loc := ReportedPlace(v, sens, Scan(v, "", sens)[0]);
    }
  }

  /** The report is ascending, so it holds no pointer twice. */
  lemma {:induction false} ScanHasNoDuplicates(v: Json, path: string, sens: Sensitivity)
    ensures StrictlySortedBy(Self, Scan(v, path, sens))
    ensures DistinctBy(Self, Scan(v, path, sens))
  {
    SortedSetIsStrict(Scanned(v, path, sens));
  }
}
