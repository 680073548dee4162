/** src/ainir/mcp_tool_call.py: the portable form of a workspace path. */
module WorkspacePath {
  import opened Text

  datatype PathError = NotAPath | ControlCharacter | ColonForbidden | AbsolutePath | Traversal
                     | TrailingSpaceOrDot | ReservedName | NoResource

  datatype Outcome = Normalized(path: string) | Rejected(error: PathError)

  predicate IsSeparator(c: char) { c == '/' || c == '\\' }

  /** The text between separators. */
  function Pieces(s: string): (r: seq<string>)
    ensures r != []
  {
    if s == "" then [""]
    else
      var rest := Pieces(s[1..]);
      if IsSeparator(s[0]) then [""] + rest else [[s[0]] + rest[0]] + rest[1..]
  }

  predicate Dropped(piece: string) { piece == "" || piece == "." }

  function Kept(pieces: seq<string>): seq<string> {
    if pieces == [] then []
    else (if Dropped(pieces[0]) then [] else [pieces[0]]) + Kept(pieces[1..])
  }

  /** `path.parts` of a relative path, POSIX or Windows. */
  function Parts(s: string): seq<string> { Kept(Pieces(s)) }

  /** `path.as_posix()`. */
  function Join(parts: seq<string>): string {
    if parts == [] then ""
    else if |parts| == 1 then parts[0]
    else parts[0] + "/" + Join(parts[1..])
  }

  function UpperChar(c: char): char {
    if 'a' <= c <= 'z' then (c as int - 'a' as int + 'A' as int) as char else c
  }

  function Upper(s: string): (r: string)
    ensures |r| == |s|
  {
    if s == "" then "" else [UpperChar(s[0])] + Upper(s[1..])
  }

  function Stem(part: string): string { Upper(Split(part, '.')[0]) }

  predicate IsReserved(stem: string) {
    || stem in {"CON", "PRN", "AUX", "NUL"}
    || (|stem| == 4 && stem[..3] in {"COM", "LPT"} && '1' <= stem[3] <= '9')
  }

  predicate EndsBadly(part: string) { EndsWith(part, " ") || EndsWith(part, ".") }

  /** A part with one meaning on POSIX and Windows hosts. */
  predicate Portable(part: string) { !EndsBadly(part) && !IsReserved(Stem(part)) }

  /** The error of the first part that is not portable. */
  function FirstBadPart(parts: seq<string>): (r: seq<PathError>)
    ensures r == [] <==> forall p | p in parts :: Portable(p)
  {
    if parts == [] then []
    else
      assert parts[0] in parts && parts == [parts[0]] + parts[1..];
      if EndsBadly(parts[0]) then [TrailingSpaceOrDot]
      else if IsReserved(Stem(parts[0])) then [ReservedName]
      else FirstBadPart(parts[1..])
  }

  function Normalize(value: string): Outcome {
    if value == "" || '\0' in value then Rejected(NotAPath)
    else if exists c | c in value :: c < ' ' then Rejected(ControlCharacter)
    else if ':' in value then Rejected(ColonForbidden)
    else if IsSeparator(value[0]) then Rejected(AbsolutePath)
    else if ".." in Parts(value) then Rejected(Traversal)
    else if FirstBadPart(Parts(value)) != [] then Rejected(FirstBadPart(Parts(value))[0])
    else if Parts(value) == [] then Rejected(NoResource)
    else Normalized(Join(Parts(value)))
  }

  /** What an accepted value has to be. */
  predicate Acceptable(value: string) {
    && value != "" && !IsSeparator(value[0]) && ':' !in value && (forall c | c in value :: c >= ' ')
    && Parts(value) != [] && forall p | p in Parts(value) :: p != ".." && Portable(p)
  }

  lemma {:induction false} AcceptedExactly(value: string)
    ensures Normalize(value).Normalized? <==> Acceptable(value)
  {
    if Normalize(value).Normalized? {
      assert forall c | c in value :: !(c < ' ');
    }
    assert Acceptable(value) ==> '\0' !in value;
  }

  /** The chain of early returns: accepted is exactly what has only portable parts, and the
      result is a relative path with one kind of separator that normalises to itself. */
  method NormalizeWorkspacePath(value: string) returns (r: Outcome)
    ensures r == Normalize(value)
    ensures r.Normalized? <==> Acceptable(value)
    ensures r.Normalized? ==>
              && r.path != "" && !IsSeparator(r.path[0]) && '\\' !in r.path && Parts(r.path) == Parts(value)
              && (forall p | p in Parts(r.path) :: p != "" && p != "." && p != ".." && Portable(p))
              && Normalize(r.path) == r
  {
    AcceptedExactly(value);
    if Acceptable(value) {
      AcceptedForm(value);
      NormalFormIsFixed(value);
    }
    if value == "" || '\0' in value { return Rejected(NotAPath); }
    if exists c | c in value :: c < ' ' { return Rejected(ControlCharacter); }
    if ':' in value { return Rejected(ColonForbidden); }
    if IsSeparator(value[0]) { return Rejected(AbsolutePath); }
    var parts := Parts(value);
    if ".." in parts { return Rejected(Traversal); }
    var bad := FindBadPart(parts);
    if bad != [] { return Rejected(bad[0]); }
    if parts == [] { return Rejected(NoResource); }
    return Normalized(Join(parts));
  }

  /** The loop over `path.parts`, which returns at the first bad part. */
  method FindBadPart(parts: seq<string>) returns (bad: seq<PathError>)
    ensures bad == FirstBadPart(parts)
  {
    for i := 0 to |parts|
      invariant FirstBadPart(parts[i..]) == FirstBadPart(parts)
    {
      assert parts[i..][0] == parts[i] && parts[i..][1..] == parts[i + 1..];
      if EndsBadly(parts[i]) { return [TrailingSpaceOrDot]; }
      if IsReserved(Stem(parts[i])) { return [ReservedName]; }
    }
    return [];
  }

  // ----- pieces and joining -----

  predicate SeparatorFree(s: string) { forall c | c in s :: !IsSeparator(c) }

  lemma {:induction false} PiecesAreSeparatorFree(s: string)
    ensures forall p | p in Pieces(s) :: SeparatorFree(p) && forall c | c in p :: c in s
  {
    if s != "" {
      PiecesAreSeparatorFree(s[1..]);
      var rest := Pieces(s[1..]);
      forall p | p in Pieces(s) ensures SeparatorFree(p) && forall c | c in p :: c in s {
        if !IsSeparator(s[0]) && p == [s[0]] + rest[0] {
          assert rest[0] in rest;
          forall c | c in p ensures !IsSeparator(c) && c in s { assert c == s[0] || c in rest[0]; }
        } else {
          assert p == "" || p in rest;
        }
      }
    }
  }

  lemma {:induction false} KeptContents(pieces: seq<string>)
    ensures forall p | p in Kept(pieces) :: p in pieces && !Dropped(p)
  {
    if pieces != [] { KeptContents(pieces[1..]); }
  }

  lemma {:induction false} PartsAreClean(s: string)
    ensures forall p | p in Parts(s) :: !Dropped(p) && SeparatorFree(p) && forall c | c in p :: c in s
  {
    PiecesAreSeparatorFree(s);
    KeptContents(Pieces(s));
  }

  lemma {:induction false} PiecesOfPlain(a: string, b: string)
    requires SeparatorFree(a)
    ensures Pieces(a) == [a]
    ensures Pieces(a + "/" + b) == [a] + Pieces(b)
    decreases a
  {
    if a == "" {
      assert a + "/" + b == "/" + b;
    } else {
      assert a[0] in a;
      assert SeparatorFree(a[1..]);
      PiecesOfPlain(a[1..], b);
      assert (a + "/" + b)[1..] == a[1..] + "/" + b;
      assert a == [a[0]] + a[1..];
    }
  }

  lemma {:induction false} PartsOfJoin(parts: seq<string>)
    requires forall p | p in parts :: !Dropped(p) && SeparatorFree(p)
    ensures Parts(Join(parts)) == parts
  {
    if |parts| == 1 {
      assert parts[0] in parts;
      PiecesOfPlain(parts[0], "");
      assert Kept([parts[0]]) == [parts[0]] + Kept([]);
      assert parts == [parts[0]];
    } else if |parts| > 1 {
      assert parts[0] in parts;
      PiecesOfPlain(parts[0], Join(parts[1..]));
      PartsOfJoin(parts[1..]);
      var pieces := Pieces(Join(parts));
      assert pieces[0] == parts[0] && pieces[1..] == Pieces(Join(parts[1..]));
      assert parts == [parts[0]] + parts[1..];
    }
  }

  lemma {:induction false} JoinContents(parts: seq<string>)
    ensures forall c | c in Join(parts) :: c == '/' || exists p | p in parts :: c in p
  {
    if |parts| == 1 {
      assert parts[0] in parts;
    } else if |parts| > 1 {
      assert parts[0] in parts;
      JoinContents(parts[1..]);
      forall c | c in Join(parts) ensures c == '/' || exists p | p in parts :: c in p {
        if c !in parts[0] && c != '/' {
          assert c in Join(parts[1..]);
          var p :| p in parts[1..] && c in p;
          assert p in parts;
        }
      }
    }
  }

  // ----- results -----

  /** What an accepted path looks like: a non-empty relative path of portable
      parts, none of them empty, `.` or `..`, with `/` as its only separator. */
  lemma {:induction false} AcceptedForm(value: string)
    requires Normalize(value).Normalized?
    ensures var r := Normalize(value).path;
            && r != "" && !IsSeparator(r[0]) && '\\' !in r && ':' !in r
            && Parts(r) == Parts(value) != [] && r == Join(Parts(r))
            && forall p | p in Parts(r) :: p != "" && p != "." && p != ".." && Portable(p)
    ensures forall c | c in Normalize(value).path :: c in value || c == '/'
  {
    var r := Normalize(value).path;
    var parts := Parts(value);
    PartsAreClean(value);
    PartsOfJoin(parts);
    JoinContents(parts);
    assert parts[0] in parts && parts[0][0] in parts[0];
    forall c | c in r ensures c == '/' || (c in value && !IsSeparator(c)) {
      if c != '/' { var p :| p in parts && c in p; }
    }
  }

  /** Normalising twice changes nothing more. */
  lemma {:induction false} NormalFormIsFixed(value: string)
    requires Normalize(value).Normalized?
    ensures Normalize(Normalize(value).path) == Normalize(value)
  {
    AcceptedForm(value);
    var r := Normalize(value).path;
    forall c | c in r ensures c >= ' ' && c != '\0' {
      assert c in value || c == '/';
    }
  }

  /** The two spellings of a path that differ in the kind of some separators. */
  ghost predicate SameUpToSeparators(v: string, w: string) {
    |v| == |w| && forall i | 0 <= i < |v| :: v[i] == w[i] || (IsSeparator(v[i]) && IsSeparator(w[i]))
  }

  lemma {:induction false} SeparatorKindIrrelevantForPieces(v: string, w: string)
    requires SameUpToSeparators(v, w)
    ensures Pieces(v) == Pieces(w)
  {
    if v != "" {
      assert SameUpToSeparators(v[1..], w[1..]) by {
        forall i | 0 <= i < |v[1..]| ensures v[1..][i] == w[1..][i] || (IsSeparator(v[1..][i]) && IsSeparator(w[1..][i])) {
          assert v[1..][i] == v[i + 1] && w[1..][i] == w[i + 1];
        }
      }
      SeparatorKindIrrelevantForPieces(v[1..], w[1..]);
    }
  }

  lemma {:induction false} OtherCharactersAgree(v: string, w: string, c: char)
    requires SameUpToSeparators(v, w) && !IsSeparator(c) && c in v
    ensures c in w
  {
    var i :| 0 <= i < |v| && v[i] == c;
    assert w[i] == c;
  }

  /** Neither the result nor the error depends on which separator was written. */
  lemma {:induction false} SeparatorKindIrrelevant(v: string, w: string)
    requires SameUpToSeparators(v, w)
    ensures Normalize(v) == Normalize(w)
  {
    SeparatorKindIrrelevantForPieces(v, w);
    forall c | !IsSeparator(c) ensures c in v <==> c in w {
      if c in v { OtherCharactersAgree(v, w, c); }
      if c in w { OtherCharactersAgree(w, v, c); }
    }
    assert (exists c | c in v :: c < ' ') <==> (exists c | c in w :: c < ' ');
  }

  /** Lexical resolution of path pieces against a stack of directory names. */
  function Walk(stack: seq<string>, pieces: seq<string>): seq<string>
    decreases pieces
  {
    if pieces == [] then stack
    else if Dropped(pieces[0]) then Walk(stack, pieces[1..])
    else if pieces[0] == ".." then Walk(if stack == [] then [] else stack[..|stack| - 1], pieces[1..])
    else Walk(stack + [pieces[0]], pieces[1..])
  }

  lemma {:induction false} WalkDescends(stack: seq<string>, pieces: seq<string>)
    requires ".." !in Kept(pieces)
    ensures Walk(stack, pieces) == stack + Kept(pieces)
    decreases pieces
  {
    if pieces != [] {
      assert Kept(pieces) == (if Dropped(pieces[0]) then [] else [pieces[0]]) + Kept(pieces[1..]);
      if Dropped(pieces[0]) {
        WalkDescends(stack, pieces[1..]);
      } else {
        assert pieces[0] in Kept(pieces);
        WalkDescends(stack + [pieces[0]], pieces[1..]);
      }
    }
  }

  /** Joined to any root, an accepted path stays strictly below it. */
  lemma {:induction false} AcceptedStaysBelowRoot(root: seq<string>, value: string)
    requires Normalize(value).Normalized?
    ensures var resolved := Walk(root, Pieces(Normalize(value).path));
            root < resolved && resolved[|root|..] == Parts(value)
  {
    AcceptedForm(value);
    WalkDescends(root, Pieces(Normalize(value).path));
  }

  /** Two accepted spellings name the same resource exactly when their parts agree. */
  lemma {:induction false} SameResourceExactly(v: string, w: string)
    requires Normalize(v).Normalized? && Normalize(w).Normalized?
    ensures Normalize(v) == Normalize(w) <==> Parts(v) == Parts(w)
  {
    AcceptedForm(v);
    AcceptedForm(w);
  }
}
