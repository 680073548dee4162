/** src/ainir/canonical.py: the canonical text of a JSON value, the reader that
    rejects repeated keys, and the depth bound. */
module CanonicalJson {
  import opened Text
  import opened JsonTree

  // ----- printing -----

  function HexChar(d: nat): (c: char)
    requires d < 16
  {
    if d < 10 then ('0' as int + d) as char else ('a' as int + d - 10) as char
  }

  /** `json.dumps(..., ensure_ascii=False)` escapes quotes, backslashes and controls. */
  function EscapeChar(c: char): string {
    if c == '"' then "\\\""
    else if c == '\\' then "\\\\"
    else if c == '\n' then "\\n"
    else if c == '\r' then "\\r"
    else if c == '\t' then "\\t"
    else if c == '\U{000C}' then "\\f"
    else if c == '\U{0008}' then "\\b"
    else if c < ' ' then "\\u00" + [HexChar(c as int / 16), HexChar(c as int % 16)]
    else [c]
  }

  function EscapeText(s: string): string {
    if s == "" then "" else EscapeChar(s[0]) + EscapeText(s[1..])
  }

  /** The compact text of a value, dictionaries in their own order. */
  function Print(v: Json): string {
    match v
    case Null => "null"
    case Bool(b) => if b then "true" else "false"
    case Int(n) => IntText(n)
    case Float(_, text) => text
    case Str(s) => "\"" + EscapeText(s) + "\""
    case Arr(items) => "[" + PrintItems(items) + "]"
    case Obj(ms) => "{" + PrintMembers(ms) + "}"
  }

  function PrintItems(items: seq<Json>): string {
    if items == [] then ""
    else if |items| == 1 then Print(items[0])
    else Print(items[0]) + "," + PrintItems(items[1..])
  }

  function PrintMember(m: Member): string {
    "\"" + EscapeText(m.key) + "\":" + Print(m.value)
  }

  function PrintMembers(ms: seq<Member>): string {
    if ms == [] then ""
    else if |ms| == 1 then PrintMember(ms[0])
    else PrintMember(ms[0]) + "," + PrintMembers(ms[1..])
  }

  /** The value with every dictionary in ascending key order. */
  function Norm(v: Json): Json {
    match v
    case Arr(items) => Arr(NormItems(items))
    case Obj(ms) => Obj(SortBy(KeyOf, NormMembers(ms)))
    case _ => v
  }

  function NormItems(items: seq<Json>): (r: seq<Json>)
    ensures |r| == |items|
    ensures forall i | 0 <= i < |items| :: r[i] == Norm(items[i])
  {
    if items == [] then [] else [Norm(items[0])] + NormItems(items[1..])
  }

  function NormMember(m: Member): Member { Member(m.key, Norm(m.value)) }

  function NormMembers(ms: seq<Member>): (r: seq<Member>)
    ensures |r| == |ms|
    ensures forall i | 0 <= i < |ms| :: r[i] == NormMember(ms[i])
  {
    if ms == [] then [] else [NormMember(ms[0])] + NormMembers(ms[1..])
  }

  /** `canonical_json`: sorted keys, no blanks. */
  function CanonicalText(v: Json): string { Print(Norm(v)) }

  // ----- reading -----

  datatype Reading<+T> = Malformed | NonFinite | Repeated | Got(value: T, rest: string)

  predicate IsBlank(c: char) { c == ' ' || c == '\t' || c == '\n' || c == '\r' }

  function SkipBlanks(s: string): (r: string)
    ensures |r| <= |s|
    ensures r != "" ==> !IsBlank(r[0])
  {
    if s != "" && IsBlank(s[0]) then SkipBlanks(s[1..]) else s
  }

  function DigitSpan(s: string): (k: nat)
    ensures k <= |s| && AllDigits(s[..k])
    ensures k < |s| ==> !IsDigit(s[k])
  {
    if s != "" && IsDigit(s[0]) then
      var k := DigitSpan(s[1..]);
      assert s[..k + 1] == [s[0]] + s[1..][..k];
      1 + k
    else 0
  }

  /** How the JSON library reads a numeral with a fraction or an exponent: the value and
      the text that it prints for it, or None beyond the range of its floats. */
  type FloatReader = string -> Option<(real, string)>

  /** An integer numeral with its sign. */
  predicate IntegerToken(s: string) {
    var digits := if s != "" && s[0] == '-' then s[1..] else s;
    digits != "" && AllDigits(digits)
  }

  function IntegerValue(s: string): int
    requires IntegerToken(s)
  {
    if s[0] == '-' then 0 - NatValue(s[1..]) else NatValue(s)
  }

  /** Length of the integer part at the front: no zero before another digit. */
  function IntegerSpan(s: string): (k: nat)
    ensures k <= |s| && (k > 0 ==> IntegerToken(s[..k]) && (s[0] == '-' || IsDigit(s[0])))
  {
    var sign := if s != "" && s[0] == '-' then 1 else 0;
    if sign == |s| || !IsDigit(s[sign]) then 0
    else
      var k := sign + (if s[sign] == '0' then 1 else DigitSpan(s[sign..]));
      assert s[..k][sign..] == s[sign..][..k - sign];
      assert sign == 0 ==> s[..k][sign..] == s[..k];
      k
  }

  function FractionSpan(s: string): (k: nat)
    ensures k <= |s|
  {
    if |s| >= 2 && s[0] == '.' && IsDigit(s[1]) then 1 + DigitSpan(s[1..]) else 0
  }

  function ExponentSpan(s: string): (k: nat)
    ensures k <= |s|
  {
    if s == "" || s[0] !in {'e', 'E'} then 0
    else
      var k := if |s| >= 2 && s[1] in {'+', '-'} then 2 else 1;
      var d := DigitSpan(s[k..]);
      if d == 0 then 0 else k + d
  }

  /** What may follow the integer part. */
  function TailSpan(s: string): (k: nat)
    ensures k <= |s|
  {
    var f := FractionSpan(s);
    f + ExponentSpan(s[f..])
  }

  /** Length of the numeral at the front (section 6 of RFC 8259). */
  function NumberSpan(s: string): (k: nat)
    ensures IntegerSpan(s) <= k <= |s|
  {
    IntegerSpan(s) + TailSpan(s[IntegerSpan(s)..])
  }

  /** A whole numeral with a fraction or an exponent. */
  predicate FloatToken(s: string) { 0 < IntegerSpan(s) < NumberSpan(s) == |s| }

  function ReadNumber(s: string, floats: FloatReader): (r: Reading<Json>)
    ensures r.Got? ==> |r.rest| < |s|
  {
    var i, k := IntegerSpan(s), NumberSpan(s);
    if i == 0 then (if StartsWith(s, "-Infinity") then NonFinite else Malformed)
    else if k == i then Got(Int(IntegerValue(s[..i])), s[i..])
    else
      match floats(s[..k])
      case Some(x) => Got(Float(x.0, x.1), s[k..])
      case None => Malformed
  }

  /** Every float of the tree carries the text that the library prints for it and reads
      back as that float. */
  ghost predicate FloatsRead(v: Json, floats: FloatReader) {
    match v
    case Float(r, text) => FloatToken(text) && floats(text) == Some((r, text))
    case Arr(items) => forall x | x in items :: FloatsRead(x, floats)
    case Obj(ms) => forall x | x in ms :: FloatsRead(x.value, floats)
    case _ => true
  }

  function HexValue(c: char): Option<nat> {
    if '0' <= c <= '9' then Some(c as int - '0' as int)
    else if 'a' <= c <= 'f' then Some(c as int - 'a' as int + 10)
    else if 'A' <= c <= 'F' then Some(c as int - 'A' as int + 10)
    else None
  }

  /** Four hex digits. */
  function ReadHex(s: string): Option<nat> {
    if |s| < 4 then None
    else
      match (HexValue(s[0]), HexValue(s[1]), HexValue(s[2]), HexValue(s[3]))
      case (Some(a), Some(b), Some(c), Some(d)) => Some(((a * 16 + b) * 16 + c) * 16 + d)
      case (_, _, _, _) => None
  }

  /** The character of a `\u` escape and the length of what follows the `u`; the two halves
      of a surrogate pair are one character, and half a pair is none. */
  function ReadUnicode(s: string): (r: Option<(char, nat)>)
    ensures r.Some? ==> 4 <= r.value.1 <= |s|
  {
    match ReadHex(s)
    case None => None
    case Some(n) =>
      if n < 0xD800 || 0xE000 <= n < 0x10000 then Some((n as char, 4))
      else if 0xD800 <= n < 0xDC00 && |s| >= 10 && s[4] == '\\' && s[5] == 'u' then
        match ReadHex(s[6..])
        case Some(m) =>
          if 0xDC00 <= m < 0xE000 then Some(((0x10000 + (n - 0xD800) * 0x400 + (m - 0xDC00)) as char, 10)) else None
        case None => None
      else None
  }

  function SimpleEscape(c: char): Option<char> {
    if c == '"' || c == '\\' || c == '/' then Some(c)
    else if c == 'b' then Some('\U{0008}')
    else if c == 'f' then Some('\U{000C}')
    else if c == 'n' then Some('\n')
    else if c == 'r' then Some('\r')
    else if c == 't' then Some('\t')
    else None
  }

  /** The rest of a string after its opening quote. */
  function ReadChars(s: string): (r: Reading<string>)
    ensures r.Got? ==> |r.rest| < |s|
    decreases |s|
  {
    if s == "" then Malformed
    else if s[0] == '"' then Got("", s[1..])
    else if s[0] == '\\' then
      if |s| >= 2 && s[1] == 'u' then
        match ReadUnicode(s[2..])
        case Some((c, n)) => (match ReadChars(s[2 + n..])
          case Got(cs, rest) => Got([c] + cs, rest)
          case other => other)
        case None => Malformed
      else if |s| >= 2 && SimpleEscape(s[1]).Some? then
        match ReadChars(s[2..])
        case Got(cs, rest) => Got([SimpleEscape(s[1]).value] + cs, rest)
        case other => other
      else Malformed
    else if s[0] < ' ' then Malformed
    else
      match ReadChars(s[1..])
      case Got(cs, rest) => Got([s[0]] + cs, rest)
      case other => other
  }

  /** A value that is no container: text, number or literal. */
  function ReadScalar(s: string, floats: FloatReader): (r: Reading<Json>)
    ensures r.Got? ==> |r.rest| < |s|
  {
    if s == "" then Malformed
    else if s[0] == '"' then
      match ReadChars(s[1..])
      case Got(cs, rest) => Got(Str(cs), rest)
      case Malformed => Malformed
      case NonFinite => NonFinite
      case Repeated => Repeated
    else if s[0] == '-' || IsDigit(s[0]) then ReadNumber(s, floats)
    else if StartsWith(s, "NaN") || StartsWith(s, "Infinity") then NonFinite
    else if StartsWith(s, "null") then Got(Null, s[4..])
    else if StartsWith(s, "true") then Got(Bool(true), s[4..])
    else if StartsWith(s, "false") then Got(Bool(false), s[5..])
    else Malformed
  }

  /** One value at the front of `s`. With `strict`, every finished dictionary
      passes through the repeated-key hook. */
  function ReadValue(s: string, strict: bool, floats: FloatReader): (r: Reading<Json>)
    ensures r.Got? ==> |r.rest| < |s|
    decreases |s|, 0
  {
    if s != "" && s[0] == '[' then
      var t := SkipBlanks(s[1..]);
      if t != "" && t[0] == ']' then Got(Arr([]), t[1..])
      else
        match ReadItems(t, strict, floats)
        case Got(items, rest) => Got(Arr(items), rest)
        case Malformed => Malformed
        case NonFinite => NonFinite
        case Repeated => Repeated
    else if s != "" && s[0] == '{' then
      var t := SkipBlanks(s[1..]);
      if t != "" && t[0] == '}' then Got(Obj([]), t[1..])
      else
        match ReadMembers(t, strict, floats)
        case Got(ms, rest) => if strict && HasRepeat(ms) then Repeated else Got(Obj(ms), rest)
        case Malformed => Malformed
        case NonFinite => NonFinite
        case Repeated => Repeated
    else ReadScalar(s, floats)
  }

  function ReadItems(s: string, strict: bool, floats: FloatReader): (r: Reading<seq<Json>>)
    ensures r.Got? ==> |r.rest| < |s|
    decreases |s|, 1
  {
    match ReadValue(s, strict, floats)
    case Malformed => Malformed
    case NonFinite => NonFinite
    case Repeated => Repeated
    case Got(v, after) =>
      var t := SkipBlanks(after);
      if t == "" then Malformed
      else if t[0] == ']' then Got([v], t[1..])
      else if t[0] == ',' then
        match ReadItems(SkipBlanks(t[1..]), strict, floats)
        case Got(vs, rest) => Got([v] + vs, rest)
        case other => other
      else Malformed
  }

  function ReadMember(s: string, strict: bool, floats: FloatReader): (r: Reading<Member>)
    ensures r.Got? ==> |r.rest| < |s|
    decreases |s|, 1
  {
    if s == "" || s[0] != '"' then Malformed
    else
      match ReadChars(s[1..])
      case Malformed => Malformed
      case NonFinite => NonFinite
      case Repeated => Repeated
      case Got(key, after) =>
        var colon := SkipBlanks(after);
        if colon == "" || colon[0] != ':' then Malformed
        else
          match ReadValue(SkipBlanks(colon[1..]), strict, floats)
          case Got(v, rest) => Got(Member(key, v), rest)
          case Malformed => Malformed
          case NonFinite => NonFinite
          case Repeated => Repeated
  }

  function ReadMembers(s: string, strict: bool, floats: FloatReader): (r: Reading<seq<Member>>)
    ensures r.Got? ==> |r.rest| < |s|
    decreases |s|, 2
  {
    match ReadMember(s, strict, floats)
    case Malformed => Malformed
    case NonFinite => NonFinite
    case Repeated => Repeated
    case Got(m, after) =>
      var t := SkipBlanks(after);
      if t == "" then Malformed
      else if t[0] == '}' then Got([m], t[1..])
      else if t[0] == ',' then
        match ReadMembers(SkipBlanks(t[1..]), strict, floats)
        case Got(ms, rest) => Got([m] + ms, rest)
        case other => other
      else Malformed
  }

  predicate HasRepeat(ms: seq<Member>) {
    exists i, j | 0 <= i < j < |ms| :: ms[i].key == ms[j].key
  }

  /** `json.loads` on a whole text: one value and nothing but blanks around it. */
  function ReadText(s: string, strict: bool, floats: FloatReader): Reading<Json> {
    match ReadValue(SkipBlanks(s), strict, floats)
    case Got(v, rest) => if SkipBlanks(rest) == "" then Got(v, "") else Malformed
    case other => other
  }

  // ----- printing and then reading gives the value back -----

  /** What may follow a printed value inside a larger text. */
  predicate Closes(rest: string) { rest == "" || rest[0] in {',', ']', '}'} }

  lemma {:induction false} EscapedRoundTrip(s: string, rest: string)
    ensures ReadChars(EscapeText(s) + "\"" + rest) == Got(s, rest)
  {
    if s == "" {
      Regroup("", "\"", rest);
      assert ("\"" + rest)[1..] == rest;
    } else {
      var e, es := EscapeChar(s[0]), EscapeText(s[1..]);
      EscapedRoundTrip(s[1..], rest);
      EscapeCharRoundTrip(s[0], es + "\"" + rest);
      assert EscapeText(s) + "\"" + rest == e + (es + "\"" + rest) by {
        Regroup(e, es, "\"");
        Regroup(e, es + "\"", rest);
      }
      assert s == [s[0]] + s[1..];
    }
  }

  lemma {:induction false} EscapeCharRoundTrip(c: char, tail: string)
    requires ReadChars(tail).Got?
    ensures var r := ReadChars(tail); ReadChars(EscapeChar(c) + tail) == Got([c] + r.value, r.rest)
  {
    var e := EscapeChar(c);
    var whole := e + tail;
    assert whole[|e|..] == tail;
    if |e| == 6 {
      ControlRoundTrip(c, tail);
    } else if |e| == 2 {
      assert SimpleEscape(whole[1]) == Some(c);
    }
  }

  lemma {:induction false} ControlRoundTrip(c: char, tail: string)
    requires c < ' ' && |EscapeChar(c)| == 6
    ensures var whole := EscapeChar(c) + tail;
            whole[0] == '\\' && whole[1] == 'u' && ReadUnicode(whole[2..]) == Some((c, 4))
  {
    var hi, lo := c as int / 16, c as int % 16;
    assert HexValue(HexChar(hi)) == Some(hi) && HexValue(HexChar(lo)) == Some(lo);
    var digits := (EscapeChar(c) + tail)[2..];
    assert digits[0] == '0' && digits[1] == '0' && digits[2] == HexChar(hi) && digits[3] == HexChar(lo);
  }

  lemma {:induction false} DigitSpanOf(digits: string, rest: string)
    requires AllDigits(digits)
    requires rest == "" || !IsDigit(rest[0])
    ensures DigitSpan(digits + rest) == |digits|
  {
    if digits == "" {
      assert digits + rest == rest;
    } else {
      DigitSpanOf(digits[1..], rest);
      assert (digits + rest)[1..] == digits[1..] + rest;
    }
  }

  lemma {:induction false} DigitSpanExtends(s: string, rest: string)
    requires Closes(rest)
    ensures DigitSpan(s + rest) == DigitSpan(s)
  {
    var k := DigitSpan(s);
    if k == |s| {
      assert s[..k] == s;
      DigitSpanOf(s, rest);
    } else {
      DigitSpanOf(s[..k], s[k..] + rest);
      assert s[..k] + (s[k..] + rest) == s + rest;
    }
  }

  lemma {:induction false} IntegerSpanExtends(s: string, rest: string)
    requires Closes(rest)
    ensures IntegerSpan(s + rest) == IntegerSpan(s)
  {
    var sign := if s != "" && s[0] == '-' then 1 else 0;
    DigitSpanExtends(s[sign..], rest);
    assert (s + rest)[sign..] == s[sign..] + rest;
  }

  lemma {:induction false} FractionSpanExtends(s: string, rest: string)
    requires Closes(rest)
    ensures FractionSpan(s + rest) == FractionSpan(s)
  {
    if s != "" {
      DigitSpanExtends(s[1..], rest);
      assert (s + rest)[1..] == s[1..] + rest;
    }
  }

  lemma {:induction false} ExponentSpanExtends(s: string, rest: string)
    requires Closes(rest)
    ensures ExponentSpan(s + rest) == ExponentSpan(s)
  {
    if s != "" {
      var k := if |s| >= 2 && s[1] in {'+', '-'} then 2 else 1;
      DigitSpanExtends(s[k..], rest);
      assert (s + rest)[k..] == s[k..] + rest;
    }
  }

  lemma {:induction false} CutExtends(s: string, rest: string, k: nat)
    requires k <= |s|
    ensures (s + rest)[k..] == s[k..] + rest
  {
  }

  lemma {:induction false} TailSpanExtends(s: string, rest: string)
    requires Closes(rest)
    ensures TailSpan(s + rest) == TailSpan(s)
  {
    FractionSpanExtends(s, rest);
    CutExtends(s, rest, FractionSpan(s));
    ExponentSpanExtends(s[FractionSpan(s)..], rest);
  }

  /** A numeral ends where a printed value may end. */
  lemma {:induction false} NumberSpanExtends(s: string, rest: string)
    requires Closes(rest)
    ensures IntegerSpan(s + rest) == IntegerSpan(s) && NumberSpan(s + rest) == NumberSpan(s)
  {
    IntegerSpanExtends(s, rest);
    CutExtends(s, rest, IntegerSpan(s));
    TailSpanExtends(s[IntegerSpan(s)..], rest);
  }

  lemma {:induction false} NatSpan(n: nat)
    ensures IntegerSpan(NatText(n)) == |NatText(n)| && IntegerSpan("-" + NatText(n)) == |NatText(n)| + 1
  {
    var d := NatText(n);
    NatTextRoundTrip(n);
    DigitSpanOf(d, "");
    assert d + "" == d && d[0..] == d && ("-" + d)[1..] == d;
  }

  lemma {:induction false} IntegerNumeral(n: int)
    ensures var t := IntText(n); IntegerSpan(t) == NumberSpan(t) == |t| && IntegerToken(t) && IntegerValue(t) == n
  {
    var m := if n < 0 then -n else n;
    NatSpan(m);
    NatTextRoundTrip(m);
    var t := IntText(n);
    assert ("-" + NatText(m))[1..] == NatText(m);
    assert t[|t|..] == "" && t[..|t|] == t;
  }

  /** A printed value starts with a character that selects its reader branch. */
  lemma {:induction false} PrintStart(v: Json, floats: FloatReader)
    requires FloatsRead(v, floats)
    ensures Print(v) != ""
    ensures var c := Print(v)[0]; IsDigit(c) || c in {'-', '"', '[', '{', 'n', 't', 'f'}
  {
  }

  lemma {:induction false} PrintItemsStart(items: seq<Json>, floats: FloatReader)
    requires items != [] && FloatsRead(Arr(items), floats)
    ensures PrintItems(items) != ""
    ensures var c := PrintItems(items)[0]; IsDigit(c) || c in {'-', '"', '[', '{', 'n', 't', 'f'}
  {
    PrintStart(items[0], floats);
  }

  lemma {:induction false} ValueRoundTrip(v: Json, rest: string, floats: FloatReader)
    requires FloatsRead(v, floats) && Closes(rest)
    ensures ReadValue(Print(v) + rest, false, floats) == Got(v, rest)
    decreases v, 1
  {
    match v
    case Arr(items) => ArrayRoundTrip(items, rest, floats);
    case Obj(ms) => ObjectRoundTrip(ms, rest, floats);
    case _ => ScalarRoundTrip(v, rest, floats);
  }

  lemma {:induction false} ScalarRoundTrip(v: Json, rest: string, floats: FloatReader)
    requires FloatsRead(v, floats) && Closes(rest) && !v.Arr? && !v.Obj?
    ensures ReadValue(Print(v) + rest, false, floats) == Got(v, rest)
  {
    match v
    case Null => ReadNull(rest, floats);
    case Bool(b) => ReadBool(b, rest, floats);
    case Int(n) => ReadInt(n, rest, floats);
    case Float(r, text) => ReadFloat(r, text, rest, floats);
    case Str(t) => ReadString(t, rest, floats);
  }

  lemma {:induction false} ReadNull(rest: string, floats: FloatReader)
    ensures ReadValue("null" + rest, false, floats) == Got(Null, rest)
  {
    var s := "null" + rest;
    assert s[0] == 'n' && s[4..] == rest;
  }

  lemma {:induction false} ReadBool(b: bool, rest: string, floats: FloatReader)
    ensures ReadValue((if b then "true" else "false") + rest, false, floats) == Got(Bool(b), rest)
  {
    var s := (if b then "true" else "false") + rest;
    assert s[0] == if b then 't' else 'f';
    assert s[(if b then 4 else 5)..] == rest;
  }

  lemma {:induction false} NumberIsRead(s: string, floats: FloatReader)
    requires s != "" && (s[0] == '-' || IsDigit(s[0]))
    ensures ReadValue(s, false, floats) == ReadNumber(s, floats)
  {
  }

  /** A whole numeral in front of a closing is read as it stands. */
  lemma {:induction false} NumeralReads(t: string, rest: string, floats: FloatReader)
    requires Closes(rest) && 0 < IntegerSpan(t) && NumberSpan(t) == |t|
    ensures IntegerSpan(t) == |t| ==> IntegerToken(t) && ReadNumber(t + rest, floats) == Got(Int(IntegerValue(t)), rest)
    ensures IntegerSpan(t) < |t| && floats(t).Some? ==>
              ReadNumber(t + rest, floats) == Got(Float(floats(t).value.0, floats(t).value.1), rest)
    ensures ReadValue(t + rest, false, floats) == ReadNumber(t + rest, floats)
  {
    NumberSpanExtends(t, rest);
    assert (t + rest)[..|t|] == t && (t + rest)[|t|..] == rest && t[..|t|] == t;
    NumberIsRead(t + rest, floats);
  }

  lemma {:induction false} ReadInt(n: int, rest: string, floats: FloatReader)
    requires Closes(rest)
    ensures ReadValue(IntText(n) + rest, false, floats) == Got(Int(n), rest)
  {
    IntegerNumeral(n);
    NumeralReads(IntText(n), rest, floats);
  }

  lemma {:induction false} ReadFloat(r: real, t: string, rest: string, floats: FloatReader)
    requires Closes(rest) && FloatToken(t) && floats(t) == Some((r, t))
    ensures ReadValue(t + rest, false, floats) == Got(Float(r, t), rest)
  {
    NumeralReads(t, rest, floats);
  }

  lemma {:induction false} ReadString(t: string, rest: string, floats: FloatReader)
    ensures ReadValue("\"" + EscapeText(t) + "\"" + rest, false, floats) == Got(Str(t), rest)
  {
    EscapedRoundTrip(t, rest);
    var body := EscapeText(t) + "\"" + rest;
    assert "\"" + EscapeText(t) + "\"" + rest == "\"" + body by {
      Regroup("\"" + EscapeText(t), "\"", rest);
      Regroup("\"", EscapeText(t), "\"" + rest);
      Regroup(EscapeText(t), "\"", rest);
    }
    ReadQuoted(body, floats);
  }

  lemma {:induction false} ReadQuoted(body: string, floats: FloatReader)
    requires ReadChars(body).Got?
    ensures ReadValue("\"" + body, false, floats) == Got(Str(ReadChars(body).value), ReadChars(body).rest)
  {
    assert ("\"" + body)[1..] == body;
  }

  lemma {:induction false} ArrayRoundTrip(items: seq<Json>, rest: string, floats: FloatReader)
    requires forall x | x in items :: FloatsRead(x, floats)
    ensures ReadValue("[" + PrintItems(items) + "]" + rest, false, floats) == Got(Arr(items), rest)
    decreases items, 2
  {
    var body := PrintItems(items) + "]" + rest;
    assert "[" + PrintItems(items) + "]" + rest == "[" + body;
    if items != [] {
      ItemsRoundTrip(items, rest, floats);
      PrintItemsStart(items, floats);
      assert body[0] == PrintItems(items)[0];
      ReadArray(body, floats);
    } else {
      assert body == "]" + rest;
      ReadEmptyArray(rest, floats);
    }
  }

  lemma {:induction false} ReadArray(body: string, floats: FloatReader)
    requires body != "" && !IsBlank(body[0]) && body[0] != ']' && ReadItems(body, false, floats).Got?
    ensures var r := ReadItems(body, false, floats); ReadValue("[" + body, false, floats) == Got(Arr(r.value), r.rest)
  {
    assert ("[" + body)[1..] == body;
  }

  lemma {:induction false} ReadEmptyArray(rest: string, floats: FloatReader)
    ensures ReadValue("[" + ("]" + rest), false, floats) == Got(Arr([]), rest)
  {
    assert ("[" + ("]" + rest))[1..] == "]" + rest;
    assert ("]" + rest)[1..] == rest;
  }

  lemma {:induction false} ItemsRoundTrip(items: seq<Json>, rest: string, floats: FloatReader)
    requires items != [] && forall x | x in items :: FloatsRead(x, floats)
    ensures ReadItems(PrintItems(items) + "]" + rest, false, floats) == Got(items, rest)
    decreases items, 1
  {
    var v := items[0];
    if |items| == 1 {
      ValueRoundTrip(v, "]" + rest, floats);
      ReadItemsLast(Print(v) + ("]" + rest), v, rest, floats);
      assert PrintItems(items) + "]" + rest == Print(v) + ("]" + rest);
      assert items == [v];
    } else {
      var more := PrintItems(items[1..]) + "]" + rest;
      ValueRoundTrip(v, "," + more, floats);
      ItemsRoundTrip(items[1..], rest, floats);
      PrintItemsStart(items[1..], floats);
      assert more[0] == PrintItems(items[1..])[0];
      ReadItemsMore(Print(v) + ("," + more), v, more, floats);
      PrintItemsSplit(items, rest);
      assert items == [v] + items[1..];
    }
  }

  lemma {:induction false} PrintItemsSplit(items: seq<Json>, rest: string)
    requires |items| > 1
    ensures PrintItems(items) + "]" + rest
         == Print(items[0]) + ("," + (PrintItems(items[1..]) + "]" + rest))
  {
    JoinedText(Print(items[0]), PrintItems(items[1..]), "]", rest);
  }

  lemma {:induction false} JoinedText(first: string, others: string, close: string, rest: string)
    ensures (first + "," + others) + close + rest == first + ("," + (others + close + rest))
  {
  }

  lemma {:induction false} ReadItemsLast(s: string, v: Json, rest: string, floats: FloatReader)
    requires ReadValue(s, false, floats) == Got(v, "]" + rest)
    ensures ReadItems(s, false, floats) == Got([v], rest)
  {
    assert ("]" + rest)[1..] == rest;
  }

  lemma {:induction false} ReadItemsMore(s: string, v: Json, more: string, floats: FloatReader)
    requires ReadValue(s, false, floats) == Got(v, "," + more)
    requires more != "" && !IsBlank(more[0]) && ReadItems(more, false, floats).Got?
    ensures var r := ReadItems(more, false, floats); ReadItems(s, false, floats) == Got([v] + r.value, r.rest)
  {
    assert ("," + more)[1..] == more;
  }

  lemma {:induction false} ObjectRoundTrip(ms: seq<Member>, rest: string, floats: FloatReader)
    requires forall x | x in ms :: FloatsRead(x.value, floats)
    ensures ReadValue("{" + PrintMembers(ms) + "}" + rest, false, floats) == Got(Obj(ms), rest)
    decreases ms, 2
  {
    var body := PrintMembers(ms) + "}" + rest;
    assert "{" + PrintMembers(ms) + "}" + rest == "{" + body;
    if ms != [] {
      MembersRoundTrip(ms, rest, floats);
      PrintMembersStart(ms);
      assert body[0] == '"';
      ReadObject(body, floats);
    } else {
      assert body == "}" + rest;
      ReadEmptyObject(rest, floats);
    }
  }

  lemma {:induction false} PrintMembersStart(ms: seq<Member>)
    requires ms != []
    ensures PrintMembers(ms) != "" && PrintMembers(ms)[0] == '"'
  {
  }

  lemma {:induction false} ReadObject(body: string, floats: FloatReader)
    requires body != "" && body[0] == '"' && ReadMembers(body, false, floats).Got?
    ensures var r := ReadMembers(body, false, floats); ReadValue("{" + body, false, floats) == Got(Obj(r.value), r.rest)
  {
    assert ("{" + body)[1..] == body;
  }

  lemma {:induction false} ReadEmptyObject(rest: string, floats: FloatReader)
    ensures ReadValue("{" + ("}" + rest), false, floats) == Got(Obj([]), rest)
  {
    assert ("{" + ("}" + rest))[1..] == "}" + rest;
    assert ("}" + rest)[1..] == rest;
  }

  lemma {:induction false} MembersRoundTrip(ms: seq<Member>, rest: string, floats: FloatReader)
    requires ms != [] && forall x | x in ms :: FloatsRead(x.value, floats)
    ensures ReadMembers(PrintMembers(ms) + "}" + rest, false, floats) == Got(ms, rest)
    decreases ms, 1
  {
    var m := ms[0];
    if |ms| == 1 {
      ValueRoundTrip(m.value, "}" + rest, floats);
      MemberRoundTrip(m, "}" + rest, floats);
      ReadMembersLast(PrintMember(m) + ("}" + rest), m, rest, floats);
      Regroup(PrintMember(m), "}", rest);
      assert ms == [m];
    } else {
      var more := PrintMembers(ms[1..]) + "}" + rest;
      ValueRoundTrip(m.value, "," + more, floats);
      MemberRoundTrip(m, "," + more, floats);
      MembersRoundTrip(ms[1..], rest, floats);
      PrintMembersStart(ms[1..]);
      assert more[0] == '"';
      ReadMembersMore(PrintMember(m) + ("," + more), m, more, floats);
      PrintMembersSplit(ms, rest);
      assert ms == [m] + ms[1..];
    }
  }

  lemma {:induction false} PrintMembersSplit(ms: seq<Member>, rest: string)
    requires |ms| > 1
    ensures PrintMembers(ms) + "}" + rest
         == PrintMember(ms[0]) + ("," + (PrintMembers(ms[1..]) + "}" + rest))
  {
    JoinedText(PrintMember(ms[0]), PrintMembers(ms[1..]), "}", rest);
  }

  lemma {:induction false} ReadMembersLast(s: string, m: Member, rest: string, floats: FloatReader)
    requires ReadMember(s, false, floats) == Got(m, "}" + rest)
    ensures ReadMembers(s, false, floats) == Got([m], rest)
  {
    assert ("}" + rest)[1..] == rest;
  }

  lemma {:induction false} ReadMembersMore(s: string, m: Member, more: string, floats: FloatReader)
    requires ReadMember(s, false, floats) == Got(m, "," + more)
    requires more != "" && !IsBlank(more[0]) && ReadMembers(more, false, floats).Got?
    ensures var r := ReadMembers(more, false, floats); ReadMembers(s, false, floats) == Got([m] + r.value, r.rest)
  {
    assert ("," + more)[1..] == more;
  }

  lemma {:induction false} MemberRoundTrip(m: Member, after: string, floats: FloatReader)
    requires FloatsRead(m.value, floats)
    requires ReadValue(Print(m.value) + after, false, floats) == Got(m.value, after)
    ensures ReadMember(PrintMember(m) + after, false, floats) == Got(m, after)
  {
    var text := Print(m.value) + after;
    MemberText(EscapeText(m.key), Print(m.value), after);
    EscapedRoundTrip(m.key, ":" + text);
    PrintStart(m.value, floats);
    ReadMemberStep(PrintMember(m) + after, m, text, after, floats);
  }

  lemma {:induction false} MemberText(key: string, value: string, after: string)
    ensures var s := "\"" + key + "\":" + value + after;
            s[0] == '"' && s[1..] == key + "\"" + (":" + (value + after))
  {
    assert "\":" == "\"" + ":";
  }

  lemma {:induction false} ReadMemberStep(s: string, m: Member, text: string, after: string, floats: FloatReader)
    requires s != "" && s[0] == '"' && ReadChars(s[1..]) == Got(m.key, ":" + text)
    requires text != "" && !IsBlank(text[0]) && ReadValue(text, false, floats) == Got(m.value, after)
    ensures ReadMember(s, false, floats) == Got(m, after)
  {
    assert (":" + text)[1..] == text;
  }

  // ----- the sorted form -----

  lemma {:induction false} NormMembersContents(ms: seq<Member>)
    ensures forall y :: y in NormMembers(ms) <==> exists x | x in ms :: y == NormMember(x)
  {
    var ns := NormMembers(ms);
    forall y | y in ns ensures exists x | x in ms :: y == NormMember(x) {
      var i :| 0 <= i < |ns| && ns[i] == y;
      assert ms[i] in ms;
    }
    forall x | x in ms ensures NormMember(x) in ns {
      var i :| 0 <= i < |ms| && ms[i] == x;
      assert ns[i] == NormMember(x);
    }
  }

  lemma {:induction false} NormMembersDistinct(ms: seq<Member>)
    requires Distinct(ms)
    ensures Distinct(NormMembers(ms))
  {
    forall i, j | 0 <= i < j < |ms| ensures KeyOf(NormMembers(ms)[i]) != KeyOf(NormMembers(ms)[j]) {
      assert KeyOf(ms[i]) != KeyOf(ms[j]);
    }
  }

  lemma {:induction false} NormFloatsRead(v: Json, floats: FloatReader)
    requires FloatsRead(v, floats)
    ensures FloatsRead(Norm(v), floats)
  {
    match v
    case Arr(items) =>
      forall y | y in NormItems(items) ensures FloatsRead(y, floats) {
        var i :| 0 <= i < |items| && NormItems(items)[i] == y;
        NormFloatsRead(items[i], floats);
      }
    case Obj(ms) =>
      NormMembersContents(ms);
      forall y | y in NormMembers(ms) ensures FloatsRead(y.value, floats) {
        var x :| x in ms && y == NormMember(x);
        NormFloatsRead(x.value, floats);
      }
    case _ =>
  }

  lemma {:induction false} NormWellFormed(v: Json)
    requires WellFormed(v)
    ensures WellFormed(Norm(v))
  {
    match v
    case Arr(items) =>
      forall y | y in NormItems(items) ensures WellFormed(y) {
        var i :| 0 <= i < |items| && NormItems(items)[i] == y;
        NormWellFormed(items[i]);
      }
    case Obj(ms) =>
      NormMembersDistinct(ms);
      SortByIsStrict(KeyOf, NormMembers(ms));
      StrictIsDistinct(KeyOf, SortBy(KeyOf, NormMembers(ms)));
      NormMembersContents(ms);
      forall y | y in NormMembers(ms) ensures WellFormed(y.value) {
        var x :| x in ms && y == NormMember(x);
        NormWellFormed(x.value);
      }
    case _ =>
  }

  lemma {:induction false} NormIsSame(v: Json)
    ensures Same(v, Norm(v))
    decreases v, 1
  {
    match v
    case Arr(items) =>
      forall i | 0 <= i < |items| ensures Same(items[i], NormItems(items)[i]) { NormIsSame(items[i]); }
    case Obj(ms) => NormMembersAreSame(ms);
    case _ =>
  }

  lemma {:induction false} NormMembersAreSame(ms: seq<Member>)
    ensures SameOnLeft(ms, SortBy(KeyOf, NormMembers(ms))) && SameOnRight(ms, SortBy(KeyOf, NormMembers(ms)))
    decreases ms, 0
  {
    NormMembersContents(ms);
    var ns := SortBy(KeyOf, NormMembers(ms));
    forall x | x in ms ensures exists y | y in ns :: x.key == y.key && Same(x.value, y.value) {
      NormIsSame(x.value);
      assert NormMember(x) in ns;
    }
    forall y | y in ns ensures exists x | x in ms :: x.key == y.key && Same(x.value, y.value) {
      var x :| x in ms && y == NormMember(x);
      NormIsSame(x.value);
    }
  }

  /** Two dictionaries with the same content sort to the same sequence. */
  lemma {:induction false} SameNorm(v: Json, w: Json)
    requires WellFormed(v) && WellFormed(w) && Same(v, w)
    ensures Norm(v) == Norm(w)
    decreases v, 1
  {
    match v
    case Arr(a) =>
      forall i | 0 <= i < |a| ensures NormItems(a)[i] == NormItems(w.items)[i] { SameNorm(a[i], w.items[i]); }
    case Obj(a) =>
      SameOnLeftNorm(a, w.members);
      SameOnRightNorm(a, w.members);
      NormMembersDistinct(a);
      NormMembersDistinct(w.members);
      SortByIgnoresOrder(KeyOf, NormMembers(a), NormMembers(w.members));
    case _ =>
  }

  // The two directions are kept apart: together they would let the solver
  // pass from one dictionary to the other and back without end.
  lemma {:induction false} SameOnLeftNorm(a: seq<Member>, b: seq<Member>)
    requires FineMembers(a) && FineMembers(b) && SameOnLeft(a, b)
    ensures forall z | z in NormMembers(a) :: z in NormMembers(b)
    decreases a, 0
  {
    forall z | z in NormMembers(a) ensures z in NormMembers(b) {
      NormMembersContents(a);
      var x :| x in a && z == NormMember(x);
      var y :| y in b && x.key == y.key && Same(x.value, y.value);
      SameNorm(x.value, y.value);
      NormMembersContents(b);
      assert NormMember(y) == z;
    }
  }

  lemma {:induction false} SameOnRightNorm(a: seq<Member>, b: seq<Member>)
    requires FineMembers(a) && FineMembers(b) && SameOnRight(a, b)
    ensures forall z | z in NormMembers(b) :: z in NormMembers(a)
    decreases a, 0
  {
    forall z | z in NormMembers(b) ensures z in NormMembers(a) {
      NormMembersContents(b);
      var y :| y in b && z == NormMember(y);
      var x :| x in a && x.key == y.key && Same(x.value, y.value);
      SameNorm(x.value, y.value);
      NormMembersContents(a);
      assert NormMember(x) == z;
    }
  }

  lemma {:induction false} SameSymmetric(v: Json, w: Json)
    requires Same(v, w)
    ensures Same(w, v)
  {
    match v
    case Arr(a) =>
      forall i | 0 <= i < |a| ensures Same(w.items[i], a[i]) { SameSymmetric(a[i], w.items[i]); }
    case Obj(a) =>
      var b := w.members;
      forall x, y | x in a && y in b && Same(x.value, y.value) ensures Same(y.value, x.value) {
        SameSymmetric(x.value, y.value);
      }
      assert SameOnLeft(b, a);
      assert SameOnRight(b, a);
    case _ =>
  }

  lemma {:induction false} SameTransitive(u: Json, v: Json, w: Json)
    requires Same(u, v) && Same(v, w)
    ensures Same(u, w)
    decreases u, 1
  {
    match u
    case Arr(a) =>
      forall i | 0 <= i < |a| ensures Same(a[i], w.items[i]) { SameTransitive(a[i], v.items[i], w.items[i]); }
    case Obj(a) =>
      SameOnLeftTransitive(a, v.members, w.members);
      SameOnRightTransitive(a, v.members, w.members);
    case _ =>
  }

  lemma {:induction false} SameOnLeftTransitive(a: seq<Member>, b: seq<Member>, c: seq<Member>)
    requires SameOnLeft(a, b) && SameOnLeft(b, c)
    ensures SameOnLeft(a, c)
    decreases a, 0
  {
    forall x | x in a ensures exists z | z in c :: x.key == z.key && Same(x.value, z.value) {
      var y :| y in b && x.key == y.key && Same(x.value, y.value);
      var z :| z in c && y.key == z.key && Same(y.value, z.value);
      SameTransitive(x.value, y.value, z.value);
    }
  }

  lemma {:induction false} SameOnRightTransitive(a: seq<Member>, b: seq<Member>, c: seq<Member>)
    requires SameOnRight(a, b) && SameOnRight(b, c)
    ensures SameOnRight(a, c)
    decreases a, 0
  {
    forall z | z in c ensures exists x | x in a :: x.key == z.key && Same(x.value, z.value) {
      var y :| y in b && y.key == z.key && Same(y.value, z.value);
      var x :| x in a && x.key == y.key && Same(x.value, y.value);
      SameTransitive(x.value, y.value, z.value);
    }
  }

  lemma {:induction false} NormIdempotent(v: Json)
    requires WellFormed(v)
    ensures Norm(Norm(v)) == Norm(v)
  {
    NormIsSame(v);
    NormWellFormed(v);
    SameNorm(v, Norm(v));
  }

  /** The canonical text identifies exactly the values that are the same. */
  lemma {:induction false} CanonicalTextIdentifies(v: Json, w: Json, floats: FloatReader)
    requires WellFormed(v) && WellFormed(w) && FloatsRead(v, floats) && FloatsRead(w, floats)
    ensures CanonicalText(v) == CanonicalText(w) <==> Same(v, w)
  {
    if Same(v, w) { SameNorm(v, w); }
    if CanonicalText(v) == CanonicalText(w) {
      NormFloatsRead(v, floats);
      NormFloatsRead(w, floats);
      ValueRoundTrip(Norm(v), "", floats);
      ValueRoundTrip(Norm(w), "", floats);
      assert Print(Norm(v)) + "" == Print(Norm(w)) + "";
      assert Norm(v) == Norm(w);
      NormIsSame(v);
      NormIsSame(w);
      SameSymmetric(w, Norm(w));
      SameTransitive(v, Norm(v), w);
    }
  }

  // ----- the repeated-key hook -----

  /** `reject_duplicate_json_keys`: None stands for the raised error. */
  method RejectDuplicateJsonKeys(pairs: seq<Member>) returns (r: Option<seq<Member>>)
    ensures r == if HasRepeat(pairs) then None else Some(pairs)
  {
    var seen: set<string> := {};
    var result: seq<Member> := [];
    for i := 0 to |pairs|
      invariant seen == set j | 0 <= j < i :: pairs[j].key
      invariant result == pairs[..i] && !HasRepeat(pairs[..i])
    {
      var key := pairs[i].key;
      if key in seen {
        var j :| 0 <= j < i && pairs[j].key == key;
        assert pairs[j].key == pairs[i].key;
        return None;
      }
      seen := seen + {key};
      result := result + [Member(key, pairs[i].value)];
    }
    assert pairs[..|pairs|] == pairs;
    return Some(result);
  }

  lemma {:induction false} NoRepeatIsDistinct(ms: seq<Member>)
    ensures Distinct(ms) <==> !HasRepeat(ms)
  {
    if !HasRepeat(ms) {
      forall i, j | 0 <= i < j < |ms| ensures KeyOf(ms[i]) != KeyOf(ms[j]) {
        assert ms[i].key != ms[j].key;
      }
    } else {
      var i, j :| 0 <= i < j < |ms| && ms[i].key == ms[j].key;
      assert KeyOf(ms[i]) == KeyOf(ms[j]);
    }
  }

  /** What the hook makes of a reading: kept when every dictionary has distinct
      keys, refused as a repetition otherwise. */
  ghost predicate HookOutcome<T>(plain: Reading<T>, strict: Reading<T>, fine: bool) {
    && (plain.Got? && fine ==> strict == plain)
    && (plain.Got? && !fine ==> strict.Repeated?)
    && (!plain.Got? ==> !strict.Got? && !plain.Repeated?)
  }

  lemma {:induction false} CharsNeverRepeat(s: string)
    ensures ReadChars(s).Got? || ReadChars(s).Malformed?
    decreases |s|
  {
    if s != "" && s[0] != '"' {
      if s[0] == '\\' {
        if |s| >= 6 { CharsNeverRepeat(s[6..]); }
        if |s| >= 12 { CharsNeverRepeat(s[12..]); }
        if |s| >= 2 { CharsNeverRepeat(s[2..]); }
      } else {
        CharsNeverRepeat(s[1..]);
      }
    }
  }

  ghost predicate FineItems(items: seq<Json>) { forall x | x in items :: WellFormed(x) }

  ghost predicate FineMembers(ms: seq<Member>) { forall x | x in ms :: WellFormed(x.value) }

  lemma {:induction false} NumberIsWhole(s: string, floats: FloatReader)
    ensures var r := ReadNumber(s, floats); !r.Repeated? && (r.Got? ==> r.value.Int? || r.value.Float?)
  {
  }

  lemma {:induction false} ScalarIsWhole(s: string, floats: FloatReader)
    ensures var r := ReadScalar(s, floats); !r.Repeated? && (r.Got? ==> !r.value.Arr? && !r.value.Obj?)
  {
    if s != "" && s[0] == '"' {
      CharsNeverRepeat(s[1..]);
    } else if s != "" && (s[0] == '-' || IsDigit(s[0])) {
      NumberIsWhole(s, floats);
    }
  }

  lemma {:induction false} StrictScalar(s: string, floats: FloatReader)
    requires s == "" || s[0] !in {'[', '{'}
    ensures ReadValue(s, true, floats) == ReadValue(s, false, floats)
    ensures var plain := ReadValue(s, false, floats); !plain.Repeated? && (plain.Got? ==> WellFormed(plain.value))
  {
    ScalarIsWhole(s, floats);
  }

  lemma {:induction false} StrictArray(s: string, floats: FloatReader)
    requires s != "" && s[0] == '['
    ensures var plain := ReadValue(s, false, floats);
            HookOutcome(plain, ReadValue(s, true, floats), plain.Got? && WellFormed(plain.value))
    decreases |s|, 0
  {
    var t := SkipBlanks(s[1..]);
    if t == "" || t[0] != ']' { StrictItems(t, floats); }
  }

  lemma {:induction false} StrictObject(s: string, floats: FloatReader)
    requires s != "" && s[0] == '{'
    ensures var plain := ReadValue(s, false, floats);
            HookOutcome(plain, ReadValue(s, true, floats), plain.Got? && WellFormed(plain.value))
    decreases |s|, 0
  {
    var t := SkipBlanks(s[1..]);
    if t == "" || t[0] != '}' {
      StrictMembers(t, floats);
      var plain := ReadMembers(t, false, floats);
      if plain.Got? { NoRepeatIsDistinct(plain.value); }
    }
  }

  /** On every text, the strict reader refuses exactly the readings that hold a
      repeated key at some depth. */
  lemma {:induction false} StrictValue(s: string, floats: FloatReader)
    ensures var plain := ReadValue(s, false, floats);
            HookOutcome(plain, ReadValue(s, true, floats), plain.Got? && WellFormed(plain.value))
    decreases |s|, 1
  {
    if s != "" && s[0] == '[' { StrictArray(s, floats); }
    else if s != "" && s[0] == '{' { StrictObject(s, floats); }
    else { StrictScalar(s, floats); }
  }

  lemma {:induction false} StrictItems(s: string, floats: FloatReader)
    ensures var plain := ReadItems(s, false, floats);
            HookOutcome(plain, ReadItems(s, true, floats), plain.Got? && FineItems(plain.value))
    decreases |s|, 2
  {
    StrictValue(s, floats);
    var head := ReadValue(s, false, floats);
    if head.Got? {
      var t := SkipBlanks(head.rest);
      if t != "" && t[0] == ',' {
        var u := SkipBlanks(t[1..]);
        StrictItems(u, floats);
        var tail := ReadItems(u, false, floats);
        if tail.Got? { FineItemsCons(head.value, tail.value); }
      }
    }
  }

  lemma {:induction false} FineItemsCons(v: Json, vs: seq<Json>)
    ensures FineItems([v] + vs) <==> WellFormed(v) && FineItems(vs)
  {
    assert v in [v] + vs;
    assert forall x :: x in [v] + vs <==> x == v || x in vs;
  }

  lemma {:induction false} FineMembersCons(m: Member, ms: seq<Member>)
    ensures FineMembers([m] + ms) <==> WellFormed(m.value) && FineMembers(ms)
  {
    assert m in [m] + ms;
    assert forall x :: x in [m] + ms <==> x == m || x in ms;
  }

  lemma {:induction false} StrictMember(s: string, floats: FloatReader)
    ensures var plain := ReadMember(s, false, floats);
            HookOutcome(plain, ReadMember(s, true, floats), plain.Got? && WellFormed(plain.value.value))
    decreases |s|, 2
  {
    if s != "" && s[0] == '"' {
      CharsNeverRepeat(s[1..]);
      var key := ReadChars(s[1..]);
      if key.Got? {
        var colon := SkipBlanks(key.rest);
        if colon != "" && colon[0] == ':' { StrictValue(SkipBlanks(colon[1..]), floats); }
      }
    }
  }

  lemma {:induction false} StrictMembers(s: string, floats: FloatReader)
    ensures var plain := ReadMembers(s, false, floats);
            HookOutcome(plain, ReadMembers(s, true, floats), plain.Got? && FineMembers(plain.value))
    decreases |s|, 3
  {
    StrictMember(s, floats);
    var head := ReadMember(s, false, floats);
    if head.Got? {
      FineMembersCons(head.value, []);
      assert [head.value] + [] == [head.value];
      var strict := ReadMember(s, true, floats);
      assert if WellFormed(head.value.value) then strict == head else strict.Repeated?;
      var t := SkipBlanks(head.rest);
      if t != "" && t[0] == ',' {
        var u := SkipBlanks(t[1..]);
        StrictMembers(u, floats);
        var tail := ReadMembers(u, false, floats);
        if tail.Got? { FineMembersCons(head.value, tail.value); }
      }
    }
  }

  /** Main results on texts: the canonical text reads back, and repeated keys
      are the only difference between the plain and the strict reader. */
  lemma {:induction false} CanonicalRoundTrip(v: Json, floats: FloatReader)
    requires WellFormed(v) && FloatsRead(v, floats)
    ensures ReadText(CanonicalText(v), true, floats) == Got(Norm(v), "")
    ensures Same(v, Norm(v)) && WellFormed(Norm(v))
  {
    NormIsSame(v);
    NormWellFormed(v);
    NormFloatsRead(v, floats);
    PrintStart(Norm(v), floats);
    ValueRoundTrip(Norm(v), "", floats);
    assert Print(Norm(v)) + "" == CanonicalText(v);
    assert SkipBlanks(CanonicalText(v)) == CanonicalText(v);
    StrictValue(CanonicalText(v), floats);
  }

  lemma {:induction false} StrictReaderExactly(s: string, floats: FloatReader)
    ensures var plain, strict := ReadText(s, false, floats), ReadText(s, true, floats);
            && (strict.Got? <==> plain.Got? && WellFormed(plain.value))
            && (strict.Got? ==> strict == plain)
            && (plain.Got? && !WellFormed(plain.value) ==> strict.Repeated?)
  {
    StrictValue(SkipBlanks(s), floats);
  }

  // ----- depth -----

  /** `json_depth`: None stands for the raised error. */
  function JsonDepth(v: Json, limit: int, current: int): Option<int>
    decreases v, 1
  {
    if current > limit then None
    else
      match v
      case Obj(ms) => if ms == [] then Some(current) else DeepestMember(ms, limit, current + 1)
      case Arr(items) => if items == [] then Some(current) else DeepestItem(items, limit, current + 1)
      case _ => Some(current)
  }

  function DeepestItem(items: seq<Json>, limit: int, current: int): Option<int>
    requires items != []
    decreases items, 0
  {
    match JsonDepth(items[0], limit, current)
    case None => None
    case Some(d) =>
      if |items| == 1 then Some(d)
      else
        match DeepestItem(items[1..], limit, current)
        case None => None
        case Some(e) => Some(Max(d, e))
  }

  function DeepestMember(ms: seq<Member>, limit: int, current: int): Option<int>
    requires ms != []
    decreases ms, 0
  {
    match JsonDepth(ms[0].value, limit, current)
    case None => None
    case Some(d) =>
      if |ms| == 1 then Some(d)
      else
        match DeepestMember(ms[1..], limit, current)
        case None => None
        case Some(e) => Some(Max(d, e))
  }

  function Bounded(depth: int, limit: int): Option<int> {
    if depth > limit then None else Some(depth)
  }

  /** `json_depth` raises exactly when the height below `current` passes the limit. */
  lemma {:induction false} JsonDepthExact(v: Json, limit: int, current: int)
    ensures JsonDepth(v, limit, current) == Bounded(current + Height(v), limit)
    decreases v, 1
  {
    match v
    case Obj(ms) => if ms != [] { DeepestMemberExact(ms, limit, current + 1); }
    case Arr(items) => if items != [] { DeepestItemExact(items, limit, current + 1); }
    case _ =>
  }

  lemma {:induction false} DeepestItemExact(items: seq<Json>, limit: int, current: int)
    requires items != []
    ensures DeepestItem(items, limit, current) == Bounded(current + ItemsHeight(items), limit)
    decreases items, 0
  {
    JsonDepthExact(items[0], limit, current);
    if |items| > 1 { DeepestItemExact(items[1..], limit, current); }
    else { assert ItemsHeight(items[1..]) == 0; }
  }

  lemma {:induction false} DeepestMemberExact(ms: seq<Member>, limit: int, current: int)
    requires ms != []
    ensures DeepestMember(ms, limit, current) == Bounded(current + MembersHeight(ms), limit)
    decreases ms, 0
  {
    JsonDepthExact(ms[0].value, limit, current);
    if |ms| > 1 { DeepestMemberExact(ms[1..], limit, current); }
    else { assert MembersHeight(ms[1..]) == 0; }
  }

  lemma {:induction false} NormHeight(v: Json)
    ensures Height(Norm(v)) == Height(v)
  {
    match v
    case Arr(items) =>
      var ns := NormItems(items);
      forall i | 0 <= i < |items| ensures Height(ns[i]) == Height(items[i]) { NormHeight(items[i]); }
      forall i | 0 <= i < |items|
        ensures Height(ns[i]) <= ItemsHeight(items) && Height(items[i]) <= ItemsHeight(ns)
      {
        ItemsHeightBound(items, i);
        ItemsHeightBound(ns, i);
      }
      ItemsHeightLeast(ns, ItemsHeight(items));
      ItemsHeightLeast(items, ItemsHeight(ns));
    case Obj(ms) =>
      var ns := SortBy(KeyOf, NormMembers(ms));
      NormMembersContents(ms);
      forall i | 0 <= i < |ns| ensures Height(ns[i].value) <= MembersHeight(ms) {
        assert ns[i] in ns;
        var x :| x in ms && ns[i] == NormMember(x);
        NormHeight(x.value);
        var k :| 0 <= k < |ms| && ms[k] == x;
        MembersHeightBound(ms, k);
      }
      forall i | 0 <= i < |ms| ensures Height(ms[i].value) <= MembersHeight(ns) {
        NormHeight(ms[i].value);
        assert NormMember(ms[i]) in ns;
        var k :| 0 <= k < |ns| && ns[k] == NormMember(ms[i]);
        MembersHeightBound(ns, k);
      }
      MembersHeightLeast(ns, MembersHeight(ms));
      MembersHeightLeast(ms, MembersHeight(ns));
    case _ =>
  }

  // ----- the bounded artifact reader -----

  datatype Refusal = FileTooLarge | NotUtf8 | DuplicateKey | NonFiniteNumber | DecodeError | RootNotObject | DepthLimitExceeded

  datatype Artifact = Accepted(value: Json) | Refused(reason: Refusal)

  /** The text part of `read_json_object_artifact`. */
  function ReadObjectArtifact(text: string, maxDepth: int, floats: FloatReader): Artifact {
    match ReadText(text, true, floats)
    case Repeated => Refused(DuplicateKey)
    case NonFinite => Refused(NonFiniteNumber)
    case Malformed => Refused(DecodeError)
    case Got(v, _) =>
      if !v.Obj? then Refused(RootNotObject)
      else if JsonDepth(v, maxDepth, 0).None? then Refused(DepthLimitExceeded)
      else Accepted(v)
  }

  /** `read_json_object_artifact` on the bytes of a file. */
  function ReadArtifact<B>(raw: seq<B>, decode: seq<B> -> Option<string>, maxBytes: int, maxDepth: int, floats: FloatReader): Artifact {
    if |raw| > maxBytes then Refused(FileTooLarge)
    else
      match decode(raw)
      case None => Refused(NotUtf8)
      case Some(text) => ReadObjectArtifact(text, maxDepth, floats)
  }

  /** Whatever the bytes were, an accepted artifact is a dictionary without repeated keys at
      any depth, no deeper than the bound, and its file no longer than the limit. */
  lemma {:induction false} AcceptedArtifactIsBounded<B>(raw: seq<B>, decode: seq<B> -> Option<string>, maxBytes: int, maxDepth: int, floats: FloatReader)
    requires ReadArtifact(raw, decode, maxBytes, maxDepth, floats).Accepted?
    ensures var v := ReadArtifact(raw, decode, maxBytes, maxDepth, floats).value;
            v.Obj? && WellFormed(v) && Height(v) <= maxDepth && |raw| <= maxBytes
  {
    StrictReaderExactly(decode(raw).value, floats);
    JsonDepthExact(ReadArtifact(raw, decode, maxBytes, maxDepth, floats).value, maxDepth, 0);
  }

  /** The bytes of a canonical text are accepted exactly when they fit the limit and the text
      is of a bounded dictionary; the accepted value is the sorted form of the printed one. */
  lemma {:induction false} ArtifactRoundTrip<B>(v: Json, raw: seq<B>, decode: seq<B> -> Option<string>, maxBytes: int, maxDepth: int, floats: FloatReader)
    requires WellFormed(v) && FloatsRead(v, floats) && decode(raw) == Some(CanonicalText(v))
    ensures var r := ReadArtifact(raw, decode, maxBytes, maxDepth, floats);
            && (r.Accepted? <==> |raw| <= maxBytes && v.Obj? && Height(v) <= maxDepth)
            && (r.Accepted? ==> r.value == Norm(v))
  {
    CanonicalRoundTrip(v, floats);
    ArtifactOfReading(CanonicalText(v), Norm(v), maxDepth, floats);
    NormHeight(v);
  }

  lemma {:induction false} ArtifactOfReading(text: string, v: Json, maxDepth: int, floats: FloatReader)
    requires ReadText(text, true, floats) == Got(v, "")
    ensures ReadObjectArtifact(text, maxDepth, floats) ==
              if !v.Obj? then Refused(RootNotObject)
              else if Height(v) > maxDepth then Refused(DepthLimitExceeded)
              else Accepted(v)
  {
    JsonDepthExact(v, maxDepth, 0);
  }
}
