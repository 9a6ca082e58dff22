/** The slice of JavaScript value semantics the application code relies on:
    plain objects as field maps, truthiness, `String(v)` / template interpolation,
    `s.split('.')`, `parseInt(s, 10)`, `startsWith` and `includes`. */
module JsValues {

  /** A value held in a form field or a stored document. `undefined` is the
      absence of a key, so it has no constructor of its own. */
  datatype Value =
    | Text(s: string)
    | Number(n: int)
    | NaN
    | Stamp(seconds: nat)
    | Texts(items: seq<string>)
    | Record(fields: map<string, Value>)

  /** 2^53: a JavaScript number, a double, holds every integer of at most this
      magnitude exactly; `Number(n)` stands for such an integer. */
  const ExactIntegerBound: int := 0x20_0000_0000_0000

  /** A plain object: its own enumerable keys and their values. */
  type Fields = map<string, Value>

  /** JavaScript truthiness: the empty string, 0 and NaN are falsy; strings,
      other numbers, arrays and objects are truthy. */
  predicate Truthy(v: Value) {
    match v
    case Text(s) => s != ""
    case Number(n) => n != 0
    case NaN => false
    case _ => true
  }

  /** `obj.key` used as a condition: an absent key reads as `undefined`, which is falsy. */
  predicate FieldTruthy(obj: Fields, key: string) {
    key in obj && Truthy(obj[key])
  }

  // ---------------------------------------------------------------------------
  // Decimal digits

  predicate IsDigit(c: char) {
    '0' <= c <= '9'
  }

  predicate AllDigits(s: string) {
    forall i :: 0 <= i < |s| ==> IsDigit(s[i])
  }

  function DigitChar(d: nat): (c: char)
    requires d < 10
    ensures IsDigit(c)
  {
    ('0' as int + d) as char
  }

  function DigitValue(c: char): (d: nat)
    requires IsDigit(c)
    ensures d < 10
  {
    c as int - '0' as int
  }

  /** The shortest decimal spelling of a natural number. */
  function NatDigits(n: nat): (r: string)
    ensures 1 <= |r| && AllDigits(r)
  {
    if n < 10 then [DigitChar(n)] else NatDigits(n / 10) + [DigitChar(n % 10)]
  }

  /** `String(n)` for an integer-valued number. */
  function Decimal(n: int): string {
    if n < 0 then "-" + NatDigits(-n) else NatDigits(n)
  }

  /** The number a string of decimal digits denotes, most significant digit first. */
  function DigitsValue(s: string): nat
    requires AllDigits(s)
  {
    if s == [] then 0 else DigitsValue(s[..|s| - 1]) * 10 + DigitValue(s[|s| - 1])
  }

  lemma {:induction false} DigitsValueOfNatDigits(n: nat)
    ensures DigitsValue(NatDigits(n)) == n
  {
    if n >= 10 {
      var d := NatDigits(n / 10) + [DigitChar(n % 10)];
      assert d[..|d| - 1] == NatDigits(n / 10);
      DigitsValueOfNatDigits(n / 10);
    }
  }

  // ---------------------------------------------------------------------------
  // parseInt(s, 10)

  /** The white-space and line-terminator characters that `parseInt` skips. */
  predicate IsJsSpace(c: char) {
    c in {' ', '\t', '\n', '\r', '\U{000B}', '\U{000C}', '\U{00A0}', '\U{FEFF}',
          '\U{1680}', '\U{2000}', '\U{2001}', '\U{2002}', '\U{2003}', '\U{2004}', '\U{2005}', '\U{2006}',
          '\U{2007}', '\U{2008}', '\U{2009}', '\U{200A}', '\U{2028}', '\U{2029}', '\U{202F}', '\U{205F}',
          '\U{3000}'}
  }

  function TrimStart(s: string): (r: string)
    ensures |r| <= |s| && r == s[|s| - |r|..]
    ensures r == [] || !IsJsSpace(r[0])
  {
    if s != [] && IsJsSpace(s[0]) then TrimStart(s[1..]) else s
  }

  /** The length of the run of decimal digits at the start of `s`. */
  function LeadingDigits(s: string): (k: nat)
    ensures k <= |s| && AllDigits(s[..k])
    ensures k < |s| ==> !IsDigit(s[k])
  {
    if s != [] && IsDigit(s[0]) then
      var k := 1 + LeadingDigits(s[1..]);
      assert s[..k] == [s[0]] + s[1..][..k - 1];
      k
    else 0
  }

  /** `parseInt(s, 10)`: skip leading white space, read an optional sign and the
      longest run of digits; no digits at all gives NaN. */
  function ParseInt(s: string): (v: Value)
    ensures v.Number? || v.NaN?
  {
    var t := TrimStart(s);
    var negative := t != [] && t[0] == '-';
    var body := if t != [] && (t[0] == '-' || t[0] == '+') then t[1..] else t;
    var k := LeadingDigits(body);
    if k == 0 then NaN
    else if negative then Number(-(DigitsValue(body[..k]) as int))
    else Number(DigitsValue(body[..k]))
  }

  lemma {:induction false} LeadingDigitsOfDigits(d: string, rest: string)
    requires AllDigits(d)
    requires rest == [] || !IsDigit(rest[0])
    ensures LeadingDigits(d + rest) == |d|
  {
    if d != [] {
      assert (d + rest)[1..] == d[1..] + rest;
      LeadingDigitsOfDigits(d[1..], rest);
    } else {
      assert d + rest == rest;
    }
  }

  /** `parseInt` reads back what `String` wrote, whatever non-digit text follows it:
      `parseInt("587")` is 587 and so is `parseInt("587 TLS")`. */
  lemma {:induction false} ParseIntOfDecimal(n: int, rest: string)
    requires rest == [] || !IsDigit(rest[0])
    ensures ParseInt(Decimal(n) + rest) == Number(n)
  {
    var m: nat := if n < 0 then -n else n;
    var d := NatDigits(m);
    ParseIntOfDigits(d, rest);
    DigitsValueOfNatDigits(m);
    if n < 0 {
      assert Decimal(n) == "-" + d;
      ConcatAssoc("-", d, rest);
      assert Decimal(n) + rest == "-" + (d + rest);
    } else {
      assert Decimal(n) == d;
    }
  }

  /** `parseInt` of a run of digits, with or without a minus sign, followed by
      text that does not continue the run. */
  lemma ParseIntOfDigits(d: string, rest: string)
    requires 1 <= |d| && AllDigits(d)
    requires rest == [] || !IsDigit(rest[0])
    ensures ParseInt(d + rest) == Number(DigitsValue(d))
    ensures ParseInt("-" + (d + rest)) == Number(-(DigitsValue(d) as int))
  {
    var s := d + rest;
    assert s[0] == d[0];
    NothingToTrim(s);
    ReadDigits(s, s, d, rest, false);
    var t := "-" + s;
    assert t[0] == '-' && t[1..] == s;
    NothingToTrim(t);
    ReadDigits(t, s, d, rest, true);
  }

  lemma ConcatAssoc(a: string, b: string, c: string)
    ensures (a + b) + c == a + (b + c)
  {
  }

  /** A text starting with a sign or a digit has no leading white space. */
  lemma NothingToTrim(s: string)
    requires s != [] && (s[0] == '-' || IsDigit(s[0]))
    ensures TrimStart(s) == s
  {
  }

  /** The last step of `parseInt`: once the sign is consumed, the digits are read. */
  lemma ReadDigits(t: string, body: string, d: string, rest: string, negative: bool)
    requires TrimStart(t) == t && t != []
    requires negative <==> t[0] == '-'
    requires t[0] != '+'
    requires body == if negative then t[1..] else t
    requires body == d + rest && 1 <= |d| && AllDigits(d)
    requires rest == [] || !IsDigit(rest[0])
    ensures ParseInt(t) == if negative then Number(-(DigitsValue(d) as int)) else Number(DigitsValue(d))
  {
    LeadingDigitsOfDigits(d, rest);
    assert LeadingDigits(body) == |d|;
    assert body[..|d|] == d;
  }

  // ---------------------------------------------------------------------------
  // String(v), split, join

  /** `a.join(sep)`; the empty array joins to "". */
  function Join(parts: seq<string>, sep: string): string {
    if parts == [] then ""
    else if |parts| == 1 then parts[0]
    else parts[0] + sep + Join(parts[1..], sep)
  }

  /** `String(v)`, which is also what a template literal `${v}` inserts. */
  function ToJsString(v: Value): string {
    match v
    case Text(s) => s
    case Number(n) => Decimal(n)
    case NaN => "NaN"
    case Stamp(t) => "Timestamp(seconds=" + Decimal(t) + ", nanoseconds=0)"
    case Texts(items) => Join(items, ",")
    case Record(_) => "[object Object]"
  }

  /** `s.split(sep)` for a one-character separator. */
  function Split(s: string, sep: char): (parts: seq<string>)
    ensures |parts| >= 1
    ensures forall i :: 0 <= i < |parts| ==> sep !in parts[i]
    ensures |parts| > 1 <==> sep in s
  {
    if s == [] then [""]
    else
      var rest := Split(s[1..], sep);
      if s[0] == sep then [""] + rest
      else [[s[0]] + rest[0]] + rest[1..]
  }

  /** Splitting and joining again with the same separator gives back the string. */
  lemma {:induction false} JoinSplit(s: string, sep: char)
    ensures Join(Split(s, sep), [sep]) == s
  {
    if s != [] {
      var rest := Split(s[1..], sep);
      JoinSplit(s[1..], sep);
      if s[0] == sep {
        assert Join([""] + rest, [sep]) == "" + [sep] + Join(rest, [sep]);
      } else {
        var parts := [[s[0]] + rest[0]] + rest[1..];
        if |rest| == 1 {
          assert parts == [[s[0]] + rest[0]];
        } else {
          assert parts[1..] == rest[1..];
          assert Join(rest, [sep]) == rest[0] + [sep] + Join(rest[1..], [sep]);
        }
      }
    }
  }

  // ---------------------------------------------------------------------------
  // startsWith, includes

  predicate StartsWith(s: string, prefix: string) {
    |prefix| <= |s| && s[..|prefix|] == prefix
  }

  /** `sub` occurs in `s` starting at position `i`. */
  predicate OccursAt(s: string, sub: string, i: int) {
    0 <= i <= |s| - |sub| && s[i..i + |sub|] == sub
  }

  /** `s.includes(sub)`. */
  function Contains(s: string, sub: string): (r: bool)
    ensures r <==> exists i :: OccursAt(s, sub, i)
  {
    if StartsWith(s, sub) then
      assert OccursAt(s, sub, 0);
      true
    else if s == [] then
      assert forall i :: !OccursAt(s, sub, i);
      false
    else
      ContainsStep(s, sub);
      Contains(s[1..], sub)
  }

  /** Past a position where `sub` does not start, an occurrence in `s` is an
      occurrence in `s[1..]`, shifted by one. */
  lemma ContainsStep(s: string, sub: string)
    requires s != [] && !StartsWith(s, sub)
    ensures (exists i :: OccursAt(s, sub, i)) <==> (exists i :: OccursAt(s[1..], sub, i))
  {
    if i :| OccursAt(s, sub, i) {
      assert i != 0;
      assert s[1..][i - 1..i - 1 + |sub|] == s[i..i + |sub|];
      assert OccursAt(s[1..], sub, i - 1);
    }
    if i :| OccursAt(s[1..], sub, i) {
      assert s[i + 1..i + 1 + |sub|] == s[1..][i..i + |sub|];
      assert OccursAt(s, sub, i + 1);
    }
  }
}
