/** Shared vocabulary of the model: failure-carrying results, the JavaScript
    values the services exchange, and the handful of string and number
    conversions of the JavaScript runtime the source relies on
    (`toLowerCase`, `includes`, `startsWith`, `trim`, `String(n)`, `parseInt`). */
module Common {

  datatype Option<+T> = None | Some(value: T)

  /** The value of an argument with a default: `None` is an omitted argument. */
  function OrDefault<T>(o: Option<T>, default: T): T {
    if o.Some? then o.value else default
  }

  /** A service call either yields a value or throws an `Error` with a message. */
  datatype Result<+T> = Ok(value: T) | Err(message: string)

  /** A JSON-like JavaScript value, as stored in the settings record and in
      free-form step configurations. Numbers are integral in this model. */
  datatype Value =
    | Null
    | Bool(b: bool)
    | Num(n: int)
    | Str(s: string)
    | Arr(items: seq<Value>)
    | Obj(fields: map<string, Value>)

  /** JavaScript truthiness: `null`, `false`, `0` and `''` are falsy; arrays and
      objects, even empty ones, are truthy. */
  predicate Truthy(v: Value) {
    match v
    case Null => false
    case Bool(b) => b
    case Num(n) => n != 0
    case Str(s) => s != ""
    case Arr(_) => true
    case Obj(_) => true
  }

  /** An identifier as a caller hands it over: a number, or a string such as a
      route parameter. Strict equality (`===`) never equates the two kinds. */
  datatype JsId = Number(n: int) | Text(t: string)

  /** `x.Id === id` for a numeric `Id`. */
  predicate StrictEqualsId(id: JsId, n: int) {
    id.Number? && id.n == n
  }

  // ---------------------------------------------------------------- strings

  /** `toLowerCase` on one character (the ASCII letters; other characters are kept). */
  function LowerChar(c: char): char {
    if 'A' <= c <= 'Z' then (c as int + 32) as char else c
  }

  function Lower(s: string): (r: string)
    ensures |r| == |s|
    ensures forall i :: 0 <= i < |s| ==> r[i] == LowerChar(s[i])
  {
    if s == [] then [] else [LowerChar(s[0])] + Lower(s[1..])
  }

  /** Lower-casing twice is lower-casing once. */
  lemma LowerIsIdempotent(s: string)
    ensures Lower(Lower(s)) == Lower(s)
  {
  }

  predicate StartsWith(s: string, prefix: string) {
    |prefix| <= |s| && s[..|prefix|] == prefix
  }

  /** `hay.includes(needle)`: the needle occurs at the front, or further on. */
  predicate Contains(hay: string, needle: string)
    decreases |hay|
  {
    StartsWith(hay, needle) || (hay != [] && Contains(hay[1..], needle))
  }

  /** The needle occurs in `hay` starting at position `i`. */
  predicate OccursAt(hay: string, needle: string, i: int) {
    0 <= i && i + |needle| <= |hay| && hay[i..i + |needle|] == needle
  }

  /** `includes` holds exactly when the needle occurs at some position. */
  lemma {:induction false} ContainsIffOccurs(hay: string, needle: string)
    ensures Contains(hay, needle) <==> exists i :: OccursAt(hay, needle, i)
    decreases |hay|
  {
    if StartsWith(hay, needle) {
      assert OccursAt(hay, needle, 0);
    } else if hay != [] {
      ContainsIffOccurs(hay[1..], needle);
      if Contains(hay[1..], needle) {
        var i :| OccursAt(hay[1..], needle, i);
        assert hay[i + 1..i + 1 + |needle|] == hay[1..][i..i + |needle|];
        assert OccursAt(hay, needle, i + 1);
      }
      if exists i :: OccursAt(hay, needle, i) {
        var i :| OccursAt(hay, needle, i);
        assert i != 0;
        assert hay[1..][i - 1..i - 1 + |needle|] == hay[i..i + |needle|];
        assert OccursAt(hay[1..], needle, i - 1);
      }
    }
  }

  /** The empty string occurs in every string. */
  lemma ContainsEmpty(hay: string)
    ensures Contains(hay, "")
  {
    assert StartsWith(hay, "");
  }

  /** JavaScript's WhiteSpace and LineTerminator characters, the ones `trim` removes. */
  predicate IsWhitespace(c: char) {
    var k := c as int;
    k == 0x09 || k == 0x0A || k == 0x0B || k == 0x0C || k == 0x0D || k == 0x20 ||
    k == 0xA0 || k == 0x1680 || (0x2000 <= k <= 0x200A) || k == 0x2028 || k == 0x2029 ||
    k == 0x202F || k == 0x205F || k == 0x3000 || k == 0xFEFF
  }

  /** `s` without its leading whitespace. */
  function TrimStart(s: string): string {
    if s != [] && IsWhitespace(s[0]) then TrimStart(s[1..]) else s
  }

  /** `s` without its trailing whitespace. */
  function TrimEnd(s: string): string {
    if s != [] && IsWhitespace(s[|s| - 1]) then TrimEnd(s[..|s| - 1]) else s
  }

  /** `TrimStart` drops a prefix made only of whitespace, and no more. */
  lemma {:induction false} TrimStartDropsSpace(s: string)
    ensures var r := TrimStart(s);
      && |r| <= |s| && r == s[|s| - |r|..]
      && (r != [] ==> !IsWhitespace(r[0]))
      && (forall i :: 0 <= i < |s| - |r| ==> IsWhitespace(s[i]))
  {
    if s != [] && IsWhitespace(s[0]) {
      var t := s[1..];
      TrimStartDropsSpace(t);
      var r := TrimStart(t);
      assert TrimStart(s) == r;
      assert t[|t| - |r|..] == s[|s| - |r|..];
      forall i | 0 <= i < |s| - |r|
        ensures IsWhitespace(s[i])
      {
        if i > 0 {
          assert s[i] == t[i - 1];
        }
      }
    }
  }

  /** `TrimEnd` drops a suffix made only of whitespace, and no more. */
  lemma {:induction false} TrimEndDropsSpace(s: string)
    ensures var r := TrimEnd(s);
      && |r| <= |s| && r == s[..|r|]
      && (r != [] ==> !IsWhitespace(r[|r| - 1]))
      && (forall i :: |r| <= i < |s| ==> IsWhitespace(s[i]))
  {
    if s != [] && IsWhitespace(s[|s| - 1]) {
      var t := s[..|s| - 1];
      TrimEndDropsSpace(t);
      var r := TrimEnd(t);
      assert TrimEnd(s) == r;
      assert t[..|r|] == s[..|r|];
      forall i | |r| <= i < |s|
        ensures IsWhitespace(s[i])
      {
        if i < |s| - 1 {
          assert s[i] == t[i];
        }
      }
    }
  }

  /** `s.trim()`. */
  function Trim(s: string): string {
    TrimEnd(TrimStart(s))
  }

  /** Every character is whitespace (so the string is empty after `trim`). */
  predicate IsBlank(s: string) {
    forall i :: 0 <= i < |s| ==> IsWhitespace(s[i])
  }

  /** `!s.trim()` holds exactly for the blank strings. */
  lemma TrimEmptyIffBlank(s: string)
    ensures Trim(s) == "" <==> IsBlank(s)
  {
    var t := TrimStart(s);
    TrimStartDropsSpace(s);
    TrimEndDropsSpace(t);
    if Trim(s) == "" {
      assert t == [];
    } else {
      assert t != [] && !IsWhitespace(t[0]);
      assert s[|s| - |t|] == t[0];
    }
  }

  // ---------------------------------------------------------------- numbers

  function DigitChar(d: nat): (c: char)
    requires d < 10
    ensures '0' <= c <= '9'
  {
    (48 + d) as char
  }

  /** `String(n)` for a non-negative integer: its decimal digits, most significant first. */
  function NatToString(n: nat): (r: string)
    ensures |r| >= 1
    ensures forall i :: 0 <= i < |r| ==> '0' <= r[i] <= '9'
    ensures n > 0 ==> r[0] != '0'
    ensures n < 10 <==> |r| == 1
  {
    if n < 10 then [DigitChar(n)] else NatToString(n / 10) + [DigitChar(n % 10)]
  }

  /** `String(n)`. */
  function IntToString(n: int): string {
    if n < 0 then "-" + NatToString(-n) else NatToString(n)
  }

  /** The value of `c` as a digit in `radix` (10 or 16), or -1 when it is not one. */
  function DigitOf(c: char, radix: nat): (d: int)
    ensures -1 <= d < radix || (d < 16 && radix < 16)
  {
    if '0' <= c <= '9' && (c as int - 48) < radix then c as int - 48
    else if radix == 16 && 'a' <= c <= 'f' then c as int - 87
    else if radix == 16 && 'A' <= c <= 'F' then c as int - 55
    else -1
  }

  /** Length of the longest prefix of `s` made of `radix` digits. */
  function DigitRun(s: string, radix: nat): (k: nat)
    ensures k <= |s|
    ensures forall i :: 0 <= i < k ==> DigitOf(s[i], radix) >= 0
    ensures k < |s| ==> DigitOf(s[k], radix) < 0
  {
    if s != [] && DigitOf(s[0], radix) >= 0 then 1 + DigitRun(s[1..], radix) else 0
  }

  lemma NatProductIsNat(a: nat, b: nat)
    ensures a * b >= 0
  {
  }

  /** The number a string of digits denotes, read most significant digit first. */
  function DigitsValue(s: string, radix: nat): nat
    requires forall i :: 0 <= i < |s| ==> DigitOf(s[i], radix) >= 0
  {
    if s == [] then 0
    else
      var prefix := s[..|s| - 1];
      assert forall i :: 0 <= i < |prefix| ==> prefix[i] == s[i];
      var v: nat := DigitsValue(prefix, radix);
      assert v * radix >= 0 by { NatProductIsNat(v, radix); }
      v * radix + DigitOf(s[|s| - 1], radix)
  }

  /** The unsigned part of `parseInt`: a `0x`/`0X` prefix switches to
      hexadecimal, then the longest run of digits is read; no digits at all
      gives `NaN`, represented by `None`. */
  function ParseUnsigned(u: string): Option<nat> {
    var hex := |u| >= 2 && u[0] == '0' && (u[1] == 'x' || u[1] == 'X');
    var radix := if hex then 16 else 10;
    var body := if hex then u[2..] else u;
    var k := DigitRun(body, radix);
    if k == 0 then None else Some(DigitsValue(body[..k], radix))
  }

  /** `parseInt(s)` with no radix: skip leading whitespace, then read a
      signed number. */
  function ParseInt(s: string): Option<int> {
    ParseSigned(TrimStart(s))
  }

  /** An optional sign, then the unsigned part. */
  function ParseSigned(t: string): Option<int> {
    if t != [] && t[0] == '-' then Negated(ParseUnsigned(t[1..]))
    else if t != [] && t[0] == '+' then Widened(ParseUnsigned(t[1..]))
    else Widened(ParseUnsigned(t))
  }

  function Widened(r: Option<nat>): Option<int> {
    if r.Some? then Some(r.value) else None
  }

  function Negated(r: Option<nat>): Option<int> {
    if r.Some? then Some(-(r.value as int)) else None
  }

  /** `parseInt(id)`: a number argument is first converted with `String`. */
  function ParseIntArg(id: JsId): Option<int> {
    match id
    case Number(n) => ParseInt(IntToString(n))
    case Text(t) => ParseInt(t)
  }

  lemma {:induction false} DigitsValueOfNatToString(n: nat)
    ensures DigitsValue(NatToString(n), 10) == n
  {
    var s := NatToString(n);
    if n >= 10 {
      DigitsValueOfNatToString(n / 10);
      assert s[..|s| - 1] == NatToString(n / 10);
    }
  }

  /** A string made only of digits is read to its end. */
  lemma {:induction false} DigitRunOfDigits(s: string, radix: nat)
    requires forall i :: 0 <= i < |s| ==> DigitOf(s[i], radix) >= 0
    ensures DigitRun(s, radix) == |s|
  {
    if s != [] {
      DigitRunOfDigits(s[1..], radix);
    }
  }

  lemma ParseUnsignedOfNatToString(m: nat)
    ensures ParseUnsigned(NatToString(m)) == Some(m)
  {
    var digits := NatToString(m);
    DigitsValueOfNatToString(m);
    assert !(|digits| >= 2 && digits[0] == '0');
    DigitRunOfDigits(digits, 10);
    assert digits[..|digits|] == digits;
  }

  /** Without leading space or sign, `parseInt` is the unsigned reading. */
  lemma ParseIntOfUnsigned(s: string)
    requires s != [] && !IsWhitespace(s[0]) && s[0] != '-' && s[0] != '+'
    ensures ParseInt(s) == Widened(ParseUnsigned(s))
  {
    assert TrimStart(s) == s;
  }

  /** A leading minus negates the unsigned reading of the rest. */
  lemma ParseIntOfMinus(u: string)
    ensures ParseInt("-" + u) == Negated(ParseUnsigned(u))
  {
    var s := "-" + u;
    assert TrimStart(s) == s by { assert !IsWhitespace(s[0]); }
    assert s[1..] == u;
  }

  lemma ParseIntOfNatToString(m: nat)
    ensures ParseInt(NatToString(m)) == Some(m)
  {
    var s := NatToString(m);
    ParseUnsignedOfNatToString(m);
    ParseIntOfUnsigned(s);
  }

  lemma ParseIntOfNegativeToString(n: int)
    requires n < 0
    ensures ParseInt(IntToString(n)) == Some(n)
  {
    var m: nat := -n;
    ParseUnsignedOfNatToString(m);
    ParseIntOfMinus(NatToString(m));
    assert IntToString(n) == "-" + NatToString(m);
  }

  /** Reading back the decimal form of a number gives the number again. */
  lemma ParseIntOfIntToString(n: int)
    ensures ParseInt(IntToString(n)) == Some(n)
  {
    if n < 0 {
      ParseIntOfNegativeToString(n);
    } else {
      ParseIntOfNatToString(n);
    }
  }

  /** A numeric argument to `parseInt` comes back unchanged. */
  lemma ParseIntArgOfNumber(n: int)
    ensures ParseIntArg(Number(n)) == Some(n)
  {
    ParseIntOfIntToString(n);
  }
}
