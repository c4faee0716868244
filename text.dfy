/** String helpers standing for the JavaScript built-ins the webhook uses:
    `String.prototype.includes`, `toUpperCase`/`toLowerCase` (ASCII letters),
    `Array.prototype.join`, `Array.prototype.push` under a condition, and
    `parseInt` on a run of decimal digits. */
module Text {

  /** `t` occurs in `s` at some position (`s.includes(t)`). */
  predicate Contains(s: string, t: string)
  {
    exists i :: 0 <= i <= |s| && t <= s[i..]
  }

  /** `t` is a suffix of `s`. */
  predicate EndsWith(s: string, t: string)
  {
    |t| <= |s| && s[|s| - |t|..] == t
  }

  /** Text stays contained when more is appended. */
  lemma ContainsExtend(s: string, t: string, u: string)
    requires Contains(s, t)
    ensures Contains(s + u, t)
  {
    var i :| 0 <= i <= |s| && t <= s[i..];
    assert (s + u)[i..] == s[i..] + u;
  }

  lemma ContainsConcat(a: string, t: string, b: string)
    ensures Contains(a + t + b, t)
  {
    var s := a + t + b;
    assert s[|a|..] == t + b;
    assert t <= s[|a|..];
  }

  predicate IsAsciiLower(c: char) { 'a' <= c <= 'z' }
  predicate IsAsciiUpper(c: char) { 'A' <= c <= 'Z' }

  function UpperChar(c: char): (r: char)
    ensures !IsAsciiLower(r)
    ensures IsAsciiLower(c) ==> IsAsciiUpper(r) && r as int == c as int - 32
    ensures !IsAsciiLower(c) ==> r == c
  {
    if IsAsciiLower(c) then (c as int - 32) as char else c
  }

  function LowerChar(c: char): (r: char)
    ensures !IsAsciiUpper(r)
    ensures IsAsciiUpper(c) ==> IsAsciiLower(r) && r as int == c as int + 32
    ensures !IsAsciiUpper(c) ==> r == c
  {
    if IsAsciiUpper(c) then (c as int + 32) as char else c
  }

  /** `toUpperCase` restricted to ASCII letters: each lower-case letter
      becomes its capital, every other character is kept. */
  function Upper(s: string): (r: string)
    ensures |r| == |s|
    ensures forall i :: 0 <= i < |r| ==> !IsAsciiLower(r[i])
    ensures forall i :: 0 <= i < |s| && IsAsciiLower(s[i]) ==> r[i] as int == s[i] as int - 32
    ensures forall i :: 0 <= i < |s| && !IsAsciiLower(s[i]) ==> r[i] == s[i]
  {
    seq(|s|, i requires 0 <= i < |s| => UpperChar(s[i]))
  }

  /** `toLowerCase` restricted to ASCII letters: each capital becomes its
      lower-case letter, every other character is kept. */
  function Lower(s: string): (r: string)
    ensures |r| == |s|
    ensures forall i :: 0 <= i < |r| ==> !IsAsciiUpper(r[i])
    ensures forall i :: 0 <= i < |s| && IsAsciiUpper(s[i]) ==> r[i] as int == s[i] as int + 32
    ensures forall i :: 0 <= i < |s| && !IsAsciiUpper(s[i]) ==> r[i] == s[i]
  {
    seq(|s|, i requires 0 <= i < |s| => LowerChar(s[i]))
  }

  /** `pieces.join(sep)`. */
  function Join(pieces: seq<string>, sep: string): (r: string)
    ensures |pieces| == 0 ==> r == ""
    ensures |pieces| == 1 ==> r == pieces[0]
    ensures |pieces| > 0 ==> pieces[0] <= r
    decreases |pieces|
  {
    if |pieces| == 0 then ""
    else if |pieces| == 1 then pieces[0]
    else pieces[0] + sep + Join(pieces[1..], sep)
  }

  /** `pieces.join('')`: the pieces one after the other, in order. */
  function Concat(pieces: seq<string>): (r: string)
    decreases |pieces|
  {
    if |pieces| == 0 then "" else Concat(pieces[..|pieces| - 1]) + pieces[|pieces| - 1]
  }

  /** Each piece with the separator in front of it. */
  function Separated(pieces: seq<string>, sep: string): (r: seq<string>)
    ensures |r| == |pieces|
    ensures forall i :: 0 <= i < |pieces| ==> r[i] == sep + pieces[i]
  {
    seq(|pieces|, i requires 0 <= i < |pieces| => sep + pieces[i])
  }

  /** `join` puts the separator between consecutive pieces and nowhere else:
      the first piece, then every later piece preceded by the separator. */
  lemma {:induction false} JoinSeparated(pieces: seq<string>, sep: string)
    requires |pieces| > 0
    ensures Join(pieces, sep) == pieces[0] + Concat(Separated(pieces[1..], sep))
    decreases |pieces|
  {
    if |pieces| == 1 {
      assert Separated(pieces[1..], sep) == [];
    } else {
      var rest := pieces[1..];
      JoinSeparated(rest, sep);
      assert rest[1..] == pieces[2..];
      assert Separated(rest, sep) == [sep + rest[0]] + Separated(rest[1..], sep);
      ConcatAppend([sep + rest[0]], Separated(rest[1..], sep));
      assert Concat([sep + rest[0]]) == Concat([]) + (sep + rest[0]);
    }
  }

  /** Concatenation distributes over splitting the list of pieces. */
  lemma {:induction false} ConcatAppend(a: seq<string>, b: seq<string>)
    ensures Concat(a + b) == Concat(a) + Concat(b)
    decreases |b|
  {
    if |b| == 0 {
      assert a + b == a;
    } else {
      var b' := b[..|b| - 1];
      assert (a + b)[..|a + b| - 1] == a + b';
      ConcatAppend(a, b');
    }
  }

  /** Piece `i` appears in the concatenation right after the pieces before it. */
  lemma PieceAt(pieces: seq<string>, i: nat)
    requires i < |pieces|
    ensures var off := |Concat(pieces[..i])|;
      off + |pieces[i]| <= |Concat(pieces)| &&
      Concat(pieces)[off..off + |pieces[i]|] == pieces[i]
  {
    var before, after := pieces[..i], pieces[i + 1..];
    assert pieces == before + [pieces[i]] + after;
    ConcatAppend(before + [pieces[i]], after);
    ConcatAppend(before, [pieces[i]]);
    assert Concat([pieces[i]]) == pieces[i] by {
      assert [pieces[i]][..0] == [];
    }
  }

  /** `list` with `x` pushed onto it when `condition` holds. */
  function PushIf<T>(list: seq<T>, condition: bool, x: T): (r: seq<T>)
    ensures condition ==> r == list + [x]
    ensures !condition ==> r == list
  {
    if condition then list + [x] else list
  }

  predicate IsDigit(c: char) { '0' <= c <= '9' }

  function DigitValue(c: char): (r: nat)
    requires IsDigit(c)
    ensures r < 10
  {
    c as int - '0' as int
  }

  function DigitChar(d: nat): (c: char)
    requires d < 10
    ensures IsDigit(c) && DigitValue(c) == d
  {
    ('0' as int + d) as char
  }

  /** `parseInt` of a string made only of decimal digits. */
  function ParseDecimal(s: string): (r: nat)
    requires forall i :: 0 <= i < |s| ==> IsDigit(s[i])
    decreases |s|
  {
    if |s| == 0 then 0 else ParseDecimal(s[..|s| - 1]) * 10 + DigitValue(s[|s| - 1])
  }

  function Pow10(n: nat): (r: nat)
    ensures r >= 1
  {
    if n == 0 then 1 else 10 * Pow10(n - 1)
  }

  /** `n` written with exactly `width` decimal digits, zero-padded on the left. */
  function Digits(n: nat, width: nat): (r: string)
    requires n < Pow10(width)
    ensures |r| == width
    ensures forall i :: 0 <= i < |r| ==> IsDigit(r[i])
  {
    if width == 0 then "" else Digits(n / 10, width - 1) + [DigitChar(n % 10)]
  }

  /** Reading back a zero-padded decimal gives the number written. */
  lemma {:induction false} ParseDigits(n: nat, width: nat)
    requires n < Pow10(width)
    ensures ParseDecimal(Digits(n, width)) == n
  {
    if width > 0 {
      var s := Digits(n, width);
      assert s[..|s| - 1] == Digits(n / 10, width - 1);
      ParseDigits(n / 10, width - 1);
    }
  }

  /** A decimal of at most `k` digits is below 10^k. */
  lemma {:induction false} ParseDecimalBound(s: string)
    requires forall i :: 0 <= i < |s| ==> IsDigit(s[i])
    ensures ParseDecimal(s) < Pow10(|s|)
    decreases |s|
  {
    if |s| > 0 {
      ParseDecimalBound(s[..|s| - 1]);
    }
  }

  /** Property names every JavaScript object literal inherits from
      `Object.prototype`; looking one of them up on a plain object yields a
      function or object, never `undefined`. */
  const InheritedKeys: set<string> := {
    "constructor", "__defineGetter__", "__defineSetter__", "hasOwnProperty",
    "__lookupGetter__", "__lookupSetter__", "isPrototypeOf", "propertyIsEnumerable",
    "toString", "valueOf", "__proto__", "toLocaleString"
  }
}
