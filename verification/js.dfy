/**
  The few JavaScript value operations the bot's logic depends on, written out
  with their JavaScript meaning: `undefined`, truthiness of strings,
  `String.prototype.split` / `Array.prototype.join` with a one-character
  separator, `slice`, number-to-string in template literals and `parseInt`.
 */
module Js {

  /** A value that may be `undefined`. */
  datatype Option<+T> = None | Some(value: T)

  /** JavaScript truthiness of a string that may be `undefined`: only a non-empty string is truthy. */
  predicate Truthy(s: Option<string>) {
    s.Some? && s.value != ""
  }

  /** `String(v)`, as a template literal or a property key renders it: `undefined` becomes "undefined". */
  function ToText(v: Option<string>): string
  {
    if v.None? then "undefined" else v.value
  }

  // ---------------------------------------------------------------------------
  // split / join

  /** `s.split(sep)`: the pieces between separators, always at least one (`"".split(" ")` is `[""]`). */
  function Split(s: string, sep: char): (parts: seq<string>)
    ensures |parts| >= 1
    ensures forall i :: 0 <= i < |parts| ==> sep !in parts[i]
  {
    if s == [] then [""]
    else
      var rest := Split(s[1..], sep);
      if s[0] == sep then [""] + rest
      else [[s[0]] + rest[0]] + rest[1..]
  }

  /** `parts.join(sep)`; `[].join(sep)` is the empty string. */
  function Join(parts: seq<string>, sep: char): string
  {
    if |parts| == 0 then ""
    else if |parts| == 1 then parts[0]
    else parts[0] + [sep] + Join(parts[1..], sep)
  }

  /** Joining the pieces of a split gives the original string back. */
  lemma {:induction false} JoinSplit(s: string, sep: char)
    ensures Join(Split(s, sep), sep) == s
  {
    if s != [] {
      JoinSplit(s[1..], sep);
      var rest := Split(s[1..], sep);
      if s[0] != sep {
        if |rest| > 1 {
          assert Join(rest, sep) == rest[0] + [sep] + Join(rest[1..], sep);
          assert Split(s, sep)[1..] == rest[1..];
        }
      }
    }
  }

  /** A string without the separator splits into itself. */
  lemma {:induction false} SplitNoSeparator(s: string, sep: char)
    requires sep !in s
    ensures Split(s, sep) == [s]
  {
    if s != [] {
      SplitNoSeparator(s[1..], sep);
      assert [s[0]] + s[1..] == s;
    }
  }

  /** Splitting distributes over a separator: `(a + sep + b).split(sep)` is `a.split(sep)` followed by `b.split(sep)`. */
  lemma {:induction false} SplitAround(a: string, sep: char, b: string)
    ensures Split(a + [sep] + b, sep) == Split(a, sep) + Split(b, sep)
  {
    if a == [] {
      assert a + [sep] + b == [sep] + b;
      SplitCons(sep, b, sep);
    } else {
      SplitAround(a[1..], sep, b);
      SplitAroundStep(a, sep, b);
    }
  }

  /** The inductive step of `SplitAround`: from the string without its first character to the whole. */
  lemma SplitAroundStep(a: string, sep: char, b: string)
    requires a != []
    requires Split(a[1..] + [sep] + b, sep) == Split(a[1..], sep) + Split(b, sep)
    ensures Split(a + [sep] + b, sep) == Split(a, sep) + Split(b, sep)
  {
    var tail := a[1..] + [sep] + b;
    assert a + [sep] + b == [a[0]] + tail;
    assert a == [a[0]] + a[1..];
    SplitCons(a[0], tail, sep);
    SplitCons(a[0], a[1..], sep);
    ConsAround(a[0], Split(a[1..], sep), Split(b, sep), sep);
  }

  /** The list algebra behind `SplitAroundStep`. */
  lemma ConsAround(c: char, rest: seq<string>, right: seq<string>, sep: char)
    requires |rest| >= 1
    ensures (if c == sep then [""] + (rest + right) else [[c] + (rest + right)[0]] + (rest + right)[1..])
         == (if c == sep then [""] + rest else [[c] + rest[0]] + rest[1..]) + right
  {
    if c != sep {
      assert (rest + right)[1..] == rest[1..] + right;
    }
  }

  /** One step of `Split`, from the first character. */
  lemma SplitCons(c: char, s: string, sep: char)
    ensures Split([c] + s, sep) == if c == sep then [""] + Split(s, sep) else [[c] + Split(s, sep)[0]] + Split(s, sep)[1..]
  {
    assert ([c] + s)[1..] == s;
  }

  /** Splitting the join of separator-free pieces gives the pieces back. */
  lemma {:induction false} SplitJoin(parts: seq<string>, sep: char)
    requires |parts| >= 1
    requires forall i :: 0 <= i < |parts| ==> sep !in parts[i]
    ensures Split(Join(parts, sep), sep) == parts
  {
    SplitNoSeparator(parts[0], sep);
    if |parts| > 1 {
      SplitJoin(parts[1..], sep);
      SplitAround(parts[0], sep, Join(parts[1..], sep));
    }
  }

  /** The last element of a list, `list.at(-1)`: `undefined` for an empty list. */
  function Last(list: seq<string>): (r: Option<string>)
    ensures r.Some? <==> |list| > 0
    ensures r.Some? ==> r.value == list[|list| - 1]
  {
    if |list| == 0 then None else Some(list[|list| - 1])
  }

  /** `list[i]`: `undefined` past the end. */
  function At(list: seq<string>, i: nat): (r: Option<string>)
    ensures r.Some? <==> i < |list|
    ensures r.Some? ==> r.value == list[i]
  {
    if i < |list| then Some(list[i]) else None
  }

  /** `s.slice(from, to)` for non-negative bounds: both are clamped to the length. */
  function Slice(s: string, from: nat, to: nat): (r: string)
    ensures |r| <= |s|
    ensures from <= to <= |s| ==> r == s[from..to]
    ensures |s| <= from ==> r == ""
  {
    var a := if from <= |s| then from else |s|;
    var b := if to <= |s| then to else |s|;
    if a <= b then s[a..b] else ""
  }

  // ---------------------------------------------------------------------------
  // Numbers as text

  predicate IsDigit(c: char) {
    '0' <= c <= '9'
  }

  function DigitChar(d: nat): (c: char)
    requires d < 10
    ensures IsDigit(c) && c as int - '0' as int == d
  {
    "0123456789"[d]
  }

  /** The decimal value of a string of digits, read most significant first. */
  function DecimalValue(s: string): nat
    requires forall i :: 0 <= i < |s| ==> IsDigit(s[i])
  {
    if s == [] then 0
    else DecimalValue(s[..|s| - 1]) * 10 + DigitValue(s[|s| - 1])
  }

  function DigitValue(c: char): nat
    requires IsDigit(c)
  {
    c as int - '0' as int
  }

  /** How a non-negative integer is written in a template literal: its shortest decimal form. */
  function NatToString(n: nat): (s: string)
    ensures |s| >= 1
    ensures forall i :: 0 <= i < |s| ==> IsDigit(s[i])
    ensures DecimalValue(s) == n
  {
    if n < 10 then [DigitChar(n)]
    else
      var prefix := NatToString(n / 10);
      var s := prefix + [DigitChar(n % 10)];
      assert s[..|s| - 1] == prefix;
      s
  }

  /** `${i}` for an integer-valued number. */
  function IntToString(i: int): string
  {
    if i < 0 then "-" + NatToString(-i) else NatToString(i)
  }

  /** The ASCII characters `parseInt` skips before the number. */
  predicate IsSpace(c: char) {
    c == ' ' || c == '\t' || c == '\n' || c == '\r' || c == '\U{B}' || c == '\U{C}'
  }

  /** `s` without its leading white space. */
  function TrimStart(s: string): string
  {
    if s != [] && IsSpace(s[0]) then TrimStart(s[1..]) else s
  }

  /** The longest prefix of decimal digits. */
  function DigitPrefix(s: string): (r: string)
    ensures r <= s
    ensures forall i :: 0 <= i < |r| ==> IsDigit(r[i])
  {
    if s != [] && IsDigit(s[0]) then [s[0]] + DigitPrefix(s[1..]) else ""
  }

  predicate IsHexDigit(c: char) {
    IsDigit(c) || 'a' <= c <= 'f' || 'A' <= c <= 'F'
  }

  function HexDigitValue(c: char): nat
    requires IsHexDigit(c)
  {
    if IsDigit(c) then c as int - '0' as int
    else if 'a' <= c <= 'f' then c as int - 'a' as int + 10
    else c as int - 'A' as int + 10
  }

  function HexPrefix(s: string): (r: string)
    ensures r <= s
    ensures forall i :: 0 <= i < |r| ==> IsHexDigit(r[i])
  {
    if s != [] && IsHexDigit(s[0]) then [s[0]] + HexPrefix(s[1..]) else ""
  }

  function HexValue(s: string): nat
    requires forall i :: 0 <= i < |s| ==> IsHexDigit(s[i])
  {
    if s == [] then 0
    else HexValue(s[..|s| - 1]) * 16 + HexDigitValue(s[|s| - 1])
  }

  /** The digits after the sign: base 16 after a `0x`/`0X` prefix, base 10 otherwise; `None` when there is no digit. */
  function ParseUnsigned(u: string): Option<nat>
  {
    if |u| >= 2 && u[0] == '0' && (u[1] == 'x' || u[1] == 'X') then
      var h := HexPrefix(u[2..]);
      if h == [] then None else Some(HexValue(h))
    else
      var d := DigitPrefix(u);
      if d == [] then None else Some(DecimalValue(d))
  }

  /**
    `parseInt(s)` without a radix: leading white space is skipped, then an
    optional sign, then a `0x`/`0X` prefix selects base 16; the longest run of
    digits is read and the rest ignored. No digit at all gives `NaN` (`None`).
   */
  function ParseInt(s: string): (r: Option<int>)
  {
    var t := TrimStart(s);
    var signed := t != [] && (t[0] == '-' || t[0] == '+');
    var magnitude := ParseUnsigned(if signed then t[1..] else t);
    if magnitude.None? then None
    else if t[0] == '-' then Some(0 - magnitude.value as int)
    else Some(magnitude.value)
  }

  lemma {:induction false} DigitPrefixOfDigits(s: string)
    requires forall i :: 0 <= i < |s| ==> IsDigit(s[i])
    ensures DigitPrefix(s) == s
  {
    if s != [] {
      DigitPrefixOfDigits(s[1..]);
    }
  }

  /** A run of decimal digits is read back as its decimal value. */
  lemma ParseDigits(u: string)
    requires |u| >= 1 && forall i :: 0 <= i < |u| ==> IsDigit(u[i])
    ensures ParseUnsigned(u) == Some(DecimalValue(u))
  {
    DigitPrefixOfDigits(u);
    assert |u| >= 2 ==> u[1] != 'x' && u[1] != 'X';
  }

  lemma TrimStartKeeps(s: string)
    requires s != [] && !IsSpace(s[0])
    ensures TrimStart(s) == s
  {
  }

  /** Reading back the text of an integer gives the integer. */
  lemma IntToStringRoundTrip(i: int)
    ensures ParseInt(IntToString(i)) == Some(i)
  {
    var text := IntToString(i);
    if i < 0 {
      var u := NatToString(-i);
      ParseDigits(u);
      assert text == "-" + u;
      assert text[1..] == u;
      TrimStartKeeps(text);
    } else {
      var u := NatToString(i);
      ParseDigits(u);
      assert text == u;
      assert IsDigit(u[0]);
      TrimStartKeeps(text);
    }
  }
}
