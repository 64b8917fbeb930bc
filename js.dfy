/**
 * The slice of JavaScript value semantics the capture helpers rely on:
 * null/undefined, truthiness of strings, `String.prototype.trim`,
 * `toLowerCase`, `join`, `split`, `replace` with a string pattern,
 * `indexOf` on strings and the global `parseInt`.
 */
module Js {

  datatype Option<T> = None | Some(value: T)

  /** A JavaScript value that is either a string or null/undefined
      (the two are never told apart by the capture helpers). */
  type JsStr = Option<string>

  /** `!!s` for a string-or-null value: null, undefined and "" are falsy. */
  predicate Truthy(s: JsStr)
  {
    s.Some? && s.value != ""
  }

  /** The text a template literal `${s}` produces for a string-or-null value. */
  function Show(s: JsStr): string
  {
    match s
    case None => "null"
    case Some(v) => v
  }

  /** The characters `trim` removes: WhiteSpace and LineTerminator of ECMA-262. */
  predicate IsSpace(c: char)
  {
    || c == '\t' || c == '\n' || c == '\r' || c == ' '
    || c == '\U{000B}' || c == '\U{000C}' || c == '\U{00A0}' || c == '\U{FEFF}'
    || c == '\U{1680}' || ('\U{2000}' <= c <= '\U{200A}') || c == '\U{2028}'
    || c == '\U{2029}' || c == '\U{202F}' || c == '\U{205F}' || c == '\U{3000}'
  }

  /** Number of whitespace characters at the start of `s`. */
  function LeadingSpaces(s: string): (n: nat)
    ensures n <= |s|
  {
    if s == [] || !IsSpace(s[0]) then 0 else 1 + LeadingSpaces(s[1..])
  }

  /** Number of whitespace characters at the end of `s`. */
  function TrailingSpaces(s: string): (n: nat)
    ensures n <= |s|
  {
    if s == [] || !IsSpace(s[|s| - 1]) then 0 else 1 + TrailingSpaces(s[..|s| - 1])
  }

  /** `LeadingSpaces` counts the whole run of leading whitespace and no more. */
  lemma {:induction false} LeadingSpacesSpec(s: string)
    ensures forall k :: 0 <= k < LeadingSpaces(s) ==> IsSpace(s[k])
    ensures LeadingSpaces(s) < |s| ==> !IsSpace(s[LeadingSpaces(s)])
  {
    if s != [] && IsSpace(s[0]) {
      LeadingSpacesSpec(s[1..]);
    }
  }

  lemma {:induction false} TrailingSpacesSpec(s: string)
    ensures forall k :: |s| - TrailingSpaces(s) <= k < |s| ==> IsSpace(s[k])
    ensures TrailingSpaces(s) < |s| ==> !IsSpace(s[|s| - 1 - TrailingSpaces(s)])
  {
    if s != [] && IsSpace(s[|s| - 1]) {
      TrailingSpacesSpec(s[..|s| - 1]);
    }
  }

  /** `String.prototype.trim`. */
  function Trim(s: string): (r: string)
    ensures |r| <= |s|
  {
    var t := s[LeadingSpaces(s)..];
    t[..|t| - TrailingSpaces(t)]
  }

  /** What `trim` leaves has no whitespace at either end, and is the text
      after the leading whitespace with the trailing whitespace cut off. */
  lemma TrimSpec(s: string)
    ensures Trim(s) == "" || (!IsSpace(Trim(s)[0]) && !IsSpace(Trim(s)[|Trim(s)| - 1]))
    ensures Trim(s) <= s[LeadingSpaces(s)..]
  {
    var t := s[LeadingSpaces(s)..];
    LeadingSpacesSpec(s);
    TrailingSpacesSpec(t);
    if Trim(s) != "" {
      assert Trim(s)[0] == t[0] == s[LeadingSpaces(s)];
    }
  }

  lemma TrimUnpadded(s: string)
    requires s == "" || (!IsSpace(s[0]) && !IsSpace(s[|s| - 1]))
    ensures Trim(s) == s
  {
    if s != "" {
      assert LeadingSpaces(s) == 0;
      assert TrailingSpaces(s) == 0;
    }
  }

  /** Trimming twice is trimming once. */
  lemma TrimIdempotent(s: string)
    ensures Trim(Trim(s)) == Trim(s)
  {
    TrimSpec(s);
    TrimUnpadded(Trim(s));
  }

  /** `toLowerCase`, restricted to the ASCII letters. */
  function LowerChar(c: char): char
  {
    if 'A' <= c <= 'Z' then (c as int + 32) as char else c
  }

  function Lower(s: string): (r: string)
    ensures |r| == |s|
  {
    seq(|s|, i requires 0 <= i < |s| => LowerChar(s[i]))
  }

  /** `a.toLowerCase() == b.toLowerCase()`. */
  predicate EqualCI(a: string, b: string)
  {
    Lower(a) == Lower(b)
  }

  /** `segments.join(sep)`. */
  function Join(segments: seq<string>, sep: string): (r: string)
    ensures |segments| == 1 ==> r == segments[0]
    ensures segments == [] ==> r == ""
  {
    if segments == [] then ""
    else if |segments| == 1 then segments[0]
    else segments[0] + sep + Join(segments[1..], sep)
  }

  predicate OccursAt(s: string, pat: string, i: nat)
  {
    i + |pat| <= |s| && s[i..i + |pat|] == pat
  }

  /** `s.indexOf(pat, from)`: the first index at or after `from` where `pat` occurs, or -1. */
  function IndexOf(s: string, pat: string, from: nat): (r: int)
    ensures r == -1 || (from <= r && OccursAt(s, pat, r))
    decreases |s| + 1 - from
  {
    if from > |s| then -1
    else if OccursAt(s, pat, from) then from
    else IndexOf(s, pat, from + 1)
  }

  /** `indexOf` finds the first occurrence, and -1 means there is none. */
  lemma {:induction false} IndexOfSpec(s: string, pat: string, from: nat)
    ensures IndexOf(s, pat, from) == -1 ==> forall i :: from <= i <= |s| ==> !OccursAt(s, pat, i)
    ensures IndexOf(s, pat, from) != -1 ==> forall i :: from <= i < IndexOf(s, pat, from) ==> !OccursAt(s, pat, i)
    decreases |s| + 1 - from
  {
    if from <= |s| && !OccursAt(s, pat, from) {
      IndexOfSpec(s, pat, from + 1);
    }
  }

  /** `s.replace(pat, "")` for a string pattern: only the first occurrence goes. */
  function RemoveFirst(s: string, pat: string): (r: string)
    ensures IndexOf(s, pat, 0) == -1 ==> r == s
    ensures IndexOf(s, pat, 0) != -1 ==> |r| == |s| - |pat|
  {
    var i := IndexOf(s, pat, 0);
    if i == -1 then s else s[..i] + s[i + |pat|..]
  }

  lemma RemoveFirstAtStart(pat: string, s: string)
    ensures RemoveFirst(pat + s, pat) == s
  {
    assert OccursAt(pat + s, pat, 0);
    assert (pat + s)[|pat|..] == s;
  }

  /** `s.split(sep)` for a one-character separator. */
  function Split(s: string, sep: char): (r: seq<string>)
    ensures |r| >= 1
    ensures forall k :: 0 <= k < |r| ==> sep !in r[k]
    decreases |s|
  {
    var i := IndexOf(s, [sep], 0);
    IndexOfSpec(s, [sep], 0);
    if i == -1 then
      assert forall k :: 0 <= k < |s| ==> s[k] != sep by {
        forall k | 0 <= k < |s| ensures s[k] != sep {
          assert !OccursAt(s, [sep], k);
          assert s[k..k + 1] == [s[k]];
        }
      }
      [s]
    else
      assert forall k :: 0 <= k < i ==> s[k] != sep by {
        forall k | 0 <= k < i ensures s[k] != sep {
          assert !OccursAt(s, [sep], k);
          assert s[k..k + 1] == [s[k]];
        }
      }
      [s[..i]] + Split(s[i + 1..], sep)
  }

  /** Splitting and joining again with the same separator gives back the text. */
  lemma {:induction false} SplitJoin(s: string, sep: char)
    ensures Join(Split(s, sep), [sep]) == s
    decreases |s|
  {
    var i := IndexOf(s, [sep], 0);
    if i != -1 {
      assert s[i..i + 1] == [sep];
      SplitJoin(s[i + 1..], sep);
      var rest := Split(s[i + 1..], sep);
      assert Split(s, sep) == [s[..i]] + rest;
      assert (s[..i] + [sep]) + s[i + 1..] == s;
    }
  }

  /** `.filter(x => x)` over strings: the empty strings go, the rest keep their order. */
  function DropEmpty(ss: seq<string>): (r: seq<string>)
    ensures forall k :: 0 <= k < |r| ==> r[k] != "" && r[k] in ss
    ensures forall x :: x in ss && x != "" ==> x in r
  {
    if ss == [] then []
    else if ss[0] == "" then DropEmpty(ss[1..])
    else [ss[0]] + DropEmpty(ss[1..])
  }

  /** A JavaScript number as far as the helpers produce one: an integer or NaN. */
  datatype Number = Num(n: int) | NaN

  function DigitValue(c: char): nat
  {
    if '0' <= c <= '9' then c as int - '0' as int
    else if 'a' <= c <= 'z' then c as int - 'a' as int + 10
    else if 'A' <= c <= 'Z' then c as int - 'A' as int + 10
    else 36
  }

  predicate IsDigit(c: char, radix: nat)
  {
    DigitValue(c) < radix
  }

  /** Length of the longest prefix of `s` made of digits in `radix`. */
  function DigitPrefix(s: string, radix: nat): (n: nat)
    ensures n <= |s|
  {
    if s == [] || !IsDigit(s[0], radix) then 0 else 1 + DigitPrefix(s[1..], radix)
  }

  /** The value of a digit string in `radix`, most significant digit first. */
  function DigitsValue(s: string, radix: nat): nat
  {
    if s == [] then 0
    else DigitsValue(s[..|s| - 1], radix) * radix + DigitValue(s[|s| - 1])
  }

  /** The global `parseInt(s)` with no radix: leading whitespace, an optional
      sign, an optional `0x`/`0X` prefix, then the longest digit prefix; NaN
      when there is no digit. */
  function ParseInt(s: string): (r: Number)
  {
    var t := s[LeadingSpaces(s)..];
    var negative := |t| > 0 && t[0] == '-';
    var u := if |t| > 0 && (t[0] == '-' || t[0] == '+') then t[1..] else t;
    var hex := |u| >= 2 && u[0] == '0' && (u[1] == 'x' || u[1] == 'X');
    var radix := if hex then 16 else 10;
    var w := if hex then u[2..] else u;
    var k := DigitPrefix(w, radix);
    if k == 0 then NaN
    else
      var mag := DigitsValue(w[..k], radix);
      Num(if negative then -(mag as int) else mag)
  }

  predicate AllDecimal(s: string)
  {
    forall k :: 0 <= k < |s| ==> '0' <= s[k] <= '9'
  }

  /** A run of decimal digits, followed by anything that is neither a digit
      nor the `x` of a hexadecimal prefix, parses to the value of the run. */
  lemma ParseIntDecimal(digits: string, rest: string)
    requires digits != [] && AllDecimal(digits)
    requires rest == [] || !('0' <= rest[0] <= '9' || rest[0] == 'x' || rest[0] == 'X')
    ensures ParseInt(digits + rest) == Num(DigitsValue(digits, 10))
  {
    var s := digits + rest;
    assert s[0] == digits[0];
    assert !IsSpace(s[0]);
    assert LeadingSpaces(s) == 0;
    assert s[0..] == s;
    assert |s| >= 2 ==> s[1] != 'x' && s[1] != 'X' by {
      if |s| >= 2 {
        if |digits| >= 2 { assert s[1] == digits[1]; } else { assert s[1] == rest[0]; }
      }
    }
    DecimalPrefix(digits, rest);
    assert s[..|digits|] == digits;
  }

  lemma {:induction false} DecimalPrefix(digits: string, rest: string)
    requires AllDecimal(digits)
    requires rest == [] || !('0' <= rest[0] <= '9')
    ensures DigitPrefix(digits + rest, 10) == |digits|
  {
    if digits != [] {
      assert (digits + rest)[1..] == digits[1..] + rest;
      DecimalPrefix(digits[1..], rest);
    } else {
      assert digits + rest == rest;
    }
  }

  /** Text with no digit after its sign parses to NaN. */
  lemma ParseIntNoDigit(s: string)
    requires s != [] && !IsSpace(s[0]) && s[0] != '-' && s[0] != '+'
    requires DigitValue(s[0]) >= 10
    ensures ParseInt(s) == NaN
  {
    assert LeadingSpaces(s) == 0;
    assert s[0..] == s;
  }
}
