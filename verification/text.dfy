/**
 * The few JavaScript string operations the weather app relies on:
 * `split` on one character, `trim`, a global one-character `replace`,
 * `Number(...)` on digit strings and the decimal rendering of a whole number.
 */
module Text {
  import opened Wrappers

  // ---------------------------------------------------------------- split

  /** `s.split(sep)` for a one-character separator. */
  function Split(s: string, sep: char): (parts: seq<string>)
    ensures |parts| >= 1
    ensures sep in s ==> |parts| >= 2
    ensures forall i :: 0 <= i < |parts| ==> sep !in parts[i]
  {
    if |s| == 0 then [""]
    else
      var rest := Split(s[1..], sep);
      if s[0] == sep then [""] + rest
      else [[s[0]] + rest[0]] + rest[1..]
  }

  /** `parts.join(sep)`: the inverse of Split. */
  function Join(parts: seq<string>, sep: char): string
    requires |parts| >= 1
  {
    if |parts| == 1 then parts[0] else parts[0] + [sep] + Join(parts[1..], sep)
  }

  /** A string without the separator splits into itself alone. */
  lemma {:induction false} SplitNoSeparator(s: string, sep: char)
    requires sep !in s
    ensures Split(s, sep) == [s]
  {
    if |s| > 0 {
      SplitNoSeparator(s[1..], sep);
      assert [s[0]] + s[1..] == s;
    }
  }

  /** The first field is everything before the first separator. */
  lemma {:induction false} SplitFirstField(a: string, sep: char, b: string)
    requires sep !in a
    ensures Split(a + [sep] + b, sep) == [a] + Split(b, sep)
  {
    var s := a + [sep] + b;
    if |a| == 0 {
      assert s[1..] == b;
    } else {
      assert s[1..] == a[1..] + [sep] + b;
      SplitFirstField(a[1..], sep, b);
      assert [a[0]] + a[1..] == a;
    }
  }

  /** Two fields joined by the separator split back into those two fields. */
  lemma SplitTwoFields(a: string, b: string, sep: char)
    requires sep !in a && sep !in b
    ensures Split(a + [sep] + b, sep) == [a, b]
  {
    SplitFirstField(a, sep, b);
    SplitNoSeparator(b, sep);
  }

  /** Three fields joined by the separator split back into those three fields. */
  lemma SplitThreeFields(a: string, b: string, c: string, sep: char)
    requires sep !in a && sep !in b && sep !in c
    ensures Split(a + [sep] + (b + [sep] + c), sep) == [a, b, c]
  {
    SplitFirstField(a, sep, b + [sep] + c);
    SplitTwoFields(b, c, sep);
  }

  /** Splitting a join gives back the fields, when no field holds the separator. */
  lemma {:induction false} SplitJoin(parts: seq<string>, sep: char)
    requires |parts| >= 1
    requires forall i :: 0 <= i < |parts| ==> sep !in parts[i]
    ensures Split(Join(parts, sep), sep) == parts
  {
    if |parts| == 1 {
      SplitNoSeparator(parts[0], sep);
    } else {
      SplitJoin(parts[1..], sep);
      SplitFirstField(parts[0], sep, Join(parts[1..], sep));
    }
  }

  /** Joining the fields of a split gives back the string. */
  lemma {:induction false} JoinSplit(s: string, sep: char)
    ensures Join(Split(s, sep), sep) == s
  {
    if |s| > 0 {
      JoinSplit(s[1..], sep);
      var rest := Split(s[1..], sep);
      if s[0] != sep {
        if |rest| == 1 {
          assert Join(rest, sep) == rest[0];
        } else {
          assert rest[1..][0] == rest[1];
          assert Join(rest, sep) == rest[0] + [sep] + Join(rest[1..], sep);
        }
      }
    }
  }

  // ----------------------------------------------------------------- trim

  /**
   * A character JavaScript's `trim` removes: the line terminators and every
   * white-space character of ECMA-262 (tab, vertical tab, form feed, the
   * byte-order mark and the Unicode space separators).
   */
  predicate IsSpace(c: char) {
    || c == ' ' || c == '\t' || c == '\n' || c == '\r'
    || c == '\U{000B}' || c == '\U{000C}' || c == '\U{00A0}' || c == '\U{1680}'
    || ('\U{2000}' <= c <= '\U{200A}')
    || c == '\U{2028}' || c == '\U{2029}' || c == '\U{202F}' || c == '\U{205F}'
    || c == '\U{3000}' || c == '\U{FEFF}'
  }

  /** `s.trimStart()`: the suffix of `s` after its leading white space. */
  function TrimStart(s: string): (r: string)
    ensures |r| <= |s| && r == s[|s| - |r|..]
    ensures forall k :: 0 <= k < |s| - |r| ==> IsSpace(s[k])
    ensures r == [] || !IsSpace(r[0])
  {
    if |s| > 0 && IsSpace(s[0]) then TrimStart(s[1..]) else s
  }

  /** `s.trimEnd()`: the prefix of `s` before its trailing white space. */
  function TrimEnd(s: string): (r: string)
    ensures |r| <= |s| && r == s[..|r|]
    ensures forall k :: |r| <= k < |s| ==> IsSpace(s[k])
    ensures r == [] || !IsSpace(r[|r| - 1])
  {
    if |s| > 0 && IsSpace(s[|s| - 1]) then TrimEnd(s[..|s| - 1]) else s
  }

  /** `s.trim()`. */
  function Trim(s: string): string {
    TrimEnd(TrimStart(s))
  }

  /** `s.trim()` is empty exactly when every character of `s` is white space. */
  lemma TrimEmptyIff(s: string)
    ensures Trim(s) == "" <==> forall k :: 0 <= k < |s| ==> IsSpace(s[k])
  {
    var t := TrimStart(s);
    if t != [] {
      assert t[0] == s[|s| - |t|];
    }
  }

  /** The trimmed text is the run of `s` after its leading white space, ending in a non-space. */
  lemma TrimIsInnerRun(s: string)
    ensures var i := |s| - |TrimStart(s)|;
      i + |Trim(s)| <= |s| && Trim(s) == s[i..i + |Trim(s)|]
    ensures Trim(s) == [] || (!IsSpace(Trim(s)[0]) && !IsSpace(Trim(s)[|Trim(s)| - 1]))
  {
    var t := TrimStart(s);
    var i := |s| - |t|;
    var r := TrimEnd(t);
    assert Trim(s) == r;
    assert t == s[i..];
    assert r == t[..|r|];
    assert s[i..i + |r|] == t[..|r|];
    if r != [] {
      assert r[0] == t[0];
    }
  }

  /** Trimming twice trims nothing more. */
  lemma TrimIdempotent(s: string)
    ensures Trim(Trim(s)) == Trim(s)
  {
    var t := Trim(s);
    if t != [] {
      assert TrimStart(t) == t;
      assert TrimEnd(t) == t;
    }
  }

  // --------------------------------------------------------------- length

  /**
   * `s.length`: JavaScript strings count UTF-16 code units, so a character
   * outside the Basic Multilingual Plane counts twice.
   */
  function Utf16Length(s: string): (n: nat)
    ensures |s| <= n <= 2 * |s|
    ensures (forall k :: 0 <= k < |s| ==> s[k] as int <= 0xFFFF) ==> n == |s|
    ensures |s| == 1 ==> n == (if s[0] as int > 0xFFFF then 2 else 1)
  {
    if |s| == 0 then 0
    else (if s[0] as int > 0xFFFF then 2 else 1) + Utf16Length(s[1..])
  }

  /** The length of a concatenation is the sum of the lengths, so each character adds its own units. */
  lemma {:induction false} Utf16LengthAppend(a: string, b: string)
    ensures Utf16Length(a + b) == Utf16Length(a) + Utf16Length(b)
  {
    if a != [] {
      assert (a + b)[1..] == a[1..] + b;
      Utf16LengthAppend(a[1..], b);
    } else {
      assert a + b == b;
    }
  }

  // -------------------------------------------------------------- replace

  /** `s.replace(/x/g, y)` for one-character `x` and `y`. */
  function ReplaceAll(s: string, x: char, y: char): (r: string)
    ensures |r| == |s|
    ensures forall i :: 0 <= i < |s| ==> r[i] == (if s[i] == x then y else s[i])
  {
    if |s| == 0 then [] else [if s[0] == x then y else s[0]] + ReplaceAll(s[1..], x, y)
  }

  // --------------------------------------------------------------- digits

  predicate IsDigit(c: char) { '0' <= c <= '9' }

  predicate AllDigits(s: string) { forall k :: 0 <= k < |s| ==> IsDigit(s[k]) }

  /** The value of a decimal digit string; the empty string counts as 0. */
  function DigitsValue(s: string): nat
    requires AllDigits(s)
  {
    if |s| == 0 then 0 else DigitsValue(s[..|s| - 1]) * 10 + (s[|s| - 1] as int - '0' as int)
  }

  function DigitChar(d: nat): (c: char)
    requires d < 10
    ensures IsDigit(c) && c as int - '0' as int == d
  {
    ('0' as int + d) as char
  }

  /** JavaScript's rendering of a whole number `n >= 0`, e.g. in a template string. */
  function NatToString(n: nat): (s: string)
    ensures |s| >= 1 && AllDigits(s)
    ensures |s| == 1 || s[0] != '0'
    ensures DigitsValue(s) == n
  {
    if n < 10 then [DigitChar(n)]
    else
      var p := NatToString(n / 10);
      var s := p + [DigitChar(n % 10)];
      assert s[..|s| - 1] == p;
      s
  }

  /**
   * `Number(s)` for the strings this model distinguishes: a digit string
   * (the empty one included, which is 0) gives its value; anything else is NaN (None).
   */
  function NumberOf(s: string): (r: Option<nat>)
    ensures r.Some? <==> AllDigits(s)
    ensures r.Some? ==> r.value == DigitsValue(s)
  {
    if AllDigits(s) then Some(DigitsValue(s)) else None
  }

  /** `t.padStart(width, fill)`. */
  function PadStart(t: string, width: nat, fill: char): (r: string)
    ensures |r| == if |t| < width then width else |t|
    ensures r[|r| - |t|..] == t
    ensures forall k :: 0 <= k < |r| - |t| ==> r[k] == fill
  {
    if |t| < width then seq(width - |t|, _ => fill) + t else t
  }

  /** Leading zeros do not change a digit string's value. */
  lemma {:induction false} LeadingZeros(z: string, t: string)
    requires forall k :: 0 <= k < |z| ==> z[k] == '0'
    requires AllDigits(t)
    ensures AllDigits(z + t) && DigitsValue(z + t) == DigitsValue(t)
  {
    var s := z + t;
    if |t| == 0 {
      assert s == z;
      AllZerosValue(z);
    } else {
      assert s[..|s| - 1] == z + t[..|t| - 1];
      LeadingZeros(z, t[..|t| - 1]);
    }
  }

  lemma {:induction false} AllZerosValue(z: string)
    requires forall k :: 0 <= k < |z| ==> z[k] == '0'
    ensures AllDigits(z) && DigitsValue(z) == 0
  {
    if |z| > 0 {
      AllZerosValue(z[..|z| - 1]);
    }
  }
}
