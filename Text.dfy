/**
 * The small stock of JavaScript string operations that the invoicing
 * utilities rely on, modelled over `seq<char>` with ASCII case mapping.
 */
module Wrappers {
  datatype Option<T> = None | Some(value: T)
}

module Text {
  import opened Wrappers

  predicate IsDigit(c: char) { '0' <= c <= '9' }
  predicate IsUpper(c: char) { 'A' <= c <= 'Z' }
  predicate IsLowerLetter(c: char) { 'a' <= c <= 'z' }
  predicate IsLetter(c: char) { IsUpper(c) || IsLowerLetter(c) }

  /**
   * The characters matched by the regex class `\s` and removed by `trim()`:
   * the WhiteSpace and LineTerminator characters of sections 12.2 and 12.3 of
   * ECMAScript 2024, that is tab, vertical tab, form feed, space, no-break
   * space, the byte order mark, the other space separators (Unicode category
   * Zs), line feed, carriage return, and the line and paragraph separators.
   */
  predicate IsSpace(c: char) {
    c == ' ' || c == '\t' || c == '\n' || c == '\r' || c == '\U{0B}' || c == '\U{0C}' ||
    c == '\U{A0}' || c == '\U{FEFF}' || c == '\U{1680}' || ('\U{2000}' <= c <= '\U{200A}') ||
    c == '\U{2028}' || c == '\U{2029}' || c == '\U{202F}' || c == '\U{205F}' || c == '\U{3000}'
  }

  predicate AllDigits(s: string) { forall i :: 0 <= i < |s| ==> IsDigit(s[i]) }
  predicate AllLetters(s: string) { forall i :: 0 <= i < |s| ==> IsLetter(s[i]) }
  predicate NoSpace(s: string) { forall i :: 0 <= i < |s| ==> !IsSpace(s[i]) }
  predicate NoNewline(s: string) { forall i :: 0 <= i < |s| ==> s[i] != '\n' }

  function LowerChar(c: char): char { if IsUpper(c) then (c as int + 32) as char else c }
  function UpperChar(c: char): char { if IsLowerLetter(c) then (c as int - 32) as char else c }

  /** `toLowerCase()` */
  function Lower(s: string): (r: string)
    ensures |r| == |s|
    ensures forall i :: 0 <= i < |s| ==> r[i] == LowerChar(s[i])
  {
    if s == [] then [] else [LowerChar(s[0])] + Lower(s[1..])
  }

  /** `toUpperCase()` */
  function Upper(s: string): (r: string)
    ensures |r| == |s|
    ensures forall i :: 0 <= i < |s| ==> r[i] == UpperChar(s[i])
  {
    if s == [] then [] else [UpperChar(s[0])] + Upper(s[1..])
  }

  predicate StartsWith(s: string, p: string) { |p| <= |s| && s[..|p|] == p }

  predicate EndsWith(s: string, p: string) { |p| <= |s| && s[|s| - |p|..] == p }

  /** `s.includes(p)` */
  predicate Contains(s: string, p: string)
    decreases |s|
  {
    StartsWith(s, p) || (|s| > 0 && Contains(s[1..], p))
  }

  /** The first index at which `p` occurs in `s`, when it does. */
  function IndexOf(s: string, p: string): (r: Option<nat>)
    decreases |s|
  {
    if StartsWith(s, p) then Some(0)
    else if |s| == 0 then None
    else match IndexOf(s[1..], p)
      case None => None
      case Some(i) => Some(i + 1)
  }

  /** `trimStart()` */
  function TrimStart(s: string): (r: string)
    decreases |s|
  {
    if |s| > 0 && IsSpace(s[0]) then TrimStart(s[1..]) else s
  }

  /** `trimEnd()` */
  function TrimEnd(s: string): (r: string)
    decreases |s|
  {
    if |s| > 0 && IsSpace(s[|s| - 1]) then TrimEnd(s[..|s| - 1]) else s
  }

  /** `trim()` */
  function Trim(s: string): string { TrimEnd(TrimStart(s)) }

  /** `s.split(c)` for a one-character separator: never empty. */
  function Split(s: string, c: char): (r: seq<string>)
    ensures |r| >= 1
    decreases |s|
  {
    if |s| == 0 then [""]
    else if s[0] == c then [""] + Split(s[1..], c)
    else
      var rest := Split(s[1..], c);
      [[s[0]] + rest[0]] + rest[1..]
  }

  /** `parts.join(sep)` */
  function Join(parts: seq<string>, sep: string): string
    decreases |parts|
  {
    if |parts| == 0 then ""
    else if |parts| == 1 then parts[0]
    else parts[0] + sep + Join(parts[1..], sep)
  }

  /** The last element of `s.split(c)`. */
  function LastLine(s: string, c: char): string { var parts := Split(s, c); parts[|parts| - 1] }

  /** `s.replace(/c/g, d)` for one character. */
  function ReplaceAll(s: string, c: char, d: char): (r: string)
    ensures |r| == |s|
    ensures forall i :: 0 <= i < |s| ==> r[i] == (if s[i] == c then d else s[i])
  {
    if s == [] then [] else [if s[0] == c then d else s[0]] + ReplaceAll(s[1..], c, d)
  }

  /** `s.slice(-n)`: the last `n` characters, or all of `s` when shorter. */
  function TakeLast(s: string, n: nat): (r: string)
    ensures |r| <= n && EndsWith(s, r)
  {
    if |s| <= n then s else s[|s| - n..]
  }

  function DigitChar(d: nat): char
    requires d < 10
  {
    ['0', '1', '2', '3', '4', '5', '6', '7', '8', '9'][d]
  }

  function DigitValue(c: char): int
  {
    c as int - '0' as int
  }

  /** `String(n)` for a non-negative integer: decimal, no leading zeros. */
  function NatToString(n: nat): (r: string)
    decreases n
  {
    if n < 10 then [DigitChar(n)] else NatToString(n / 10) + [DigitChar(n % 10)]
  }

  /** `String(i)` for any integer. */
  function IntToString(i: int): (r: string)
  {
    if i < 0 then "-" + NatToString(-i) else NatToString(i)
  }

  /** The value of a run of decimal digits. */
  function DigitsValue(s: string): int
    decreases |s|
  {
    if |s| == 0 then 0 else DigitsValue(s[..|s| - 1]) * 10 + DigitValue(s[|s| - 1])
  }

  /** `String(n).padStart(w, c)` */
  function PadStart(s: string, w: nat, c: char): (r: string)
    decreases w - |s|
  {
    if |s| >= w then s else PadStart([c] + s, w, c)
  }

  /** The longest prefix of `s` made of digits. */
  function LeadingDigits(s: string): (r: string)
    ensures |r| <= |s|
    decreases |s|
  {
    if |s| > 0 && IsDigit(s[0]) then [s[0]] + LeadingDigits(s[1..]) else []
  }

  /**
   * `parseInt(s, 10)`: leading white space is skipped, one sign is accepted,
   * then the longest run of digits is read; `None` stands for NaN.
   */
  function ParseInt(s: string): Option<int>
  {
    var t := TrimStart(s);
    var signed := |t| > 0 && (t[0] == '-' || t[0] == '+');
    var digits := LeadingDigits(if signed then t[1..] else t);
    if |digits| == 0 then None
    else if signed && t[0] == '-' then Some(-(DigitsValue(digits) as int))
    else Some(DigitsValue(digits))
  }

  // ---------------------------------------------------------------------
  // Facts about the definitions above

  lemma NoNewlineAppend(a: string, b: string)
    requires NoNewline(a) && NoNewline(b)
    ensures NoNewline(a + b)
  {
  }

  lemma NoNewlineConcat(a: string, b: string, c: string, d: string)
    requires NoNewline(a) && NoNewline(b) && NoNewline(c) && NoNewline(d)
    ensures NoNewline(a + b + c + d)
  {
  }

  lemma {:induction false} DigitsValueNonNegative(s: string)
    requires AllDigits(s)
    ensures DigitsValue(s) >= 0
    decreases |s|
  {
    if |s| > 0 { DigitsValueNonNegative(s[..|s| - 1]); }
  }

  lemma DigitRoundTrip(d: nat)
    requires d < 10
    ensures IsDigit(DigitChar(d)) && DigitValue(DigitChar(d)) == d
  {
  }

  lemma {:induction false} NatToStringDigits(n: nat)
    ensures |NatToString(n)| >= 1 && AllDigits(NatToString(n))
    ensures DigitsValue(NatToString(n)) == n
    decreases n
  {
    var s := NatToString(n);
    if n < 10 {
      DigitRoundTrip(n);
      assert s[..0] == [];
    } else {
      var d := NatToString(n / 10);
      var last := DigitChar(n % 10);
      NatToStringDigits(n / 10);
      DigitRoundTrip(n % 10);
      assert s == d + [last];
      assert s[..|s| - 1] == d && s[|s| - 1] == last;
      assert DigitsValue(s) == DigitsValue(d) * 10 + DigitValue(last);
    }
  }

  lemma {:induction false} NatToStringLength(n: nat)
    ensures n < 10 ==> |NatToString(n)| == 1
    ensures 10 <= n < 100 ==> |NatToString(n)| == 2
    ensures 100 <= n < 1000 ==> |NatToString(n)| == 3
    ensures 1000 <= n < 10000 ==> |NatToString(n)| == 4
    ensures n >= 1000 ==> |NatToString(n)| >= 4
    decreases n
  {
    if n >= 10 { NatToStringLength(n / 10); }
  }

  /** `padStart` keeps the string as its tail and pads to the width. */
  lemma {:induction false} PadStartShape(s: string, w: nat, c: char)
    ensures |PadStart(s, w, c)| == if |s| >= w then |s| else w
    ensures EndsWith(PadStart(s, w, c), s)
    ensures forall i :: 0 <= i < |PadStart(s, w, c)| - |s| ==> PadStart(s, w, c)[i] == c
    decreases w - |s|
  {
    if |s| < w {
      PadStartShape([c] + s, w, c);
      var r := PadStart(s, w, c);
      assert r[|r| - |s|..] == r[|r| - |s| - 1..][1..];
    }
  }

  /** A leading zero does not change the value of a digit run. */
  lemma {:induction false} LeadingZeroValue(s: string)
    requires AllDigits(s)
    ensures DigitsValue(['0'] + s) == DigitsValue(s)
    decreases |s|
  {
    if |s| > 0 {
      var t := ['0'] + s;
      assert t[..|t| - 1] == ['0'] + s[..|s| - 1];
      LeadingZeroValue(s[..|s| - 1]);
    } else {
      assert (['0'] + s)[..0] == [];
    }
  }

  /** Zero padding keeps a digit run a digit run of the same value. */
  lemma {:induction false} ZeroPadValue(s: string, w: nat)
    requires AllDigits(s)
    ensures AllDigits(PadStart(s, w, '0')) && DigitsValue(PadStart(s, w, '0')) == DigitsValue(s)
    decreases w - |s|
  {
    if |s| < w {
      LeadingZeroValue(s);
      ZeroPadValue(['0'] + s, w);
    }
  }

  lemma {:induction false} LeadingDigitsShape(s: string)
    ensures StartsWith(s, LeadingDigits(s)) && AllDigits(LeadingDigits(s))
    ensures |LeadingDigits(s)| < |s| ==> !IsDigit(s[|LeadingDigits(s)|])
    decreases |s|
  {
    if |s| > 0 && IsDigit(s[0]) { LeadingDigitsShape(s[1..]); }
  }

  lemma {:induction false} LeadingDigitsOfDigits(s: string)
    requires AllDigits(s)
    ensures LeadingDigits(s) == s
    decreases |s|
  {
    if |s| > 0 { LeadingDigitsOfDigits(s[1..]); }
  }

  /** The digit run at the front of digits followed by a non-digit is those digits. */
  lemma {:induction false} LeadingDigitsBefore(d: string, t: string)
    requires AllDigits(d) && (|t| > 0 ==> !IsDigit(t[0]))
    ensures LeadingDigits(d + t) == d
    decreases |d|
  {
    if |d| == 0 {
      assert d + t == t;
    } else {
      assert (d + t)[1..] == d[1..] + t;
      LeadingDigitsBefore(d[1..], t);
    }
  }

  /** Lower-casing works character by character, so it distributes over concatenation. */
  lemma LowerConcat(a: string, b: string)
    ensures Lower(a + b) == Lower(a) + Lower(b)
  {
    assert forall i :: 0 <= i < |a + b| ==> Lower(a + b)[i] == (Lower(a) + Lower(b))[i];
  }

  /** Reading back a zero-padded decimal gives the number that was written. */
  lemma ParsePadded(n: nat, w: nat)
    ensures ParseInt(PadStart(NatToString(n), w, '0')) == Some(n)
  {
    var d := NatToString(n);
    NatToStringDigits(n);
    PadStartShape(d, w, '0');
    ZeroPadValue(d, w);
    ParseDigits(PadStart(d, w, '0'));
  }

  /** A non-empty run of digits parses to its value. */
  lemma ParseDigits(p: string)
    requires |p| > 0 && AllDigits(p)
    ensures ParseInt(p) == Some(DigitsValue(p))
  {
    LeadingDigitsOfDigits(p);
    assert TrimStart(p) == p;
    assert !(p[0] == '-' || p[0] == '+');
  }

  lemma {:induction false} ContainsAt(s: string, p: string, i: nat)
    requires i + |p| <= |s| && s[i..i + |p|] == p
    ensures Contains(s, p)
    decreases i
  {
    if i > 0 {
      assert s[1..][i - 1..i - 1 + |p|] == p;
      ContainsAt(s[1..], p, i - 1);
    }
  }

  /** Lower-casing both sides keeps a substring a substring. */
  lemma ContainsLower(s: string, p: string)
    requires Contains(s, p)
    ensures Contains(Lower(s), Lower(p))
  {
    var i := ContainsWitness(s, p);
    assert Lower(s)[i..i + |p|] == Lower(p);
    ContainsAt(Lower(s), Lower(p), i);
  }

  /** Digits have no case. */
  lemma LowerOfDigits(s: string)
    requires AllDigits(s)
    ensures Lower(s) == s
  {
  }

  lemma {:induction false} ContainsWitness(s: string, p: string) returns (i: nat)
    requires Contains(s, p)
    ensures i + |p| <= |s| && s[i..i + |p|] == p
    decreases |s|
  {
    if StartsWith(s, p) {
      i := 0;
    } else {
      var j := ContainsWitness(s[1..], p);
      i := j + 1;
      assert s[i..i + |p|] == s[1..][j..j + |p|];
    }
  }

  lemma {:induction false} TrimStartShape(s: string)
    ensures EndsWith(s, TrimStart(s))
    ensures |TrimStart(s)| > 0 ==> !IsSpace(TrimStart(s)[0])
    ensures forall i :: 0 <= i < |s| - |TrimStart(s)| ==> IsSpace(s[i])
    decreases |s|
  {
    if |s| > 0 && IsSpace(s[0]) { TrimStartShape(s[1..]); }
  }

  lemma {:induction false} TrimEndShape(s: string)
    ensures StartsWith(s, TrimEnd(s))
    ensures |TrimEnd(s)| > 0 ==> !IsSpace(TrimEnd(s)[|TrimEnd(s)| - 1])
    decreases |s|
  {
    if |s| > 0 && IsSpace(s[|s| - 1]) { TrimEndShape(s[..|s| - 1]); }
  }

  lemma {:induction false} TrimStartIdempotent(s: string)
    ensures TrimStart(TrimStart(s)) == TrimStart(s)
    decreases |s|
  {
    if |s| > 0 && IsSpace(s[0]) { TrimStartIdempotent(s[1..]); }
  }

  lemma {:induction false} TrimEndIdempotent(s: string)
    ensures TrimEnd(TrimEnd(s)) == TrimEnd(s)
    decreases |s|
  {
    if |s| > 0 && IsSpace(s[|s| - 1]) { TrimEndIdempotent(s[..|s| - 1]); }
  }

  /** A string without white space at either end is left alone by `trim()`. */
  lemma TrimOfTrimmed(s: string)
    requires |s| > 0 ==> !IsSpace(s[0]) && !IsSpace(s[|s| - 1])
    ensures Trim(s) == s
  {
  }

  lemma TrimIdempotent(s: string)
    ensures Trim(Trim(s)) == Trim(s)
  {
    var t := Trim(s);
    TrimStartShape(s);
    TrimEndShape(TrimStart(s));
    if |t| > 0 {
      assert t[0] == TrimStart(s)[0];
    }
    TrimOfTrimmed(t);
  }

  /** `split` then `join` with the same separator gives the string back. */
  lemma {:induction false} JoinSplit(s: string, c: char)
    ensures Join(Split(s, c), [c]) == s
    decreases |s|
  {
    if |s| > 0 {
      JoinSplit(s[1..], c);
      var rest := Split(s[1..], c);
      if s[0] != c {
        if |rest| > 1 {
          assert Join(rest, [c]) == rest[0] + [c] + Join(rest[1..], [c]);
          assert ([[s[0]] + rest[0]] + rest[1..])[1..] == rest[1..];
        }
      }
    }
  }

  /** Splitting at one separator splits the two sides independently. */
  lemma {:induction false} SplitConcat(a: string, c: char, b: string)
    ensures Split(a + [c] + b, c) == Split(a, c) + Split(b, c)
    decreases |a|
  {
    var s := a + [c] + b;
    if |a| == 0 {
      assert s == [c] + b && s[1..] == b;
    } else {
      assert s[1..] == a[1..] + [c] + b;
      SplitConcat(a[1..], c, b);
      var ra, rb := Split(a[1..], c), Split(b, c);
      if a[0] == c {
        assert Split(s, c) == [""] + (ra + rb);
      } else {
        assert (ra + rb)[0] == ra[0] && (ra + rb)[1..] == ra[1..] + rb;
        assert Split(s, c) == [[a[0]] + ra[0]] + (ra[1..] + rb);
      }
    }
  }

  /** Joining pieces free of the separator and splitting again gives the pieces back. */
  lemma {:induction false} SplitJoin(parts: seq<string>, c: char)
    requires |parts| >= 1
    requires forall k, i :: 0 <= k < |parts| && 0 <= i < |parts[k]| ==> parts[k][i] != c
    ensures Split(Join(parts, [c]), c) == parts
    decreases |parts|
  {
    if |parts| == 1 {
      SplitWithout(parts[0], c);
    } else {
      SplitJoin(parts[1..], c);
      assert Join(parts, [c]) == parts[0] + [c] + Join(parts[1..], [c]);
      SplitConcat(parts[0], c, Join(parts[1..], [c]));
      SplitWithout(parts[0], c);
      assert [parts[0]] + parts[1..] == parts;
    }
  }

  lemma {:induction false} JoinAppend(parts: seq<string>, last: string, sep: string)
    requires |parts| > 0
    ensures Join(parts + [last], sep) == Join(parts, sep) + sep + last
    decreases |parts|
  {
    if |parts| == 1 {
      assert (parts + [last])[1..] == [last];
    } else {
      assert (parts + [last])[1..] == parts[1..] + [last];
      JoinAppend(parts[1..], last, sep);
    }
  }

  /** Joining two non-empty runs of pieces puts one separator between their joins. */
  lemma {:induction false} JoinConcat(p: seq<string>, q: seq<string>, sep: string)
    requires |p| > 0 && |q| > 0
    ensures Join(p + q, sep) == Join(p, sep) + sep + Join(q, sep)
    decreases |p|
  {
    if |p| == 1 {
      assert (p + q)[1..] == q;
    } else {
      assert (p + q)[1..] == p[1..] + q;
      JoinConcat(p[1..], q, sep);
    }
  }

  /** Splitting a join gives back its first pieces when they hold no separator. */
  lemma SplitJoinPrefix(p: seq<string>, q: seq<string>, c: char)
    requires |p| > 0 && |q| > 0
    requires forall k, i :: 0 <= k < |p| && 0 <= i < |p[k]| ==> p[k][i] != c
    ensures |Split(Join(p + q, [c]), c)| >= |p| && Split(Join(p + q, [c]), c)[..|p|] == p
  {
    JoinConcat(p, q, [c]);
    SplitConcat(Join(p, [c]), c, Join(q, [c]));
    SplitJoin(p, c);
  }

  /** No piece of `s.split(c)` contains the separator. */
  lemma {:induction false} SplitPiecesFree(s: string, c: char)
    ensures forall k, i :: 0 <= k < |Split(s, c)| && 0 <= i < |Split(s, c)[k]| ==> Split(s, c)[k][i] != c
    decreases |s|
  {
    if |s| > 0 { SplitPiecesFree(s[1..], c); }
  }

  /** Splitting a string without the separator gives that string alone. */
  lemma {:induction false} SplitWithout(s: string, c: char)
    requires forall i :: 0 <= i < |s| ==> s[i] != c
    ensures Split(s, c) == [s]
    decreases |s|
  {
    if |s| > 0 {
      SplitWithout(s[1..], c);
      assert s[0] != c;
      assert [s[0]] + s[1..] == s;
    }
  }

  /** Case mapping never turns white space into anything else, or anything else into white space. */
  lemma {:induction false} TrimStartLower(s: string)
    ensures TrimStart(Lower(s)) == Lower(TrimStart(s))
    decreases |s|
  {
    if |s| > 0 {
      assert Lower(s)[1..] == Lower(s[1..]);
      TrimStartLower(s[1..]);
    }
  }

  lemma {:induction false} TrimEndLower(s: string)
    ensures TrimEnd(Lower(s)) == Lower(TrimEnd(s))
    decreases |s|
  {
    if |s| > 0 {
      assert Lower(s)[..|s| - 1] == Lower(s[..|s| - 1]);
      TrimEndLower(s[..|s| - 1]);
    }
  }

  /** A word without white space found in `s` is still found once `s` is trimmed. */
  lemma {:induction false} ContainsTrimStart(s: string, w: string)
    requires |w| > 0 && NoSpace(w) && Contains(s, w)
    ensures Contains(TrimStart(s), w)
    decreases |s|
  {
    if |s| > 0 && IsSpace(s[0]) {
      assert !StartsWith(s, w) by { assert !IsSpace(w[0]); }
      ContainsTrimStart(s[1..], w);
    }
  }

  lemma {:induction false} ContainsTrimEnd(s: string, w: string)
    requires |w| > 0 && NoSpace(w) && Contains(s, w)
    ensures Contains(TrimEnd(s), w)
    decreases |s|
  {
    if |s| > 0 && IsSpace(s[|s| - 1]) {
      var i := ContainsWitness(s, w);
      assert i + |w| < |s| by {
        assert !IsSpace(w[|w| - 1]);
        assert s[i..i + |w|][|w| - 1] == s[i + |w| - 1];
      }
      assert s[..|s| - 1][i..i + |w|] == w;
      ContainsAt(s[..|s| - 1], w, i);
      ContainsTrimEnd(s[..|s| - 1], w);
    }
  }

  lemma ContainsTrim(s: string, w: string)
    requires |w| > 0 && NoSpace(w) && Contains(s, w)
    ensures Contains(Trim(s), w)
  {
    ContainsTrimStart(s, w);
    ContainsTrimEnd(TrimStart(s), w);
  }

  /** The trimmed string is a window of the string, starting after the leading white space. */
  lemma TrimIsWindow(s: string)
    ensures |TrimStart(s)| <= |s|
    ensures |s| - |TrimStart(s)| + |Trim(s)| <= |s|
    ensures Trim(s) == s[|s| - |TrimStart(s)|..|s| - |TrimStart(s)| + |Trim(s)|]
  {
    var u := TrimStart(s);
    TrimStartShape(s);
    TrimEndShape(u);
    assert u == s[|s| - |u|..];
    assert Trim(s) == u[..|Trim(s)|];
  }

  /** What is found in a trimmed string is found in the string. */
  lemma ContainsOfTrim(s: string, w: string)
    ensures Contains(Trim(s), w) ==> Contains(s, w)
  {
    if !Contains(Trim(s), w) {
      return;
    }
    TrimIsWindow(s);
    var a := |s| - |TrimStart(s)|;
    ContainsInWindow(s, a, a + |Trim(s)|, w);
  }

  /** What is found in a window of a string is found in the string. */
  lemma ContainsInWindow(s: string, lo: nat, hi: nat, w: string)
    requires lo <= hi <= |s| && Contains(s[lo..hi], w)
    ensures Contains(s, w)
  {
    var i := ContainsWitness(s[lo..hi], w);
    assert s[lo + i..lo + i + |w|] == w by {
      forall k | 0 <= k < |w| ensures s[lo + i + k] == w[k] {
        assert s[lo..hi][i..i + |w|][k] == w[k];
      }
    }
    ContainsAt(s, w, lo + i);
  }

  lemma TrimLower(s: string)
    ensures Trim(Lower(s)) == Lower(Trim(s))
  {
    TrimStartLower(s);
    TrimEndLower(TrimStart(s));
  }

  lemma {:induction false} LowerIdempotent(s: string)
    ensures Lower(Lower(s)) == Lower(s)
  {
  }

  /** A string without a minus sign never reads as a negative number. */
  lemma ParseIntUnsigned(s: string)
    requires forall i :: 0 <= i < |s| ==> s[i] != '-'
    ensures ParseInt(s).Some? ==> ParseInt(s).value >= 0
  {
    var t := TrimStart(s);
    TrimStartShape(s);
    if |t| > 0 {
      assert t[0] == s[|s| - |t|];
    }
    var signed := |t| > 0 && (t[0] == '-' || t[0] == '+');
    var rest := if signed then t[1..] else t;
    LeadingDigitsShape(rest);
    DigitsValueNonNegative(LeadingDigits(rest));
  }

  function MaxInt(a: int, b: int): int { if a >= b then a else b }
  function MinInt(a: int, b: int): int { if a <= b then a else b }

  /**
   * `s.slice(start, end)`: a negative bound counts from the end, both are
   * clamped to the sequence, and crossed bounds give the empty sequence.
   */
  function Slice<T>(s: seq<T>, start: int, end: int): seq<T>
  {
    var from := if start < 0 then MaxInt(|s| + start, 0) else MinInt(start, |s|);
    var to := if end < 0 then MaxInt(|s| + end, 0) else MinInt(end, |s|);
    if from < to then s[from..to] else []
  }

  /** With bounds `0 <= start <= end` a slice is a window of at most `end - start` elements. */
  lemma SliceWindow<T>(s: seq<T>, start: int, end: int)
    requires 0 <= start <= end
    ensures |Slice(s, start, end)| <= end - start
    ensures forall k :: 0 <= k < |Slice(s, start, end)| ==> start + k < |s| && Slice(s, start, end)[k] == s[start + k]
    ensures end >= |s| ==> Slice(s, start, end) == s[MinInt(start, |s|)..]
  {
  }

  // ---------------------------------------------------------------------
  // The pattern /\b(\d+)\b/

  /** A character of the class `\w`. */
  predicate IsWordChar(c: char) { IsLetter(c) || IsDigit(c) || c == '_' }

  /**
   * A run of digits starts at `i` with a word boundary before it and one
   * after the whole run: where `/\b(\d+)\b/` can match.
   */
  predicate StandaloneAt(s: string, i: int)
  {
    0 <= i < |s| && IsDigit(s[i]) && (i == 0 || !IsWordChar(s[i - 1])) &&
    (i + |LeadingDigits(s[i..])| == |s| || !IsWordChar(s[i + |LeadingDigits(s[i..])|]))
  }

  /** The leftmost position from `i` on where the pattern matches. */
  function FirstStandaloneFrom(s: string, i: nat): (r: Option<nat>)
    requires i <= |s|
    ensures r.Some? ==> i <= r.value < |s| && StandaloneAt(s, r.value)
    ensures r.Some? ==> forall k :: i <= k < r.value ==> !StandaloneAt(s, k)
    ensures r.None? ==> forall k :: i <= k < |s| ==> !StandaloneAt(s, k)
    decreases |s| - i
  {
    if i == |s| then None
    else if StandaloneAt(s, i) then Some(i)
    else FirstStandaloneFrom(s, i + 1)
  }

  /** `parseInt(s.match(/\b(\d+)\b/)[1])`, or `None` when the pattern does not match. */
  function FirstNumber(s: string): Option<int>
  {
    match FirstStandaloneFrom(s, 0)
    case None => None
    case Some(i) => Some(DigitsValue(LeadingDigits(s[i..])))
  }

  /** The number read is the value of the digit run at the leftmost match, and is never negative. */
  lemma FirstNumberSpec(s: string)
    ensures FirstNumber(s).None? <==> forall k :: 0 <= k < |s| ==> !StandaloneAt(s, k)
    ensures FirstNumber(s).Some? ==> FirstNumber(s).value >= 0
  {
    var r := FirstStandaloneFrom(s, 0);
    if r.Some? {
      LeadingDigitsShape(s[r.value..]);
      DigitsValueNonNegative(LeadingDigits(s[r.value..]));
    }
  }
}
