// src/utils/address.ts: the suburb read off a free-text Australian
// address by four regular expressions tried in turn, and the first name
// read off a full name.

module Address {
  import opened Wrappers
  import opened Text

  predicate AllSpace(s: string) { forall i :: 0 <= i < |s| ==> IsSpace(s[i]) }
  predicate AllUpper(s: string) { forall i :: 0 <= i < |s| ==> IsUpper(s[i]) }
  predicate NoComma(s: string) { forall i :: 0 <= i < |s| ==> s[i] != ',' }

  /** The characters the regex `.` does not match. */
  predicate IsLineTerminator(c: char) { c == '\n' || c == '\r' || c == '\U{2028}' || c == '\U{2029}' }

  predicate NoLineBreak(s: string) { forall i :: 0 <= i < |s| ==> !IsLineTerminator(s[i]) }

  /** `r` is matched, to its end, by `\s+[A-Z]{2,3}\s+\d{4}`: a state and a postcode. */
  predicate StateTail(r: string)
  {
    exists i, j :: 1 <= i && i + 2 <= j <= i + 3 && j < |r| - 4 &&
      AllSpace(r[..i]) && AllUpper(r[i..j]) && AllSpace(r[j..|r| - 4]) && AllDigits(r[|r| - 4..])
  }

  /** The three patterns that capture a prefix of the line up to a state tail. */
  datatype Pattern =
    | SuburbLine    // /^([^,]+),?\s+([A-Z]{2,3})\s+\d{4}$/
    | SecondLine    // /^([^,]+?)(?:\s+[A-Z]{2,3}\s+\d{4})?$/
    | StateStrip    // /^(.+?)\s+[A-Z]{2,3}\s+\d{4}$/

  /** The pattern matches `t` with its first group ending at `k`. */
  predicate Fits(p: Pattern, t: string, k: int)
  {
    1 <= k <= |t| &&
    match p
    case SuburbLine =>
      NoComma(t[..k]) && (StateTail(t[k..]) || (k < |t| && t[k] == ',' && StateTail(t[k + 1..])))
    case SecondLine =>
      NoComma(t[..k]) && (k == |t| || StateTail(t[k..]))
    case StateStrip =>
      NoLineBreak(t[..k]) && StateTail(t[k..])
  }

  /** A greedy first group: the longest end at most `k` that fits. */
  function Longest(p: Pattern, t: string, k: nat): (r: Option<nat>)
    requires k <= |t|
    ensures r.Some? ==> r.value <= k && Fits(p, t, r.value)
    ensures r.Some? ==> forall m :: r.value < m <= k ==> !Fits(p, t, m)
    ensures r.None? ==> forall m :: 0 <= m <= k ==> !Fits(p, t, m)
    decreases k
  {
    if k == 0 then None
    else if Fits(p, t, k) then Some(k)
    else Longest(p, t, k - 1)
  }

  /** A lazy first group: the shortest end from `k` on that fits. */
  function Shortest(p: Pattern, t: string, k: nat): (r: Option<nat>)
    requires k <= |t| + 1
    ensures r.Some? ==> k <= r.value && Fits(p, t, r.value)
    ensures r.Some? ==> forall m :: k <= m < r.value ==> !Fits(p, t, m)
    ensures r.None? ==> forall m :: k <= m <= |t| ==> !Fits(p, t, m)
    decreases |t| + 1 - k
  {
    if k > |t| then None
    else if Fits(p, t, k) then Some(k)
    else Shortest(p, t, k + 1)
  }

  /** The first group of a match of `p` against `t`, if it matches. */
  function Group(p: Pattern, t: string): Option<string>
  {
    var end := if p == SuburbLine then Longest(p, t, |t|) else Shortest(p, t, 1);
    match end
    case None => None
    case Some(k) => Some(t[..k])
  }

  /** The longest prefix without a capital letter: group 1 of `/^([^A-Z]+)(?:\s+[A-Z]{2,3}\s+\d{4})?/`. */
  function LeadingNonUpper(s: string): (r: string)
    ensures StartsWith(s, r)
    ensures forall i :: 0 <= i < |r| ==> !IsUpper(r[i])
    ensures |r| < |s| ==> IsUpper(s[|r|])
    decreases |s|
  {
    if |s| > 0 && !IsUpper(s[0]) then [s[0]] + LeadingNonUpper(s[1..]) else []
  }

  /** Pattern 2 as written: it matches only when the text does not start with a capital. */
  function AfterCommaAsWritten(s: string): Option<string>
  {
    var g := LeadingNonUpper(s);
    if g == [] then None else Some(g)
  }

  /** Pattern 2 as its comment describes it: the text up to an optional state and postcode. */
  function AfterCommaIntended(s: string): Option<string>
  {
    Group(SecondLine, s)
  }

  /** `extractSuburb`, with the rule for the text after the first comma given. */
  function SuburbWith(address: string, afterComma: string -> Option<string>): string
  {
    if address == "" then ""
    else
      var lines := Split(address, '\n');
      var lastLine := Trim(lines[|lines| - 1]);
      match Group(SuburbLine, lastLine)
      case Some(g) => Trim(g)
      case None =>
        var parts := Split(address, ',');
        var second := if |parts| >= 2 then afterComma(Trim(parts[1])) else None;
        if second.Some? then Trim(second.value)
        else
          var third := if |lines| >= 2 then Group(SecondLine, Trim(lines[1])) else None;
          if third.Some? then Trim(third.value)
          else
            match Group(StateStrip, lastLine)
            case Some(g) => Trim(g)
            case None => lastLine
  }

  /** `extractSuburb(address)` as written. */
  function ExtractSuburb(address: string): string
  {
    SuburbWith(address, AfterCommaAsWritten)
  }

  /** `extractSuburb(address)` with pattern 2 as intended. */
  function ExtractSuburbIntended(address: string): string
  {
    SuburbWith(address, AfterCommaIntended)
  }

  // ---------------------------------------------------------------------
  // The state tail

  lemma TailShape(r: string)
    requires StateTail(r)
    ensures |r| >= 8 && IsSpace(r[0])
  {
  }

  /** The tail of a state and a postcode, single-spaced. */
  predicate IsStateAndPostcode(state: string, postcode: string)
  {
    2 <= |state| <= 3 && AllUpper(state) && |postcode| == 4 && AllDigits(postcode)
  }

  lemma TailMatches(state: string, postcode: string)
    requires IsStateAndPostcode(state, postcode)
    ensures StateTail(" " + state + " " + postcode)
  {
    var r := " " + state + " " + postcode;
    var j := 1 + |state|;
    assert r[..1] == " " && r[1..j] == state && r[j..|r| - 4] == " " && r[|r| - 4..] == postcode;
  }

  /** Whatever stands before a single-spaced state tail, a match must take it all as white space. */
  lemma TailPrefixSpace(x: string, state: string, postcode: string)
    requires IsStateAndPostcode(state, postcode)
    requires StateTail(x + " " + state + " " + postcode)
    ensures AllSpace(x)
  {
    var r := x + " " + state + " " + postcode;
    var p := |x| + 1 + |state|;
    assert r[p] == ' ' && |r| - 4 == p + 1;
    var i, j :| 1 <= i && i + 2 <= j <= i + 3 && j < |r| - 4 &&
      AllSpace(r[..i]) && AllUpper(r[i..j]) && AllSpace(r[j..|r| - 4]) && AllDigits(r[|r| - 4..]);
    assert j == p by {
      assert r[p - 1] == state[|state| - 1];
      assert !IsSpace(r[p - 1]);
    }
    assert i == |x| + 1 by {
      assert r[|x|] == ' ' && !IsUpper(r[|x|]);
      assert r[|x| + 1] == state[0] && !IsSpace(r[|x| + 1]);
    }
    assert forall k :: 0 <= k < |x| ==> x[k] == r[..i][k];
  }

  // ---------------------------------------------------------------------
  // What the patterns select

  /** The last line "Suburb STATE 1234" is read by pattern 1, which gives the suburb. */
  lemma SuburbLineGivesSuburb(suburb: string, state: string, postcode: string)
    requires IsStateAndPostcode(state, postcode)
    requires |suburb| > 0 && NoComma(suburb) && !IsSpace(suburb[0]) && !IsSpace(suburb[|suburb| - 1])
    ensures Group(SuburbLine, suburb + " " + state + " " + postcode) == Some(suburb)
  {
    var tail := " " + state + " " + postcode;
    var t := suburb + tail;
    assert t == suburb + " " + state + " " + postcode;
    assert t[..|suburb|] == suburb && t[|suburb|..] == tail;
    TailMatches(state, postcode);
    assert Fits(SuburbLine, t, |suburb|);
    forall m | |suburb| < m <= |t|
      ensures !Fits(SuburbLine, t, m)
    {
      var q := m - |suburb|;
      assert t[m..] == tail[q..];
      assert q < 1 + |state| ==> tail[q] == state[q - 1];
      assert 1 + |state| < q < |tail| ==> tail[q] == postcode[q - 2 - |state|];
      if StateTail(t[m..]) {
        TailShape(t[m..]);
        assert false;
      }
      assert m < |t| ==> t[m] != ',';
    }
  }

  /** Pattern 1 never matches a line with a comma before a non-blank suburb. */
  lemma SuburbLineMissesComma(street: string, rest: string, state: string, postcode: string)
    requires IsStateAndPostcode(state, postcode)
    requires |street| > 0 && NoComma(street) && |rest| > 0 && !IsSpace(rest[|rest| - 1])
    ensures Group(SuburbLine, street + "," + rest + " " + state + " " + postcode).None?
  {
    var t := street + "," + rest + " " + state + " " + postcode;
    forall m | 0 <= m <= |t|
      ensures !Fits(SuburbLine, t, m)
    {
      NoFitBeforeComma(street, rest, state, postcode, m);
    }
  }

  lemma NoFitBeforeComma(street: string, rest: string, state: string, postcode: string, m: int)
    requires IsStateAndPostcode(state, postcode)
    requires |street| > 0 && NoComma(street) && |rest| > 0 && !IsSpace(rest[|rest| - 1])
    ensures !Fits(SuburbLine, street + "," + rest + " " + state + " " + postcode, m)
  {
    var t := street + "," + rest + " " + state + " " + postcode;
    if 1 <= m <= |t| && NoComma(t[..m]) {
      assert t[|street|] == ',';
      assert m <= |street|;
      var x := street[m..] + "," + rest;
      assert t[m..] == x + " " + state + " " + postcode;
      assert x[|x| - 1] == rest[|rest| - 1];
      if StateTail(t[m..]) {
        TailPrefixSpace(x, state, postcode);
        assert false;
      }
      if m < |t| && t[m] == ',' {
        assert m == |street|;
        assert t[m + 1..] == rest + " " + state + " " + postcode;
        if StateTail(t[m + 1..]) {
          TailPrefixSpace(rest, state, postcode);
          assert false;
        }
      }
    }
  }

  /** The fallback keeps everything before a single-spaced state tail. */
  lemma StateStripGivesPrefix(x: string, state: string, postcode: string)
    requires IsStateAndPostcode(state, postcode)
    requires |x| > 0 && NoLineBreak(x) && !IsSpace(x[|x| - 1])
    ensures Group(StateStrip, x + " " + state + " " + postcode) == Some(x)
  {
    var t := x + " " + state + " " + postcode;
    assert t[..|x|] == x && t[|x|..] == " " + state + " " + postcode;
    TailMatches(state, postcode);
    assert Fits(StateStrip, t, |x|);
    forall m | 1 <= m < |x|
      ensures !Fits(StateStrip, t, m)
    {
      assert t[m..] == x[m..] + " " + state + " " + postcode;
      assert x[m..][|x| - m - 1] == x[|x| - 1];
      if StateTail(t[m..]) {
        TailPrefixSpace(x[m..], state, postcode);
        assert false;
      }
    }
  }

  /** The intended pattern 2 keeps the suburb before a single-spaced state tail. */
  lemma SecondLineGivesPrefix(x: string, state: string, postcode: string)
    requires IsStateAndPostcode(state, postcode)
    requires |x| > 0 && NoComma(x) && !IsSpace(x[|x| - 1])
    ensures Group(SecondLine, x + " " + state + " " + postcode) == Some(x)
  {
    var t := x + " " + state + " " + postcode;
    assert t[..|x|] == x && t[|x|..] == " " + state + " " + postcode;
    TailMatches(state, postcode);
    assert Fits(SecondLine, t, |x|);
    forall m | 1 <= m < |x|
      ensures !Fits(SecondLine, t, m)
    {
      assert t[m..] == x[m..] + " " + state + " " + postcode;
      assert x[m..][|x| - m - 1] == x[|x| - 1];
      if StateTail(t[m..]) {
        TailPrefixSpace(x[m..], state, postcode);
        assert false;
      }
    }
  }

  // ---------------------------------------------------------------------
  // extractSuburb

  /** `extractSuburb('')` is empty. */
  lemma EmptyAddress()
    ensures ExtractSuburb("") == "" && ExtractSuburbIntended("") == ""
  {
  }

  /** A one-line address without a comma that no pattern matches is returned trimmed. */
  lemma NoPatternGivesLine(address: string)
    requires address != "" && NoComma(address) && NoLineBreak(address)
    requires Group(SuburbLine, Trim(address)).None? && Group(StateStrip, Trim(address)).None?
    ensures ExtractSuburb(address) == Trim(address)
  {
    SplitWithout(address, '\n');
    SplitWithout(address, ',');
  }

  /**
   * A multi-line address whose last line is "Suburb STATE 1234" gives the
   * suburb, whatever the lines above it say.
   */
  lemma LastLineSuburb(address: string, suburb: string, state: string, postcode: string)
    requires IsStateAndPostcode(state, postcode)
    requires |suburb| > 0 && NoComma(suburb) && !IsSpace(suburb[0]) && !IsSpace(suburb[|suburb| - 1])
    requires address != ""
    requires Trim(Split(address, '\n')[|Split(address, '\n')| - 1]) == suburb + " " + state + " " + postcode
    ensures ExtractSuburb(address) == suburb
    ensures ExtractSuburbIntended(address) == suburb
  {
    SuburbLineGivesSuburb(suburb, state, postcode);
    TrimOfTrimmed(suburb);
  }

  lemma NoCommaConcat(a: string, b: string)
    ensures NoComma(a + b) <==> NoComma(a) && NoComma(b)
  {
    assert forall k :: 0 <= k < |a| ==> (a + b)[k] == a[k];
    assert forall k :: 0 <= k < |b| ==> (a + b)[|a| + k] == b[k];
  }

  lemma NoLineBreakConcat(a: string, b: string)
    ensures NoLineBreak(a + b) <==> NoLineBreak(a) && NoLineBreak(b)
  {
    assert forall k :: 0 <= k < |a| ==> (a + b)[k] == a[k];
    assert forall k :: 0 <= k < |b| ==> (a + b)[|a| + k] == b[k];
  }

  /** The one-line address "street, Suburb STATE 1234" the code comments give as their example. */
  predicate OneLineAddress(street: string, suburb: string, state: string, postcode: string)
  {
    IsStateAndPostcode(state, postcode) &&
    |street| > 0 && NoComma(street) && NoLineBreak(street) && !IsSpace(street[0]) &&
    |suburb| > 0 && NoComma(suburb) && NoLineBreak(suburb) && !IsSpace(suburb[|suburb| - 1])
  }

  function OneLine(street: string, suburb: string, state: string, postcode: string): string
  {
    street + ", " + suburb + " " + state + " " + postcode
  }

  lemma StateTailFree(state: string, postcode: string)
    requires IsStateAndPostcode(state, postcode)
    ensures NoComma(" " + state + " " + postcode) && NoLineBreak(" " + state + " " + postcode)
  {
  }

  /** The address is one line, already trimmed, with one comma. */
  lemma OneLinePieces(street: string, suburb: string, state: string, postcode: string)
    requires OneLineAddress(street, suburb, state, postcode)
    ensures var address := OneLine(street, suburb, state, postcode);
      Split(address, '\n') == [address] && Trim(address) == address &&
      Split(address, ',') == [street, " " + suburb + " " + state + " " + postcode]
  {
    var tail := " " + state + " " + postcode;
    var after := " " + suburb + tail;
    var address := OneLine(street, suburb, state, postcode);
    assert address == street + [','] + after;
    StateTailFree(state, postcode);
    NoCommaConcat(" " + suburb, tail);
    NoCommaConcat(" ", suburb);
    NoLineBreakConcat(" " + suburb, tail);
    NoLineBreakConcat(" ", suburb);
    NoLineBreakConcat(street + [','], after);
    NoLineBreakConcat(street, [',']);
    SplitWithout(address, '\n');
    assert address[|address| - 1] == postcode[3];
    TrimOfTrimmed(address);
    SplitConcat(street, ',', after);
    SplitWithout(street, ',');
    SplitWithout(after, ',');
    assert after == " " + suburb + " " + state + " " + postcode;
  }

  /** Pattern 1 fails on the address and the fallback keeps street and suburb. */
  lemma OneLinePatterns(street: string, suburb: string, state: string, postcode: string)
    requires OneLineAddress(street, suburb, state, postcode)
    ensures var address := OneLine(street, suburb, state, postcode);
      Group(SuburbLine, address).None? && Group(StateStrip, address) == Some(street + ", " + suburb)
  {
    var address := OneLine(street, suburb, state, postcode);
    assert address == street + "," + (" " + suburb) + " " + state + " " + postcode;
    SuburbLineMissesComma(street, " " + suburb, state, postcode);
    var x := street + ", " + suburb;
    assert address == x + " " + state + " " + postcode;
    assert x[|x| - 1] == suburb[|suburb| - 1];
    NoLineBreakConcat(street + ", ", suburb);
    NoLineBreakConcat(street, ", ");
    StateStripGivesPrefix(x, state, postcode);
  }

  /** The text after the comma, trimmed, is the suburb line. */
  lemma AfterCommaTrimmed(suburb: string, state: string, postcode: string)
    requires IsStateAndPostcode(state, postcode) && |suburb| > 0 && !IsSpace(suburb[0])
    ensures Trim(" " + suburb + " " + state + " " + postcode) == suburb + " " + state + " " + postcode
  {
    var after := suburb + " " + state + " " + postcode;
    assert " " + suburb + " " + state + " " + postcode == " " + after;
    assert (" " + after)[1..] == after;
    assert after[|after| - 1] == postcode[3];
    TrimOfTrimmed(after);
  }

  /**
   * As written, a one-line address with a capitalised suburb passes
   * patterns 1 and 2 and falls back to the whole line before the state:
   * the street comes back with the suburb.
   */
  lemma OneLineKeepsStreet(street: string, suburb: string, state: string, postcode: string)
    requires OneLineAddress(street, suburb, state, postcode) && IsUpper(suburb[0])
    ensures ExtractSuburb(OneLine(street, suburb, state, postcode)) == street + ", " + suburb
  {
    OneLinePieces(street, suburb, state, postcode);
    OneLinePatterns(street, suburb, state, postcode);
    AfterCommaTrimmed(suburb, state, postcode);
    assert AfterCommaAsWritten(suburb + " " + state + " " + postcode).None?;
    var x := street + ", " + suburb;
    assert x[|x| - 1] == suburb[|suburb| - 1];
    TrimOfTrimmed(x);
  }

  /** With pattern 2 as intended, the same address gives the suburb. */
  lemma OneLineIntendedGivesSuburb(street: string, suburb: string, state: string, postcode: string)
    requires OneLineAddress(street, suburb, state, postcode) && !IsSpace(suburb[0])
    ensures ExtractSuburbIntended(OneLine(street, suburb, state, postcode)) == suburb
  {
    OneLinePieces(street, suburb, state, postcode);
    OneLinePatterns(street, suburb, state, postcode);
    AfterCommaTrimmed(suburb, state, postcode);
    SecondLineGivesPrefix(suburb, state, postcode);
    TrimOfTrimmed(suburb);
  }

  lemma MarrickvilleIsOneLine()
    ensures OneLineAddress("123 Main St", "Marrickville", "NSW", "2204")
    ensures OneLine("123 Main St", "Marrickville", "NSW", "2204") == "123 Main St, Marrickville NSW 2204"
  {
  }

  /** The example from the code's own comment, "123 Main St, Marrickville NSW 2204". */
  lemma MarrickvilleExample(street: string, suburb: string, state: string, postcode: string)
    requires street == "123 Main St" && suburb == "Marrickville" && state == "NSW" && postcode == "2204"
    ensures ExtractSuburb(OneLine(street, suburb, state, postcode)) == street + ", " + suburb
    ensures ExtractSuburbIntended(OneLine(street, suburb, state, postcode)) == suburb
  {
    MarrickvilleIsOneLine();
    OneLineKeepsStreet(street, suburb, state, postcode);
    OneLineIntendedGivesSuburb(street, suburb, state, postcode);
  }

  // ---------------------------------------------------------------------
  // extractFirstName

  /** The longest prefix without white space. */
  function LeadingNonSpace(s: string): (r: string)
    ensures StartsWith(s, r) && NoSpace(r)
    ensures |r| < |s| ==> IsSpace(s[|r|])
    decreases |s|
  {
    if |s| > 0 && !IsSpace(s[0]) then [s[0]] + LeadingNonSpace(s[1..]) else []
  }

  /** `extractFirstName(fullName)`: the first piece of `fullName.trim().split(/\s+/)`. */
  function ExtractFirstName(fullName: string): string
  {
    if fullName == "" then "" else LeadingNonSpace(Trim(fullName))
  }

  /** The first name is a prefix of the trimmed name without white space, empty only for a blank name. */
  lemma FirstNameShape(fullName: string)
    ensures NoSpace(ExtractFirstName(fullName))
    ensures StartsWith(Trim(fullName), ExtractFirstName(fullName))
    ensures ExtractFirstName(fullName) == "" <==> Trim(fullName) == ""
  {
    var t := Trim(fullName);
    TrimStartShape(fullName);
    TrimEndShape(TrimStart(fullName));
    if t != "" {
      assert t[0] == TrimStart(fullName)[0];
      assert ExtractFirstName(fullName) != "";
    }
  }

  /** Taking the first name of a first name changes nothing. */
  lemma FirstNameIdempotent(fullName: string)
    ensures ExtractFirstName(ExtractFirstName(fullName)) == ExtractFirstName(fullName)
  {
    var f := ExtractFirstName(fullName);
    if f != "" {
      TrimOfTrimmed(f);
      assert LeadingNonSpace(f) == f by {
        NoSpaceLeading(f);
      }
    }
  }

  lemma {:induction false} NoSpaceLeading(s: string)
    requires NoSpace(s)
    ensures LeadingNonSpace(s) == s
    decreases |s|
  {
    if |s| > 0 {
      NoSpaceLeading(s[1..]);
    }
  }
}
