// src/utils/emailValidation.ts: the address check used before a quote or
// invoice is sent, and the normal form addresses are stored in.

module EmailValidation {
  import opened Wrappers
  import opened Text

  /** `{ valid, error }`; the source never sets a warning. */
  datatype ValidationResult = ValidationResult(valid: bool, error: Option<string>)

  const Required: string := "Email is required"
  const InvalidFormat: string := "Invalid email format"

  /** A run of `[^\s@]`. */
  predicate Word(s: string)
  {
    |s| > 0 && forall i :: 0 <= i < |s| ==> !IsSpace(s[i]) && s[i] != '@'
  }

  /** `/^[^\s@]+@[^\s@]+\.[^\s@]+$/.test(t)`, split where the regex places `@` and `.`. */
  predicate EmailPattern(t: string)
  {
    exists a, d :: 0 < a && a + 1 < d < |t| - 1 && t[a] == '@' && t[d] == '.' &&
      Word(t[..a]) && Word(t[a + 1..d]) && Word(t[d + 1..])
  }

  /** `validateEmail(email)` for a string argument. */
  function ValidateEmail(email: string): (r: ValidationResult)
    ensures r.valid <==> r.error.None?
    ensures email == "" ==> r == ValidationResult(false, Some(Required))
  {
    if email == "" then ValidationResult(false, Some(Required))
    else
      var trimmed := Lower(Trim(email));
      if !EmailPattern(trimmed) then ValidationResult(false, Some(InvalidFormat))
      else ValidationResult(true, None)
  }

  /** `isValidEmail(email)` */
  function IsValidEmail(email: string): bool
  {
    ValidateEmail(email).valid
  }

  /** `formatEmail(email)` */
  function FormatEmail(email: string): string
  {
    if email == "" then "" else Lower(Trim(email))
  }

  /** A domain with a dot that is neither its first nor its last character. */
  predicate DotInside(domain: string)
  {
    exists p :: 0 < p < |domain| - 1 && domain[p] == '.'
  }

  /** The one `@` of `t` is at `a`. */
  predicate OnlyAt(t: string, a: int)
  {
    0 <= a < |t| && t[a] == '@' && forall k :: 0 <= k < |t| && k != a ==> t[k] != '@'
  }

  /**
   * What the regex asks for, in words: no white space, exactly one `@`
   * with something before it, and a dot inside the domain.
   */
  predicate LooksLikeEmail(t: string)
  {
    NoSpace(t) && exists a :: 0 < a < |t| && OnlyAt(t, a) && DotInside(t[a + 1..])
  }

  lemma WordChar(s: string, i: nat)
    requires Word(s) && i < |s|
    ensures !IsSpace(s[i]) && s[i] != '@'
  {
  }

  lemma PatternLooksLikeEmail(t: string)
    requires EmailPattern(t)
    ensures LooksLikeEmail(t)
  {
    var a, d :| 0 < a && a + 1 < d < |t| - 1 && t[a] == '@' && t[d] == '.' &&
      Word(t[..a]) && Word(t[a + 1..d]) && Word(t[d + 1..]);
    forall k | 0 <= k < |t|
      ensures !IsSpace(t[k]) && (k != a ==> t[k] != '@')
    {
      if k < a {
        WordChar(t[..a], k);
      } else if a < k < d {
        WordChar(t[a + 1..d], k - a - 1);
      } else if d < k {
        WordChar(t[d + 1..], k - d - 1);
      }
    }
    assert t[a + 1..][d - a - 1] == '.';
    assert OnlyAt(t, a);
  }

  lemma LooksLikeEmailIsPattern(t: string)
    requires LooksLikeEmail(t)
    ensures EmailPattern(t)
  {
    var a :| 0 < a < |t| && OnlyAt(t, a) && DotInside(t[a + 1..]);
    var p :| 0 < p < |t[a + 1..]| - 1 && t[a + 1..][p] == '.';
    var d := a + 1 + p;
    assert t[d] == '.';
    assert Word(t[..a]);
    assert Word(t[a + 1..d]);
    assert Word(t[d + 1..]);
  }

  /** The regex accepts exactly the addresses that look like one. */
  lemma PatternMeaning(t: string)
    ensures EmailPattern(t) <==> LooksLikeEmail(t)
  {
    if EmailPattern(t) {
      PatternLooksLikeEmail(t);
    }
    if LooksLikeEmail(t) {
      LooksLikeEmailIsPattern(t);
    }
  }

  /** An address is valid exactly when its trimmed, lower-cased form looks like one. */
  lemma ValidMeaning(email: string)
    ensures IsValidEmail(email) <==> email != "" && LooksLikeEmail(Lower(Trim(email)))
  {
    PatternMeaning(Lower(Trim(email)));
  }

  /** White space around an address never makes it invalid, nor valid. */
  lemma SurroundingSpaceIgnored(email: string)
    requires Trim(email) != ""
    ensures ValidateEmail(email) == ValidateEmail(Trim(email))
  {
    TrimIdempotent(email);
  }

  /** The stored form is trimmed and lower-cased once and for all. */
  lemma FormatIdempotent(email: string)
    ensures FormatEmail(FormatEmail(email)) == FormatEmail(email)
  {
    if email != "" && FormatEmail(email) != "" {
      TrimLower(Trim(email));
      TrimIdempotent(email);
      LowerIdempotent(Trim(email));
    }
  }

  /** Formatting an address first does not change whether it is valid. */
  lemma FormatKeepsValidity(email: string)
    requires Trim(email) != ""
    ensures IsValidEmail(FormatEmail(email)) == IsValidEmail(email)
  {
    FormatIdempotent(email);
  }

  /** An address with a second `@` is rejected. */
  lemma TwoAtsInvalid(t: string, i: int, j: int)
    requires 0 <= i < j < |t| && t[i] == '@' && t[j] == '@'
    ensures !LooksLikeEmail(t)
  {
    forall a | 0 < a < |t|
      ensures !OnlyAt(t, a)
    {
      assert a != i ==> t[i] == '@';
    }
  }

  /** An address with no dot after its `@` is rejected. */
  lemma NoDotInvalid(t: string, a: int)
    requires 0 <= a < |t| && t[a] == '@'
    requires forall k :: a < k < |t| ==> t[k] != '.'
    ensures !LooksLikeEmail(t)
  {
    forall b | 0 < b < |t| && OnlyAt(t, b)
      ensures !DotInside(t[b + 1..])
    {
      assert b == a;
    }
  }

  /** White space inside an address, of any kind `\s` matches, makes it invalid. */
  lemma InnerSpaceInvalid(email: string, k: nat)
    requires k < |email| && IsSpace(email[k])
    requires !IsSpace(email[0]) && !IsSpace(email[|email| - 1])
    ensures !IsValidEmail(email)
  {
    TrimOfTrimmed(email);
    ValidMeaning(email);
    assert Lower(email)[k] == email[k];
  }

  /** So a no-break space inside the local part is rejected, as the regex rejects it. */
  lemma NoBreakSpaceInvalid(email: string)
    requires email == "a\U{A0}b@c.de"
    ensures !IsValidEmail(email)
  {
    InnerSpaceInvalid(email, 1);
  }

  /** The simplest address that passes. */
  lemma ShortestValid(t: string)
    requires t == "a@b.c"
    ensures LooksLikeEmail(t)
  {
    assert OnlyAt(t, 1);
    assert t[2..][1] == '.';
  }
}
