/**
 * Input validation and marker-key normalisation (api/app.py:113-138,
 * lambda/main.py:112-121).
 *
 * Both validators are `re.match` calls anchored with `$`. In Python `$` also
 * matches just before a final newline, so each validator accepts one
 * trailing "\n"; the model keeps that. `\d` and `\s` are taken as their ASCII
 * members.
 */
module Validation {
  import opened Text

  predicate IsDigit(c: char) {
    '0' <= c <= '9'
  }

  /** What the `$` anchor accepts after the last matched character. */
  predicate AtEnd(tail: string) {
    tail == [] || tail == "\n"
  }

  /** The string a `$`-anchored pattern has to match: `s` without one final newline. */
  function Core(s: string): (t: string)
    ensures t == s || (|s| > 0 && s[|s| - 1] == '\n' && t == s[..|s| - 1])
  {
    if |s| > 0 && s[|s| - 1] == '\n' then s[..|s| - 1] else s
  }

  /** Length of the longest prefix of `s` made of decimal digits (the greedy `\d{..}`). */
  function LeadingDigits(s: string): (n: nat)
    ensures n <= |s|
    ensures forall i :: 0 <= i < n ==> IsDigit(s[i])
    ensures n < |s| ==> !IsDigit(s[n])
  {
    if s != [] && IsDigit(s[0]) then 1 + LeadingDigits(s[1..]) else 0
  }

  /** `validate_phone`: `re.match(r'^\+\d{10,15}$', phone)`. */
  predicate ValidPhone(phone: string) {
    |phone| > 0 && phone[0] == '+' &&
    var n := LeadingDigits(phone[1..]);
    10 <= n <= 15 && AtEnd(phone[1 + n..])
  }

  /** A `+` followed by 10 to 15 decimal digits and nothing else (E.164's 15-digit maximum). */
  ghost predicate E164Shape(s: string) {
    11 <= |s| <= 16 && s[0] == '+' && forall i :: 1 <= i < |s| ==> IsDigit(s[i])
  }

  /** `validate_phone` holds exactly for a `+` and 10 to 15 digits, optionally followed by one newline. */
  lemma ValidPhoneIff(phone: string)
    ensures ValidPhone(phone) <==>
      (E164Shape(phone) || (|phone| > 0 && phone[|phone| - 1] == '\n' && E164Shape(phone[..|phone| - 1])))
  {
    if |phone| > 0 && phone[0] == '+' {
      var s := phone[1..];
      var n := LeadingDigits(s);
      if E164Shape(phone) {
        assert n == |s|;
        assert phone[1 + n..] == [];
      } else if |phone| > 0 && phone[|phone| - 1] == '\n' && E164Shape(phone[..|phone| - 1]) {
        var t := phone[..|phone| - 1];
        assert n == |t| - 1;
        assert phone[1 + n..] == "\n";
      }
    }
  }

  /** Every character of a valid phone after the `+` is a digit or the final newline. */
  lemma ValidPhoneTail(phone: string)
    requires ValidPhone(phone)
    ensures '+' !in phone[1..] && '@' !in phone[1..] && '.' !in phone[1..]
  {
    var s := phone[1..];
    var n := LeadingDigits(s);
    assert s == s[..n] + s[n..];
    assert forall c :: c in s[..n] ==> IsDigit(c);
  }

  /** A character the regex class `[^\s@]` accepts. */
  predicate IsAddressChar(c: char) {
    !IsSpace(c) && c != '@'
  }

  /** Length of the longest prefix of `s` made of address characters (the greedy `[^\s@]+`). */
  function LeadingAddressChars(s: string): (n: nat)
    ensures n <= |s|
    ensures forall i :: 0 <= i < n ==> IsAddressChar(s[i])
    ensures n < |s| ==> !IsAddressChar(s[n])
  {
    if s != [] && IsAddressChar(s[0]) then 1 + LeadingAddressChars(s[1..]) else 0
  }

  /** A dot with at least one character on each side of it. */
  predicate HasInnerDot(d: string) {
    exists k :: 0 < k < |d| - 1 && d[k] == '.'
  }

  /** `validate_email`: `re.match(r'^[^\s@]+@[^\s@]+\.[^\s@]+$', email)`. */
  predicate ValidEmail(email: string) {
    var a := LeadingAddressChars(email);
    0 < a < |email| && email[a] == '@' &&
    var rest := email[a + 1..];
    var d := LeadingAddressChars(rest);
    HasInnerDot(rest[..d]) && AtEnd(rest[d..])
  }

  /** A non-empty local part without whitespace or '@'. */
  ghost predicate LocalOk(l: string) {
    |l| > 0 && forall i :: 0 <= i < |l| ==> IsAddressChar(l[i])
  }

  /** A domain without whitespace or '@' that holds a dot with a character on each side. */
  ghost predicate DomainOk(d: string) {
    (forall i :: 0 <= i < |d| ==> IsAddressChar(d[i])) && HasInnerDot(d)
  }

  /** A valid address has an '@' in the part the pattern matches. */
  lemma ValidEmailHasAt(email: string)
    requires ValidEmail(email)
    ensures '@' in Core(email)
  {
    var a := LeadingAddressChars(email);
    var rest := email[a + 1..];
    var d := LeadingAddressChars(rest);
    assert d > 0;
    assert rest[d - 1] != '\n';
    assert Core(email)[a] == '@';
  }

  /** The pattern's greedy local part ends at the first '@' of an address with a valid local part. */
  lemma LocalPartIsPrefix(email: string, a: nat)
    requires a < |Core(email)| && Core(email)[a] == '@'
    requires LocalOk(Core(email)[..a])
    ensures LeadingAddressChars(email) == a
  {
    var t := Core(email);
    var p := LeadingAddressChars(email);
    assert t[a] == email[a];
  }

  /** The pattern's greedy domain part is the whole domain. */
  lemma DomainPartIsSuffix(email: string, a: nat)
    requires a < |Core(email)| && Core(email)[a] == '@'
    requires DomainOk(Core(email)[a + 1..])
    ensures var rest := email[a + 1..];
      var d := LeadingAddressChars(rest);
      rest[..d] == Core(email)[a + 1..] && AtEnd(rest[d..])
  {
    var t := Core(email);
    var dom := t[a + 1..];
    var rest := email[a + 1..];
    var d := LeadingAddressChars(rest);
    assert forall i :: 0 <= i < |dom| ==> rest[i] == dom[i];
    assert rest[..d] == dom;
  }

  /** If the pattern matches, the first '@' of the matched part is where it split. */
  lemma MatchSplitsAtFirstAt(email: string, a: nat)
    requires a < |Core(email)| && Core(email)[a] == '@'
    requires ValidEmail(email)
    ensures LeadingAddressChars(email) == a
    ensures Core(email)[a + 1..] == email[a + 1..][..LeadingAddressChars(email[a + 1..])]
  {
    var t := Core(email);
    var p := LeadingAddressChars(email);
    var rest := email[p + 1..];
    var d := LeadingAddressChars(rest);
    assert d > 0;
    assert rest[d - 1] != '\n';
    assert |t| == p + 1 + d;
    assert t[a] == email[a];
    assert t[p + 1..] == rest[..d];
  }

  /**
   * Splitting the matched part at any '@': the address is valid exactly when
   * the part before it is a local part and the part after it is a domain.
   */
  lemma ValidEmailIff(email: string, a: nat)
    requires a < |Core(email)| && Core(email)[a] == '@'
    ensures ValidEmail(email) <==> LocalOk(Core(email)[..a]) && DomainOk(Core(email)[a + 1..])
  {
    var t := Core(email);
    if LocalOk(t[..a]) && DomainOk(t[a + 1..]) {
      LocalPartIsPrefix(email, a);
      DomainPartIsSuffix(email, a);
    } else if ValidEmail(email) {
      MatchSplitsAtFirstAt(email, a);
    }
  }

  /**
   * `normalize_phone_for_path`: the key of the phone uniqueness marker, with
   * every '+' replaced by "_plus_".
   */
  function NormalizePhoneForPath(phone: string): (key: string)
    ensures '+' !in key
  {
    Replace(phone, '+', "_plus_")
  }

  /**
   * `normalize_email_for_path`: the key of the email uniqueness marker,
   * lower-cased, with '@' replaced by "_at_" and '.' by "_dot_".
   */
  function NormalizeEmailForPath(email: string): (key: string)
    ensures '@' !in key && '.' !in key
    ensures NoUpper(key)
  {
    var lower := Lower(email);
    var noAt := Replace(lower, '@', "_at_");
    ReplaceKeepsAbsent(noAt, '.', "_dot_", '@');
    LowerHasNoUpper(email);
    ReplaceKeepsNoUpper(lower, '@', "_at_");
    ReplaceKeepsNoUpper(noAt, '.', "_dot_");
    Replace(noAt, '.', "_dot_")
  }

  /** The key of a valid phone is "_plus_" followed by its digits, so it holds no '+', '@' or '.'. */
  lemma PhoneKeyShape(phone: string)
    requires ValidPhone(phone)
    ensures NormalizePhoneForPath(phone) == "_plus_" + phone[1..]
    ensures '@' !in NormalizePhoneForPath(phone) && '.' !in NormalizePhoneForPath(phone)
  {
    ValidPhoneTail(phone);
    assert phone == [phone[0]] + phone[1..];
    ReplaceAppend([phone[0]], phone[1..], '+', "_plus_");
  }

  /** Distinct valid phones get distinct marker keys. */
  lemma PhoneKeyInjective(p: string, q: string)
    requires ValidPhone(p) && ValidPhone(q)
    requires NormalizePhoneForPath(p) == NormalizePhoneForPath(q)
    ensures p == q
  {
    PhoneKeyShape(p);
    PhoneKeyShape(q);
    assert p[1..] == NormalizePhoneForPath(p)[6..];
    assert q[1..] == NormalizePhoneForPath(q)[6..];
    assert p == [p[0]] + p[1..];
    assert q == [q[0]] + q[1..];
  }

  /**
   * Email keys are not injective: an address with a dot and the same
   * address with "_dot_" in its place share one marker key, so the second
   * of them is refused as already registered.
   */
  lemma EmailKeysCollide(a: string, b: string)
    ensures a + "." + b != a + "_dot_" + b
    ensures NormalizeEmailForPath(a + "." + b) == NormalizeEmailForPath(a + "_dot_" + b)
  {
    assert |a + "." + b| != |a + "_dot_" + b|;
    var la, lb := Lower(a), Lower(b);
    LowerAppend(a + ".", b);
    LowerAppend(a, ".");
    LowerAppend(a + "_dot_", b);
    LowerAppend(a, "_dot_");
    LowerOfLowerCase(".");
    LowerOfLowerCase("_dot_");
    assert Lower(a + "." + b) == la + "." + lb;
    assert Lower(a + "_dot_" + b) == la + "_dot_" + lb;
    var ra, rb := Replace(la, '@', "_at_"), Replace(lb, '@', "_at_");
    ReplaceAppend(la + ".", lb, '@', "_at_");
    ReplaceAppend(la, ".", '@', "_at_");
    ReplaceAppend(la + "_dot_", lb, '@', "_at_");
    ReplaceAppend(la, "_dot_", '@', "_at_");
    assert Replace(".", '@', "_at_") == ".";
    assert Replace("_dot_", '@', "_at_") == "_dot_";
    ReplaceAppend(ra + ".", rb, '.', "_dot_");
    ReplaceAppend(ra, ".", '.', "_dot_");
    ReplaceAppend(ra + "_dot_", rb, '.', "_dot_");
    ReplaceAppend(ra, "_dot_", '.', "_dot_");
    assert Replace(".", '.', "_dot_") == "_dot_";
    assert Replace("_dot_", '.', "_dot_") == "_dot_";
  }
}
