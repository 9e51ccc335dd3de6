/**
 * Normalization, validation, display formatting and classification of
 * Cameroon phone numbers (country code 237).
 *
 * Every operation that throws in the source returns a `Result` here; the
 * error carries which of the source's messages was thrown.
 */
module PhoneUtils {
  import opened Wrappers
  import opened JsText

  /** The five distinct errors `normalizeCameroonPhoneNumber` can throw. */
  datatype PhoneError =
    | Required           // empty input
    | BadInternational   // starts with +237 but is not 12 characters long
    | BadCountryCode     // starts with 237 but is not 11 characters long
    | BadLocal           // starts with 6 or 2 but is not 9 characters long
    | UnsupportedFormat  // any other leading text
  {
    function Message(): string
    {
      match this
      case Required => "Numéro de téléphone requis"
      case BadInternational => "Numéro camerounais invalide. Format attendu: +237xxxxxxxx"
      case BadCountryCode => "Numéro camerounais invalide. Format attendu: 237xxxxxxxx"
      case BadLocal => "Numéro camerounais invalide. Format attendu: 6xxxxxxxx ou 2xxxxxxxx"
      case UnsupportedFormat =>
        "Format de numéro invalide pour le Cameroun. Formats acceptés: +237xxxxxxxx, 237xxxxxxxx, 6xxxxxxxx, 2xxxxxxxx"
    }
  }

  /** The five messages are pairwise distinct, so a caller can tell the errors apart by message. */
  lemma MessageIdentifiesError(e1: PhoneError, e2: PhoneError)
    requires e1 != e2
    ensures e1.Message() != e2.Message()
  {
    MessageLengthIs(e1);
    MessageLengthIs(e2);
  }

  /** The length of each message, in characters. */
  function MessageLength(e: PhoneError): nat
  {
    match e
    case Required => 26
    case BadInternational => 57
    case BadCountryCode => 56
    case BadLocal => 67
    case UnsupportedFormat => 109
  }

  lemma MessageLengthIs(e: PhoneError)
    ensures |e.Message()| == MessageLength(e)
  {
  }

  datatype PhoneType = Mobile | Landline | Unknown

  /** `\s` in a JavaScript regular expression: the WhiteSpace and LineTerminator characters. */
  predicate IsJsWhitespace(c: char)
  {
    || c == '\t' || c == '\n' || c == '\U{000B}' || c == '\U{000C}' || c == '\r' || c == ' '
    || c == '\U{00A0}' || c == '\U{1680}' || '\U{2000}' <= c <= '\U{200A}'
    || c == '\U{2028}' || c == '\U{2029}' || c == '\U{202F}' || c == '\U{205F}'
    || c == '\U{3000}' || c == '\U{FEFF}'
  }

  /** The character class `[\s\-\(\)\.]` that cleaning deletes. */
  predicate IsSeparator(c: char)
  {
    IsJsWhitespace(c) || c == '-' || c == '(' || c == ')' || c == '.'
  }

  predicate NoSeparators(s: string)
  {
    forall i :: 0 <= i < |s| ==> !IsSeparator(s[i])
  }

  /**
   * `replace(/[\s\-\(\)\.]/g, '')`: deletes every separator and keeps every
   * other character ('+' and letters included), in order.
   */
  function Clean(s: string): (r: string)
    ensures |r| <= |s|
    ensures NoSeparators(r)
  {
    if s == [] then []
    else if IsSeparator(s[0]) then Clean(s[1..]) else [s[0]] + Clean(s[1..])
  }

  /** `normalizeCameroonPhoneNumber`: the prefix tests run in order and the first that matches decides. */
  function Normalize(raw: string): (r: Result<string, PhoneError>)
    ensures r == Failure(Required) <==> raw == ""
    ensures r.Success? ==> StartsWith(r.value, "+237") && (|r.value| == 12 || |r.value| == 13)
    ensures r.Success? ==> NoSeparators(r.value)
  {
    if raw == "" then Failure(Required)
    else
      var cleaned := Clean(raw);
      if StartsWith(cleaned, "+237") then
        if |cleaned| != 12 then Failure(BadInternational) else Success(cleaned)
      else if StartsWith(cleaned, "237") then
        if |cleaned| != 11 then Failure(BadCountryCode) else Success("+" + cleaned)
      else if StartsWith(cleaned, "6") || StartsWith(cleaned, "2") then
        if |cleaned| != 9 then Failure(BadLocal) else Success("+237" + cleaned)
      else
        Failure(UnsupportedFormat)
  }

  /** `isValidCameroonPhoneNumber`: normalization returns without throwing. */
  predicate IsValid(raw: string)
  {
    Normalize(raw).Success?
  }

  /**
   * The accepted cleaned forms, stated without the order of the prefix tests:
   * +237 and 12 long, 237 and 11 long, or 6/2 (but not 237) and 9 long.
   */
  predicate Accepted(cleaned: string)
  {
    || (StartsWith(cleaned, "+237") && |cleaned| == 12)
    || (StartsWith(cleaned, "237") && |cleaned| == 11)
    || (|cleaned| == 9 && (cleaned[0] == '6' || cleaned[0] == '2') && !StartsWith(cleaned, "237"))
  }

  /** What follows the country code in a cleaned input (the whole input when it has none). */
  function LocalPart(cleaned: string): string
  {
    if StartsWith(cleaned, "+237") then cleaned[4..]
    else if StartsWith(cleaned, "237") then cleaned[3..]
    else cleaned
  }

  // ---------------------------------------------------------------------------
  // Display formatting: normalized.replace(/(\+237)(\d{1})(\d{2})(\d{2})(\d{2})(\d{2})/, '$1 $2$3 $4 $5 $6')

  /** The (unanchored) pattern matches at index `i`: "+237" and nine ASCII digits. */
  predicate DisplayPatternAt(s: string, i: nat)
  {
    i + 13 <= |s| && s[i..i + 4] == "+237" && AllDigits(s[i + 4..i + 13])
  }

  /** The leftmost index at or after `from` where the display pattern matches. */
  function FirstDisplayMatch(s: string, from: nat): (r: Option<nat>)
    decreases |s| - from
    ensures r.Some? ==> from <= r.value && DisplayPatternAt(s, r.value)
    ensures r.Some? ==> forall j: nat :: from <= j < r.value ==> !DisplayPatternAt(s, j)
    ensures r.None? ==> forall j: nat :: from <= j ==> !DisplayPatternAt(s, j)
  {
    if |s| < from + 13 then None
    else if DisplayPatternAt(s, from) then Some(from)
    else FirstDisplayMatch(s, from + 1)
  }

  /** The replacement '$1 $2$3 $4 $5 $6' applied to one 13-character match. */
  function Grouped(m: string): string
    requires |m| == 13
  {
    m[..4] + " " + m[4..7] + " " + m[7..9] + " " + m[9..11] + " " + m[11..13]
  }

  /** `String.prototype.replace` with the display pattern: replaces the first match only. */
  function ReplaceDisplayPattern(s: string): string
  {
    match FirstDisplayMatch(s, 0)
    case None => s
    case Some(i) => s[..i] + Grouped(s[i..i + 13]) + s[i + 13..]
  }

  /** `formatPhoneNumberForDisplay` */
  function FormatForDisplay(raw: string): (r: Result<string, PhoneError>)
    ensures r.Failure? <==> Normalize(raw).Failure?
    ensures r.Failure? ==> r.error == Normalize(raw).error
  {
    match Normalize(raw)
    case Failure(e) => Failure(e)
    case Success(normalized) => Success(ReplaceDisplayPattern(normalized))
  }

  /** `getPhoneNumberType`: looks at the first character after "+237". */
  function GetPhoneNumberType(raw: string): (r: Result<PhoneType, PhoneError>)
    ensures r.Failure? <==> Normalize(raw).Failure?
    ensures r.Failure? ==> r.error == Normalize(raw).error
  {
    match Normalize(raw)
    case Failure(e) => Failure(e)
    case Success(normalized) =>
      var local := normalized[4..];
      if StartsWith(local, "6") then Success(Mobile)
      else if StartsWith(local, "2") then Success(Landline)
      else Success(Unknown)
  }

  // ---------------------------------------------------------------------------
  // Cleaning

  lemma {:induction false} CleanIdentity(s: string)
    requires NoSeparators(s)
    ensures Clean(s) == s
  {
    if s != [] {
      CleanIdentity(s[1..]);
      assert [s[0]] + s[1..] == s;
    }
  }

  /** Cleaning twice is cleaning once. */
  lemma CleanIdempotent(s: string)
    ensures Clean(Clean(s)) == Clean(s)
  {
    CleanIdentity(Clean(s));
  }

  lemma {:induction false} CleanConcat(a: string, b: string)
    ensures Clean(a + b) == Clean(a) + Clean(b)
  {
    if a != [] {
      assert (a + b)[0] == a[0] && (a + b)[1..] == a[1..] + b;
      CleanConcat(a[1..], b);
    } else {
      assert a + b == b;
    }
  }

  /** Cleaning deletes separators only: every other character keeps its number of occurrences. */
  lemma {:induction false} CleanKeepsOthers(s: string)
    ensures forall c :: !IsSeparator(c) ==> multiset(Clean(s))[c] == multiset(s)[c]
  {
    if s != [] {
      CleanKeepsOthers(s[1..]);
      assert s == [s[0]] + s[1..];
    }
  }

  // ---------------------------------------------------------------------------
  // Normalization

  /** Separators never matter, but whitespace-only input is a format error, not "required". */
  lemma NormalizeIgnoresSeparators(raw: string)
    ensures Clean(raw) != "" ==> Normalize(Clean(raw)) == Normalize(raw)
    ensures raw != "" && Clean(raw) == "" ==> Normalize(raw) == Failure(UnsupportedFormat)
  {
    CleanIdempotent(raw);
  }

  /** Normalization succeeds exactly on the accepted forms, and keeps what follows the country code. */
  lemma NormalizeAcceptedForms(raw: string)
    ensures Normalize(raw).Success? <==> raw != "" && Accepted(Clean(raw))
    ensures Normalize(raw).Success? ==> Normalize(raw).value == "+237" + LocalPart(Clean(raw))
  {
    var c := Clean(raw);
    if raw == "" {
    } else if StartsWith(c, "+237") {
      assert !StartsWith(c, "237") by { assert c[0] == '+'; }
      assert c == "+237" + c[4..];
    } else if StartsWith(c, "237") {
      assert "+" + c == "+237" + c[3..];
    } else if StartsWith(c, "6") || StartsWith(c, "2") {
      assert c[0] == '6' || c[0] == '2';
    } else {
      assert !Accepted(c) by {
        if |c| > 0 { assert c[..1] == [c[0]]; }
      }
    }
  }

  /** Input already in +237 form (eight characters after the prefix) is returned unchanged. */
  lemma NormalizeInternationalInput(rest: string)
    requires |rest| == 8 && NoSeparators(rest)
    ensures Normalize("+237" + rest) == Success("+237" + rest)
  {
    CleanIdentity("+237" + rest);
  }

  /** Input in 237 form (eight characters after the code) gains a leading '+'. */
  lemma NormalizeCountryCodeInput(rest: string)
    requires |rest| == 8 && NoSeparators(rest)
    ensures Normalize("237" + rest) == Success("+237" + rest)
  {
    CleanIdentity("237" + rest);
    assert "+" + ("237" + rest) == "+237" + rest;
  }

  /** Local input of nine characters starting 6 or 2 (and not 237) gains "+237": thirteen characters. */
  lemma NormalizeLocalInput(local: string)
    requires |local| == 9 && NoSeparators(local)
    requires local[0] == '6' || local[0] == '2'
    requires !StartsWith(local, "237")
    ensures Normalize(local) == Success("+237" + local)
    ensures |Normalize(local).value| == 13
  {
    CleanIdentity(local);
  }

  /** The 237 test runs before the local test: 237 followed by six characters is rejected, not taken as local. */
  lemma CountryCodeShadowsLocal(rest: string)
    requires |rest| == 6 && NoSeparators(rest)
    ensures Normalize("237" + rest) == Failure(BadCountryCode)
  {
    CleanIdentity("237" + rest);
  }

  /** A result of the +237 or 237 branch normalizes to itself. */
  lemma NormalizeStableOnTwelve(raw: string)
    requires Normalize(raw).Success? && |Normalize(raw).value| == 12
    ensures Normalize(Normalize(raw).value) == Normalize(raw)
  {
    CleanIdentity(Normalize(raw).value);
  }

  /** A result of the local branch (13 characters) is rejected when normalized again. */
  lemma NormalizeRejectsThirteen(raw: string)
    requires Normalize(raw).Success? && |Normalize(raw).value| == 13
    ensures Normalize(Normalize(raw).value) == Failure(BadInternational)
  {
    CleanIdentity(Normalize(raw).value);
  }

  /** The thirteen-character results are exactly those of the local branch. */
  lemma ThirteenExactlyFromLocal(raw: string)
    requires Normalize(raw).Success?
    ensures |Normalize(raw).value| == 13 <==> !StartsWith(Clean(raw), "237") && !StartsWith(Clean(raw), "+237")
  {
  }

  /** The concrete case: a local mobile number normalizes, and its result does not. */
  lemma LocalResultNotIdempotent(raw: string)
    requires raw == "612345678"
    ensures Normalize(raw) == Success("+237612345678")
    ensures Normalize(Normalize(raw).value) == Failure(BadInternational)
  {
    NormalizeLocalInput(raw);
    assert "+237" + raw == "+237612345678";
    NormalizeRejectsThirteen(raw);
  }

  /** Inserting a separator anywhere into a non-empty input does not change its normalization. */
  lemma SeparatorAnywhereIgnored(a: string, c: char, b: string)
    requires IsSeparator(c) && a + b != ""
    ensures Normalize(a + [c] + b) == Normalize(a + b)
  {
    CleanConcat(a + [c], b);
    CleanConcat(a, [c]);
    CleanConcat(a, b);
    assert [c][1..] == [];
    assert Clean([c]) == [];
    assert Clean(a + [c] + b) == Clean(a + b);
  }

  /** A local number is accepted at exactly nine characters: eight and ten fail. */
  lemma LocalLengthBoundary(local: string)
    requires NoSeparators(local) && |local| >= 1 && local[0] == '6'
    ensures Normalize(local).Success? <==> |local| == 9
    ensures Normalize(local).Failure? ==> Normalize(local).error == BadLocal
  {
    CleanIdentity(local);
  }

  // ---------------------------------------------------------------------------
  // Validity

  /** `isValidCameroonPhoneNumber` is true exactly on the accepted forms, whatever the separators. */
  lemma IsValidCharacterized(raw: string)
    ensures IsValid(raw) <==> raw != "" && Accepted(Clean(raw))
    ensures IsValid(raw) == IsValid(Clean(raw))
  {
    NormalizeAcceptedForms(raw);
    NormalizeIgnoresSeparators(raw);
  }

  // ---------------------------------------------------------------------------
  // Display

  /** On a "+237" string of twelve or thirteen characters the pattern can only match the whole string. */
  lemma ReplaceDisplayOnNormalized(n: string)
    requires StartsWith(n, "+237") && (|n| == 12 || |n| == 13)
    ensures ReplaceDisplayPattern(n) == if |n| == 13 && AllDigits(n[4..]) then Grouped(n) else n
  {
    if |n| == 13 {
      assert n[0..4] == "+237" && n[4..13] == n[4..];
      if AllDigits(n[4..]) {
        assert FirstDisplayMatch(n, 0) == Some(0);
        assert n[..0] == "" && n[0..13] == n && n[13..] == "";
      } else {
        assert !DisplayPatternAt(n, 0);
        assert FirstDisplayMatch(n, 1) == None;
      }
    }
  }

  /** A normalized number is grouped when its last nine characters are digits, and left as is otherwise. */
  lemma FormatForDisplayCases(raw: string)
    requires Normalize(raw).Success?
    ensures var n := Normalize(raw).value;
      FormatForDisplay(raw) == if |n| == 13 && AllDigits(n[4..]) then Success(Grouped(n)) else Success(n)
  {
    ReplaceDisplayOnNormalized(Normalize(raw).value);
  }

  lemma CleanDropsSpace(a: string, b: string)
    ensures Clean(a + " " + b) == Clean(a) + Clean(b)
  {
    CleanConcat(a + " ", b);
    CleanConcat(a, " ");
  }

  /** Cleaning undoes the grouping of a thirteen-character number without separators. */
  lemma CleanGrouped(m: string)
    requires |m| == 13 && NoSeparators(m)
    ensures Clean(Grouped(m)) == m
  {
    var p0, p1, p2, p3, p4 := m[..4], m[4..7], m[7..9], m[9..11], m[11..13];
    var x1 := p0 + " " + p1;
    var x2 := x1 + " " + p2;
    var x3 := x2 + " " + p3;
    assert Grouped(m) == x3 + " " + p4;
    CleanIdentity(p0); CleanIdentity(p1); CleanIdentity(p2); CleanIdentity(p3); CleanIdentity(p4);
    CleanDropsSpace(p0, p1);
    CleanDropsSpace(x1, p2);
    CleanDropsSpace(x2, p3);
    CleanDropsSpace(x3, p4);
    assert p0 + p1 + p2 + p3 + p4 == m;
  }

  /** Deleting the spaces of the display form gives back the normalized number. */
  lemma DisplayCleansToNormalized(raw: string)
    requires Normalize(raw).Success?
    ensures Clean(FormatForDisplay(raw).value) == Normalize(raw).value
  {
    var n := Normalize(raw).value;
    FormatForDisplayCases(raw);
    if |n| == 13 && AllDigits(n[4..]) {
      CleanGrouped(n);
    } else {
      CleanIdentity(n);
    }
  }

  /** A nine-digit local number is displayed as "+237" and its digits grouped 3-2-2-2. */
  lemma DisplayLocalDigits(local: string)
    requires |local| == 9 && AllDigits(local) && (local[0] == '6' || local[0] == '2')
    requires !StartsWith(local, "237")
    ensures FormatForDisplay(local) == Success(Grouped("+237" + local))
  {
    NormalizeLocalInput(local);
    assert ("+237" + local)[4..] == local;
    FormatForDisplayCases(local);
  }

  /** The concrete case: a local mobile number is shown as "+237 612 34 56 78". */
  lemma DisplayExample(raw: string)
    requires raw == "612345678"
    ensures FormatForDisplay(raw) == Success("+237 612 34 56 78")
  {
    assert raw[0] == '6' && AllDigits(raw);
    DisplayLocalDigits(raw);
    GroupedExample("+237" + raw);
  }

  lemma GroupedExample(n: string)
    requires n == "+237612345678"
    ensures Grouped(n) == "+237 612 34 56 78"
  {
    assert n[..4] == "+237" && n[4..7] == "612" && n[7..9] == "34" && n[9..11] == "56" && n[11..13] == "78";
  }

  // ---------------------------------------------------------------------------
  // Classification

  /** The type is decided by the first character after the country code of the cleaned input. */
  lemma PhoneTypeFromLocalPart(raw: string)
    requires Normalize(raw).Success?
    ensures var local := LocalPart(Clean(raw));
      GetPhoneNumberType(raw) ==
        if local[0] == '6' then Success(Mobile)
        else if local[0] == '2' then Success(Landline)
        else Success(Unknown)
  {
    NormalizeAcceptedForms(raw);
    var n := Normalize(raw).value;
    assert n[4..] == LocalPart(Clean(raw));
  }

  /** Input in local form is never classified as unknown. */
  lemma LocalFormNeverUnknown(raw: string)
    requires Normalize(raw).Success? && |Normalize(raw).value| == 13
    ensures GetPhoneNumberType(raw) != Success(Unknown)
  {
    PhoneTypeFromLocalPart(raw);
  }

  lemma MobileExample(raw: string)
    requires raw == "612345678"
    ensures GetPhoneNumberType(raw) == Success(Mobile)
  {
    assert raw[0] == '6';
    NormalizeLocalInput(raw);
  }

  lemma LandlineExample(raw: string)
    requires raw == "23722233445"
    ensures GetPhoneNumberType(raw) == Success(Landline)
  {
    var rest := raw[3..];
    assert raw == "237" + rest && rest == "22233445";
    NormalizeCountryCodeInput(rest);
    assert ("+237" + rest)[4..] == rest && rest[..1] == "2";
  }

  /** A +237 number whose next character is neither 6 nor 2 is valid but of unknown type. */
  lemma UnknownExample(raw: string)
    requires raw == "+23751234567"
    ensures GetPhoneNumberType(raw) == Success(Unknown)
  {
    var rest := raw[4..];
    assert raw == "+237" + rest && rest == "51234567" && rest[..1] == "5";
    NormalizeInternationalInput(rest);
  }
}
