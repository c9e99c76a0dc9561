/**
 * The registration app's models: the team-code generator that gives every
 * Team its default code, and the validators of an Application's phone number
 * and graduation year.
 *
 * uuid.uuid4() is an oracle: the generator is given the hex strings of the
 * UUIDs it would draw, in order. The Team table is the set of codes already
 * stored.
 */
module RegistrationModels {
  import opened Wrappers

  /** Team.team_code max_length. */
  const TeamCodeLength := 5
  /** Team.MAX_MEMBERS; declared on the model, not enforced by it. */
  const MaxMembers := 4
  /** Application.phone_number max_length. */
  const PhoneNumberMaxLength := 20
  /** The bounds of the graduation_year Min/Max validators. */
  const MinGraduationYear := 2000
  const MaxGraduationYear := 2030

  // ---------------------------------------------------------------------------
  // Team codes
  // ---------------------------------------------------------------------------

  predicate IsLowerHexDigit(c: char)
  {
    '0' <= c <= '9' || 'a' <= c <= 'f'
  }

  predicate IsUpperHexDigit(c: char)
  {
    '0' <= c <= '9' || 'A' <= c <= 'F'
  }

  /** The value of UUID.hex: 32 lower-case hexadecimal digits. */
  predicate IsUuidHex(u: string)
  {
    |u| == 32 && forall i :: 0 <= i < |u| ==> IsLowerHexDigit(u[i])
  }

  /** A code that fits the team_code column and is written in upper-case hex. */
  predicate IsTeamCode(code: string)
  {
    |code| == TeamCodeLength && forall i :: 0 <= i < |code| ==> IsUpperHexDigit(code[i])
  }

  /** str.upper on one ASCII character. */
  function Upper(c: char): char
  {
    if 'a' <= c <= 'z' then (c as int - 'a' as int + 'A' as int) as char else c
  }

  /** str.lower on one ASCII character. */
  function Lower(c: char): char
  {
    if 'A' <= c <= 'Z' then (c as int - 'A' as int + 'a' as int) as char else c
  }

  /** str.upper on an ASCII string: same length, and lower-case hex turns into upper-case hex. */
  function UpperString(s: string): (r: string)
    ensures |r| == |s|
    ensures forall i :: 0 <= i < |s| ==> r[i] == Upper(s[i])
    ensures forall i :: 0 <= i < |s| && IsLowerHexDigit(s[i]) ==> IsUpperHexDigit(r[i]) && Lower(r[i]) == s[i]
  {
    if s == [] then [] else [Upper(s[0])] + UpperString(s[1..])
  }

  /**
   * uuid4().hex[:5].upper(): a team code, which lower-cases back to the first
   * five digits of the UUID.
   */
  function TeamCodeOf(u: string): (code: string)
    requires IsUuidHex(u)
    ensures IsTeamCode(code)
    ensures forall i :: 0 <= i < TeamCodeLength ==> Lower(code[i]) == u[i]
  {
    UpperString(u[..TeamCodeLength])
  }

  /**
   * _generate_team_code: draw a code and redraw while a Team already has it.
   * `used` is the number of UUIDs drawn. The result is the first drawn code
   * that no Team has; every earlier draw collided. When the supplied draws run
   * out before a free code is found, the result is None.
   */
  method GenerateTeamCode(existing: set<string>, draws: seq<string>) returns (code: Option<string>, used: nat)
    requires forall k :: 0 <= k < |draws| ==> IsUuidHex(draws[k])
    ensures used <= |draws|
    ensures code.Some? ==>
      0 < used && code.value == TeamCodeOf(draws[used - 1]) && code.value !in existing && IsTeamCode(code.value)
    ensures code.Some? ==> forall k :: 0 <= k < used - 1 ==> TeamCodeOf(draws[k]) in existing
    ensures code.None? ==> used == |draws| && forall k :: 0 <= k < |draws| ==> TeamCodeOf(draws[k]) in existing
  {
    if |draws| == 0 {
      return None, 0;
    }
    var teamCode := TeamCodeOf(draws[0]);
    used := 1;
    while teamCode in existing
      invariant 1 <= used <= |draws|
      invariant teamCode == TeamCodeOf(draws[used - 1])
      invariant forall k :: 0 <= k < used - 1 ==> TeamCodeOf(draws[k]) in existing
      decreases |draws| - used
    {
      if used == |draws| {
        return None, used;
      }
      teamCode := TeamCodeOf(draws[used]);
      used := used + 1;
    }
    code := Some(teamCode);
  }

  // ---------------------------------------------------------------------------
  // The phone number pattern ^(?:\+\d{1,3})?\s?\(?\d{3}\)?[\s-]?\d{3}[\s-]?\d{4}$
  // ---------------------------------------------------------------------------

  /** \d, restricted to ASCII. */
  predicate IsDigit(c: char)
  {
    '0' <= c <= '9'
  }

  /**
   * \s, restricted to ASCII: tab, line feed, vertical tab, form feed,
   * carriage return (9-13), the separators 0x1C-0x1F, and space.
   */
  predicate IsSpace(c: char)
  {
    9 <= c as int <= 13 || 28 <= c as int <= 32
  }

  predicate AllDigits(s: string)
  {
    forall i :: 0 <= i < |s| ==> IsDigit(s[i])
  }

  /** The classes of the pattern's optional single characters. */
  datatype CharClass = Space | SpaceOrDash | OpenParen | CloseParen

  predicate InClass(c: char, cls: CharClass)
  {
    match cls
    case Space => IsSpace(c)
    case SpaceOrDash => IsSpace(c) || c == '-'
    case OpenParen => c == '('
    case CloseParen => c == ')'
  }

  /** `\s?`, `[\s-]?`, `\(?` and `\)?`: nothing, or one character of the class. */
  predicate IsOptional(x: string, cls: CharClass)
  {
    x == [] || (|x| == 1 && InClass(x[0], cls))
  }

  /** `(?:\+\d{1,3})?`: nothing, or a plus sign followed by one to three digits. */
  predicate IsCountryCode(x: string)
  {
    x == [] || (2 <= |x| <= 4 && x[0] == '+' && AllDigits(x[1..]))
  }

  /** A phone number cut into the pattern's nine pieces. */
  datatype PhoneParts = PhoneParts(
    countryCode: string, space: string, open: string, area: string, close: string,
    sep1: string, exchange: string, sep2: string, line: string)

  predicate WellFormedParts(p: PhoneParts)
  {
    IsCountryCode(p.countryCode) && IsOptional(p.space, Space) && IsOptional(p.open, OpenParen) &&
    |p.area| == 3 && AllDigits(p.area) && IsOptional(p.close, CloseParen) && IsOptional(p.sep1, SpaceOrDash) &&
    |p.exchange| == 3 && AllDigits(p.exchange) && IsOptional(p.sep2, SpaceOrDash) &&
    |p.line| == 4 && AllDigits(p.line)
  }

  function Flatten(p: PhoneParts): string
  {
    p.countryCode + p.space + p.open + p.area + p.close + p.sep1 + p.exchange + p.sep2 + p.line
  }

  /** The language of the pattern: the strings that split into well-formed pieces. */
  ghost predicate MatchesPattern(s: string)
  {
    exists p :: WellFormedParts(p) && Flatten(p) == s
  }

  /** A string split into what is left to read and the piece just read off its end. */
  datatype Cut = Cut(rest: string, piece: string)

  /** Reads k digits off the end of s; None when s does not end in k digits. */
  function CutDigits(s: string, k: nat): (c: Option<Cut>)
    ensures c.Some? ==> s == c.value.rest + c.value.piece && |c.value.piece| == k && AllDigits(c.value.piece)
  {
    if k <= |s| && AllDigits(s[|s| - k..]) then Some(Cut(s[..|s| - k], s[|s| - k..])) else None
  }

  /** Reads one character of the class off the end of s, if there is one. */
  function CutOptional(s: string, cls: CharClass): (c: Cut)
    ensures s == c.rest + c.piece && IsOptional(c.piece, cls)
  {
    if |s| > 0 && InClass(s[|s| - 1], cls) then Cut(s[..|s| - 1], [s[|s| - 1]]) else Cut(s, [])
  }

  /**
   * The phone-number recognizer, as a parser that returns the pieces it read.
   * It reads the pattern from the right, where every optional character is
   * told apart from its neighbour by its class: four digits, an optional
   * space or dash, three digits, an optional space or dash, an optional ")",
   * three digits, an optional "(", an optional space, and what is left must
   * be empty or a plus sign and one to three digits. Whatever it returns is a
   * well-formed split of s.
   */
  function ParsePhoneNumber(s: string): (r: Option<PhoneParts>)
    ensures r.Some? ==> WellFormedParts(r.value) && Flatten(r.value) == s
  {
    match CutDigits(s, 4)
    case None => None
    case Some(line) =>
      var sep2 := CutOptional(line.rest, SpaceOrDash);
      match CutDigits(sep2.rest, 3)
      case None => None
      case Some(exchange) =>
        var sep1 := CutOptional(exchange.rest, SpaceOrDash);
        var close := CutOptional(sep1.rest, CloseParen);
        match CutDigits(close.rest, 3)
        case None => None
        case Some(area) =>
          var open := CutOptional(area.rest, OpenParen);
          var space := CutOptional(open.rest, Space);
          if IsCountryCode(space.rest) then
            Some(PhoneParts(space.rest, space.piece, open.piece, area.piece, close.piece,
                            sep1.piece, exchange.piece, sep2.piece, line.piece))
          else None
  }

  /** Whether the phone-number pattern accepts s; everything it accepts is in the pattern's language. */
  predicate IsValidPhoneNumber(s: string)
    ensures IsValidPhoneNumber(s) ==> MatchesPattern(s)
  {
    ParsePhoneNumber(s).Some?
  }

  lemma CutDigitsAppend(t: string, d: string)
    requires AllDigits(d)
    ensures CutDigits(t + d, |d|) == Some(Cut(t, d))
  {
    assert (t + d)[|t|..] == d;
    assert (t + d)[..|t|] == t;
  }

  lemma CutOptionalAppend(t: string, x: string, cls: CharClass)
    requires IsOptional(x, cls) && (t == [] || !InClass(t[|t| - 1], cls))
    ensures CutOptional(t + x, cls) == Cut(t, x)
  {
    if x == [] {
      assert t + x == t;
    } else {
      assert (t + x)[..|t|] == t;
      assert [(t + x)[|t + x| - 1]] == x;
    }
  }

  /** No class of optional character contains a digit. */
  lemma DigitInNoClass(c: char, cls: CharClass)
    requires IsDigit(c)
    ensures !InClass(c, cls)
  {
  }

  /** A string that ends in a digit has no optional character to give up. */
  lemma EndsInDigit(t: string, d: string, cls: CharClass)
    requires |d| > 0 && AllDigits(d)
    ensures !InClass((t + d)[|t + d| - 1], cls)
  {
    assert (t + d)[|t + d| - 1] == d[|d| - 1];
    DigitInNoClass(d[|d| - 1], cls);
  }

  /** The last character of a country code is a digit or the plus sign. */
  lemma CountryCodeEnd(x: string, cls: CharClass)
    requires IsCountryCode(x) && x != [] && cls != CloseParen
    ensures !InClass(x[|x| - 1], cls)
  {
    if |x| > 1 {
      assert x[|x| - 1] == x[1..][|x| - 2];
      DigitInNoClass(x[|x| - 1], cls);
    }
  }

  /** Reading the line number, the second separator, the exchange, the first separator and ")" off a split. */
  lemma {:induction false} TailSteps(p: PhoneParts)
    requires WellFormedParts(p)
    ensures var x4 := p.countryCode + p.space + p.open + p.area;
      CutDigits(Flatten(p), 4) == Some(Cut(x4 + p.close + p.sep1 + p.exchange + p.sep2, p.line)) &&
      CutOptional(x4 + p.close + p.sep1 + p.exchange + p.sep2, SpaceOrDash) == Cut(x4 + p.close + p.sep1 + p.exchange, p.sep2) &&
      CutDigits(x4 + p.close + p.sep1 + p.exchange, 3) == Some(Cut(x4 + p.close + p.sep1, p.exchange)) &&
      CutOptional(x4 + p.close + p.sep1, SpaceOrDash) == Cut(x4 + p.close, p.sep1) &&
      CutOptional(x4 + p.close, CloseParen) == Cut(x4, p.close)
  {
    var x4 := p.countryCode + p.space + p.open + p.area;
    var x3 := x4 + p.close;
    var x2 := x3 + p.sep1;
    var x1 := x2 + p.exchange;
    CutDigitsAppend(x1 + p.sep2, p.line);
    EndsInDigit(x2, p.exchange, SpaceOrDash);
    CutOptionalAppend(x1, p.sep2, SpaceOrDash);
    CutDigitsAppend(x2, p.exchange);
    if p.close == [] {
      EndsInDigit(p.countryCode + p.space + p.open, p.area, SpaceOrDash);
    } else {
      assert x3[|x3| - 1] == ')';
    }
    CutOptionalAppend(x3, p.sep1, SpaceOrDash);
    EndsInDigit(p.countryCode + p.space + p.open, p.area, CloseParen);
    CutOptionalAppend(x4, p.close, CloseParen);
  }

  /** Reading the area code, "(" and the space off a split, which leaves the country code. */
  lemma {:induction false} HeadSteps(p: PhoneParts)
    requires WellFormedParts(p)
    ensures var x5 := p.countryCode + p.space + p.open;
      CutDigits(x5 + p.area, 3) == Some(Cut(x5, p.area)) &&
      CutOptional(x5, OpenParen) == Cut(p.countryCode + p.space, p.open) &&
      CutOptional(p.countryCode + p.space, Space) == Cut(p.countryCode, p.space)
  {
    var x6 := p.countryCode + p.space;
    CutDigitsAppend(x6 + p.open, p.area);
    if p.space == [] {
      assert x6 == p.countryCode;
      if p.countryCode != [] {
        CountryCodeEnd(p.countryCode, OpenParen);
      }
    } else {
      assert x6[|x6| - 1] == p.space[0];
    }
    CutOptionalAppend(x6, p.open, OpenParen);
    if p.countryCode != [] {
      CountryCodeEnd(p.countryCode, Space);
    }
    CutOptionalAppend(p.countryCode, p.space, Space);
  }

  /** Parsing a well-formed split returns that split: the split of a phone number is unique. */
  lemma {:induction false} ParseFlatten(p: PhoneParts)
    requires WellFormedParts(p)
    ensures ParsePhoneNumber(Flatten(p)) == Some(p)
  {
    TailSteps(p);
    HeadSteps(p);
  }

  /** Every string of the pattern's language is accepted: a string with a well-formed split p is. */
  lemma {:induction false} RecognizerComplete(p: PhoneParts, s: string)
    requires WellFormedParts(p) && Flatten(p) == s
    ensures IsValidPhoneNumber(s)
  {
    ParseFlatten(p);
  }

  /** The recognizer accepts exactly the language of the pattern. */
  lemma RecognizerCorrect(s: string)
    ensures IsValidPhoneNumber(s) <==> MatchesPattern(s)
  {
    if IsValidPhoneNumber(s) {
      var p := ParsePhoneNumber(s).value;
      assert WellFormedParts(p) && Flatten(p) == s;
    }
    if MatchesPattern(s) {
      var p :| WellFormedParts(p) && Flatten(p) == s;
      RecognizerComplete(p, s);
    }
  }

  /** An accepted phone number has 10 to 19 characters, so it always fits max_length=20. */
  lemma PhoneNumberLength(s: string)
    requires IsValidPhoneNumber(s)
    ensures 10 <= |s| <= 19
  {
    var p := ParsePhoneNumber(s).value;
    assert |Flatten(p)| == |p.countryCode| + |p.space| + |p.open| + 3 + |p.close| + |p.sep1| + 3 + |p.sep2| + 4;
  }

  /** The parentheses are optional independently of each other: an opening one alone is accepted. */
  lemma OpenParenthesisAloneAccepted()
    ensures IsValidPhoneNumber("(416 555 1234")
  {
    RecognizerComplete(PhoneParts("", "", "(", "416", "", " ", "555", " ", "1234"), "(416 555 1234");
  }

  /** The parentheses are optional independently of each other: a closing one alone is accepted. */
  lemma CloseParenthesisAloneAccepted()
    ensures IsValidPhoneNumber("416) 555-1234")
  {
    RecognizerComplete(PhoneParts("", "", "", "416", ")", " ", "555", "-", "1234"), "416) 555-1234");
  }

  /** A number with a country code, spaces, both parentheses and a dash is accepted. */
  lemma FullNumberAccepted()
    ensures IsValidPhoneNumber("+1 (416) 555-1234")
  {
    RecognizerComplete(PhoneParts("+1", " ", "(", "416", ")", " ", "555", "-", "1234"), "+1 (416) 555-1234");
  }

  /** A line number of three digits is refused. */
  lemma ShortLineRefused()
    ensures !IsValidPhoneNumber("416-555-123")
  {
    var short := "416-555-123";
    assert short[|short| - 4..][0] == '-';
  }

  /** A four-digit country code is refused: the number would be longer than 19 characters. */
  lemma LongCountryCodeRefused()
    ensures !IsValidPhoneNumber("+1234 (416) 555-1234")
  {
    var long := "+1234 (416) 555-1234";
    if IsValidPhoneNumber(long) {
      PhoneNumberLength(long);
    }
  }

  // ---------------------------------------------------------------------------
  // Field validation
  // ---------------------------------------------------------------------------

  /** The validation errors the two fields can raise. */
  datatype ValidationError =
    | Blank                                  // "This field cannot be blank."
    | InvalidPhoneNumber                     // "Enter a valid phone number."
    | MaxLengthExceeded(limit: nat, length: nat)
    | UnrealisticGraduationYear              // "Enter a realistic graduation year."

  /**
   * The errors of Application.phone_number: a blank value is refused before
   * the validators run; otherwise the RegexValidator, then the
   * MaxLengthValidator that max_length=20 adds.
   */
  function PhoneNumberErrors(s: string): (errors: seq<ValidationError>)
    ensures s == [] ==> errors == [Blank]
    ensures errors == [] <==> IsValidPhoneNumber(s)
    ensures InvalidPhoneNumber in errors <==> s != [] && !IsValidPhoneNumber(s)
  {
    if s == [] then [Blank]
    else
      assert IsValidPhoneNumber(s) ==> |s| <= PhoneNumberMaxLength by {
        if IsValidPhoneNumber(s) {
          PhoneNumberLength(s);
        }
      }
      (if IsValidPhoneNumber(s) then [] else [InvalidPhoneNumber]) +
      (if |s| > PhoneNumberMaxLength then [MaxLengthExceeded(PhoneNumberMaxLength, |s|)] else [])
  }

  /** A phone number passes validation exactly when it matches the pattern; max_length never adds a refusal. */
  lemma PhoneNumberValidation(s: string)
    ensures PhoneNumberErrors(s) == [] <==> MatchesPattern(s)
    ensures MaxLengthExceeded(PhoneNumberMaxLength, |s|) in PhoneNumberErrors(s) ==> InvalidPhoneNumber in PhoneNumberErrors(s)
  {
    RecognizerCorrect(s);
  }

  /**
   * The errors of Application.graduation_year: MinValueValidator(2000), then
   * MaxValueValidator(2030). A year is accepted exactly when it lies in
   * 2000..2030, and at most one of the two refuses.
   */
  function GraduationYearErrors(year: int): (errors: seq<ValidationError>)
    ensures errors == [] <==> MinGraduationYear <= year <= MaxGraduationYear
    ensures |errors| <= 1
    ensures forall e :: e in errors ==> e == UnrealisticGraduationYear
  {
    (if year < MinGraduationYear then [UnrealisticGraduationYear] else []) +
    (if year > MaxGraduationYear then [UnrealisticGraduationYear] else [])
  }
}
