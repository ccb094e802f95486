/** The input check at the top of `search`: trim the text, and refuse it when
    nothing is left or when `Number.isInteger(parseInt(...))` holds of it. */
module CitySearch {
  import opened Wrappers
  import opened JsString
  import opened JsNumber

  /** The alert shown for a refused query. */
  const InvalidCityAlert: string := "Please enter a valid city"

  /** The city `search` passes on to `fetchWeather`, or `None` when the text is
      refused. A text is refused exactly when its trimmed form is empty or
      begins with an integer; a text that is accepted is passed on trimmed. */
  function Validate(text: string): (r: Option<string>)
    ensures r.Some? <==> Trim(text) != [] && !StartsWithInteger(Trim(text))
    ensures r.Some? ==> r.value == Trim(text)
  {
    var t := Trim(text);
    assert t != [] ==> LeadingWhitespace(t) == 0 && t[0..] == t;
    if t == [] || IsIntegerParse(t) then None else Some(t)
  }

  /** A query that is already trimmed is judged as the untrimmed one was. */
  lemma ValidateTrimmed(text: string)
    ensures Validate(Trim(text)) == Validate(text)
  {
    TrimIdempotent(text);
  }

  /** Whitespace around the query changes nothing. */
  lemma ValidateIgnoresPadding(before: string, text: string, after: string)
    requires AllWhitespace(before) && AllWhitespace(after)
    ensures Validate(before + text + after) == Validate(text)
  {
    TrimIgnoresPadding(before, text, after);
  }

  /** Every query that starts with an integer numeral is refused, whatever
      follows it: a purely numeric query (`rest` empty), one such as
      `"12abc"`, and one whose digits run on, alike. The only exception is a
      lone `0` followed by `x` or `X`, which `parseInt` reads as a
      hexadecimal prefix instead. */
  lemma NumericQueryRefused(n: int, rest: string)
    requires n == 0 && rest != [] ==> rest[0] != 'x' && rest[0] != 'X'
    ensures Validate(Decimal(n) + rest) == None
  {
    var s := Decimal(n) + rest;
    assert LeadingWhitespace(s) == 0 by {
      assert s[0] == Decimal(n)[0];
    }
    assert s[0..] == s;
    TrimKeepsStart(s);
  }

  /** A query whose trimmed form starts with a letter is always passed on. */
  lemma LetterQueryAccepted(text: string)
    requires Trim(text) != [] && !IsDecimalDigit(Trim(text)[0])
    requires Trim(text)[0] != '+' && Trim(text)[0] != '-'
    ensures Validate(text) == Some(Trim(text))
  {
  }

  /** Text that merely starts with an integer is refused, not only numbers. */
  lemma RefusesNumberWithText()
    ensures Validate("12abc") == None
  {
  }

  /** A leading minus sign is read as part of the integer. */
  lemma RefusesSignedNumberWithText()
    ensures Validate("-3 Main") == None
  {
  }

  /** Padding and a plus sign do not get an integer past the check. */
  lemma RefusesPaddedSignedNumber()
    ensures Validate("  +7") == None
  {
  }

  /** A hexadecimal integer is an integer too. */
  lemma RefusesHexNumber()
    ensures Validate("0x1F") == None
  {
  }

  /** Whitespace alone is refused. */
  lemma RefusesBlank()
    ensures Validate(" \t ") == None
  {
  }

  /** A city name is passed on, trimmed. */
  lemma AcceptsCityName()
    ensures Validate(" paris ") == Some("paris")
  {
    TrimIs(" paris ", "paris", 1);
  }

  /** `parseInt` finds no digit after a bare `0x`, nor after `0x` followed by
      something other than a hexadecimal digit, so it gives `NaN` and the text
      is accepted, although `"0"` alone is refused. */
  lemma AcceptsHexPrefixWithoutDigit()
    ensures Validate("0x") == Some("0x")
    ensures Validate("0xg") == Some("0xg")
  {
    TrimIs("0x", "0x", 0);
    TrimIs("0xg", "0xg", 0);
  }
}
