/** The effect that follows `name`: when the theme name is not empty, the
    page body's class attribute is emptied and the name added as its one
    class. `DOMTokenList.add` throws on a token that contains ASCII
    whitespace, and by then the attribute is already empty. */
module BodyTheme {

  /** ASCII whitespace as the DOM defines it: TAB, LF, FF, CR and SPACE. */
  predicate IsAsciiWhitespace(c: char)
  {
    c == '\t' || c == '\n' || c == '\U{000C}' || c == '\r' || c == ' '
  }

  /** Whether `classList.add(token)` accepts a non-empty `token`. */
  predicate IsClassToken(token: string)
  {
    forall k :: 0 <= k < |token| ==> !IsAsciiWhitespace(token[k])
  }

  /** The body's class attribute after the effect ran for `name`, given the
      attribute before. */
  function ThemedClass(current: string, name: string): (r: string)
    ensures r != current ==> name != []
    ensures name != [] && IsClassToken(name) ==> r == name
    ensures name != [] && !IsClassToken(name) ==> r == []
  {
    if name == [] then current
    else if IsClassToken(name) then name
    else []
  }

  /** Running the effect again for the same name changes nothing. */
  lemma ThemedClassIdempotent(current: string, name: string)
    ensures ThemedClass(ThemedClass(current, name), name) == ThemedClass(current, name)
  {
  }

  /** Only the last non-empty name matters: applying `first` and then a
      non-empty `second` is applying `second` alone. */
  lemma LastThemeWins(current: string, first: string, second: string)
    requires second != []
    ensures ThemedClass(ThemedClass(current, first), second) == ThemedClass(current, second)
  {
  }

  /** `document.body`, reduced to its class attribute. */
  class Body {
    var className: string

    constructor (className: string)
      ensures this.className == className
    {
      this.className := className;
    }

    /** When `name` is not empty: empty the class attribute, then add `name`
        as its one class. `add` throws on ASCII whitespace, which leaves the
        attribute empty. */
    method ApplyTheme(name: string)
      modifies this
      ensures className == ThemedClass(old(className), name)
    {
      if name != [] {
        className := [];
        if IsClassToken(name) {
          className := name;
        }
      }
    }
  }
}
