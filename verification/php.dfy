/** The few pieces of PHP runtime behaviour the weather class relies on:
    truthiness of decoded JSON values, `empty()` on a form field, `intval`
    on a number, and C's `isspace` (which PCRE's `\s` and `strip_tags` use). */
module Php {
  import opened Wrappers

  /** A decoded JSON number is truthy unless it is zero (`0` and `0.0` alike). */
  predicate NumberTruthy(x: real) {
    x != 0.0
  }

  /** `if ($res[...])` on an optional number: present and non-zero. */
  predicate Truthy(o: Option<real>) {
    o.Some? && NumberTruthy(o.value)
  }

  /** A string is falsy exactly when it is "" or "0"; `empty($s)` is the same test. */
  predicate StringTruthy(s: string) {
    s != "" && s != "0"
  }

  /** `if ($res[...])` on an optional string. */
  predicate TruthyString(o: Option<string>) {
    o.Some? && StringTruthy(o.value)
  }

  /** `intval` of a number: truncation toward zero. */
  function IntVal(x: real): (r: int)
    ensures 0.0 <= x ==> r as real <= x < r as real + 1.0
    ensures x < 0.0 ==> r as real - 1.0 < x <= r as real
  {
    if x >= 0.0 then x.Floor else -((-x).Floor)
  }

  /** An integral number converts to itself, and truncation is odd:
      `intval(-x) == -intval(x)`, unlike rounding down. */
  lemma IntValProperties(x: real, n: int)
    ensures IntVal(n as real) == n
    ensures IntVal(-x) == -IntVal(x)
    ensures -1.0 < x < 1.0 ==> IntVal(x) == 0
  {
  }

  /** C's `isspace` in the "C" locale: space, tab, newline, vertical tab,
      form feed and carriage return. */
  predicate IsSpace(c: char) {
    c == ' ' || c == '\t' || c == '\n' || c == '\U{000B}' || c == '\U{000C}' || c == '\r'
  }
}
