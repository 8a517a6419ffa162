/** The Angular validators the login and register forms use, on text values.
    `Validators.email` matches a pattern that is not part of this model: it
    is the parameter `looksLikeEmail`. */
module Forms {
  /** `Validators.required`: the empty text fails. */
  predicate Required(value: string) {
    |value| > 0
  }

  /** JavaScript's `value.length`: the number of UTF-16 code units. A
      character beyond U+FFFF is written as a surrogate pair and counts twice. */
  function Utf16Length(value: string): (n: nat)
    ensures |value| <= n <= 2 * |value|
    ensures n == 0 <==> value == []
  {
    if value == [] then 0
    else Utf16Length(value[..|value| - 1]) + (if value[|value| - 1] > '\U{FFFF}' then 2 else 1)
  }

  /** Text made only of characters beyond U+FFFF has two units per character. */
  lemma {:induction false} Utf16LengthAstral(value: string)
    requires forall i :: 0 <= i < |value| ==> value[i] > '\U{FFFF}'
    ensures Utf16Length(value) == 2 * |value|
    decreases |value|
  {
    if value != [] {
      Utf16LengthAstral(value[..|value| - 1]);
    }
  }

  /** Text made only of characters up to U+FFFF has one unit per character. */
  lemma {:induction false} Utf16LengthBasic(value: string)
    requires forall i :: 0 <= i < |value| ==> value[i] <= '\U{FFFF}'
    ensures Utf16Length(value) == |value|
    decreases |value|
  {
    if value != [] {
      Utf16LengthBasic(value[..|value| - 1]);
    }
  }

  /** `Validators.minLength(n)`: an empty value passes, leaving it to
      `required`; otherwise `value.length >= n`. */
  predicate MinLength(value: string, n: nat) {
    |value| == 0 || Utf16Length(value) >= n
  }

  /** `Validators.maxLength(n)`: `value.length <= n`. */
  predicate MaxLength(value: string, n: nat) {
    Utf16Length(value) <= n
  }

  /** `Validators.email`: an empty value passes; any other must match the pattern. */
  predicate Email(value: string, looksLikeEmail: string -> bool) {
    |value| == 0 || looksLikeEmail(value)
  }
}
