/** Characters and C strings. */
module CText {

  const NUL: char := '\0'

  predicate NulFree(s: string) { NUL !in s }

  /** The part of a buffer that its C string shows. */
  function Cut(s: string): (c: string)
    ensures NulFree(c) && c <= s
    ensures NulFree(s) ==> c == s
  {
    if s == "" || s[0] == NUL then "" else [s[0]] + Cut(s[1..])
  }
}
