/** Key presses as both viewers see them: the byte delivered by the window
    toolkit, decoded and lower-cased before it is compared. Keys are
    modelled as single characters. */
module Keys {

  /** The escape key. */
  const Escape: char := 27 as char

  /** `str.lower()` on one character, for the ASCII range. */
  function Lower(c: char): (r: char)
    ensures !('A' <= r <= 'Z')
    ensures r == c || ('A' <= c <= 'Z' && r as int == c as int + 32)
  {
    if 'A' <= c <= 'Z' then (c as int + 32) as char else c
  }

  /** Lower-casing twice is lower-casing once. */
  lemma LowerIdempotent(c: char)
    ensures Lower(Lower(c)) == Lower(c)
  {
  }

  /** Upper- and lower-case letters select the same action. */
  lemma LowerFoldsCase(c: char)
    requires 'a' <= c <= 'z'
    ensures Lower((c as int - 32) as char) == c && Lower(c) == c
  {
  }

  /** The two keys that end the program, after lower-casing. */
  predicate IsQuitKey(k: char) {
    k == Escape || k == 'q'
  }
}
