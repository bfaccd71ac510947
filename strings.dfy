/** Small facts about searching a string for a character, and the optional
    result of a reader, shared by the type registry and the kernel-source
    reader. */
module Strings {

  /** The result of a reader that may find nothing. */
  datatype Option<T> = None | Some(value: T)

  /** The position of the first `ch` in `s`, or `|s|` when `s` has none. */
  function IndexOf(s: string, ch: char): (i: nat)
    ensures i <= |s|
    ensures forall j :: 0 <= j < i ==> s[j] != ch
    ensures i < |s| ==> s[i] == ch
  {
    if s == [] || s[0] == ch then 0 else 1 + IndexOf(s[1..], ch)
  }

  /** In `x + rest`, where `x` lacks `ch` and `rest` starts with it, the first
      `ch` sits right after `x`. */
  lemma IndexOfAfter(x: string, rest: string, ch: char)
    requires ch !in x
    requires |rest| > 0 && rest[0] == ch
    ensures IndexOf(x + rest, ch) == |x|
  {
    assert (x + rest)[|x|] == ch;
  }
}
