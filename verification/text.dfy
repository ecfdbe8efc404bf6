/**
  Substring search on strings, as JavaScript's `String.prototype.includes`
  performs it: `s.includes(t)` holds when `t` occurs in `s` at some offset.
 */
module Text {

  /** `t` occurs in `s` starting at offset `i`. */
  predicate OccursAt(s: string, t: string, i: int)
  {
    0 <= i && i + |t| <= |s| && s[i..i + |t|] == t
  }

  /** `t` occurs in `s` somewhere: the reference meaning of `includes`. */
  ghost predicate Occurs(s: string, t: string)
  {
    exists i :: OccursAt(s, t, i)
  }

  /** An occurrence in the tail `s[1..]` is an occurrence in `s` one position later. */
  lemma OccursAtTail(s: string, t: string, i: int)
    requires |s| > 0 && i >= 0
    ensures OccursAt(s[1..], t, i) <==> OccursAt(s, t, i + 1)
  {
  }

  /** The left-to-right scan `includes` performs: test each offset in turn. */
  function Includes(s: string, t: string): (r: bool)
    ensures r <==> Occurs(s, t)
    decreases |s|
  {
    if |s| < |t| then
      assert !Occurs(s, t);
      false
    else if s[..|t|] == t then
      assert OccursAt(s, t, 0);
      true
    else
      var rest := Includes(s[1..], t);
      if rest then
        var i :| OccursAt(s[1..], t, i);
        OccursAtTail(s, t, i);
        true
      else
        assert !Occurs(s, t) by {
          forall j
            ensures !OccursAt(s, t, j)
          {
            if j >= 1 {
              OccursAtTail(s, t, j - 1);
            }
          }
        }
        false
  }
}
