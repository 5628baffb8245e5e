/** String helpers: JavaScript's `toLowerCase`, `toUpperCase` and `includes`
    on strings, with case mapping restricted to the ASCII letters. */
module Text {

  function LowerChar(c: char): char {
    if 'A' <= c <= 'Z' then (c as int + 32) as char else c
  }

  function UpperChar(c: char): char {
    if 'a' <= c <= 'z' then (c as int - 32) as char else c
  }

  function ToLower(s: string): string {
    seq(|s|, k requires 0 <= k < |s| => LowerChar(s[k]))
  }

  function ToUpper(s: string): string {
    seq(|s|, k requires 0 <= k < |s| => UpperChar(s[k]))
  }

  /** `q` occurs in `s` starting at position `k`. */
  ghost predicate OccursAt(s: string, q: string, k: int) {
    0 <= k && k + |q| <= |s| && s[k..k + |q|] == q
  }

  /** `String.prototype.includes`: some window of `s` equals `q`. */
  function Contains(s: string, q: string): (r: bool)
    ensures r <==> exists k :: OccursAt(s, q, k)
    decreases |s|
  {
    if |q| > |s| then
      assert forall k :: !OccursAt(s, q, k);
      false
    else if s[..|q|] == q then
      assert OccursAt(s, q, 0);
      true
    else
      var r := Contains(s[1..], q);
      assert r ==> exists k :: OccursAt(s, q, k) by {
        if r {
          var k :| OccursAt(s[1..], q, k);
          assert s[1..][k..k + |q|] == s[k + 1..k + 1 + |q|];
          assert OccursAt(s, q, k + 1);
        }
      }
      assert (exists k :: OccursAt(s, q, k)) ==> r by {
        if exists k :: OccursAt(s, q, k) {
          var k :| OccursAt(s, q, k);
          assert k != 0;
          assert s[1..][k - 1..k - 1 + |q|] == s[k..k + |q|];
          assert OccursAt(s[1..], q, k - 1);
        }
      }
      r
  }
}
