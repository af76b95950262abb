/** The two string primitives the handler relies on: `String.prototype.includes`
    and the library helper `_substringAfterLast`. */
module StringUtil {

  /** `sub` occurs in `s` starting at index `i`. */
  predicate OccursAt(s: string, sub: string, i: int) {
    0 <= i && i + |sub| <= |s| && s[i..i + |sub|] == sub
  }

  /** Declarative meaning of "`s` contains `sub`". */
  ghost predicate ContainsSubstring(s: string, sub: string) {
    exists i :: OccursAt(s, sub, i)
  }

  /** An occurrence of a non-empty `sub` in a string at least as long either
      starts at the front or lies entirely in the tail. */
  lemma ContainsStep(s: string, sub: string)
    requires 1 <= |sub| <= |s|
    ensures ContainsSubstring(s, sub) <==> s[..|sub|] == sub || ContainsSubstring(s[1..], sub)
  {
    var n := |sub|;
    if s[..n] == sub {
      assert OccursAt(s, sub, 0);
    }
    if ContainsSubstring(s[1..], sub) {
      var i :| OccursAt(s[1..], sub, i);
      assert s[1..][i..i + n] == s[i + 1..i + 1 + n];
      assert OccursAt(s, sub, i + 1);
    }
    if ContainsSubstring(s, sub) && s[..n] != sub {
      var i :| OccursAt(s, sub, i);
      assert i != 0;
      assert s[1..][i - 1..i - 1 + n] == s[i..i + n];
      assert OccursAt(s[1..], sub, i - 1);
    }
  }

  /** `s.includes(sub)`, by scanning candidate start positions from the front;
      true exactly when `sub` occurs somewhere in `s`. */
  function Includes(s: string, sub: string): (r: bool)
    ensures r <==> ContainsSubstring(s, sub)
    decreases |s|
  {
    if |sub| == 0 then
      assert OccursAt(s, sub, 0);
      true
    else if |s| < |sub| then false
    else
      ContainsStep(s, sub);
      s[..|sub|] == sub || Includes(s[1..], sub)
  }

  /** `s.lastIndexOf(c)` for a one-character needle: -1 when absent. */
  function LastIndexOf(s: string, c: char): (r: int)
    ensures -1 <= r < |s|
    ensures r == -1 <==> c !in s
    ensures 0 <= r ==> s[r] == c && c !in s[r + 1..]
  {
    if |s| == 0 then -1
    else if s[|s| - 1] == c then |s| - 1
    else
      var k := LastIndexOf(s[..|s| - 1], c);
      assert k != -1 ==> s[k + 1..] == s[..|s| - 1][k + 1..] + [s[|s| - 1]];
      assert s == s[..|s| - 1] + [s[|s| - 1]];
      k
  }

  /** `_substringAfterLast(s, delimiter)` for a one-character delimiter: the text
      after the last occurrence of `delimiter`.  When `delimiter` does not occur
      the body returns `s` unchanged, but that case is deliberately left out of
      the contract. */
  function SubstringAfterLast(s: string, delimiter: char): (r: string)
    ensures delimiter in s ==>
      && |r| < |s|
      && s[|s| - |r| - 1] == delimiter
      && s[|s| - |r|..] == r
      && delimiter !in r
  {
    var pos := LastIndexOf(s, delimiter);
    if pos == -1 then s else s[pos + 1..]
  }

  /** Whatever precedes the last delimiter, the result is exactly the text after it. */
  lemma SubstringAfterLastOf(prefix: string, suffix: string, delimiter: char)
    requires delimiter !in suffix
    ensures SubstringAfterLast(prefix + [delimiter] + suffix, delimiter) == suffix
  {
    var s := prefix + [delimiter] + suffix;
    assert s[|prefix|] == delimiter;
    assert s[|s| - |suffix|..] == suffix;
  }
}
