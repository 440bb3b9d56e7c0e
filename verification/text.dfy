/** The two string operations the search filter relies on: lowercasing and
    substring containment. Lowercasing is modelled on ASCII letters only. */
module Text {

  /** Maps 'A'..'Z' to 'a'..'z' and leaves every other character alone. */
  function LowerChar(c: char): (r: char)
    ensures 'A' <= c <= 'Z' ==> 'a' <= r <= 'z' && r as int - c as int == 32
    ensures !('A' <= c <= 'Z') ==> r == c
  {
    if 'A' <= c <= 'Z' then (c as int - 'A' as int + 'a' as int) as char else c
  }

  /** The lowercased copy of `s`, character by character. */
  function Lower(s: string): (r: string)
    ensures |r| == |s|
    ensures forall i :: 0 <= i < |s| ==> r[i] == LowerChar(s[i])
  {
    seq(|s|, i requires 0 <= i < |s| => LowerChar(s[i]))
  }

  /** No upper-case ASCII letter occurs in `s`. */
  predicate IsLower(s: string) {
    forall i :: 0 <= i < |s| ==> !('A' <= s[i] <= 'Z')
  }

  /** Lowercasing yields a lower-case string and leaves one unchanged. */
  lemma LowerIsLowerAndIdempotent(s: string)
    ensures IsLower(Lower(s))
    ensures IsLower(s) ==> Lower(s) == s
    ensures Lower(Lower(s)) == Lower(s)
  {
  }

  predicate StartsWith(s: string, prefix: string) {
    |prefix| <= |s| && s[..|prefix|] == prefix
  }

  /** `needle` occurs in `hay` at some offset: the reference meaning of
      substring containment. */
  ghost predicate IsSubstring(needle: string, hay: string) {
    exists k :: 0 <= k <= |hay| && StartsWith(hay[k..], needle)
  }

  /** Substring containment, decided by trying each offset from the left. */
  function Contains(hay: string, needle: string): (r: bool)
    ensures r ==> |needle| <= |hay|
    ensures |needle| == 0 ==> r
    decreases |hay|
  {
    if StartsWith(hay, needle) then true
    else if |hay| == 0 then false
    else Contains(hay[1..], needle)
  }

  /** The search by offsets decides exactly the reference containment. */
  lemma {:induction false} ContainsIsSubstring(hay: string, needle: string)
    ensures Contains(hay, needle) <==> IsSubstring(needle, hay)
    decreases |hay|
  {
    assert hay[0..] == hay;
    if StartsWith(hay, needle) {
    } else if |hay| == 0 {
    } else {
      ContainsIsSubstring(hay[1..], needle);
      if IsSubstring(needle, hay[1..]) {
        var k :| 0 <= k <= |hay[1..]| && StartsWith(hay[1..][k..], needle);
        assert hay[1..][k..] == hay[k + 1..];
      }
      if IsSubstring(needle, hay) {
        var k :| 0 <= k <= |hay| && StartsWith(hay[k..], needle);
        assert k != 0;
        assert hay[1..][k - 1..] == hay[k..];
      }
    }
  }
}
