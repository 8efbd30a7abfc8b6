/** The string operations the search box relies on: `toLowerCase` and `includes`. */
module Text {

  /** An ASCII upper-case letter. */
  predicate IsUpper(c: char) {
    'A' <= c <= 'Z'
  }

  /** Lower-cases one ASCII letter; every other character is left as it is. */
  function LowerChar(c: char): (d: char)
    ensures !IsUpper(d)
    ensures IsUpper(c) ==> d as int == c as int + ('a' as int - 'A' as int)
    ensures !IsUpper(c) ==> d == c
  {
    if IsUpper(c) then (c as int - 'A' as int + 'a' as int) as char else c
  }

  /** `toLowerCase`, restricted to the ASCII letters. */
  function ToLower(s: string): (r: string)
    ensures |r| == |s|
    ensures forall i :: 0 <= i < |r| ==> !IsUpper(r[i])
    ensures forall i :: 0 <= i < |r| ==> !IsUpper(s[i]) ==> r[i] == s[i]
    ensures forall i :: 0 <= i < |s| && IsUpper(s[i]) ==> r[i] as int == s[i] as int + ('a' as int - 'A' as int)
  {
    seq(|s|, i requires 0 <= i < |s| => LowerChar(s[i]))
  }

  /** Lower-casing an already lower-cased string changes nothing. */
  lemma ToLowerIdempotent(s: string)
    ensures ToLower(ToLower(s)) == ToLower(s)
  {
  }

  /** `needle` occurs in `hay` starting at position `i`. */
  ghost predicate OccursAt(hay: string, needle: string, i: int) {
    0 <= i <= |hay| && needle <= hay[i..]
  }

  /** `includes`: whether `needle` occurs somewhere in `hay`; the empty needle occurs everywhere. */
  function Contains(hay: string, needle: string): bool {
    needle <= hay || (|hay| > 0 && Contains(hay[1..], needle))
  }

  /** The scan finds the needle exactly when it occurs at some position of `hay`. */
  lemma {:induction false} ContainsOccurs(hay: string, needle: string)
    ensures Contains(hay, needle) <==> exists i :: OccursAt(hay, needle, i)
  {
    if needle <= hay {
      assert OccursAt(hay, needle, 0);
    } else if |hay| == 0 {
      assert forall i :: OccursAt(hay, needle, i) ==> i == 0;
    } else {
      ContainsOccurs(hay[1..], needle);
      assert forall i :: 0 < i <= |hay| ==> hay[1..][i - 1..] == hay[i..];
      if Contains(hay[1..], needle) {
        var j :| OccursAt(hay[1..], needle, j);
        assert OccursAt(hay, needle, j + 1);
      }
      if exists i :: OccursAt(hay, needle, i) {
        var i :| OccursAt(hay, needle, i);
        assert OccursAt(hay[1..], needle, i - 1);
      }
    }
  }

  /** The empty string is contained in every string. */
  lemma ContainsEmpty(hay: string)
    ensures Contains(hay, "")
  {
  }

  /** A needle whose first character never appears in `hay` does not occur in it. */
  lemma NotContainsWithoutFirstChar(hay: string, needle: string)
    requires |needle| > 0 && needle[0] !in hay
    ensures !Contains(hay, needle)
  {
  }

  /** Positions before the first occurrence of the needle's first character can be skipped. */
  lemma ContainsSkip(hay: string, needle: string, k: nat)
    requires |needle| > 0 && k <= |hay| && needle[0] !in hay[..k]
    ensures Contains(hay, needle) == Contains(hay[k..], needle)
  {
    ContainsOccurs(hay, needle);
    ContainsOccurs(hay[k..], needle);
    if exists i :: OccursAt(hay, needle, i) {
      var i :| OccursAt(hay, needle, i);
      assert i >= k;
      assert hay[k..][i - k..] == hay[i..];
      assert OccursAt(hay[k..], needle, i - k);
    }
    if exists i :: OccursAt(hay[k..], needle, i) {
      var i :| OccursAt(hay[k..], needle, i);
      assert hay[k..][i..] == hay[k + i..];
      assert OccursAt(hay, needle, k + i);
    }
  }

  /** When the second characters differ, the needle does not start at the front of `hay`. */
  lemma ContainsSecondMismatch(hay: string, needle: string)
    requires |needle| > 1 && |hay| > 1 && hay[1] != needle[1]
    ensures Contains(hay, needle) == Contains(hay[1..], needle)
  {
  }
}
