/** Substring search, as JavaScript's `String.prototype.includes` performs it. */
module Strings {

  /** `needle` occurs in `s` starting at index `i`. */
  ghost predicate OccursAt(s: string, needle: string, i: int)
  {
    0 <= i && i + |needle| <= |s| && s[i..i + |needle|] == needle
  }

  /** `s.includes(needle)`: scan `s` from the left for a position where `needle` starts. */
  function Includes(s: string, needle: string): bool
    decreases |s|
  {
    if needle <= s then true
    else if s == [] then false
    else Includes(s[1..], needle)
  }

  /** The scan finds `needle` exactly when it occurs somewhere in `s`. */
  lemma {:induction false} IncludesIffOccurs(s: string, needle: string)
    ensures Includes(s, needle) <==> exists i :: OccursAt(s, needle, i)
    decreases |s|
  {
    if needle <= s {
      assert OccursAt(s, needle, 0);
    } else if s == [] {
    } else {
      IncludesIffOccurs(s[1..], needle);
      if Includes(s[1..], needle) {
        var i :| OccursAt(s[1..], needle, i);
        assert s[1..][i..i + |needle|] == s[i + 1..i + 1 + |needle|];
        assert OccursAt(s, needle, i + 1);
      }
      if exists i :: OccursAt(s, needle, i) {
        var i :| OccursAt(s, needle, i);
        if i == 0 {
          assert false;
        }
        assert s[i..i + |needle|] == s[1..][i - 1..i - 1 + |needle|];
        assert OccursAt(s[1..], needle, i - 1);
      }
    }
  }

  /** A needle longer than the text is never found. */
  lemma {:induction false} NeedleLongerThanText(s: string, needle: string)
    requires |s| < |needle|
    ensures !Includes(s, needle)
  {
    IncludesIffOccurs(s, needle);
  }

  /** A needle whose first character the text lacks is never found. */
  lemma {:induction false} FirstCharMissing(s: string, needle: string)
    requires needle != [] && needle[0] !in s
    ensures !Includes(s, needle)
  {
    IncludesIffOccurs(s, needle);
  }

  /** A needle embedded anywhere in a text is found. */
  lemma IncludesEmbedded(before: string, needle: string, after: string)
    ensures Includes(before + needle + after, needle)
  {
    var s := before + needle + after;
    assert s[|before|..|before| + |needle|] == needle;
    assert OccursAt(s, needle, |before|);
    IncludesIffOccurs(s, needle);
  }
}
