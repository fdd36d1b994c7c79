/** The store's `contains` filter with `mode: 'insensitive'`: a case-insensitive substring
    test on a text column. Case folding covers the ASCII letters only. */
module Search {
  import opened Values

  /** ASCII lower-casing of one character. */
  function Lower(c: char): char {
    if 'A' <= c <= 'Z' then (c as int + 32) as char else c
  }

  function LowerAll(s: string): (r: string)
    ensures |r| == |s|
    ensures forall i :: 0 <= i < |s| ==> r[i] == Lower(s[i])
  {
    if s == [] then [] else [Lower(s[0])] + LowerAll(s[1..])
  }

  /** `needle` occurs in `hay` starting at index `i`. */
  predicate OccursAt(needle: string, hay: string, i: int) {
    0 <= i && i + |needle| <= |hay| && hay[i..i + |needle|] == needle
  }

  /** Substring test by scanning `hay` from the left. */
  function Contains(hay: string, needle: string): (r: bool)
    ensures r <==> exists i :: OccursAt(needle, hay, i)
    decreases |hay|
  {
    if needle <= hay then
      assert OccursAt(needle, hay, 0);
      true
    else if |hay| <= |needle| then
      assert forall i :: OccursAt(needle, hay, i) ==> hay == needle;
      false
    else
      var r := Contains(hay[1..], needle);
      assert forall i :: OccursAt(needle, hay[1..], i) <==> OccursAt(needle, hay, i + 1) by {
        forall i ensures OccursAt(needle, hay[1..], i) <==> OccursAt(needle, hay, i + 1) {
          if 0 <= i && i + |needle| <= |hay| - 1 {
            assert hay[1..][i..i + |needle|] == hay[i + 1..i + 1 + |needle|];
          }
        }
      }
      assert forall i :: OccursAt(needle, hay, i) ==> i == 0 || OccursAt(needle, hay[1..], i - 1) by {
        forall i | OccursAt(needle, hay, i) && i != 0 ensures OccursAt(needle, hay[1..], i - 1) {
          assert hay[1..][i - 1..i - 1 + |needle|] == hay[i..i + |needle|];
        }
      }
      assert !OccursAt(needle, hay, 0);
      r
  }

  /** `{ contains: needle, mode: 'insensitive' }` on a string. */
  predicate ContainsInsensitive(hay: string, needle: string) {
    Contains(LowerAll(hay), LowerAll(needle))
  }

  /** The same filter on a column value: a null (or non-text) column never matches. */
  predicate FieldContains(v: Value, needle: string) {
    v.Str? && ContainsInsensitive(v.s, needle)
  }

  /** Changing the case of the letters of the search term does not change what matches. */
  lemma {:induction false} CaseOfNeedleIrrelevant(hay: string, needle: string, other: string)
    requires LowerAll(needle) == LowerAll(other)
    ensures ContainsInsensitive(hay, needle) <==> ContainsInsensitive(hay, other)
  {
  }

  /** A column whose text equals the search term, in any letter case, matches it. */
  lemma {:induction false} WholeValueMatches(s: string, needle: string)
    requires LowerAll(s) == LowerAll(needle)
    ensures FieldContains(Str(s), needle)
  {
    assert OccursAt(LowerAll(needle), LowerAll(s), 0);
  }

  /** A term that occurs in the column, in the column's own letter case, matches it. */
  lemma {:induction false} InfixMatches(prefix: string, needle: string, suffix: string)
    ensures FieldContains(Str(prefix + needle + suffix), needle)
  {
    var hay := prefix + needle + suffix;
    var i := |prefix|;
    assert LowerAll(hay)[i..i + |needle|] == LowerAll(needle) by {
      forall k | 0 <= k < |needle| ensures LowerAll(hay)[i..i + |needle|][k] == LowerAll(needle)[k] {
        assert hay[i + k] == needle[k];
      }
    }
    assert OccursAt(LowerAll(needle), LowerAll(hay), i);
  }
}
