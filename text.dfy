/**
 * The string tests the dashboard applies to a record's date: pandas'
 * `Series.str.contains(key)` is a substring test; a prefix test is what a
 * month filter is usually taken to mean.
 */
module Text {

  /** `key` occurs in `s` starting at index `i`. */
  predicate OccursAt(s: string, key: string, i: int) {
    0 <= i && i + |key| <= |s| && s[i..i + |key|] == key
  }

  /** `key` occurs somewhere in `s` (Python's `key in s`). */
  predicate Contains(s: string, key: string) {
    exists i :: 0 <= i <= |s| - |key| && OccursAt(s, key, i)
  }

  /** `s` begins with `key`. */
  predicate StartsWith(s: string, key: string) {
    |key| <= |s| && s[..|key|] == key
  }

  /** A string that starts with the key contains it. */
  lemma PrefixIsContained(s: string, key: string)
    requires StartsWith(s, key)
    ensures Contains(s, key)
  {
    assert OccursAt(s, key, 0);
  }

  /** The converse fails: a date that carries the key after other text still contains it. */
  lemma ContainedNotPrefix()
    ensures Contains("paid 2024-05-03", "2024-05")
    ensures !StartsWith("paid 2024-05-03", "2024-05")
  {
    var s, key := "paid 2024-05-03", "2024-05";
    assert s[5..12] == key;
    assert OccursAt(s, key, 5);
    assert s[..7][0] != key[0];
  }
}
