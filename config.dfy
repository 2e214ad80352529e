/** The database URL fix-up done at start-up. */
module Config {

  const LegacyScheme: string := "postgres://"
  const Scheme: string := "postgresql://"

  /** Python's `s.startswith(p)`. */
  predicate StartsWith(s: string, p: string) {
    |p| <= |s| && s[..|p|] == p
  }

  /** `pattern` occurs in `s` starting at index `i`. */
  predicate OccursAt(s: string, pattern: string, i: nat) {
    i + |pattern| <= |s| && s[i..i + |pattern|] == pattern
  }

  /** An occurrence at 0 is a prefix; dropping the first character shifts the others down by one. */
  lemma OccursShift(s: string, pattern: string, i: nat)
    ensures OccursAt(s, pattern, 0) <==> StartsWith(s, pattern)
    ensures s != [] ==> (OccursAt(s, pattern, i + 1) <==> OccursAt(s[1..], pattern, i))
  {
    if |pattern| <= |s| {
      assert s[0..|pattern|] == s[..|pattern|];
    }
    if s != [] && i + 1 + |pattern| <= |s| {
      assert s[i + 1..i + 1 + |pattern|] == s[1..][i..i + |pattern|];
    }
  }

  /**
   * Python's `s.replace(pattern, replacement, 1)`: the first occurrence of
   * `pattern` is replaced (see `ReplaceFirstOccurrence`), and a string without
   * one is returned unchanged (see `ReplaceFirstAbsent`).
   */
  function ReplaceFirst(s: string, pattern: string, replacement: string): (r: string)
    ensures StartsWith(s, pattern) ==> r == replacement + s[|pattern|..]
  {
    if StartsWith(s, pattern) then replacement + s[|pattern|..]
    else if s == [] then s
    else [s[0]] + ReplaceFirst(s[1..], pattern, replacement)
  }

  /** Only the first occurrence is replaced; what precedes and follows it is kept. */
  lemma {:induction false} ReplaceFirstOccurrence(s: string, pattern: string, replacement: string, i: nat)
    requires OccursAt(s, pattern, i)
    requires forall j: nat :: j < i ==> !OccursAt(s, pattern, j)
    ensures ReplaceFirst(s, pattern, replacement) == s[..i] + replacement + s[i + |pattern|..]
  {
    OccursShift(s, pattern, 0);
    if i == 0 {
      assert s[..0] == [];
    } else {
      var tail := s[1..];
      OccursShift(s, pattern, i - 1);
      forall j: nat | j < i - 1 ensures !OccursAt(tail, pattern, j) {
        OccursShift(s, pattern, j);
      }
      ReplaceFirstOccurrence(tail, pattern, replacement, i - 1);
      var rest := ReplaceFirst(tail, pattern, replacement);
      assert ReplaceFirst(s, pattern, replacement) == [s[0]] + rest;
      assert rest == tail[..i - 1] + replacement + tail[i - 1 + |pattern|..];
      assert s[..i] == [s[0]] + tail[..i - 1];
      assert s[i + |pattern|..] == tail[i - 1 + |pattern|..];
    }
  }

  /** A string in which the pattern does not occur is returned unchanged. */
  lemma {:induction false} ReplaceFirstAbsent(s: string, pattern: string, replacement: string)
    requires forall i: nat :: !OccursAt(s, pattern, i)
    ensures ReplaceFirst(s, pattern, replacement) == s
  {
    OccursShift(s, pattern, 0);
    if s != [] {
      forall i: nat ensures !OccursAt(s[1..], pattern, i) {
        OccursShift(s, pattern, i);
      }
      ReplaceFirstAbsent(s[1..], pattern, replacement);
      assert s == [s[0]] + s[1..];
    }
  }

  /** The configured URL: a `postgres://` URL is rewritten to `postgresql://`, any other is kept. */
  function DatabaseUrl(configured: string): (r: string)
    ensures StartsWith(configured, LegacyScheme) ==> r == Scheme + configured[|LegacyScheme|..]
    ensures !StartsWith(configured, LegacyScheme) ==> r == configured
    ensures !StartsWith(r, LegacyScheme)
  {
    if StartsWith(configured, LegacyScheme) then
      var r := ReplaceFirst(configured, LegacyScheme, Scheme);
      assert r[8] == 'q' != LegacyScheme[8];
      r
    else configured
  }

  /** Applying the rewrite again changes nothing. */
  lemma DatabaseUrlIdempotent(configured: string)
    ensures DatabaseUrl(DatabaseUrl(configured)) == DatabaseUrl(configured)
  {
  }
}
