/** The few JavaScript string operations the core relies on: `toLowerCase`
    (restricted to ASCII letters), `includes` and `trim` (restricted to ASCII
    whitespace). */
module Text {

  predicate IsUpper(c: char) { 'A' <= c <= 'Z' }

  /** ASCII lower-casing of one character; every other character is kept. */
  function Lower(c: char): char
  {
    if IsUpper(c) then (c as int + 32) as char else c
  }

  /** ASCII upper-casing of one character; every other character is kept. */
  function Upper(c: char): char
  {
    if 'a' <= c <= 'z' then (c as int - 32) as char else c
  }

  /** `s.toLowerCase()` */
  function LowerStr(s: string): string
  {
    seq(|s|, i requires 0 <= i < |s| => Lower(s[i]))
  }

  /** `s.toUpperCase()` */
  function UpperStr(s: string): string
  {
    seq(|s|, i requires 0 <= i < |s| => Upper(s[i]))
  }

  /** Two characters that are equal, or are the upper- and lower-case forms of
      the same ASCII letter (the upper-case code point plus 32). */
  predicate CaseVariant(c: char, d: char)
  {
    c == d || ('A' <= c <= 'Z' && d as int == c as int + 32) || ('A' <= d <= 'Z' && c as int == d as int + 32)
  }

  /** Two strings that differ only in the case of their letters. */
  predicate SameUpToCase(a: string, b: string)
  {
    |a| == |b| && forall i :: 0 <= i < |a| ==> CaseVariant(a[i], b[i])
  }

  /** Lowering two characters gives the same character exactly when they are case variants. */
  lemma LowerCaseVariant(c: char, d: char)
    ensures Lower(c) == Lower(d) <==> CaseVariant(c, d)
  {
  }

  /** Lower-casing forgets case and nothing else: two strings lower to the same
      string exactly when they differ only in the case of their letters. */
  lemma LowerStrSameUpToCase(a: string, b: string)
    ensures SameUpToCase(a, b) <==> LowerStr(a) == LowerStr(b)
  {
    if LowerStr(a) == LowerStr(b) {
      forall i | 0 <= i < |a|
        ensures CaseVariant(a[i], b[i])
      {
        assert LowerStr(a)[i] == LowerStr(b)[i];
        LowerCaseVariant(a[i], b[i]);
      }
    }
    if SameUpToCase(a, b) {
      forall i | 0 <= i < |a|
        ensures LowerStr(a)[i] == LowerStr(b)[i]
      {
        LowerCaseVariant(a[i], b[i]);
      }
    }
  }

  lemma UpperStrSameUpToCase(s: string)
    ensures SameUpToCase(UpperStr(s), s)
  {
  }

  /** A character absent from `s` in both cases is absent from its lowered copy. */
  lemma LowerStrAbsent(s: string, c: char)
    requires !IsUpper(c) && c !in s && Upper(c) !in s
    ensures c !in LowerStr(s)
  {
    forall i | 0 <= i < |s|
      ensures LowerStr(s)[i] != c
    {
      assert s[i] in s;
    }
  }

  /** `k` occurs in `s` starting at position `i`. */
  predicate OccursAt(s: string, k: string, i: nat)
  {
    i + |k| <= |s| && s[i..i + |k|] == k
  }

  /** `s.includes(k)`: a left-to-right scan; the empty string is included in every string. */
  function Contains(s: string, k: string): bool
    decreases |s|
  {
    if |k| > |s| then false
    else s[..|k|] == k || Contains(s[1..], k)
  }

  /** The scan agrees with the positional definition of an occurrence. */
  lemma {:induction false} ContainsIff(s: string, k: string)
    ensures Contains(s, k) <==> exists i: nat :: OccursAt(s, k, i)
    decreases |s|
  {
    if |k| <= |s| {
      if s[..|k|] == k {
        assert OccursAt(s, k, 0);
      } else {
        ContainsIff(s[1..], k);
        if Contains(s[1..], k) {
          var i: nat :| OccursAt(s[1..], k, i);
          assert s[i + 1..i + 1 + |k|] == s[1..][i..i + |k|];
          assert OccursAt(s, k, i + 1);
        } else {
          forall i: nat | OccursAt(s, k, i)
            ensures false
          {
            assert i != 0;
            assert s[1..][i - 1..i - 1 + |k|] == s[i..i + |k|];
            assert OccursAt(s[1..], k, i - 1);
          }
        }
      }
    } else {
      forall i: nat | OccursAt(s, k, i)
        ensures false
      {
      }
    }
  }

  lemma SelfContains(k: string)
    ensures Contains(k, k)
  {
    assert k[..|k|] == k;
  }

  /** Matching is by substring: an occurrence survives any text around it. */
  lemma ContainsInContext(a: string, b: string, c: string, k: string)
    requires Contains(b, k)
    ensures Contains(a + b + c, k)
  {
    ContainsIff(b, k);
    var i: nat :| OccursAt(b, k, i);
    assert (a + b + c)[|a| + i..|a| + i + |k|] == b[i..i + |k|];
    assert OccursAt(a + b + c, k, |a| + i);
    ContainsIff(a + b + c, k);
  }

  /** Every character of an included string is a character of the including string;
      used to show that a keyword cannot occur in a text. */
  lemma ContainsOnlyItsCharacters(s: string, k: string, c: char)
    requires Contains(s, k) && c in k
    ensures c in s
  {
    ContainsIff(s, k);
    var i: nat :| OccursAt(s, k, i);
    var j :| 0 <= j < |k| && k[j] == c;
    assert s[i..i + |k|][j] == s[i + j];
  }

  /** The ASCII whitespace characters `trim` removes. */
  predicate IsSpace(c: char)
  {
    c == ' ' || c == '\t' || c == '\n' || c == '\r' || c == '\U{000B}' || c == '\U{000C}'
  }

  predicate AllSpace(s: string)
  {
    forall i :: 0 <= i < |s| ==> IsSpace(s[i])
  }

  /** The number of whitespace characters `s` starts with. */
  function LeadingSpaces(s: string): (n: nat)
    ensures n <= |s|
    ensures forall i :: 0 <= i < n ==> IsSpace(s[i])
    ensures n == |s| || !IsSpace(s[n])
  {
    if |s| > 0 && IsSpace(s[0]) then 1 + LeadingSpaces(s[1..]) else 0
  }

  /** The number of whitespace characters `s` ends with. */
  function TrailingSpaces(s: string): (n: nat)
    ensures n <= |s|
    ensures forall i :: |s| - n <= i < |s| ==> IsSpace(s[i])
    ensures n == |s| || !IsSpace(s[|s| - n - 1])
  {
    if |s| > 0 && IsSpace(s[|s| - 1]) then 1 + TrailingSpaces(s[..|s| - 1]) else 0
  }

  /** Leading whitespace removed. */
  function TrimStart(s: string): string
  {
    s[LeadingSpaces(s)..]
  }

  /** Trailing whitespace removed. */
  function TrimEnd(s: string): string
  {
    s[..|s| - TrailingSpaces(s)]
  }

  /** `s.trim()` */
  function Trim(s: string): string
  {
    TrimEnd(TrimStart(s))
  }

  /** `!s.trim()`: the trimmed string is empty, hence falsy. */
  predicate IsBlank(s: string)
  {
    Trim(s) == ""
  }

  /** A string is blank exactly when it consists of whitespace only. */
  lemma BlankIff(s: string)
    ensures IsBlank(s) <==> AllSpace(s)
  {
    var t := TrimStart(s);
    if IsBlank(s) {
      assert TrailingSpaces(t) == |t|;
    }
  }
}
