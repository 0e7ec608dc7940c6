/**
 * The parts of java.lang.String that the notification handlers rely on:
 * null references, String.valueOf, lastIndexOf(char) and the literal
 * replace(CharSequence, CharSequence).
 */
module JavaString {
  /** A Java String reference: null, or a sequence of characters. */
  datatype NString = Null | Str(value: string)

  /** String.valueOf(s), which is also what `+` concatenation uses: null becomes "null". */
  function ValueOf(s: NString): string
  {
    match s
    case Null => "null"
    case Str(v) => v
  }

  /** s.lastIndexOf(c): the position of the last c in s, or -1 when there is none. */
  function LastIndexOf(s: string, c: char): (r: int)
    ensures -1 <= r < |s|
    ensures 0 <= r ==> s[r] == c
    ensures forall i :: r < i < |s| ==> s[i] != c
    ensures r == -1 <==> c !in s
    decreases |s|
  {
    if |s| == 0 then -1
    else if s[|s| - 1] == c then |s| - 1
    else
      var k := LastIndexOf(s[..|s| - 1], c);
      assert forall i :: k < i < |s| - 1 ==> s[i] == s[..|s| - 1][i];
      k
  }

  /** t occurs in s starting at position i. */
  predicate OccursAt(s: string, i: int, t: string)
  {
    0 <= i && i + |t| <= |s| && s[i..i + |t|] == t
  }

  /** s.contains(t). */
  predicate Contains(s: string, t: string)
  {
    exists i :: 0 <= i <= |s| && OccursAt(s, i, t)
  }

  lemma OccursAtTail(s: string, i: int, t: string)
    requires |s| > 0 && 0 <= i
    ensures OccursAt(s[1..], i, t) <==> OccursAt(s, i + 1, t)
  {
    if i + |t| <= |s| - 1 {
      assert s[1..][i..i + |t|] == s[i + 1..i + 1 + |t|];
    }
  }

  /**
   * s.replace(target, replacement) for a non-empty target: scanning from the
   * left, each occurrence of target is replaced, and scanning resumes after
   * it, so occurrences never overlap and the inserted text is never scanned.
   */
  function Replace(s: string, target: string, replacement: string): string
    requires |target| > 0
    decreases |s|
  {
    if |s| < |target| then s
    else if s[..|target|] == target then replacement + Replace(s[|target|..], target, replacement)
    else [s[0]] + Replace(s[1..], target, replacement)
  }

  /** No occurrence at the front: the first character is copied and the scan moves on by one. */
  lemma ReplaceMiss(s: string, target: string, replacement: string)
    requires |target| > 0 && |s| > 0
    requires !OccursAt(s, 0, target)
    ensures Replace(s, target, replacement) == [s[0]] + Replace(s[1..], target, replacement)
  {
    if |s| < |target| {
      assert Replace(s[1..], target, replacement) == s[1..];
      assert s == [s[0]] + s[1..];
    }
  }

  /** The positions without an occurrence, seen from one character further on. */
  lemma NoOccurrenceTail(s: string, k: int, target: string)
    requires 0 < k <= |s|
    requires forall i :: 0 <= i < k ==> !OccursAt(s, i, target)
    ensures forall i :: 0 <= i < k - 1 ==> !OccursAt(s[1..], i, target)
  {
    forall i | 0 <= i < k - 1
      ensures !OccursAt(s[1..], i, target)
    {
      OccursAtTail(s, i, target);
    }
  }

  /** Text that holds no occurrence of the target is copied through unchanged. */
  lemma {:induction false} ReplaceSkip(a: string, rest: string, target: string, replacement: string)
    requires |target| > 0
    requires forall i :: 0 <= i < |a| ==> !OccursAt(a + rest, i, target)
    ensures Replace(a + rest, target, replacement) == a + Replace(rest, target, replacement)
    decreases |a|
  {
    if a != [] {
      var s := a + rest;
      ReplaceMiss(s, target, replacement);
      NoOccurrenceTail(s, |a|, target);
      assert s[1..] == a[1..] + rest;
      ReplaceSkip(a[1..], rest, target, replacement);
      assert a == [a[0]] + a[1..];
    } else {
      assert a + rest == rest;
    }
  }

  /** An occurrence at the front is replaced and the replacement is emitted verbatim, never rescanned. */
  lemma ReplaceHit(target: string, rest: string, replacement: string)
    requires |target| > 0
    ensures Replace(target + rest, target, replacement) == replacement + Replace(rest, target, replacement)
  {
    var s := target + rest;
    assert s[..|target|] == target;
    assert s[|target|..] == rest;
  }

  /** A string without an occurrence of the target is returned unchanged. */
  lemma ReplaceAbsent(s: string, target: string, replacement: string)
    requires |target| > 0
    requires !Contains(s, target)
    ensures Replace(s, target, replacement) == s
  {
    assert s + "" == s;
    ReplaceSkip(s, "", target, replacement);
  }
}
