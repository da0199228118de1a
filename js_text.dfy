/** The string operations of JavaScript that the application's decisions rest on. */
module JsText {
  import opened Wrappers

  /** `s.startsWith(p)`. */
  predicate StartsWith(s: string, p: string) {
    |p| <= |s| && s[..|p|] == p
  }

  /** `s.includes(t)`, searching left to right. */
  predicate Includes(s: string, t: string)
    decreases |s|
  {
    |t| <= |s| && (s[..|t|] == t || Includes(s[1..], t))
  }

  /** `t` occurs in `s` at position `i`. */
  ghost predicate OccursAt(s: string, t: string, i: int) {
    0 <= i && i + |t| <= |s| && s[i..i + |t|] == t
  }

  /** Every occurrence of `t` in `s` is found by the left-to-right search. */
  lemma {:induction false} OccurrenceIsFound(s: string, t: string, i: int)
    requires OccursAt(s, t, i)
    ensures Includes(s, t)
    decreases i
  {
    if i > 0 && s[..|t|] != t {
      assert s[1..][i - 1..i - 1 + |t|] == s[i..i + |t|];
      OccurrenceIsFound(s[1..], t, i - 1);
    }
  }

  /** What the left-to-right search finds is an occurrence. */
  lemma {:induction false} FoundIsOccurrence(s: string, t: string) returns (i: int)
    requires Includes(s, t)
    ensures OccursAt(s, t, i)
    decreases |s|
  {
    if s[..|t|] == t {
      i := 0;
    } else {
      var j := FoundIsOccurrence(s[1..], t);
      assert s[1..][j..j + |t|] == s[j + 1..j + 1 + |t|];
      i := j + 1;
    }
  }

  /** The left-to-right search finds `t` exactly when `t` occurs somewhere in `s`. */
  lemma IncludesIff(s: string, t: string)
    ensures Includes(s, t) <==> exists i :: OccursAt(s, t, i)
  {
    if Includes(s, t) {
      var i := FoundIsOccurrence(s, t);
    }
    forall i | OccursAt(s, t, i) ensures Includes(s, t) {
      OccurrenceIsFound(s, t, i);
    }
  }

  /** A string includes every piece it is built from. */
  lemma IncludesMiddle(a: string, t: string, b: string)
    ensures Includes(a + t + b, t)
  {
    var s := a + t + b;
    assert s[|a|..|a| + |t|] == t;
    OccurrenceIsFound(s, t, |a|);
  }

  /** A text in which the first character of `t` never appears does not include `t`. */
  lemma {:induction false} AbsentFirstCharacter(s: string, t: string)
    requires |t| > 0 && t[0] !in s
    ensures !Includes(s, t)
    decreases |s|
  {
    if |t| <= |s| {
      assert s[0] in s;
      assert s[..|t|][0] != t[0];
      assert forall c :: c in s[1..] ==> c in s;
      AbsentFirstCharacter(s[1..], t);
    }
  }

  /** JavaScript truthiness of an optional string: present and non-empty. */
  predicate Truthy(o: Option<string>) {
    o.Some? && o.value != ""
  }
}
