/** The outcome taxonomy of a benchmark run and the classifier that maps a
    tool's free-text output onto it (`Stats.determine_answer`). */
module Outcomes {
  import opened Results

  /** The five values `determine_answer` can return; SAFE and UNSAFE are the
      source's 'TRUE' and 'FALSE'. */
  datatype Outcome = Safe | Unsafe | Timeout | Oom | Unknown

  /** Python's `t in s` on strings: `t` occurs as a contiguous substring. */
  predicate Contains(s: string, t: string)
    decreases |s|
  {
    t <= s || (|s| > 0 && Contains(s[1..], t))
  }

  /** `t` occurs in `s` starting at index `i`. */
  predicate OccursAt(s: string, t: string, i: int) {
    0 <= i && i + |t| <= |s| && s[i..i + |t|] == t
  }

  /** Occurrences in `s[1..]` are the occurrences in `s` past index 0,
      shifted by one. */
  lemma OccursInTail(s: string, t: string, i: nat)
    requires |s| > 0
    ensures OccursAt(s[1..], t, i) <==> OccursAt(s, t, i + 1)
  {
  }

  /** The declarative meaning of `Contains`: some window of `s` equals `t`. */
  lemma {:induction false} ContainsIffOccurs(s: string, t: string)
    ensures Contains(s, t) <==> exists i :: OccursAt(s, t, i)
    decreases |s|
  {
    if t <= s {
      assert OccursAt(s, t, 0);
    } else if |s| == 0 {
      forall i ensures !OccursAt(s, t, i) {}
    } else {
      ContainsIffOccurs(s[1..], t);
      if Contains(s[1..], t) {
        var i :| OccursAt(s[1..], t, i);
        OccursInTail(s, t, i);
      }
      if exists i :: OccursAt(s, t, i) {
        // Not at index 0, since `t` is no prefix of `s`.
        var i :| OccursAt(s, t, i);
        if i > 0 {
          OccursInTail(s, t, i - 1);
        }
      }
    }
  }

  /** A string in which the first character of `t` never appears cannot
      contain `t`. */
  lemma {:induction false} NotContainsWithoutHead(s: string, t: string)
    requires |t| > 0
    requires forall i :: 0 <= i < |s| ==> s[i] != t[0]
    ensures !Contains(s, t)
    decreases |s|
  {
    if |s| > 0 {
      assert s[0] != t[0];
      assert !(t <= s);
      assert forall i :: 0 <= i < |s[1..]| ==> s[1..][i] == s[i + 1];
      NotContainsWithoutHead(s[1..], t);
    }
  }

  /** A string shorter than `t` cannot contain it. */
  lemma {:induction false} NotContainsShorter(s: string, t: string)
    requires |s| < |t|
    ensures !Contains(s, t)
    decreases |s|
  {
    if |s| > 0 {
      NotContainsShorter(s[1..], t);
    }
  }

  /** Text placed before a substring does not hide it. */
  lemma {:induction false} ContainsAfterPrefix(p: string, s: string, t: string)
    requires Contains(s, t)
    ensures Contains(p + s, t)
    decreases |p|
  {
    if |p| > 0 {
      assert (p + s)[1..] == p[1..] + s;
      ContainsAfterPrefix(p[1..], s, t);
    } else {
      assert p + s == s;
    }
  }

  /** Text placed after a substring does not hide it. */
  lemma {:induction false} ContainsBeforeSuffix(s: string, q: string, t: string)
    requires Contains(s, t)
    ensures Contains(s + q, t)
    decreases |s|
  {
    if t <= s {
      assert t <= s + q;
    } else {
      assert (s + q)[1..] == s[1..] + q;
      ContainsBeforeSuffix(s[1..], q, t);
    }
  }

  /** Position of an outcome in the classifier's priority order (0 first). */
  function Rank(o: Outcome): nat {
    match o
    case Oom => 0
    case Unknown => 1
    case Timeout => 2
    case Safe => 3
    case Unsafe => 4
  }

  /** `s` contains at least one of the case-sensitive markers of `o`. */
  predicate Signals(s: string, o: Outcome) {
    match o
    case Oom => Contains(s, "KILL") || Contains(s, "OUT OF MEM")
    case Unknown => Contains(s, "unknown") || Contains(s, "EXCEPTION")
    case Timeout => Contains(s, "TIMEOUT")
    case Safe => Contains(s, "true")
    case Unsafe => Contains(s, "false")
  }

  /** `determine_answer`: tests the markers in csvlib.py's order. When none
      matches, csvlib.py prints the text and exits; the failure carries it. */
  function Classify(s: string): (r: Result<Outcome, string>)
    ensures r.Failure? ==> r.error == s
  {
    if Contains(s, "KILL") then Success(Oom)
    else if Contains(s, "OUT OF MEM") then Success(Oom)
    else if Contains(s, "unknown") || Contains(s, "EXCEPTION") then Success(Unknown)
    else if Contains(s, "TIMEOUT") then Success(Timeout)
    else if Contains(s, "true") then Success(Safe)
    else if Contains(s, "false") then Success(Unsafe)
    else Failure(s)
  }

  /** The classifier picks the highest-priority outcome one of whose markers
      occurs, and fails exactly when no marker of any outcome occurs. */
  lemma ClassifyPriority(s: string)
    ensures forall o :: Classify(s) == Success(o) <==>
      Signals(s, o) && forall o' :: Rank(o') < Rank(o) ==> !Signals(s, o')
    ensures Classify(s).Failure? <==> forall o :: !Signals(s, o)
  {
    if Contains(s, "KILL") || Contains(s, "OUT OF MEM") {
      assert Signals(s, Oom);
    } else if Contains(s, "unknown") || Contains(s, "EXCEPTION") {
      assert !Signals(s, Oom) && Signals(s, Unknown);
    } else if Contains(s, "TIMEOUT") {
      assert !Signals(s, Oom) && !Signals(s, Unknown) && Signals(s, Timeout);
    } else if Contains(s, "true") {
      assert !Signals(s, Oom) && !Signals(s, Unknown) && !Signals(s, Timeout) && Signals(s, Safe);
    } else if Contains(s, "false") {
      assert !Signals(s, Oom) && !Signals(s, Unknown) && !Signals(s, Timeout) && !Signals(s, Safe);
      assert Signals(s, Unsafe);
    }
  }

  /** An out-of-memory marker anywhere wins over every other marker: no text
      around it changes the classification. */
  lemma OomDominates(p: string, t: string, q: string)
    requires Contains(t, "KILL") || Contains(t, "OUT OF MEM")
    ensures Classify(p + t + q) == Success(Oom)
  {
    if Contains(t, "KILL") {
      ContainsAfterPrefix(p, t, "KILL");
      ContainsBeforeSuffix(p + t, q, "KILL");
    } else {
      ContainsAfterPrefix(p, t, "OUT OF MEM");
      ContainsBeforeSuffix(p + t, q, "OUT OF MEM");
    }
  }

  /** Matching is case-sensitive: upper-case verdicts match no marker. */
  lemma UpperCaseVerdictsUnclassified()
    ensures Classify("TRUE") == Failure("TRUE")
    ensures Classify("FALSE") == Failure("FALSE")
  {
    NotContainsWithoutHead("TRUE", "KILL");
    NotContainsShorter("TRUE", "OUT OF MEM");
    NotContainsShorter("TRUE", "unknown");
    NotContainsShorter("TRUE", "EXCEPTION");
    NotContainsShorter("TRUE", "TIMEOUT");
    NotContainsWithoutHead("TRUE", "true");
    NotContainsWithoutHead("TRUE", "false");
    NotContainsWithoutHead("FALSE", "KILL");
    NotContainsShorter("FALSE", "OUT OF MEM");
    NotContainsShorter("FALSE", "unknown");
    NotContainsShorter("FALSE", "EXCEPTION");
    NotContainsShorter("FALSE", "TIMEOUT");
    NotContainsWithoutHead("FALSE", "true");
    NotContainsWithoutHead("FALSE", "false");
  }

  /** Lower-case verdicts classify as SAFE and UNSAFE. */
  lemma LowerCaseVerdicts()
    ensures Classify("true") == Success(Safe)
    ensures Classify("false") == Success(Unsafe)
  {
    NotContainsWithoutHead("true", "KILL");
    NotContainsShorter("true", "OUT OF MEM");
    NotContainsShorter("true", "unknown");
    NotContainsShorter("true", "EXCEPTION");
    NotContainsShorter("true", "TIMEOUT");
    assert "true" <= "true";
    NotContainsWithoutHead("false", "KILL");
    NotContainsShorter("false", "OUT OF MEM");
    NotContainsShorter("false", "unknown");
    NotContainsShorter("false", "EXCEPTION");
    NotContainsShorter("false", "TIMEOUT");
    NotContainsWithoutHead("false", "true");
    assert "false" <= "false";
  }
}
