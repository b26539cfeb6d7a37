/** The chat relay's crisis detector (supabase/functions/Chat.ts): the
    keyword test `/suicide|self[- ]?harm|kill myself|end my life/i` run on the
    inbound message. */
module CrisisDetector {
  import opened Js

  const SUICIDE: string := "suicide"
  const SELF: string := "self"
  const HARM: string := "harm"
  const KILL_MYSELF: string := "kill myself"
  const END_MY_LIFE: string := "end my life"
  const HYPHEN: char := '-'
  const SPACE: char := ' '

  /** ASCII case folding. Without the `u` flag, the regex `i` flag compares
      upper-cased code units and never lets a non-ASCII unit fold onto an
      ASCII one; as every character of the pattern is ASCII, this folding
      decides exactly the same matches (and a surrogate unit never matches an
      ASCII one, so searching code points finds what searching units does). */
  function Fold(c: char): (f: char)
    ensures 'A' <= c <= 'Z' ==> f as int == c as int + 32
    ensures !('A' <= c <= 'Z') ==> f == c
  {
    if 'A' <= c <= 'Z' then (c as int + 32) as char else c
  }

  /** `p` occurs in `s` at position `i`, ignoring ASCII case. */
  predicate MatchesAt(s: string, i: int, p: string) {
    0 <= i && i + |p| <= |s| && forall k :: 0 <= k < |p| ==> Fold(s[i + k]) == Fold(p[k])
  }

  /** The phrases the pattern stands for, one per way it can match:
      `self[- ]?harm` is "selfharm", "self-harm" or "self harm". */
  function Phrases(): seq<string> {
    [SUICIDE, SELF + HARM, SELF + [HYPHEN] + HARM, SELF + [SPACE] + HARM, KILL_MYSELF, END_MY_LIFE]
  }

  /** Reference meaning of the detector: some phrase occurs somewhere in the
      message, ignoring case. */
  ghost predicate Mentions(s: string) {
    exists i, p :: p in Phrases() && MatchesAt(s, i, p)
  }

  predicate IsSeparator(c: char) {
    c == HYPHEN || c == SPACE
  }

  /** One attempt of the alternation anchored at position `i`, following the
      pattern's structure: the optional separator of the second branch is
      tried first and dropped if "harm" does not follow it. */
  predicate AlternationAt(s: string, i: nat) {
    var j := i + |SELF|;
    || MatchesAt(s, i, SUICIDE)
    || (MatchesAt(s, i, SELF)
        && ((j < |s| && IsSeparator(s[j]) && MatchesAt(s, j + 1, HARM)) || MatchesAt(s, j, HARM)))
    || MatchesAt(s, i, KILL_MYSELF)
    || MatchesAt(s, i, END_MY_LIFE)
  }

  lemma {:induction false} MatchesAtConcat(s: string, i: int, a: string, b: string)
    ensures MatchesAt(s, i, a + b) <==> MatchesAt(s, i, a) && MatchesAt(s, i + |a|, b)
  {
    if MatchesAt(s, i, a) && MatchesAt(s, i + |a|, b) {
      forall k | 0 <= k < |a + b|
        ensures Fold(s[i + k]) == Fold((a + b)[k])
      {
        if k >= |a| {
          assert (a + b)[k] == b[k - |a|];
          assert s[i + k] == s[(i + |a|) + (k - |a|)];
        }
      }
    }
    if MatchesAt(s, i, a + b) {
      forall k | 0 <= k < |b|
        ensures Fold(s[i + |a| + k]) == Fold(b[k])
      {
        assert (a + b)[|a| + k] == b[k];
        assert s[i + |a| + k] == s[i + (|a| + k)];
      }
      forall k | 0 <= k < |a|
        ensures Fold(s[i + k]) == Fold(a[k])
      {
        assert (a + b)[k] == a[k];
      }
    }
  }

  /** A single separator unit matches only itself: case folding leaves it alone. */
  lemma MatchesSeparator(s: string, j: int, sep: char)
    requires sep == HYPHEN || sep == SPACE
    ensures MatchesAt(s, j, [sep]) <==> 0 <= j < |s| && s[j] == sep
  {
    if 0 <= j < |s| {
      assert Fold([sep][0]) == sep;
    }
  }

  /** The branch `self[- ]?harm` matches at `i` exactly when one of its three
      spellings occurs there. */
  lemma {:induction false} SelfHarmBranch(s: string, i: nat)
    ensures var j := i + |SELF|;
            (MatchesAt(s, i, SELF)
             && ((j < |s| && IsSeparator(s[j]) && MatchesAt(s, j + 1, HARM)) || MatchesAt(s, j, HARM)))
            <==> (MatchesAt(s, i, SELF + HARM) || MatchesAt(s, i, SELF + [HYPHEN] + HARM)
                  || MatchesAt(s, i, SELF + [SPACE] + HARM))
  {
    var j := i + |SELF|;
    MatchesAtConcat(s, i, SELF, HARM);
    MatchesAtConcat(s, i, SELF + [HYPHEN], HARM);
    MatchesAtConcat(s, i, SELF, [HYPHEN]);
    MatchesAtConcat(s, i, SELF + [SPACE], HARM);
    MatchesAtConcat(s, i, SELF, [SPACE]);
    MatchesSeparator(s, j, HYPHEN);
    MatchesSeparator(s, j, SPACE);
    assert |SELF + [HYPHEN]| == j - i + 1 && |SELF + [SPACE]| == j - i + 1;
  }

  /** The regex-shaped attempt at `i` succeeds exactly when some phrase
      occurs at `i`. */
  lemma {:induction false} AlternationMeansPhrase(s: string, i: nat)
    ensures AlternationAt(s, i) <==> exists p :: p in Phrases() && MatchesAt(s, i, p)
  {
    SelfHarmBranch(s, i);
    var ps := Phrases();
    if AlternationAt(s, i) {
      if MatchesAt(s, i, SUICIDE) {
        assert ps[0] in ps;
      } else if MatchesAt(s, i, KILL_MYSELF) {
        assert ps[4] in ps;
      } else if MatchesAt(s, i, END_MY_LIFE) {
        assert ps[5] in ps;
      } else if MatchesAt(s, i, ps[1]) {
        assert ps[1] in ps;
      } else if MatchesAt(s, i, ps[2]) {
        assert ps[2] in ps;
      } else {
        assert ps[3] in ps;
      }
    }
  }

  /** The regex search: `test` tries the alternation at every position from
      `i` onwards. */
  function SearchFrom(s: string, i: nat): (r: bool)
    requires i <= |s|
    ensures r <==> exists j, p :: i <= j && p in Phrases() && MatchesAt(s, j, p)
    decreases |s| - i
  {
    AlternationMeansPhrase(s, i);
    if AlternationAt(s, i) then true
    else if i == |s| then
      assert forall p :: p in Phrases() ==> |p| > 0;
      false
    else SearchFrom(s, i + 1)
  }

  /** `/suicide|self[- ]?harm|kill myself|end my life/i.test(message)`. */
  function Detect(message: string): (r: bool)
    ensures r <==> Mentions(message)
  {
    SearchFrom(message, 0)
  }

  /** The pattern ignores letter case. */
  lemma CaseIgnoredExample()
    ensures Detect("to END MY LIFE")
  {
    assert MatchesAt("to END MY LIFE", 3, Phrases()[5]);
  }

  /** The pattern accepts "self harm" with a hyphen, or with no separator. */
  lemma SelfHarmSpellingsExample()
    ensures Detect("about Self-Harm")
    ensures Detect("selfharm")
  {
    assert MatchesAt("about Self-Harm", 6, Phrases()[2]);
    assert MatchesAt("selfharm", 0, Phrases()[1]);
  }

  /** Two adjacent characters that could start one of the phrases. */
  predicate IsOpening(a: char, b: char) {
    var (x, y) := (Fold(a), Fold(b));
    (x == 's' && (y == 'u' || y == 'e')) || (x == 'k' && y == 'i') || (x == 'e' && y == 'n')
  }

  /** No two adjacent characters of `s` from position `i` on could start a
      phrase; computable, so it can be evaluated on a given message. */
  predicate NoOpeningFrom(s: string, i: nat)
    decreases |s| - i
  {
    i + 1 >= |s| || (!IsOpening(s[i], s[i + 1]) && NoOpeningFrom(s, i + 1))
  }

  predicate NoOpening(s: string) {
    NoOpeningFrom(s, 0)
  }

  lemma {:induction false} NoOpeningAt(s: string, j: nat, i: nat)
    requires NoOpeningFrom(s, j) && j <= i && i + 1 < |s|
    ensures !IsOpening(s[i], s[i + 1])
    decreases i - j
  {
    if j < i {
      NoOpeningAt(s, j + 1, i);
    }
  }

  /** A message in which no phrase could even start mentions no phrase. */
  lemma {:induction false} NoOpeningMeansNoCrisis(s: string)
    requires NoOpening(s)
    ensures !Mentions(s)
  {
    forall i, p | p in Phrases() && MatchesAt(s, i, p)
      ensures false
    {
      assert |p| >= 2 && IsOpening(p[0], p[1]);
      assert Fold(s[i + 0]) == Fold(p[0]) && Fold(s[i + 1]) == Fold(p[1]);
      NoOpeningAt(s, 0, i);
    }
  }

  /** An ordinary message does not trigger the override. */
  lemma NotCrisisExample()
    ensures !Detect("I feel anxious today")
  {
    var m := "I feel anxious today";
    // unrolled three positions at a time, which keeps the evaluation of the
    // string literal cheap for the solver
    assert NoOpeningFrom(m, 18);
    assert NoOpeningFrom(m, 15);
    assert NoOpeningFrom(m, 12);
    assert NoOpeningFrom(m, 9);
    assert NoOpeningFrom(m, 6);
    assert NoOpeningFrom(m, 3);
    assert NoOpeningFrom(m, 0);
    NoOpeningMeansNoCrisis(m);
  }
}
