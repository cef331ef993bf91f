/**
 Chains of builder setter calls, taken as values: which text each field ends
 up with after a sequence of `setCPU` / `setGPU` / `setRAM` calls, and why the
 order of calls on distinct fields does not matter.
 */
module Chains {
  import opened Computers

  /** The configuration after the setter calls `ss`, applied from first to last, starting from `c`. */
  function ApplyAll(c: Config, ss: seq<Setting>): Config
    decreases |ss|
  {
    if ss == [] then c else ApplyAll(c, ss[..|ss| - 1]).Set(ss[|ss| - 1])
  }

  /** Each part is set at most once in `ss`. */
  predicate DistinctParts(ss: seq<Setting>)
  {
    forall i, j | 0 <= i < j < |ss| :: ss[i].part != ss[j].part
  }

  /** No call in `ss` names part `p`. */
  predicate Untouched(ss: seq<Setting>, p: Part)
  {
    forall i | 0 <= i < |ss| :: ss[i].part != p
  }

  /** Call `i` of `ss` is the last one that names part `p`. */
  predicate IsLastWrite(ss: seq<Setting>, p: Part, i: int)
  {
    0 <= i < |ss| && ss[i].part == p && forall j | i < j < |ss| :: ss[j].part != p
  }

  /**
   Last write wins: a part never named in `ss` keeps its starting value, and a
   part named in `ss` holds the argument of the last call that names it.
   */
  lemma {:induction false} LastWriteWins(c: Config, ss: seq<Setting>, p: Part)
    ensures Untouched(ss, p) ==> ApplyAll(c, ss).Get(p) == c.Get(p)
    ensures forall i | IsLastWrite(ss, p, i) :: ApplyAll(c, ss).Get(p) == ss[i].value
    decreases |ss|
  {
    if ss != [] {
      var n := |ss| - 1;
      var init := ss[..n];
      LastWriteWins(c, init, p);
      if ss[n].part == p {
        assert ApplyAll(c, ss).Get(p) == ss[n].value;
        forall i | IsLastWrite(ss, p, i) ensures i == n {
        }
      } else {
        assert ApplyAll(c, ss).Get(p) == ApplyAll(c, init).Get(p);
        if Untouched(ss, p) {
          assert Untouched(init, p);
        }
        forall i | IsLastWrite(ss, p, i) ensures IsLastWrite(init, p, i) {
        }
      }
    }
  }

  /** Two configurations that agree on every part are equal. */
  lemma SameParts(x: Config, y: Config)
    requires forall p :: x.Get(p) == y.Get(p)
    ensures x == y
  {
    assert x.Get(Cpu) == y.Get(Cpu) && x.Get(Gpu) == y.Get(Gpu) && x.Get(Ram) == y.Get(Ram);
  }

  /** With each part set at most once, no call occurs twice. */
  lemma {:induction false} AtMostOnce(ss: seq<Setting>, x: Setting)
    requires DistinctParts(ss)
    ensures multiset(ss)[x] <= 1
    decreases |ss|
  {
    if ss != [] {
      var n := |ss| - 1;
      assert ss == ss[..n] + [ss[n]];
      AtMostOnce(ss[..n], x);
      assert ss[n] == x ==> x !in ss[..n];
    }
  }

  /** A call that occurs at most once in `s` is found at one index only. */
  lemma OccursOnce(s: seq<Setting>, i: int, j: int)
    requires 0 <= i < j < |s|
    requires multiset(s)[s[i]] <= 1
    ensures s[i] != s[j]
  {
    assert s == s[..j] + [s[j]] + s[j + 1..];
    assert s[i] in s[..j];
    assert multiset(s)[s[i]] == multiset(s[..j])[s[i]] + multiset([s[j]])[s[i]] + multiset(s[j + 1..])[s[i]];
  }

  /** Reordering calls that set each part at most once again sets each part at most once. */
  lemma DistinctUnderPermutation(ss: seq<Setting>, tt: seq<Setting>)
    requires multiset(ss) == multiset(tt)
    requires DistinctParts(ss)
    ensures DistinctParts(tt)
  {
    forall i, j | 0 <= i < j < |tt| ensures tt[i].part != tt[j].part {
      AtMostOnce(ss, tt[i]);
      OccursOnce(tt, i, j);
      assert tt[i] in multiset(ss) && tt[j] in multiset(ss);
      var i' :| 0 <= i' < |ss| && ss[i'] == tt[i];
      var j' :| 0 <= j' < |ss| && ss[j'] == tt[j];
      assert i' != j';
      assert i' < j' || j' < i';
    }
  }

  /** One part under two orderings of the same calls, each part set at most once. */
  lemma SamePartUnderPermutation(c: Config, ss: seq<Setting>, tt: seq<Setting>, p: Part)
    requires multiset(ss) == multiset(tt)
    requires DistinctParts(ss)
    ensures ApplyAll(c, ss).Get(p) == ApplyAll(c, tt).Get(p)
  {
    DistinctUnderPermutation(ss, tt);
    LastWriteWins(c, ss, p);
    LastWriteWins(c, tt, p);
    if i :| 0 <= i < |ss| && ss[i].part == p {
      assert ss[i] in multiset(tt);
      var j :| 0 <= j < |tt| && tt[j] == ss[i];
      assert IsLastWrite(ss, p, i) && IsLastWrite(tt, p, j);
    } else {
      forall j | 0 <= j < |tt| ensures tt[j].part != p {
        assert tt[j] in multiset(ss);
      }
    }
  }

  /**
   Setter calls on distinct parts commute: any reordering of the same calls,
   each part set at most once, yields the same configuration.
   */
  lemma PermutationInvariant(c: Config, ss: seq<Setting>, tt: seq<Setting>)
    requires multiset(ss) == multiset(tt)
    requires DistinctParts(ss)
    ensures ApplyAll(c, ss) == ApplyAll(c, tt)
    ensures ApplyAll(c, ss).Render() == ApplyAll(c, tt).Render()
  {
    forall p ensures ApplyAll(c, ss).Get(p) == ApplyAll(c, tt).Get(p) {
      SamePartUnderPermutation(c, ss, tt, p);
    }
    SameParts(ApplyAll(c, ss), ApplyAll(c, tt));
  }
}
