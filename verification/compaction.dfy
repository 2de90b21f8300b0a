/**
 * The compaction optimizer of `obfuscate` (scripts/js-obfuscator.js:1066-1130):
 * `makeShorter` hoists a repeated text into an alias assignment when that makes
 * the program shorter; a fixed first phase tries the texts of "toString",
 * "constructor" and "flat"; then a best-of-N search tries the cached character
 * texts in shuffled orders, every trial starting from the same snapshot.
 * The randomness of `Math.random` is a parameter: `rand(i, step)` is the draw
 * made at the `step`-th splice of the `i`-th trial.
 */
module Compaction {
  import opened Strings

  /** The optimizer's three variables: `presetCode`, `resultCode` and `variableNames`. */
  datatype State = State(preset: string, result: string, names: seq<string>)

  /** The alias assignment `<name>=<target>;`. */
  function Assignment(name: string, target: string): string {
    name + "=" + target + ";"
  }

  /** `makeShorter(target)` as a function of the optimizer state. */
  function Shorter(st: State, target: string): State {
    if st.names == [] then st
    else
      var replaced := ReplaceAll(st.result, target, st.names[0]);
      var assignment := Assignment(st.names[0], target);
      if |replaced| + |assignment| < |st.result| then State(st.preset + assignment, replaced, st.names[1..])
      else st
  }

  /** The combined length of the program the state stands for. */
  function Size(st: State): nat {
    |st.preset| + |st.result|
  }

  /**
   * `makeShorter` either changes nothing, or it commits: the assignment of the
   * first name to the target is appended to the preset, the target is replaced by
   * that name in the result, the name is used up, and the whole program, and the
   * result alone, get strictly shorter. It commits exactly when a name is left
   * and the replaced result plus the assignment is shorter than the old result.
   */
  lemma ShorterEffect(st: State, target: string)
    ensures Shorter(st, target) != st <==>
      st.names != [] &&
      |ReplaceAll(st.result, target, st.names[0])| + |Assignment(st.names[0], target)| < |st.result|
    ensures var r := Shorter(st, target);
      r == st ||
      (st.names != [] &&
       r.preset == st.preset + Assignment(st.names[0], target) &&
       r.result == ReplaceAll(st.result, target, st.names[0]) &&
       r.names == st.names[1..] &&
       Size(r) < Size(st) && |r.result| < |st.result|)
  {
  }

  /** With no names left, nothing happens. */
  lemma ShorterWithoutNames(st: State, target: string)
    requires st.names == []
    ensures Shorter(st, target) == st
  {
  }

  /** A target that does not occur in the result is never hoisted. */
  lemma ShorterAbsent(st: State, target: string)
    requires |target| > 0 && !Contains(st.result, target)
    ensures Shorter(st, target) == st
  {
    if st.names != [] {
      ReplaceAllAbsent(st.result, target, st.names[0]);
    }
  }

  /** A hoisting that changes the state only happens where the target occurs in the code. */
  lemma ShorterCommitsOnOccurrence(st: State, target: string)
    requires |target| > 0 && Shorter(st, target) != st
    ensures Contains(st.result, target)
  {
    if !Contains(st.result, target) {
      ShorterAbsent(st, target);
    }
  }

  /** The first phase: `makeShorter` on the texts of "toString", "constructor" and "flat", in that order. */
  function Phase1(st: State, toStringText: string, constructorText: string, flatText: string): State {
    Shorter(Shorter(Shorter(st, toStringText), constructorText), flatText)
  }

  /** One trial: `makeShorter` on each text in turn. */
  function Trial(st: State, texts: seq<string>): State {
    if texts == [] then st else Shorter(Trial(st, texts[..|texts| - 1]), texts[|texts| - 1])
  }

  predicate IsSuffix(a: seq<string>, b: seq<string>) {
    |a| <= |b| && a == b[|b| - |a|..]
  }

  /** A trial never makes the program or the result longer, and only uses up names. */
  lemma {:induction false} TrialShrinks(st: State, texts: seq<string>)
    ensures Size(Trial(st, texts)) <= Size(st)
    ensures |Trial(st, texts).result| <= |st.result|
    ensures IsSuffix(Trial(st, texts).names, st.names)
  {
    if texts != [] {
      TrialShrinks(st, texts[..|texts| - 1]);
      ShorterEffect(Trial(st, texts[..|texts| - 1]), texts[|texts| - 1]);
    }
  }

  /**
   * The first phase is the trial of the three property-name texts, so it too
   * never makes the program or the result longer and only uses up names.
   */
  lemma Phase1Shrinks(st: State, toStringText: string, constructorText: string, flatText: string)
    ensures Phase1(st, toStringText, constructorText, flatText) == Trial(st, [toStringText, constructorText, flatText])
    ensures var r := Phase1(st, toStringText, constructorText, flatText);
      Size(r) <= Size(st) && |r.result| <= |st.result| && IsSuffix(r.names, st.names)
  {
    var texts := [toStringText, constructorText, flatText];
    assert [toStringText][..0] == [];
    assert Trial(st, [toStringText]) == Shorter(st, toStringText);
    assert [toStringText, constructorText][..1] == [toStringText];
    assert Trial(st, [toStringText, constructorText]) == Shorter(Shorter(st, toStringText), constructorText);
    assert texts[..2] == [toStringText, constructorText];
    TrialShrinks(st, texts);
  }

  /**
   * The order a splice loop draws elements in: at each step the element at the
   * drawn index (taken modulo the number left) is removed and appended.
   */
  function Shuffle(cands: seq<string>, rand: (nat, nat) -> nat, i: nat, step: nat): (r: seq<string>)
    ensures |r| == |cands|
    decreases |cands|
  {
    if cands == [] then []
    else
      var k := rand(i, step) % |cands|;
      [cands[k]] + Shuffle(cands[..k] + cands[k + 1..], rand, i, step + 1)
  }

  /** Shuffling only reorders. */
  lemma {:induction false} ShufflePermutes(cands: seq<string>, rand: (nat, nat) -> nat, i: nat, step: nat)
    ensures multiset(Shuffle(cands, rand, i, step)) == multiset(cands)
    decreases |cands|
  {
    if cands != [] {
      var k := rand(i, step) % |cands|;
      var rest := cands[..k] + cands[k + 1..];
      ShufflePermutes(rest, rand, i, step + 1);
      assert cands == cands[..k] + [cands[k]] + cands[k + 1..];
    }
  }

  /** The state the `i`-th trial ends in. */
  function TrialOutcome(snapshot: State, cands: seq<string>, rand: (nat, nat) -> nat, i: nat): State {
    Trial(snapshot, Shuffle(cands, rand, i, 0))
  }

  /**
   * Which trial the search keeps after `n` trials: -1 for the snapshot itself,
   * otherwise the index of the trial; a later trial replaces the kept one only
   * when its result is strictly shorter.
   */
  function Best(snapshot: State, cands: seq<string>, rand: (nat, nat) -> nat, n: nat): int {
    if n == 0 then -1
    else
      var k := Best(snapshot, cands, rand, n - 1);
      if |Kept(snapshot, cands, rand, k).result| > |TrialOutcome(snapshot, cands, rand, n - 1).result| then n - 1 else k
  }

  /** The state of trial `k`, the snapshot for -1. */
  function Kept(snapshot: State, cands: seq<string>, rand: (nat, nat) -> nat, k: int): State {
    if k < 0 then snapshot else TrialOutcome(snapshot, cands, rand, k)
  }

  /** `minPresetCode + minResultCode` after `n` trials. */
  function SearchOutput(snapshot: State, cands: seq<string>, rand: (nat, nat) -> nat, n: nat): string {
    var best := Kept(snapshot, cands, rand, Best(snapshot, cands, rand, n));
    best.preset + best.result
  }

  /**
   * The kept trial has the shortest result of the snapshot and all `n` trials,
   * and every earlier candidate (the snapshot first) is strictly longer: the
   * earliest of the shortest wins.
   */
  lemma {:induction false} BestIsEarliestShortest(snapshot: State, cands: seq<string>, rand: (nat, nat) -> nat, n: nat)
    ensures -1 <= Best(snapshot, cands, rand, n) < n
    ensures forall j :: -1 <= j < n ==>
      |Kept(snapshot, cands, rand, Best(snapshot, cands, rand, n)).result| <= |Kept(snapshot, cands, rand, j).result|
    ensures forall j :: -1 <= j < Best(snapshot, cands, rand, n) ==>
      |Kept(snapshot, cands, rand, j).result| > |Kept(snapshot, cands, rand, Best(snapshot, cands, rand, n)).result|
  {
    if n > 0 {
      BestIsEarliestShortest(snapshot, cands, rand, n - 1);
    }
  }

  /** The kept result is never longer than the snapshot's, nor than any trial's. */
  lemma SearchNotLonger(snapshot: State, cands: seq<string>, rand: (nat, nat) -> nat, n: nat)
    ensures |Kept(snapshot, cands, rand, Best(snapshot, cands, rand, n)).result| <= |snapshot.result|
    ensures forall i :: 0 <= i < n ==>
      |Kept(snapshot, cands, rand, Best(snapshot, cands, rand, n)).result| <= |TrialOutcome(snapshot, cands, rand, i).result|
  {
    BestIsEarliestShortest(snapshot, cands, rand, n);
    assert Kept(snapshot, cands, rand, -1) == snapshot;
    forall i | 0 <= i < n
      ensures |Kept(snapshot, cands, rand, Best(snapshot, cands, rand, n)).result| <= |TrialOutcome(snapshot, cands, rand, i).result|
    {
      assert Kept(snapshot, cands, rand, i) == TrialOutcome(snapshot, cands, rand, i);
    }
  }

  /** Whichever state is kept, the whole output is no longer than the snapshot's program. */
  lemma SearchOutputNotLonger(snapshot: State, cands: seq<string>, rand: (nat, nat) -> nat, n: nat)
    ensures |SearchOutput(snapshot, cands, rand, n)| <= Size(snapshot)
  {
    var k := Best(snapshot, cands, rand, n);
    if k >= 0 {
      TrialShrinks(snapshot, Shuffle(cands, rand, k, 0));
    }
  }

  /** With no trials, the output is the snapshot. */
  lemma SearchWithoutTrials(snapshot: State, cands: seq<string>, rand: (nat, nat) -> nat)
    ensures SearchOutput(snapshot, cands, rand, 0) == snapshot.preset + snapshot.result
  {
  }

  /** The optimizer's mutable variables, updated in place by `makeShorter`. */
  class Compactor {
    var presetCode: string
    var resultCode: string
    var variableNames: seq<string>

    function Current(): State
      reads this
    {
      State(presetCode, resultCode, variableNames)
    }

    constructor (resultCode: string, variableNames: seq<string>)
      ensures Current() == State("", resultCode, variableNames)
    {
      presetCode := "";
      this.resultCode := resultCode;
      this.variableNames := variableNames;
    }

    /** `makeShorter(target)`. */
    method MakeShorter(target: string)
      modifies this
      ensures Current() == Shorter(old(Current()), target)
    {
      if |variableNames| == 0 {
        return;
      }
      var variableCode := variableNames[0] + "=" + target + ";";
      var replaceCode := ReplaceAll(resultCode, target, variableNames[0]);
      if |replaceCode| + |variableCode| < |resultCode| {
        presetCode := presetCode + variableCode;
        resultCode := replaceCode;
        variableNames := variableNames[1..];
      }
    }

    /** Restores the variables from a snapshot, as the search does after every trial. */
    method Restore(snapshot: State)
      modifies this
      ensures Current() == snapshot
    {
      presetCode := snapshot.preset;
      resultCode := snapshot.result;
      variableNames := snapshot.names;
    }

    /** `shuffle.forEach(makeShorter)`. */
    method RunTrial(texts: seq<string>)
      modifies this
      ensures Current() == Trial(old(Current()), texts)
    {
      var j := 0;
      while j < |texts|
        invariant 0 <= j <= |texts|
        invariant Current() == Trial(old(Current()), texts[..j])
      {
        MakeShorter(texts[j]);
        assert texts[..j + 1][..j] == texts[..j];
        j := j + 1;
      }
      assert texts[..j] == texts;
    }
  }

  /** The splice loop of the search: draws every candidate once, in the order `Shuffle` describes. */
  method ShuffleCandidates(cands: seq<string>, rand: (nat, nat) -> nat, i: nat) returns (shuffle: seq<string>)
    ensures shuffle == Shuffle(cands, rand, i, 0)
    ensures multiset(shuffle) == multiset(cands)
  {
    var candidates := cands;
    shuffle := [];
    var step := 0;
    while |candidates| > 0
      invariant shuffle + Shuffle(candidates, rand, i, step) == Shuffle(cands, rand, i, 0)
      decreases |candidates|
    {
      var k := rand(i, step) % |candidates|;
      var chosen := candidates[k];
      ghost var before := candidates;
      candidates := candidates[..k] + candidates[k + 1..];
      assert Shuffle(before, rand, i, step) == [chosen] + Shuffle(candidates, rand, i, step + 1);
      shuffle := shuffle + [chosen];
      step := step + 1;
    }
    ShufflePermutes(cands, rand, i, 0);
  }

  /** One iteration of the search: a trial from the snapshot, kept when its result is strictly shorter. */
  method SearchStep(c: Compactor, cands: seq<string>, rand: (nat, nat) -> nat, i: nat, kept: State)
    returns (best: State)
    modifies c
    requires kept == Kept(c.Current(), cands, rand, Best(c.Current(), cands, rand, i))
    ensures c.Current() == old(c.Current())
    ensures best == Kept(c.Current(), cands, rand, Best(c.Current(), cands, rand, i + 1))
  {
    var snapshot := c.Current();
    var shuffle := ShuffleCandidates(cands, rand, i);
    c.RunTrial(shuffle);
    best := kept;
    if |kept.result| > |c.resultCode| {
      best := c.Current();
    }
    c.Restore(snapshot);
  }

  /**
   * The best-of-N search from the snapshot the compactor holds: every trial starts
   * from that snapshot, and the output is the kept trial's preset and result.
   */
  method Search(c: Compactor, cands: seq<string>, rand: (nat, nat) -> nat, iterationCount: int) returns (out: string)
    modifies c
    ensures out == SearchOutput(old(c.Current()), cands, rand, if iterationCount < 0 then 0 else iterationCount)
    ensures c.Current() == old(c.Current())
  {
    var snapshot := c.Current();
    var best := snapshot;
    var i := 0;
    while i < iterationCount
      invariant 0 <= i <= if iterationCount < 0 then 0 else iterationCount
      invariant c.Current() == snapshot
      invariant best == Kept(snapshot, cands, rand, Best(snapshot, cands, rand, i))
    {
      best := SearchStep(c, cands, rand, i, best);
      i := i + 1;
    }
    out := best.preset + best.result;
  }
}
