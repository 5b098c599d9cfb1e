/** The finer validation stages, and why passing one of them implies passing the single pass. */
module Stages {
  import opened Wrappers
  import opened Validation

  // ---- chronological order ----

  predicate Timed(samples: seq<Sample>) {
    forall i :: 0 <= i < |samples| ==> samples[i].at.Some?
  }

  predicate Chronological(samples: seq<Sample>)
    requires Timed(samples)
  {
    forall i, j :: 0 <= i < j < |samples| ==> samples[i].at.value <= samples[j].at.value
  }

  /** Put a sample behind every sample that is not later than it. */
  function Placed(sorted: seq<Sample>, s: Sample): (r: seq<Sample>)
    requires Timed(sorted) && s.at.Some?
    ensures Timed(r) && |r| == |sorted| + 1
  {
    if sorted == [] || sorted[|sorted| - 1].at.value <= s.at.value then sorted + [s]
    else Placed(sorted[..|sorted| - 1], s) + [sorted[|sorted| - 1]]
  }

  /** The stable ascending sort by time. */
  function ByTime(samples: seq<Sample>): (r: seq<Sample>)
    requires Timed(samples)
    ensures Timed(r) && |r| == |samples|
  {
    if samples == [] then [] else Placed(ByTime(samples[..|samples| - 1]), samples[|samples| - 1])
  }

  lemma {:induction false} PlacedKeeps(sorted: seq<Sample>, s: Sample)
    requires Timed(sorted) && s.at.Some?
    ensures multiset(Placed(sorted, s)) == multiset(sorted) + multiset{s}
  {
    if sorted != [] && sorted[|sorted| - 1].at.value > s.at.value {
      var front, last := sorted[..|sorted| - 1], sorted[|sorted| - 1];
      PlacedKeeps(front, s);
      assert sorted == front + [last];
    }
  }

  lemma {:induction false} PlacedSorts(sorted: seq<Sample>, s: Sample)
    requires Timed(sorted) && s.at.Some? && Chronological(sorted)
    ensures Chronological(Placed(sorted, s))
  {
    if sorted != [] && sorted[|sorted| - 1].at.value > s.at.value {
      var front, last := sorted[..|sorted| - 1], sorted[|sorted| - 1];
      PlacedSorts(front, s);
      PlacedKeeps(front, s);
      var placed := Placed(front, s);
      forall i | 0 <= i < |placed|
        ensures placed[i].at.value <= last.at.value
      {
        assert placed[i] in multiset(front) + multiset{s};
        if placed[i] != s {
          assert placed[i] in front;
        }
      }
    }
  }

  lemma {:induction false} ByTimeSorts(samples: seq<Sample>)
    requires Timed(samples)
    ensures Chronological(ByTime(samples)) && multiset(ByTime(samples)) == multiset(samples)
  {
    if samples != [] {
      var front, s := samples[..|samples| - 1], samples[|samples| - 1];
      ByTimeSorts(front);
      PlacedSorts(ByTime(front), s);
      PlacedKeeps(ByTime(front), s);
      assert samples == front + [s];
    }
  }

  /** The samples of one moment, in the order they come. */
  function Moment(samples: seq<Sample>, at: int): seq<Sample> {
    if samples == [] then []
    else Moment(samples[..|samples| - 1], at) + (if samples[|samples| - 1].at == Some(at) then [samples[|samples| - 1]] else [])
  }

  lemma MomentSnoc(samples: seq<Sample>, s: Sample, at: int)
    ensures Moment(samples + [s], at) == Moment(samples, at) + (if s.at == Some(at) then [s] else [])
  {
  }

  lemma {:induction false} PlacedIsStable(sorted: seq<Sample>, s: Sample, at: int)
    requires Timed(sorted) && s.at.Some? && Chronological(sorted)
    ensures Moment(Placed(sorted, s), at) == Moment(sorted, at) + (if s.at == Some(at) then [s] else [])
  {
    if sorted == [] || sorted[|sorted| - 1].at.value <= s.at.value {
      MomentSnoc(sorted, s, at);
    } else {
      var front, last := sorted[..|sorted| - 1], sorted[|sorted| - 1];
      PlacedIsStable(front, s, at);
      MomentSnoc(Placed(front, s), last, at);
      if s.at == Some(at) {
        assert last.at != Some(at);
      }
    }
  }

  /** Samples of the same moment keep their order. */
  lemma {:induction false} ByTimeIsStable(samples: seq<Sample>, at: int)
    requires Timed(samples)
    ensures Moment(ByTime(samples), at) == Moment(samples, at)
  {
    if samples != [] {
      var front, s := samples[..|samples| - 1], samples[|samples| - 1];
      ByTimeIsStable(front, at);
      ByTimeSorts(front);
      PlacedIsStable(ByTime(front), s, at);
    }
  }

  // ---- folds ----

  function Base(n: nat, k: nat): nat
    requires k > 0
  {
    n / k
  }

  function Extra(n: nat, k: nat): nat
    requires k > 0
  {
    n % k
  }

  /** Where fold i starts: the first n mod k folds have one sample more. */
  function Start(n: nat, k: nat, i: nat): nat
    requires k > 0
  {
    i * Base(n, k) + (if i < Extra(n, k) then i else Extra(n, k))
  }

  lemma StartSteps(n: nat, k: nat, i: nat)
    requires k > 0 && i < k
    ensures Start(n, k, i + 1) == Start(n, k, i) + Base(n, k) + (if i < Extra(n, k) then 1 else 0)
    ensures Start(n, k, 0) == 0 && Start(n, k, k) == n
  {
    assert (i + 1) * (n / k) == i * (n / k) + n / k;
    assert k * (n / k) + n % k == n;
  }

  lemma {:induction false} StartGrows(n: nat, k: nat, i: nat, j: nat)
    requires k > 0 && i <= j <= k
    ensures Start(n, k, i) <= Start(n, k, j) <= n
    decreases k - i
  {
    hide Start, Base, Extra;
    StartSteps(n, k, 0);
    if i < j {
      StartSteps(n, k, i);
      StartGrows(n, k, i + 1, j);
    } else if j < k {
      StartSteps(n, k, j);
      StartGrows(n, k, j + 1, k);
    }
  }

  lemma BaseIsPositive(n: nat, k: nat)
    requires 0 < k <= n
    ensures Base(n, k) >= 1
  {
  }

  lemma FoldSize(n: nat, k: nat, i: nat)
    requires i < k
    ensures Start(n, k, i) <= Start(n, k, i + 1) <= n
    ensures Base(n, k) <= Start(n, k, i + 1) - Start(n, k, i) <= Base(n, k) + 1
    ensures n >= k ==> Start(n, k, i) < Start(n, k, i + 1)
  {
    hide Start, Base, Extra;
    StartSteps(n, k, i);
    StartGrows(n, k, i + 1, k);
    if n >= k { BaseIsPositive(n, k); }
  }

  /** Contiguous ranges from the first sample to the last, their sizes at most one apart, the larger ones first. */
  method FoldBoundaries(n: nat, k: nat) returns (b: seq<(nat, nat)>)
    requires k > 0
    ensures |b| == k && b[0].0 == 0 && b[k - 1].1 == n
    ensures forall i :: 0 <= i < k ==> b[i] == (Start(n, k, i), Start(n, k, i + 1))
    ensures forall i :: 0 <= i < k ==> b[i].0 <= b[i].1 <= n && Base(n, k) <= b[i].1 - b[i].0 <= Base(n, k) + 1
    ensures forall i :: 0 <= i < k - 1 ==> b[i].1 == b[i + 1].0
    ensures forall i, j :: 0 <= i < j < k ==> b[i].1 - b[i].0 >= b[j].1 - b[j].0
    ensures n >= k ==> forall i :: 0 <= i < k ==> b[i].0 < b[i].1
  {
    hide Start, Base, Extra;
    var base, remainder := Base(n, k), Extra(n, k);
    var start := 0;
    b := [];
    StartSteps(n, k, 0);
    for i := 0 to k
      invariant |b| == i && start == Start(n, k, i)
      invariant forall j :: 0 <= j < i ==> b[j] == (Start(n, k, j), Start(n, k, j + 1))
      invariant i > 0 ==> b[i - 1].1 == start
      invariant forall j :: 0 <= j < i - 1 ==> b[j].1 == b[j + 1].0
    {
      StartSteps(n, k, i);
      var size := base + (if i < remainder then 1 else 0);
      b := b + [(start, start + size)];
      start := start + size;
    }
    forall i | 0 <= i < k
      ensures b[i].0 <= b[i].1 <= n && base <= b[i].1 - b[i].0 <= base + 1 && (n >= k ==> b[i].0 < b[i].1)
    {
      FoldSize(n, k, i);
    }
    forall i, j | 0 <= i < j < k
      ensures b[i].1 - b[i].0 >= b[j].1 - b[j].0
    {
      StartSteps(n, k, i);
      StartSteps(n, k, j);
    }
  }

  // ---- walk-forward ----

  function Fold(samples: seq<Sample>, k: nat, i: nat): seq<Sample>
    requires k > 0 && i < k
  {
    StartGrows(|samples|, k, i, i + 1);
    samples[Start(|samples|, k, i)..Start(|samples|, k, i + 1)]
  }

  lemma {:induction false} FoldsAddUp(evaluate: Evaluate, samples: seq<Sample>, k: nat, i: nat)
    requires 0 < i <= k
    ensures Start(|samples|, k, i) <= |samples|
    ensures i == 1 ==> samples[..Start(|samples|, k, i)] == Fold(samples, k, 0)
    ensures i > 1 ==> Start(|samples|, k, i - 1) <= |samples|
                      && Count(evaluate, samples[..Start(|samples|, k, i)])
                      == Plus(Count(evaluate, samples[..Start(|samples|, k, i - 1)]), Count(evaluate, Fold(samples, k, i - 1)))
  {
    StartGrows(|samples|, k, i, k);
    StartGrows(|samples|, k, i - 1, i);
    StartSteps(|samples|, k, 0);
    if i > 1 {
      var left, fold := samples[..Start(|samples|, k, i - 1)], Fold(samples, k, i - 1);
      assert samples[..Start(|samples|, k, i)] == left + fold;
      CountAdds(evaluate, left, fold);
    }
  }

  ghost predicate FoldsPass(evaluate: Evaluate, criteria: seq<Criterion>, samples: seq<Sample>, k: nat)
    requires k > 0
  {
    forall i :: 0 <= i < k ==> Passes(criteria, Count(evaluate, Fold(samples, k, i)))
  }

  lemma {:induction false} FirstFoldsPass(evaluate: Evaluate, criteria: seq<Criterion>, samples: seq<Sample>, k: nat, i: nat)
    requires 0 < i <= k && FoldsPass(evaluate, criteria, samples, k)
    ensures Start(|samples|, k, i) <= |samples|
    ensures Passes(criteria, Count(evaluate, samples[..Start(|samples|, k, i)]))
  {
    FoldsAddUp(evaluate, samples, k, i);
    assert Passes(criteria, Count(evaluate, Fold(samples, k, i - 1)));
    if i > 1 {
      FirstFoldsPass(evaluate, criteria, samples, k, i - 1);
      PassingAdds(criteria, Count(evaluate, samples[..Start(|samples|, k, i - 1)]), Count(evaluate, Fold(samples, k, i - 1)));
    }
  }

  lemma FoldsPassTogether(evaluate: Evaluate, criteria: seq<Criterion>, samples: seq<Sample>, k: nat)
    requires k > 0 && FoldsPass(evaluate, criteria, samples, k)
    ensures Passes(criteria, Count(evaluate, samples))
  {
    FirstFoldsPass(evaluate, criteria, samples, k, k);
    StartSteps(|samples|, k, 0);
    assert samples[..|samples|] == samples;
  }

  datatype WalkForward = WalkForward(folds: seq<Verdict>, spread: Option<real>, passed: bool)

  function Rates(folds: seq<Verdict>): seq<real> {
    if folds == [] then []
    else Rates(folds[..|folds| - 1]) + (if folds[|folds| - 1].rate.Some? then [folds[|folds| - 1].rate.value] else [])
  }

  function Highest(xs: seq<real>): (m: real)
    requires xs != []
    ensures m in xs && forall x :: x in xs ==> x <= m
  {
    if |xs| == 1 then xs[0]
    else
      var m, x := Highest(xs[..|xs| - 1]), xs[|xs| - 1];
      assert xs == xs[..|xs| - 1] + [x];
      if x > m then x else m
  }

  function Lowest(xs: seq<real>): (m: real)
    requires xs != []
    ensures m in xs && forall x :: x in xs ==> m <= x
  {
    if |xs| == 1 then xs[0]
    else
      var m, x := Lowest(xs[..|xs| - 1]), xs[|xs| - 1];
      assert xs == xs[..|xs| - 1] + [x];
      if x < m then x else m
  }

  function Spread(folds: seq<Verdict>): Option<real> {
    if |Rates(folds)| >= 2 then Some(Highest(Rates(folds)) - Lowest(Rates(folds))) else None
  }

  method AllTimed(samples: seq<Sample>) returns (timed: bool)
    ensures timed <==> Timed(samples)
  {
    var i := 0;
    while i < |samples|
      invariant 0 <= i <= |samples|
      invariant forall j :: 0 <= j < i ==> samples[j].at.Some?
    {
      if samples[i].at.None? { return false; }
      i := i + 1;
    }
    return true;
  }

  ghost predicate AllWellFormed(criteria: seq<Criterion>) {
    forall i :: 0 <= i < |criteria| ==> WellFormed(criteria[i])
  }

  /** The verdicts of the first folds, and whether all of them passed. */
  ghost predicate Scored(evaluate: Evaluate, criteria: seq<Criterion>, sorted: seq<Sample>, k: nat, folds: seq<Verdict>, passed: bool)
    requires k > 0
  {
    && |folds| <= k
    && (forall i :: 0 <= i < |folds| ==> Ok(folds[i]) == Validate(evaluate, criteria, Fold(sorted, k, i)))
    && (passed <==> forall i :: 0 <= i < |folds| ==> Passes(criteria, Count(evaluate, Fold(sorted, k, i))))
  }

  lemma ScoredMore(evaluate: Evaluate, criteria: seq<Criterion>, sorted: seq<Sample>, k: nat, folds: seq<Verdict>, passed: bool, v: Verdict)
    requires k > 0 && |folds| < k && Scored(evaluate, criteria, sorted, k, folds, passed)
    requires Ok(v) == Validate(evaluate, criteria, Fold(sorted, k, |folds|))
    ensures Scored(evaluate, criteria, sorted, k, folds + [v], passed && v.passed)
  {
    hide Fold, Count, Validate, Passes;
    PassedMeansPasses(evaluate, criteria, Fold(sorted, k, |folds|));
  }

  method ScoreFolds(evaluate: Evaluate, criteria: seq<Criterion>, sorted: seq<Sample>, k: nat)
    returns (r: Result<(seq<Verdict>, bool)>)
    requires 0 < k <= |sorted|
    ensures r.Ok? <==> AllWellFormed(criteria)
    ensures r.Ok? ==> |r.value.0| == k && Scored(evaluate, criteria, sorted, k, r.value.0, r.value.1)
  {
    hide Start, Validate, Passes, Count;
    var boundaries := FoldBoundaries(|sorted|, k);
    var folds: seq<Verdict>, passed := [], true;
    while |folds| < k
      invariant |folds| <= k && Scored(evaluate, criteria, sorted, k, folds, passed)
      invariant folds != [] ==> AllWellFormed(criteria)
      decreases k - |folds|
    {
      var fold := sorted[boundaries[|folds|].0..boundaries[|folds|].1];
      assert fold == Fold(sorted, k, |folds|) && fold != [];
      var verdict := RunValidation(evaluate, criteria, fold);
      if verdict.Err? { return Err(verdict.error); }
      ScoredMore(evaluate, criteria, sorted, k, folds, passed, verdict.value);
      folds, passed := folds + [verdict.value], passed && verdict.value.passed;
    }
    r := Ok((folds, passed));
  }

  /** Sorts by time, cuts into folds, and asks every fold to pass on its own. */
  method RunWalkForward(evaluate: Evaluate, criteria: seq<Criterion>, samples: seq<Sample>, k: int) returns (r: Result<WalkForward>)
    ensures r.Ok? <==> 0 < k <= |samples| && Timed(samples) && AllWellFormed(criteria)
    ensures !(0 < k <= |samples|) ==> r == Err(BadInput)
    ensures 0 < k <= |samples| && !Timed(samples) ==> r == Err(BadTimestamp)
    ensures r.Ok? ==>
      && |r.value.folds| == k && r.value.spread == Spread(r.value.folds)
      && Scored(evaluate, criteria, ByTime(samples), k, r.value.folds, r.value.passed)
      && (r.value.passed <==> FoldsPass(evaluate, criteria, ByTime(samples), k))
  {
    hide Fold, Count, Validate, Passes, Spread;
    if samples == [] || k <= 0 || k > |samples| { return Err(BadInput); }
    var timed := AllTimed(samples);
    if !timed { return Err(BadTimestamp); }
    var scores := ScoreFolds(evaluate, criteria, ByTime(samples), k);
    if scores.Err? { return Err(scores.error); }
    r := Ok(WalkForward(scores.value.0, Spread(scores.value.0), scores.value.1));
  }

  /**
   Walk-forward implies the single pass: for every number of folds, if every fold clears the
   criteria then all samples together do, in whatever order they are counted.
   */
  lemma WalkForwardImpliesSingle(evaluate: Evaluate, criteria: seq<Criterion>, samples: seq<Sample>, k: nat)
    requires 0 < k <= |samples| && Timed(samples) && FoldsPass(evaluate, criteria, ByTime(samples), k)
    requires AllWellFormed(criteria)
    ensures Validate(evaluate, criteria, samples).Ok? && Validate(evaluate, criteria, samples).value.passed
  {
    FoldsPassTogether(evaluate, criteria, ByTime(samples), k);
    ByTimeSorts(samples);
    CountIgnoresOrder(evaluate, ByTime(samples), samples);
    CheckAllIsTotal(criteria, Count(evaluate, samples));
    PassedMeansPasses(evaluate, criteria, samples);
  }

  // ---- regimes ----

  function Unstratified(samples: seq<Sample>): nat {
    if samples == [] then 0
    else Unstratified(samples[..|samples| - 1]) + (if samples[|samples| - 1].regime.None? then 1 else 0)
  }

  function Labels(samples: seq<Sample>): set<string> {
    set i | 0 <= i < |samples| && samples[i].regime.Some? :: samples[i].regime.value
  }

  /** The samples whose regime is among the labels, in their order. */
  function Within(samples: seq<Sample>, labels: set<string>): seq<Sample> {
    if samples == [] then []
    else
      var front, s := Within(samples[..|samples| - 1], labels), samples[|samples| - 1];
      if s.regime.Some? && s.regime.value in labels then front + [s] else front
  }

  function Group(samples: seq<Sample>, regime: string): seq<Sample> {
    Within(samples, {regime})
  }

  lemma {:induction false} GroupsAddUp(evaluate: Evaluate, samples: seq<Sample>, labels: set<string>, l: string)
    requires l in labels
    ensures Count(evaluate, Within(samples, labels))
         == Plus(Count(evaluate, Within(samples, labels - {l})), Count(evaluate, Within(samples, {l})))
    decreases |samples|
  {
    if samples == [] {
      hide *;
      NoGroups(evaluate, labels);
      NoGroups(evaluate, labels - {l});
      NoGroups(evaluate, {l});
      PlusNothing(Nothing);
    } else {
      hide *;
      var front, s := samples[..|samples| - 1], samples[|samples| - 1];
      GroupsAddUp(evaluate, front, labels, l);
      OneMoreInGroups(evaluate, front, s, labels, l);
      assert samples == front + [s];
    }
  }

  lemma NoGroups(evaluate: Evaluate, labels: set<string>)
    ensures Count(evaluate, Within([], labels)) == Nothing
  {
  }

  lemma OneMoreInGroups(evaluate: Evaluate, samples: seq<Sample>, s: Sample, labels: set<string>, l: string)
    requires l in labels
    requires Count(evaluate, Within(samples, labels))
          == Plus(Count(evaluate, Within(samples, labels - {l})), Count(evaluate, Within(samples, {l})))
    ensures Count(evaluate, Within(samples + [s], labels))
         == Plus(Count(evaluate, Within(samples + [s], labels - {l})), Count(evaluate, Within(samples + [s], {l})))
  {
    hide One, Count, Within, Plus;
    GroupSnoc(evaluate, samples, s, labels);
    GroupSnoc(evaluate, samples, s, labels - {l});
    GroupSnoc(evaluate, samples, s, {l});
    var rest, group, one := Count(evaluate, Within(samples, labels - {l})), Count(evaluate, Within(samples, {l})), One(evaluate, s);
    PlusAssociates(rest, group, one);
    PlusSwaps(rest, group, one);
  }

  lemma GroupSnoc(evaluate: Evaluate, samples: seq<Sample>, s: Sample, labels: set<string>)
    ensures Count(evaluate, Within(samples + [s], labels))
         == if s.regime.Some? && s.regime.value in labels then Plus(Count(evaluate, Within(samples, labels)), One(evaluate, s))
            else Count(evaluate, Within(samples, labels))
  {
    assert (samples + [s])[..|samples|] == samples;
    assert (Within(samples, labels) + [s])[..|Within(samples, labels)|] == Within(samples, labels);
  }

  lemma {:induction false} AllWithin(samples: seq<Sample>, labels: set<string>)
    requires Unstratified(samples) == 0 && Labels(samples) <= labels
    ensures Within(samples, labels) == samples
  {
    if samples != [] {
      var front, s := samples[..|samples| - 1], samples[|samples| - 1];
      assert samples[|samples| - 1].regime.value in Labels(samples);
      assert forall i :: 0 <= i < |front| ==> front[i] == samples[i];
      AllWithin(front, labels);
      assert samples == front + [s];
    }
  }

  ghost predicate RegimesPass(evaluate: Evaluate, criteria: seq<Criterion>, samples: seq<Sample>) {
    && Unstratified(samples) == 0 && Labels(samples) != {}
    && forall l :: l in Labels(samples) ==> Passes(criteria, Count(evaluate, Group(samples, l)))
  }

  lemma {:induction false} SomeGroupsPass(evaluate: Evaluate, criteria: seq<Criterion>, samples: seq<Sample>, labels: set<string>)
    requires labels != {} && forall l :: l in labels ==> Passes(criteria, Count(evaluate, Group(samples, l)))
    ensures Passes(criteria, Count(evaluate, Within(samples, labels)))
  {
    var l :| l in labels;
    if labels == {l} {
    } else {
      var rest := labels - {l};
      assert labels == rest + {l};
      SomeGroupsPass(evaluate, criteria, samples, rest);
      GroupsAddUp(evaluate, samples, labels, l);
      PassingAdds(criteria, Count(evaluate, Within(samples, rest)), Count(evaluate, Group(samples, l)));
    }
  }

  datatype Stratified = Stratified(regimes: map<string, Verdict>, unstratified: nat, passed: bool)

  /** The groups of the samples so far. */
  ghost predicate Grouped(samples: seq<Sample>, grouped: map<string, seq<Sample>>) {
    grouped.Keys == Labels(samples) && forall l :: l in grouped ==> grouped[l] == Group(samples, l) && grouped[l] != []
  }

  lemma GroupedMore(samples: seq<Sample>, grouped: map<string, seq<Sample>>, s: Sample)
    requires Grouped(samples, grouped)
    ensures s.regime.None? ==> Grouped(samples + [s], grouped)
    ensures s.regime.Some? ==>
      var l := s.regime.value; Grouped(samples + [s], grouped[l := (if l in grouped then grouped[l] else []) + [s]])
  {
    LabelsSnoc(samples, s);
    assert (samples + [s])[..|samples|] == samples;
    if s.regime.Some? && s.regime.value !in grouped {
      NoGroup(samples, s.regime.value);
    }
  }

  /** Groups the samples by regime, the unlabelled ones counted apart. */
  method GroupByRegime(samples: seq<Sample>) returns (grouped: map<string, seq<Sample>>, unstratified: nat)
    ensures Grouped(samples, grouped) && unstratified == Unstratified(samples)
  {
    grouped, unstratified := map[], 0;
    var i := 0;
    while i < |samples|
      invariant 0 <= i <= |samples|
      invariant Grouped(samples[..i], grouped) && unstratified == Unstratified(samples[..i])
    {
      var s := samples[i];
      assert samples[..i + 1] == samples[..i] + [s] && samples[..i + 1][..i] == samples[..i];
      GroupedMore(samples[..i], grouped, s);
      if s.regime.None? {
        unstratified := unstratified + 1;
      } else {
        var l := s.regime.value;
        grouped := grouped[l := (if l in grouped then grouped[l] else []) + [s]];
      }
      i := i + 1;
    }
    assert samples[..i] == samples;
  }

  lemma LabelsSnoc(samples: seq<Sample>, s: Sample)
    ensures Labels(samples + [s]) == Labels(samples) + (if s.regime.Some? then {s.regime.value} else {})
  {
    var all := samples + [s];
    assert forall i :: 0 <= i < |samples| ==> all[i] == samples[i];
    assert all[|samples|] == s;
    forall l | l in Labels(samples) + (if s.regime.Some? then {s.regime.value} else {})
      ensures l in Labels(all)
    {
      if l in Labels(samples) {
        var i :| 0 <= i < |samples| && samples[i].regime == Some(l);
        assert all[i].regime == Some(l);
      } else {
        assert all[|samples|].regime == Some(l);
      }
    }
  }

  lemma {:induction false} NoGroup(samples: seq<Sample>, l: string)
    requires l !in Labels(samples)
    ensures Group(samples, l) == []
  {
    if samples != [] {
      var front, s := samples[..|samples| - 1], samples[|samples| - 1];
      assert samples == front + [s];
      LabelsSnoc(front, s);
      NoGroup(front, l);
    }
  }

  ghost predicate ScoredRegimes(evaluate: Evaluate, criteria: seq<Criterion>, samples: seq<Sample>, regimes: map<string, Verdict>, passed: bool) {
    && (forall l :: l in regimes ==> Ok(regimes[l]) == Validate(evaluate, criteria, Group(samples, l)))
    && (passed <==> forall l :: l in regimes ==> Passes(criteria, Count(evaluate, Group(samples, l))))
  }

  lemma ScoredRegime(evaluate: Evaluate, criteria: seq<Criterion>, samples: seq<Sample>, regimes: map<string, Verdict>, passed: bool,
                     l: string, v: Verdict)
    requires ScoredRegimes(evaluate, criteria, samples, regimes, passed) && l !in regimes
    requires Ok(v) == Validate(evaluate, criteria, Group(samples, l))
    ensures ScoredRegimes(evaluate, criteria, samples, regimes[l := v], passed && v.passed)
  {
    hide Group, Count, Validate, Passes;
    PassedMeansPasses(evaluate, criteria, Group(samples, l));
    assert forall m :: m in regimes ==> m in regimes[l := v];
  }

  method ScoreRegimes(evaluate: Evaluate, criteria: seq<Criterion>, samples: seq<Sample>, grouped: map<string, seq<Sample>>)
    returns (r: Result<(map<string, Verdict>, bool)>)
    requires forall l :: l in grouped ==> grouped[l] == Group(samples, l) && grouped[l] != []
    ensures r.Ok? <==> grouped == map[] || AllWellFormed(criteria)
    ensures r.Ok? ==> r.value.0.Keys == grouped.Keys && ScoredRegimes(evaluate, criteria, samples, r.value.0, r.value.1)
  {
    hide Group, Count, Validate, Passes;
    var regimes: map<string, Verdict>, passed := map[], true;
    var rest := grouped.Keys;
    while rest != {}
      invariant rest <= grouped.Keys && regimes.Keys == grouped.Keys - rest
      invariant ScoredRegimes(evaluate, criteria, samples, regimes, passed)
      invariant rest != grouped.Keys ==> AllWellFormed(criteria)
      decreases rest
    {
      var l :| l in rest;
      assert l in grouped;
      var verdict := RunValidation(evaluate, criteria, grouped[l]);
      if verdict.Err? { return Err(verdict.error); }
      ScoredRegime(evaluate, criteria, samples, regimes, passed, l, verdict.value);
      regimes, passed := regimes[l := verdict.value], passed && verdict.value.passed;
      rest := rest - {l};
    }
    r := Ok((regimes, passed));
  }

  /** Every sample must carry a regime, and every regime must pass on its own. */
  method RunRegimes(evaluate: Evaluate, criteria: seq<Criterion>, samples: seq<Sample>) returns (r: Result<Stratified>)
    ensures r.Ok? <==> samples != [] && (Labels(samples) == {} || AllWellFormed(criteria))
    ensures r.Ok? ==>
      && r.value.regimes.Keys == Labels(samples) && r.value.unstratified == Unstratified(samples)
      && (forall l :: l in r.value.regimes ==> Ok(r.value.regimes[l]) == Validate(evaluate, criteria, Group(samples, l)))
      && (r.value.passed <==> RegimesPass(evaluate, criteria, samples))
  {
    hide Group, Count, Validate, Passes, Labels, Unstratified;
    if samples == [] { return Err(BadInput); }
    var grouped, unstratified := GroupByRegime(samples);
    assert Grouped(samples, grouped);
    var scores := ScoreRegimes(evaluate, criteria, samples, grouped);
    assert grouped == map[] <==> grouped.Keys == {};
    if scores.Err? { return Err(scores.error); }
    var (regimes, passed) := scores.value;
    assert |regimes| >= 1 <==> regimes.Keys != {};
    r := Ok(Stratified(regimes, unstratified, unstratified == 0 && |regimes| >= 1 && passed));
  }

  /** Regime-stratified validation implies the single pass on the same samples. */
  lemma RegimesImplySingle(evaluate: Evaluate, criteria: seq<Criterion>, samples: seq<Sample>)
    requires RegimesPass(evaluate, criteria, samples) && AllWellFormed(criteria)
    ensures Validate(evaluate, criteria, samples).Ok? && Validate(evaluate, criteria, samples).value.passed
  {
    SomeGroupsPass(evaluate, criteria, samples, Labels(samples));
    AllWithin(samples, Labels(samples));
    CheckAllIsTotal(criteria, Count(evaluate, samples));
    assert Labels([]) == {};
    PassedMeansPasses(evaluate, criteria, samples);
  }

  // ---- not the other way round ----

  const Good: Sample := Sample("up", Some(1), 1.0, Some("calm"))
  const Bad: Sample := Sample("up", Some(2), -1.0, Some("storm"))
  const HalfRight: Criterion := Criterion(MinHitRate, Number(0.5))

  lemma CountOfTwo(evaluate: Evaluate, a: Sample, b: Sample)
    ensures Count(evaluate, [a, b]) == Plus(One(evaluate, a), One(evaluate, b))
  {
    assert [a, b][..1] == [a];
    CountOfOne(evaluate, a);
  }

  const Always: Evaluate := (feature: string) => Long

  lemma BothPass()
    ensures Validate(Always, [HalfRight], [Good, Bad]).Ok? && Validate(Always, [HalfRight], [Good, Bad]).value.passed
  {
    CountOfBoth();
    HalfIsEnough(Count(Always, [Good, Bad]));
    hide Count, Check;
    CheckAllIsTotal([HalfRight], Count(Always, [Good, Bad]));
    PassedMeansPasses(Always, [HalfRight], [Good, Bad]);
  }

  lemma OneOfEach()
    ensures One(Always, Good) == Tally(0, 0, 1, 1, 1.0)
    ensures One(Always, Bad) == Tally(0, 0, 1, 0, -1.0)
  {
  }

  lemma CountOfBoth()
    ensures Count(Always, [Good, Bad]) == Tally(0, 0, 2, 1, 0.0)
  {
    OneOfEach();
    hide Count, One;
    CountOfTwo(Always, Good, Bad);
  }

  lemma HalfIsEnough(t: Tally)
    requires t.signaled > 0
    ensures Check(HalfRight, t) == Ok(if 2 * t.hits >= t.signaled then Pass else Fail)
  {
    var hits, signaled := t.hits as real, t.signaled as real;
    if 2 * t.hits >= t.signaled {
      Uncleared(hits, signaled, 0.5);
    } else if hits / signaled >= 0.5 {
      Cleared(hits, signaled, 0.5);
    }
  }

  lemma BadFails()
    ensures !Passes([HalfRight], Count(Always, [Bad]))
  {
    hide Count;
    CountOfOne(Always, Bad);
    assert Count(Always, [Bad]) == Tally(0, 0, 1, 0, -1.0);
    HalfIsEnough(Count(Always, [Bad]));
    assert [HalfRight][0] == HalfRight;
  }

  lemma BadIsAFold()
    ensures Timed([Good, Bad]) && ByTime([Good, Bad]) == [Good, Bad] && Fold([Good, Bad], 2, 1) == [Bad]
  {
  }

  lemma BadIsARegime()
    ensures "storm" in Labels([Good, Bad]) && Group([Good, Bad], "storm") == [Bad]
  {
    var both := [Good, Bad];
    assert both[..1] == [Good] && [Good][..0] == [];
    assert both[1].regime == Some("storm");
    assert Within([Good], {"storm"}) == [];
  }

  /** One hit in two clears a bar of one half together, but neither as two folds nor as two regimes. */
  lemma SingleImpliesNeither()
    ensures Validate(Always, [HalfRight], [Good, Bad]).Ok? && Validate(Always, [HalfRight], [Good, Bad]).value.passed
    ensures Timed([Good, Bad]) && !FoldsPass(Always, [HalfRight], ByTime([Good, Bad]), 2)
    ensures !RegimesPass(Always, [HalfRight], [Good, Bad])
  {
    hide Count, Validate, Passes, ByTime, Fold, Group, Labels;
    BothPass();
    BadFails();
    BadIsAFold();
    BadIsARegime();
    assert !Passes([HalfRight], Count(Always, Fold([Good, Bad], 2, 1)));
    assert !Passes([HalfRight], Count(Always, Group([Good, Bad], "storm")));
  }
}
