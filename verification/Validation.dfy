/**
 Validation of a candidate: one pass over its samples, chronological folds, regime groups,
 and what passing the finer stages says about the single pass.
 */
module Validation {
  import opened Wrappers

  // ---- samples and signals ----

  datatype Signal = Unavailable | Flat | Long | Short

  /** The time is None when the timestamp does not parse. */
  datatype Sample = Sample(feature: string, at: Option<int>, outcome: real, regime: Option<string>)

  type Evaluate = string -> Signal

  /** A declared acceptance value, as configuration carries it: a number, a text that reads as one, an int, or neither. */
  datatype Value = Number(value: real) | Written(text: real) | Whole(count: int) | Other {
    function AsNumber(): Option<real> {
      match this
      case Number(value) => Some(value)
      case Written(text) => Some(text)
      case Whole(count) => Some(count as real)
      case Other => None
    }
  }
  datatype Criterion = Criterion(key: string, required: Value)

  datatype CheckOutcome = Pass | Fail | NotEvaluated
  datatype Error = BadInput | BadCriterion | BadTimestamp
  datatype Result<+T> = Ok(value: T) | Err(error: Error)

  // ---- counters ----

  datatype Tally = Tally(unavailable: nat, flat: nat, signaled: nat, hits: nat, sum: real)

  const Nothing: Tally := Tally(0, 0, 0, 0, 0.0)

  function Plus(a: Tally, b: Tally): Tally {
    Tally(a.unavailable + b.unavailable, a.flat + b.flat, a.signaled + b.signaled, a.hits + b.hits, a.sum + b.sum)
  }

  /** Positive always means the bet paid off. */
  function Directional(signal: Signal, outcome: real): real {
    if signal == Long then outcome else -outcome
  }

  function One(evaluate: Evaluate, s: Sample): Tally {
    match evaluate(s.feature)
    case Unavailable => Tally(1, 0, 0, 0, 0.0)
    case Flat => Tally(0, 1, 0, 0, 0.0)
    case bet =>
      var directional := Directional(bet, s.outcome);
      Tally(0, 0, 1, if directional > 0.0 then 1 else 0, directional)
  }

  function Count(evaluate: Evaluate, samples: seq<Sample>): Tally {
    if samples == [] then Nothing
    else Plus(Count(evaluate, samples[..|samples| - 1]), One(evaluate, samples[|samples| - 1]))
  }

  lemma PlusNothing(a: Tally)
    ensures Plus(a, Nothing) == a && Plus(Nothing, a) == a
  {
  }

  lemma CountSnoc(evaluate: Evaluate, samples: seq<Sample>, s: Sample)
    ensures Count(evaluate, samples + [s]) == Plus(Count(evaluate, samples), One(evaluate, s))
  {
  }

  lemma CountNone(evaluate: Evaluate)
    ensures Count(evaluate, []) == Nothing
  {
  }

  lemma OneCountsOne(evaluate: Evaluate, s: Sample)
    ensures var t := One(evaluate, s); t.unavailable + t.flat + t.signaled == 1 && t.hits <= t.signaled
  {
  }

  lemma PlusCounts(a: Tally, b: Tally)
    ensures var t := Plus(a, b);
      && t.unavailable + t.flat + t.signaled == a.unavailable + a.flat + a.signaled + (b.unavailable + b.flat + b.signaled)
      && (a.hits <= a.signaled && b.hits <= b.signaled ==> t.hits <= t.signaled)
  {
  }

  /** Every sample is counted once, in exactly one of the three ways; hits are among the signals. */
  lemma {:induction false} CountIsComplete(evaluate: Evaluate, samples: seq<Sample>)
    ensures var t := Count(evaluate, samples);
            t.unavailable + t.flat + t.signaled == |samples| && t.hits <= t.signaled
    decreases |samples|
  {
    hide One, Plus;
    if samples != [] {
      var front, s := samples[..|samples| - 1], samples[|samples| - 1];
      CountIsComplete(evaluate, front);
      OneCountsOne(evaluate, s);
      PlusCounts(Count(evaluate, front), One(evaluate, s));
    }
  }

  lemma PlusAssociates(a: Tally, b: Tally, c: Tally)
    ensures Plus(Plus(a, b), c) == Plus(a, Plus(b, c))
  {
  }

  lemma {:induction false} CountAdds(evaluate: Evaluate, a: seq<Sample>, b: seq<Sample>)
    ensures Count(evaluate, a + b) == Plus(Count(evaluate, a), Count(evaluate, b))
    decreases |b|
  {
    hide One, Plus, Count;
    if b == [] {
      assert a + b == a;
      CountNone(evaluate);
      PlusNothing(Count(evaluate, a));
    } else {
      var front, s := b[..|b| - 1], b[|b| - 1];
      CountAdds(evaluate, a, front);
      assert a + b == a + front + [s] && b == front + [s];
      CountSnoc(evaluate, a + front, s);
      CountSnoc(evaluate, front, s);
      PlusAssociates(Count(evaluate, a), Count(evaluate, front), One(evaluate, s));
    }
  }

  lemma CountOfOne(evaluate: Evaluate, s: Sample)
    ensures Count(evaluate, [s]) == One(evaluate, s)
  {
    hide One, Plus, Count;
    CountNone(evaluate);
    CountSnoc(evaluate, [], s);
    PlusNothing(One(evaluate, s));
    assert [] + [s] == [s];
  }

  lemma PlusSwaps(a: Tally, b: Tally, c: Tally)
    ensures Plus(Plus(a, b), c) == Plus(Plus(a, c), b)
  {
  }

  /** Taking one sample out of the middle. */
  lemma CountWithout(evaluate: Evaluate, left: seq<Sample>, s: Sample, right: seq<Sample>)
    ensures Count(evaluate, left + [s] + right) == Plus(Count(evaluate, left + right), One(evaluate, s))
  {
    hide One, Plus, Count;
    CountAdds(evaluate, left + [s], right);
    CountSnoc(evaluate, left, s);
    CountAdds(evaluate, left, right);
    PlusSwaps(Count(evaluate, left), One(evaluate, s), Count(evaluate, right));
  }

  /** The order of the samples makes no difference to the counters. */
  lemma {:induction false} CountIgnoresOrder(evaluate: Evaluate, a: seq<Sample>, b: seq<Sample>)
    requires multiset(a) == multiset(b)
    ensures Count(evaluate, a) == Count(evaluate, b)
    decreases |a|
  {
    hide One, Plus, Count;
    if a == [] {
      assert |b| == |multiset(b)| == 0;
    } else {
      var front, s := a[..|a| - 1], a[|a| - 1];
      assert a == front + [s];
      assert s in multiset(b);
      var i :| 0 <= i < |b| && b[i] == s;
      var left, right := b[..i], b[i + 1..];
      assert b == left + [s] + right;
      assert multiset(front) == multiset(a) - multiset{s} == multiset(b) - multiset{s} == multiset(left + right);
      CountIgnoresOrder(evaluate, front, left + right);
      CountSnoc(evaluate, front, s);
      CountWithout(evaluate, left, s, right);
    }
  }

  // ---- criteria ----

  const MinHitRate := "min_hit_rate"
  const MinSignaled := "min_signaled_samples"

  function HitRate(t: Tally): Option<real> {
    if t.signaled > 0 then Some(t.hits as real / t.signaled as real) else None
  }

  function MeanReturn(t: Tally): Option<real> {
    if t.signaled > 0 then Some(t.sum / t.signaled as real) else None
  }

  function CheckMinHitRate(required: Value, rate: Option<real>): Result<CheckOutcome> {
    if required.AsNumber().None? then Err(BadCriterion)
    else
      var r := required.AsNumber().value;
      if !(0.0 <= r <= 1.0) then Err(BadCriterion)
      else if rate.None? then Ok(NotEvaluated)
      else Ok(if rate.value >= r then Pass else Fail)
  }

  function CheckMinSignaled(required: Value, signaled: nat): Result<CheckOutcome> {
    if !required.Whole? || required.count < 0 then Err(BadCriterion)
    else Ok(if signaled >= required.count then Pass else Fail)
  }

  /** A key this harness does not check is reported as such, never taken for passed. */
  function Check(c: Criterion, t: Tally): Result<CheckOutcome> {
    if c.key == MinHitRate then CheckMinHitRate(c.required, HitRate(t))
    else if c.key == MinSignaled then CheckMinSignaled(c.required, t.signaled)
    else Ok(NotEvaluated)
  }

  function CheckAll(criteria: seq<Criterion>, t: Tally): Result<seq<CheckOutcome>> {
    if criteria == [] then Ok([])
    else
      match CheckAll(criteria[..|criteria| - 1], t)
      case Err(e) => Err(e)
      case Ok(before) =>
        match Check(criteria[|criteria| - 1], t)
        case Err(e) => Err(e)
        case Ok(outcome) => Ok(before + [outcome])
  }

  predicate AllPass(outcomes: seq<CheckOutcome>) {
    forall i :: 0 <= i < |outcomes| ==> outcomes[i] == Pass
  }

  /** Every declared criterion evaluates to a pass. */
  predicate Passes(criteria: seq<Criterion>, t: Tally) {
    forall i :: 0 <= i < |criteria| ==> Check(criteria[i], t) == Ok(Pass)
  }

  /** Values a recognised key accepts; only these make the check total. */
  predicate WellFormed(c: Criterion) {
    && (c.key == MinHitRate ==>
          (c.required.AsNumber().Some? && 0.0 <= c.required.AsNumber().value <= 1.0))
    && (c.key == MinSignaled ==> c.required.Whole? && c.required.count >= 0)
  }

  lemma {:induction false} CheckAllIsTotal(criteria: seq<Criterion>, t: Tally)
    ensures CheckAll(criteria, t).Ok? <==> forall i :: 0 <= i < |criteria| ==> WellFormed(criteria[i])
    ensures CheckAll(criteria, t).Ok? ==>
              && |CheckAll(criteria, t).value| == |criteria|
              && (AllPass(CheckAll(criteria, t).value) <==> Passes(criteria, t))
  {
    if criteria != [] {
      var front, c := criteria[..|criteria| - 1], criteria[|criteria| - 1];
      CheckAllIsTotal(front, t);
      assert forall i :: 0 <= i < |front| ==> front[i] == criteria[i];
      if CheckAll(criteria, t).Ok? {
        var outcomes, before := CheckAll(criteria, t).value, CheckAll(front, t).value;
        assert outcomes == before + [Check(c, t).value];
        assert AllPass(outcomes) <==> AllPass(before) && outcomes[|front|] == Pass by {
          assert forall i :: 0 <= i < |front| ==> outcomes[i] == before[i];
        }
        assert Passes(criteria, t) <==> Passes(front, t) && Check(c, t) == Ok(Pass);
      }
    }
  }

  // ---- one pass ----

  datatype Verdict = Verdict(tally: Tally, total: nat, rate: Option<real>, mean: Option<real>,
                             outcomes: seq<CheckOutcome>, passed: bool)

  function Validate(evaluate: Evaluate, criteria: seq<Criterion>, samples: seq<Sample>): Result<Verdict> {
    if samples == [] then Err(BadInput)
    else
      var t := Count(evaluate, samples);
      match CheckAll(criteria, t)
      case Err(e) => Err(e)
      case Ok(outcomes) => Ok(Verdict(t, |samples|, HitRate(t), MeanReturn(t), outcomes, AllPass(outcomes)))
  }

  function Sum(xs: seq<real>): real {
    if xs == [] then 0.0 else Sum(xs[..|xs| - 1]) + xs[|xs| - 1]
  }

  /** Scores every sample in turn. */
  method Score(evaluate: Evaluate, samples: seq<Sample>) returns (t: Tally)
    ensures t == Count(evaluate, samples)
  {
    var unavailable, flat, hits, bets := 0, 0, 0, [];
    var i := 0;
    while i < |samples|
      invariant 0 <= i <= |samples|
      invariant Count(evaluate, samples[..i]) == Tally(unavailable, flat, |bets|, hits, Sum(bets))
    {
      var signal := evaluate(samples[i].feature);
      assert samples[..i + 1][..i] == samples[..i];
      if signal == Unavailable {
        unavailable := unavailable + 1;
      } else if signal == Flat {
        flat := flat + 1;
      } else {
        var directional := if signal == Long then samples[i].outcome else -samples[i].outcome;
        assert (bets + [directional])[..|bets|] == bets;
        bets := bets + [directional];
        if directional > 0.0 {
          hits := hits + 1;
        }
      }
      i := i + 1;
    }
    assert samples[..i] == samples;
    t := Tally(unavailable, flat, |bets|, hits, Sum(bets));
  }

  /** Checks the declared criteria in their order. */
  method CheckCriteria(criteria: seq<Criterion>, t: Tally) returns (r: Result<seq<CheckOutcome>>)
    ensures r == CheckAll(criteria, t)
  {
    var rate, outcomes := HitRate(t), [];
    var i := 0;
    while i < |criteria|
      invariant 0 <= i <= |criteria|
      invariant CheckAll(criteria[..i], t) == Ok(outcomes)
    {
      var c := criteria[i];
      assert criteria[..i + 1][..i] == criteria[..i];
      var check: Result<CheckOutcome> := Ok(NotEvaluated);
      if c.key == MinHitRate {
        check := CheckMinHitRate(c.required, rate);
      } else if c.key == MinSignaled {
        check := CheckMinSignaled(c.required, t.signaled);
      }
      if check.Err? {
        BadCriterionStops(criteria, t, i);
        return Err(check.error);
      }
      outcomes := outcomes + [check.value];
      i := i + 1;
    }
    assert criteria[..i] == criteria;
    r := Ok(outcomes);
  }

  method RunValidation(evaluate: Evaluate, criteria: seq<Criterion>, samples: seq<Sample>) returns (r: Result<Verdict>)
    ensures r == Validate(evaluate, criteria, samples)
    ensures r.Ok? <==> samples != [] && forall i :: 0 <= i < |criteria| ==> WellFormed(criteria[i])
    ensures r.Ok? ==> (r.value.passed <==> Passes(criteria, Count(evaluate, samples)))
  {
    if samples == [] { return Err(BadInput); }
    var t := Score(evaluate, samples);
    var checks := CheckCriteria(criteria, t);
    CheckAllIsTotal(criteria, t);
    if checks.Err? { return Err(checks.error); }
    r := Ok(Verdict(t, |samples|, HitRate(t), MeanReturn(t), checks.value, AllPass(checks.value)));
  }

  /** A malformed value under a recognised key is an error, whatever comes after it. */
  lemma {:induction false} BadCriterionStops(criteria: seq<Criterion>, t: Tally, i: nat)
    requires i < |criteria| && CheckAll(criteria[..i], t).Ok? && Check(criteria[i], t).Err?
    ensures CheckAll(criteria, t) == Err(Check(criteria[i], t).error)
    decreases |criteria|
  {
    var front := criteria[..|criteria| - 1];
    if i < |front| {
      assert front[..i] == criteria[..i];
      BadCriterionStops(front, t, i);
    } else {
      assert front == criteria[..i];
    }
  }

  // ---- passing adds up ----

  /** The mediant: two rates that reach a bar reach it together. */
  lemma RatesAdd(h1: nat, s1: nat, h2: nat, s2: nat, bar: real)
    requires s1 > 0 && s2 > 0
    requires h1 as real / s1 as real >= bar && h2 as real / s2 as real >= bar
    ensures (h1 + h2) as real / (s1 + s2) as real >= bar
  {
    Cleared(h1 as real, s1 as real, bar);
    Cleared(h2 as real, s2 as real, bar);
    Uncleared((h1 + h2) as real, (s1 + s2) as real, bar);
  }

  lemma Cleared(h: real, s: real, bar: real)
    requires s > 0.0 && h / s >= bar
    ensures h >= bar * s
  {
    var rate := h / s;
    assert rate * s == h;
    assert (rate - bar) * s >= 0.0;
  }

  lemma Uncleared(h: real, s: real, bar: real)
    requires s > 0.0 && h >= bar * s
    ensures h / s >= bar
  {
    var rest := h - bar * s;
    assert rest / s >= 0.0;
    assert h / s == bar + rest / s;
  }

  lemma PassingAdds(criteria: seq<Criterion>, a: Tally, b: Tally)
    requires Passes(criteria, a) && Passes(criteria, b)
    ensures Passes(criteria, Plus(a, b))
  {
    forall i | 0 <= i < |criteria|
      ensures Check(criteria[i], Plus(a, b)) == Ok(Pass)
    {
      var c := criteria[i];
      assert Check(c, a) == Ok(Pass) && Check(c, b) == Ok(Pass);
      if c.key == MinHitRate {
        var bar := c.required.AsNumber().value;
        RatesAdd(a.hits, a.signaled, b.hits, b.signaled, bar);
      }
    }
  }

  lemma PassedMeansPasses(evaluate: Evaluate, criteria: seq<Criterion>, samples: seq<Sample>)
    requires Validate(evaluate, criteria, samples).Ok?
    ensures Validate(evaluate, criteria, samples).value.passed <==> Passes(criteria, Count(evaluate, samples))
  {
    CheckAllIsTotal(criteria, Count(evaluate, samples));
  }
}
