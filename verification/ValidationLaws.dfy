/** What the numbers of one validation pass count, and what a verdict says in those numbers. */
module ValidationLaws {
  import opened Wrappers
  import opened Validation

  // ---- counts ----

  function Indices(evaluate: Evaluate, samples: seq<Sample>, signal: Signal): set<nat> {
    set i: nat | i < |samples| && evaluate(samples[i].feature) == signal
  }

  /** The bets that paid off: long into a rise, or short into a fall. */
  function Winning(evaluate: Evaluate, samples: seq<Sample>): set<nat> {
    set i: nat | i < |samples|
      && (|| (evaluate(samples[i].feature) == Long && samples[i].outcome > 0.0)
          || (evaluate(samples[i].feature) == Short && samples[i].outcome < 0.0))
  }

  /** The outcomes of the samples with this signal, added up. */
  function Outcomes(evaluate: Evaluate, samples: seq<Sample>, signal: Signal): real {
    if samples == [] then 0.0
    else
      var s := samples[|samples| - 1];
      Outcomes(evaluate, samples[..|samples| - 1], signal) + (if evaluate(s.feature) == signal then s.outcome else 0.0)
  }

  lemma IndicesOfMore(evaluate: Evaluate, samples: seq<Sample>, s: Sample, signal: Signal)
    ensures |Indices(evaluate, samples + [s], signal)|
         == |Indices(evaluate, samples, signal)| + (if evaluate(s.feature) == signal then 1 else 0)
  {
    var before := Indices(evaluate, samples, signal);
    assert forall i :: 0 <= i < |samples| ==> (samples + [s])[i] == samples[i];
    assert Indices(evaluate, samples + [s], signal) == before + (if evaluate(s.feature) == signal then {|samples|} else {});
    assert |samples| !in before;
  }

  predicate Wins(signal: Signal, outcome: real) {
    (signal == Long && outcome > 0.0) || (signal == Short && outcome < 0.0)
  }

  lemma WinningOfMore(evaluate: Evaluate, samples: seq<Sample>, s: Sample)
    ensures |Winning(evaluate, samples + [s])|
         == |Winning(evaluate, samples)| + (if Wins(evaluate(s.feature), s.outcome) then 1 else 0)
  {
    var before := Winning(evaluate, samples);
    assert forall i :: 0 <= i < |samples| ==> (samples + [s])[i] == samples[i];
    assert Winning(evaluate, samples + [s]) == before + (if Wins(evaluate(s.feature), s.outcome) then {|samples|} else {});
    assert |samples| !in before;
  }

  lemma OutcomesOfMore(evaluate: Evaluate, samples: seq<Sample>, s: Sample, signal: Signal)
    ensures Outcomes(evaluate, samples + [s], signal)
         == Outcomes(evaluate, samples, signal) + (if evaluate(s.feature) == signal then s.outcome else 0.0)
  {
    assert (samples + [s])[..|samples|] == samples;
  }

  lemma OneScores(evaluate: Evaluate, s: Sample)
    ensures var t, signal := One(evaluate, s), evaluate(s.feature);
      && t.unavailable == (if signal == Unavailable then 1 else 0) && t.flat == (if signal == Flat then 1 else 0)
      && t.signaled == (if signal == Long then 1 else 0) + (if signal == Short then 1 else 0)
      && t.hits == (if Wins(signal, s.outcome) then 1 else 0)
      && t.sum == (if signal == Long then s.outcome else 0.0) - (if signal == Short then s.outcome else 0.0)
  {
  }

  /**
   The tally counts: samples without a signal, flat ones, bets, and bets that paid off; and
   its sum is what the long bets gained less what the short ones did.
   */
  lemma {:induction false} TallyCounts(evaluate: Evaluate, samples: seq<Sample>)
    ensures var t := Count(evaluate, samples);
      && t.unavailable == |Indices(evaluate, samples, Unavailable)| && t.flat == |Indices(evaluate, samples, Flat)|
      && t.signaled == |Indices(evaluate, samples, Long)| + |Indices(evaluate, samples, Short)|
      && t.hits == |Winning(evaluate, samples)|
      && t.sum == Outcomes(evaluate, samples, Long) - Outcomes(evaluate, samples, Short)
  {
    if samples == [] {
      NothingCounts(evaluate);
    } else {
      var front, s := samples[..|samples| - 1], samples[|samples| - 1];
      assert front + [s] == samples;
      hide Indices, Winning, Outcomes, Wins, Count, One;
      TallyCounts(evaluate, front);
      IndicesOfMore(evaluate, front, s, Unavailable);
      IndicesOfMore(evaluate, front, s, Flat);
      IndicesOfMore(evaluate, front, s, Long);
      IndicesOfMore(evaluate, front, s, Short);
      WinningOfMore(evaluate, front, s);
      OutcomesOfMore(evaluate, front, s, Long);
      OutcomesOfMore(evaluate, front, s, Short);
      CountSnoc(evaluate, front, s);
      OneScores(evaluate, s);
    }
  }

  lemma NothingCounts(evaluate: Evaluate)
    ensures Count(evaluate, []) == Nothing && Winning(evaluate, []) == {}
    ensures forall signal :: Indices(evaluate, [], signal) == {} && Outcomes(evaluate, [], signal) == 0.0
  {
  }

  /** The opposite bet on the opposite outcome. */
  predicate Opposite(evaluate: Evaluate, s: Sample, mirror: Evaluate, m: Sample) {
    && m.outcome == -s.outcome
    && match evaluate(s.feature)
       case Long => mirror(m.feature) == Short
       case Short => mirror(m.feature) == Long
       case other => mirror(m.feature) == other
  }

  lemma OppositeScores(evaluate: Evaluate, s: Sample, mirror: Evaluate, m: Sample)
    requires Opposite(evaluate, s, mirror, m)
    ensures One(mirror, m) == One(evaluate, s)
  {
  }

  /** Swapping long and short while turning every outcome round leaves the tally as it is. */
  lemma {:induction false} MirrorImage(evaluate: Evaluate, samples: seq<Sample>, mirror: Evaluate, mirrored: seq<Sample>)
    requires |mirrored| == |samples|
    requires forall i :: 0 <= i < |samples| ==> Opposite(evaluate, samples[i], mirror, mirrored[i])
    ensures Count(mirror, mirrored) == Count(evaluate, samples)
  {
    hide One, Opposite, Plus;
    if samples != [] {
      var n := |samples| - 1;
      MirrorImage(evaluate, samples[..n], mirror, mirrored[..n]);
      OppositeScores(evaluate, samples[n], mirror, mirrored[n]);
    }
  }

  // ---- the verdict ----

  /** The bar a value declares, when it reads as a number. */
  function Bar(v: Value): Option<real> {
    match v
    case Number(x) => Some(x)
    case Written(x) => Some(x)
    case Whole(n) => Some(n as real)
    case Other => None
  }

  predicate Declared(c: Criterion) {
    && (c.key == "min_hit_rate" ==> Bar(c.required).Some? && 0.0 <= Bar(c.required).value <= 1.0)
    && (c.key == "min_signaled_samples" ==> c.required.Whole? && c.required.count >= 0)
  }

  /** What a declared criterion comes to, for so many bets of which so many paid off. */
  function Meets(c: Criterion, hits: nat, bets: nat): CheckOutcome
    requires Declared(c)
  {
    if c.key == "min_hit_rate" then
      if bets == 0 then NotEvaluated else if hits as real >= Bar(c.required).value * bets as real then Pass else Fail
    else if c.key == "min_signaled_samples" then
      if bets >= c.required.count then Pass else Fail
    else NotEvaluated
  }

  lemma CheckMeets(c: Criterion, t: Tally)
    ensures Declared(c) ==> Check(c, t) == Ok(Meets(c, t.hits, t.signaled))
    ensures !Declared(c) ==> Check(c, t) == Err(BadCriterion)
  {
    if c.key == "min_hit_rate" && Declared(c) && t.signaled > 0 {
      var hits, signaled, bar := t.hits as real, t.signaled as real, Bar(c.required).value;
      if hits >= bar * signaled {
        Uncleared(hits, signaled, bar);
      } else if hits / signaled >= bar {
        Cleared(hits, signaled, bar);
      }
    }
  }

  lemma {:induction false} CheckAllMeets(criteria: seq<Criterion>, t: Tally)
    ensures CheckAll(criteria, t).Ok? <==> forall i :: 0 <= i < |criteria| ==> Declared(criteria[i])
    ensures CheckAll(criteria, t).Err? ==> CheckAll(criteria, t) == Err(BadCriterion)
    ensures CheckAll(criteria, t).Ok? ==>
      && |CheckAll(criteria, t).value| == |criteria|
      && forall i :: 0 <= i < |criteria| ==> CheckAll(criteria, t).value[i] == Meets(criteria[i], t.hits, t.signaled)
  {
    hide Check, Meets, Declared;
    if criteria != [] {
      var front, c := criteria[..|criteria| - 1], criteria[|criteria| - 1];
      CheckAllMeets(front, t);
      CheckMeets(c, t);
      assert forall i :: 0 <= i < |front| ==> front[i] == criteria[i];
    }
  }

  /**
   A verdict in plain counts.  There is one exactly for at least one sample and proper
   criteria; the hit rate is hits per bet and the mean what the bets gained per bet, both
   missing without a bet; each criterion is met, missed or not evaluated as the counts say;
   and the pass asks for every one of them.
   */
  lemma VerdictCounts(evaluate: Evaluate, criteria: seq<Criterion>, samples: seq<Sample>)
    ensures var bets := |Indices(evaluate, samples, Long)| + |Indices(evaluate, samples, Short)|;
            var hits := |Winning(evaluate, samples)|;
            var r := Validate(evaluate, criteria, samples);
      && (r.Ok? <==> samples != [] && forall i :: 0 <= i < |criteria| ==> Declared(criteria[i]))
      && (r.Err? ==> r == Err(if samples == [] then BadInput else BadCriterion))
      && (r.Ok? ==>
           var v := r.value;
           && v.total == |samples| && v.tally.signaled == bets && v.tally.hits == hits
           && (v.rate.Some? <==> bets > 0) && (v.mean.Some? <==> bets > 0)
           && (bets > 0 ==> v.rate.value * bets as real == hits as real)
           && (bets > 0 ==> v.mean.value * bets as real == Outcomes(evaluate, samples, Long) - Outcomes(evaluate, samples, Short))
           && |v.outcomes| == |criteria|
           && (forall i :: 0 <= i < |criteria| ==> v.outcomes[i] == Meets(criteria[i], hits, bets))
           && (v.passed <==> forall i :: 0 <= i < |criteria| ==> Meets(criteria[i], hits, bets) == Pass))
  {
    hide Count, CheckAll, Meets, Declared, Indices, Winning, Outcomes;
    TallyCounts(evaluate, samples);
    var t := Count(evaluate, samples);
    CheckAllMeets(criteria, t);
    if t.signaled > 0 {
      Share(t.hits as real, t.signaled as real);
      Share(t.sum, t.signaled as real);
    }
  }

  lemma Share(sum: real, parts: real)
    requires parts > 0.0
    ensures sum / parts * parts == sum
  {
  }
}
