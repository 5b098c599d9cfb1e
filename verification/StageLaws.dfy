/** What the walk-forward spread measures, and how regimes split the samples. */
module StageLaws {
  import opened Wrappers
  import opened Validation
  import opened Stages

  // ---- the spread of the folds' hit rates ----

  function Rated(folds: seq<Verdict>): set<nat> {
    set i: nat | i < |folds| && folds[i].rate.Some?
  }

  lemma RatedOfMore(folds: seq<Verdict>, v: Verdict)
    ensures |Rated(folds + [v])| == |Rated(folds)| + (if v.rate.Some? then 1 else 0)
  {
    assert forall i :: 0 <= i < |folds| ==> (folds + [v])[i] == folds[i];
    assert Rated(folds + [v]) == Rated(folds) + (if v.rate.Some? then {|folds|} else {});
    assert |folds| !in Rated(folds);
  }

  lemma {:induction false} RatesAreTheirs(folds: seq<Verdict>)
    ensures |Rates(folds)| == |Rated(folds)|
    ensures forall i :: i in Rated(folds) ==> folds[i].rate.value in Rates(folds)
    ensures forall x :: x in Rates(folds) ==> exists i :: i in Rated(folds) && folds[i].rate.value == x
  {
    if folds == [] {
      assert Rated(folds) == {};
    } else {
      var front, v := folds[..|folds| - 1], folds[|folds| - 1];
      RatesAreTheirs(front);
      RatedOfMore(front, v);
      assert folds == front + [v];
      forall x | x in Rates(folds)
        ensures exists i :: i in Rated(folds) && folds[i].rate.value == x
      {
        if x in Rates(front) {
          var i :| i in Rated(front) && front[i].rate.value == x;
          assert i in Rated(folds) && folds[i].rate.value == x;
        } else {
          assert |front| in Rated(folds) && folds[|front|].rate.value == x;
        }
      }
    }
  }

  /** The spread: missing below two folds with a hit rate, and otherwise the largest difference between any two. */
  lemma SpreadIsLargest(folds: seq<Verdict>)
    ensures Spread(folds).Some? <==> |Rated(folds)| >= 2
    ensures Spread(folds).Some? ==>
      && (exists i, j :: i in Rated(folds) && j in Rated(folds) && Spread(folds).value == folds[i].rate.value - folds[j].rate.value)
      && forall i, j :: i in Rated(folds) && j in Rated(folds) ==> folds[i].rate.value - folds[j].rate.value <= Spread(folds).value
  {
    RatesAreTheirs(folds);
    if Spread(folds).Some? {
      var i :| i in Rated(folds) && folds[i].rate.value == Highest(Rates(folds));
      var j :| j in Rated(folds) && folds[j].rate.value == Lowest(Rates(folds));
      assert Spread(folds).value == folds[i].rate.value - folds[j].rate.value;
    }
  }

  // ---- regimes ----

  lemma {:induction false} WithinIsFiltered(samples: seq<Sample>, labels: set<string>, s: Sample)
    ensures multiset(Within(samples, labels))[s]
         == if s.regime.Some? && s.regime.value in labels then multiset(samples)[s] else 0
  {
    if samples != [] {
      WithinIsFiltered(samples[..|samples| - 1], labels, s);
      assert samples == samples[..|samples| - 1] + [samples[|samples| - 1]];
    }
  }

  lemma {:induction false} LabelledAndNot(samples: seq<Sample>, labels: set<string>)
    requires Labels(samples) <= labels
    ensures Unstratified(samples) + |Within(samples, labels)| == |samples|
  {
    if samples != [] {
      var front, s := samples[..|samples| - 1], samples[|samples| - 1];
      assert front + [s] == samples;
      LabelsSnoc(front, s);
      LabelledAndNot(front, labels);
    }
  }

  /** A regime's group holds each of its samples as often as they do, and no other; the rest is what is counted apart. */
  lemma GroupsSplit(samples: seq<Sample>, l: string)
    ensures forall s :: multiset(Group(samples, l))[s] == if s.regime == Some(l) then multiset(samples)[s] else 0
    ensures Unstratified(samples) + |Within(samples, Labels(samples))| == |samples|
  {
    forall s
      ensures multiset(Group(samples, l))[s] == if s.regime == Some(l) then multiset(samples)[s] else 0
    {
      WithinIsFiltered(samples, {l}, s);
    }
    LabelledAndNot(samples, Labels(samples));
  }
}
