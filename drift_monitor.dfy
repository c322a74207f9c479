/** The drift monitor: it compares the live feature values of a request against reference
    statistics and reports each feature whose z-score reaches the drift threshold. */
module DriftMonitoring {
  import opened Values

  /** Reference statistics of one feature; `std` is `None` when the statistics carry none. */
  datatype Stats = Stats(mean: real, std: Option<real>)

  datatype DriftSignal = DriftSignal(feature: string, zscore: real, currentValue: real, referenceMean: real)

  /** The live row: feature name to value, `None` standing for NaN. */
  type FeatureRow = map<string, Option<real>>

  /** The z-score from which a feature counts as drifted. */
  const DriftZscoreThreshold: real := 3.0

  function Abs(x: real): real
  {
    if x < 0.0 then -x else x
  }

  /** `stats.get("std") or 0.0`: a missing standard deviation counts as 0. */
  function StdOf(s: Stats): real
  {
    if s.std.Some? then s.std.value else 0.0
  }

  /** The feature has a value in the row, and a usable standard deviation. */
  predicate Measurable(row: FeatureRow, name: string, s: Stats)
  {
    name in row && row[name].Some? && StdOf(s) != 0.0
  }

  function Zscore(x: real, s: Stats): real
    requires StdOf(s) != 0.0
  {
    Abs((x - s.mean) / StdOf(s))
  }

  /** The signal one feature raises, if any. */
  function SignalFor(row: FeatureRow, name: string, s: Stats): Option<DriftSignal>
  {
    if !Measurable(row, name, s) then None
    else
      var z := Zscore(row[name].value, s);
      if z >= DriftZscoreThreshold then Some(DriftSignal(name, z, row[name].value, s.mean)) else None
  }

  /** The signals of all features, in the order of the reference statistics. */
  function Signals(stats: seq<(string, Stats)>, row: FeatureRow): (signals: seq<DriftSignal>)
    ensures |signals| <= |stats|
    ensures forall sig :: sig in signals ==> sig.zscore >= DriftZscoreThreshold
  {
    if stats == [] then []
    else
      var first := SignalFor(row, stats[0].0, stats[0].1);
      (if first.Some? then [first.value] else []) + Signals(stats[1..], row)
  }

  class DriftMonitor {
    /** The reference statistics, one entry per feature name. */
    const referenceStats: seq<(string, Stats)>

    /** Missing statistics are no statistics. */
    constructor(stats: Option<seq<(string, Stats)>>)
      ensures referenceStats == (if stats.Some? then stats.value else [])
    {
      referenceStats := if stats.Some? then stats.value else [];
    }

    /** `DriftMonitor.track`. */
    method Track(row: FeatureRow) returns (signals: seq<DriftSignal>)
      ensures signals == Signals(referenceStats, row)
    {
      if referenceStats == [] {
        return [];
      }
      signals := [];
      for i := 0 to |referenceStats|
        invariant signals + Signals(referenceStats[i..], row) == Signals(referenceStats, row)
      {
        var (feature, stats) := referenceStats[i];
        var found: Option<DriftSignal> := None;
        if feature in row && row[feature].Some? {
          var std := StdOf(stats);
          if std != 0.0 {
            var zscore := Abs((row[feature].value - stats.mean) / std);
            if zscore >= DriftZscoreThreshold {
              found := Some(DriftSignal(feature, zscore, row[feature].value, stats.mean));
            }
          }
        }
        assert found == SignalFor(row, feature, stats);
        TrackStep(referenceStats, row, i, signals);
        if found.Some? {
          signals := signals + [found.value];
        }
      }
    }
  }

  /** One feature of the loop in `Track`: its signal, if any, joins those already found. */
  lemma TrackStep(stats: seq<(string, Stats)>, row: FeatureRow, i: nat, signals: seq<DriftSignal>)
    requires i < |stats|
    requires signals + Signals(stats[i..], row) == Signals(stats, row)
    ensures var first := SignalFor(row, stats[i].0, stats[i].1);
      (if first.Some? then signals + [first.value] else signals) + Signals(stats[i + 1..], row) == Signals(stats, row)
  {
    SignalsFrom(stats, row, i);
    var first := SignalFor(row, stats[i].0, stats[i].1);
    if first.Some? {
      assert signals + [first.value] + Signals(stats[i + 1..], row) == signals + ([first.value] + Signals(stats[i + 1..], row));
    }
  }

  /** The signals from position `i` on: those of feature `i`, then those after it. */
  lemma SignalsFrom(stats: seq<(string, Stats)>, row: FeatureRow, i: nat)
    requires i < |stats|
    ensures var first := SignalFor(row, stats[i].0, stats[i].1);
      Signals(stats[i..], row) == (if first.Some? then [first.value] else []) + Signals(stats[i + 1..], row)
  {
    assert stats[i..][1..] == stats[i + 1..];
  }

  predicate DistinctNames(stats: seq<(string, Stats)>)
  {
    forall i, j :: 0 <= i < j < |stats| ==> stats[i].0 != stats[j].0
  }

  /** Every signal is for a feature of the statistics whose value is present and whose
      standard deviation is usable, and records that value, the reference mean and a z-score
      at or above the threshold. */
  lemma {:induction false} SignalsSound(stats: seq<(string, Stats)>, row: FeatureRow)
    ensures forall sig :: sig in Signals(stats, row) ==>
      exists i :: 0 <= i < |stats| && stats[i].0 == sig.feature
        && Measurable(row, sig.feature, stats[i].1)
        && sig.currentValue == row[sig.feature].value
        && sig.referenceMean == stats[i].1.mean
        && sig.zscore == Zscore(sig.currentValue, stats[i].1)
        && sig.zscore >= DriftZscoreThreshold
  {
    if stats != [] {
      SignalsSound(stats[1..], row);
      forall sig | sig in Signals(stats, row)
        ensures exists i :: (0 <= i < |stats| && stats[i].0 == sig.feature
          && Measurable(row, sig.feature, stats[i].1)
          && sig.currentValue == row[sig.feature].value
          && sig.referenceMean == stats[i].1.mean
          && sig.zscore == Zscore(sig.currentValue, stats[i].1)
          && sig.zscore >= DriftZscoreThreshold)
      {
        if sig in Signals(stats[1..], row) {
          var i :| 0 <= i < |stats[1..]| && stats[1..][i].0 == sig.feature
            && Measurable(row, sig.feature, stats[1..][i].1)
            && sig.currentValue == row[sig.feature].value
            && sig.referenceMean == stats[1..][i].1.mean
            && sig.zscore == Zscore(sig.currentValue, stats[1..][i].1)
            && sig.zscore >= DriftZscoreThreshold;
          assert stats[1..][i] == stats[i + 1];
        } else {
          assert stats[0].0 == sig.feature;
        }
      }
    }
  }

  /** The signal a feature raises is among the signals. */
  lemma {:induction false} SignalListed(stats: seq<(string, Stats)>, row: FeatureRow, i: nat)
    requires i < |stats| && SignalFor(row, stats[i].0, stats[i].1).Some?
    ensures SignalFor(row, stats[i].0, stats[i].1).value in Signals(stats, row)
  {
    if i > 0 {
      assert stats[1..][i - 1] == stats[i];
      SignalListed(stats[1..], row, i - 1);
    }
  }

  /** With one entry per feature, a feature is reported exactly when its value is present, its
      standard deviation is usable and its z-score reaches the threshold. */
  lemma SignalIff(stats: seq<(string, Stats)>, row: FeatureRow, i: nat)
    requires DistinctNames(stats) && i < |stats|
    ensures (exists sig :: sig in Signals(stats, row) && sig.feature == stats[i].0) <==>
      Measurable(row, stats[i].0, stats[i].1)
      && Zscore(row[stats[i].0].value, stats[i].1) >= DriftZscoreThreshold
  {
    var name := stats[i].0;
    if exists sig :: sig in Signals(stats, row) && sig.feature == name {
      var sig :| sig in Signals(stats, row) && sig.feature == name;
      SignalsSound(stats, row);
      var j :| 0 <= j < |stats| && stats[j].0 == sig.feature
        && Measurable(row, sig.feature, stats[j].1)
        && sig.currentValue == row[sig.feature].value
        && sig.zscore == Zscore(sig.currentValue, stats[j].1)
        && sig.zscore >= DriftZscoreThreshold;
      assert j == i;
    } else if SignalFor(row, name, stats[i].1).Some? {
      SignalListed(stats, row, i);
      assert false;
    }
  }

  function Features(sigs: seq<DriftSignal>): seq<string>
  {
    seq(|sigs|, i requires 0 <= i < |sigs| => sigs[i].feature)
  }

  function Names(stats: seq<(string, Stats)>): seq<string>
  {
    seq(|stats|, i requires 0 <= i < |stats| => stats[i].0)
  }

  /** The signals follow the order of the reference statistics. */
  lemma {:induction false} SignalsInOrder(stats: seq<(string, Stats)>, row: FeatureRow)
    ensures IsSubsequence(Features(Signals(stats, row)), Names(stats))
  {
    if stats != [] {
      var rest := stats[1..];
      SignalsInOrder(rest, row);
      var first := SignalFor(row, stats[0].0, stats[0].1);
      var sigs := Features(Signals(stats, row));
      assert Names(stats)[1..] == Names(rest);
      if first.Some? {
        assert sigs[0] == Names(stats)[0];
        assert sigs[1..] == Features(Signals(rest, row));
      } else {
        assert sigs == Features(Signals(rest, row));
      }
    }
  }

  /** With one entry per feature in the statistics, no feature is reported twice. */
  lemma {:induction false} OnePerFeature(stats: seq<(string, Stats)>, row: FeatureRow)
    requires DistinctNames(stats)
    ensures forall a, b :: 0 <= a < b < |Signals(stats, row)| ==>
      Signals(stats, row)[a].feature != Signals(stats, row)[b].feature
  {
    if stats != [] {
      var rest := stats[1..];
      forall a, b | 0 <= a < b < |rest| ensures rest[a].0 != rest[b].0 {
        assert rest[a] == stats[a + 1] && rest[b] == stats[b + 1];
      }
      OnePerFeature(rest, row);
      SignalsSound(rest, row);
      var tail := Signals(rest, row);
      forall sig | sig in tail ensures sig.feature != stats[0].0 {
        var j :| 0 <= j < |rest| && rest[j].0 == sig.feature;
        assert rest[j] == stats[j + 1];
      }
      var first := SignalFor(row, stats[0].0, stats[0].1);
      var sigs := Signals(stats, row);
      if first.Some? {
        forall a, b | 0 <= a < b < |sigs| ensures sigs[a].feature != sigs[b].feature {
          assert sigs[b] == tail[b - 1] && tail[b - 1] in tail;
          if a > 0 {
            assert sigs[a] == tail[a - 1];
          }
        }
      } else {
        assert sigs == tail;
      }
    }
  }
}
