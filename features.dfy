/**
 * The offline retraining script: `extract_features` turns posts into a
 * feature table, `prepare_data` one-hot encodes the weekday (dropping the
 * alphabetically first day present) and splits off the likes as the target,
 * `train_model` fits on an 80/20 split, and `main` saves the model together
 * with its feature names, or nothing.
 */
module Features {
  import opened Wrappers
  import opened Strings
  import opened Timestamps
  import opened Stats
  import opened Prediction

  /** One row of the table `extract_features` builds. */
  datatype FeatureRow = FeatureRow(hour: int, dayOfWeek: string, isPeakHour: int, isWeekday: int, likesCount: int)

  /** Monday to Friday, the days whose `weekday()` is below 5. */
  const WorkDays: seq<string> := DayNames[..5]

  /** The features of one post, read from its timestamp. */
  function FeatureOf(p: SamplePost): FeatureRow
    requires Parses(p)
  {
    var dt := ParseTimestamp(p.timestamp).value;
    FeatureRow(dt.hour, DayName(dt),
               if 12 <= dt.hour <= 18 then 1 else 0,
               if Weekday(dt) < 5 then 1 else 0,
               p.likesCount)
  }

  /** The feature table of posts whose timestamps all parse. */
  function FeatureTable(data: seq<SamplePost>): (rows: seq<FeatureRow>)
    requires AllParse(data)
    ensures |rows| == |data|
  {
    seq(|data|, i requires 0 <= i < |data| && AllParse(data) => FeatureOf(data[i]))
  }

  /**
   * Each feature row holds the post's hour (0 to 23) and weekday name; the
   * peak flag is set exactly from 12 to 18 o'clock; the weekday flag is set
   * exactly on Monday to Friday; the likes are copied.
   */
  lemma {:induction false} FeatureOfFacts(p: SamplePost)
    requires Parses(p)
    ensures var f := FeatureOf(p);
      && f.hour == HourOf(p) && 0 <= f.hour < 24
      && f.dayOfWeek == DayOf(p)
      && (f.isPeakHour == 1 <==> 12 <= f.hour <= 18)
      && (f.isPeakHour == 0 <==> !(12 <= f.hour <= 18))
      && (f.isWeekday == 1 <==> f.dayOfWeek in WorkDays)
      && (f.isWeekday == 0 <==> f.dayOfWeek !in WorkDays)
      && f.likesCount == p.likesCount
  {
    var dt := ParseTimestamp(p.timestamp).value;
    var w := Weekday(dt);
    assert DayNames[5] !in WorkDays by {
      assert DayNames[5][0] == 'S';
      assert forall k :: 0 <= k < 5 ==> WorkDays[k][0] != 'S';
    }
    assert DayNames[6] !in WorkDays by {
      assert DayNames[6][0] == 'S';
      assert forall k :: 0 <= k < 5 ==> WorkDays[k][0] != 'S';
    }
    assert w < 5 ==> DayNames[w] == WorkDays[w];
  }

  /** One more post adds its feature row at the end. */
  lemma {:induction false} FeatureTableSnoc(data: seq<SamplePost>, i: nat)
    requires i < |data| && AllParse(data[..i + 1])
    ensures AllParse(data[..i])
    ensures FeatureTable(data[..i + 1]) == FeatureTable(data[..i]) + [FeatureOf(data[i])]
  {
    assert data[..i + 1] == data[..i] + [data[i]];
  }

  /**
   * `extract_features`: an empty table for no posts, otherwise one row per
   * post in order; a timestamp `fromisoformat` rejects raises, and that
   * timestamp is the error.
   */
  method ExtractFeatures(data: seq<SamplePost>) returns (r: Result<seq<FeatureRow>, string>)
    ensures |data| == 0 ==> r == Success([])
    ensures FirstInvalid(data).Some? ==> r == Failure(data[FirstInvalid(data).value].timestamp)
    ensures FirstInvalid(data).None? ==> r == Success(FeatureTable(data))
  {
    if |data| == 0 {
      return Success([]);
    }
    var features: seq<FeatureRow> := [];
    var i := 0;
    while i < |data|
      invariant 0 <= i <= |data|
      invariant AllParse(data[..i])
      invariant features == FeatureTable(data[..i])
    {
      var dt := ParseTimestamp(data[i].timestamp);
      if dt.None? {
        FirstInvalidAt(data, i);
        return Failure(data[i].timestamp);
      }
      var hour := dt.value.hour;
      var isPeak := if 12 <= hour <= 18 then 1 else 0;
      var isWeekday := if Weekday(dt.value) < 5 then 1 else 0;
      var row := FeatureRow(hour, DayName(dt.value), isPeak, isWeekday, data[i].likesCount);
      assert row == FeatureOf(data[i]);
      ParsesSnoc(data, i);
      FeatureTableSnoc(data, i);
      features := features + [row];
      i := i + 1;
    }
    assert data[..i] == data;
    return Success(features);
  }

  /** A pandas table of numbers: its column names and its rows. */
  datatype Table = Table(columns: seq<string>, rows: seq<seq<int>>)

  /** What `prepare_data` returns: the features `X` and the target `y`. */
  datatype Prepared = Prepared(x: Table, y: seq<int>)

  /** The columns of `X` before the weekday indicators. */
  const BaseColumns: seq<string> := ["hour", "is_peak_hour", "is_weekday"]

  /** The prefix `get_dummies` gives the indicator columns of `day_of_week`. */
  const DummyPrefix: string := "day_of_week_"

  /** The weekday column of the table. */
  function DayColumn(rows: seq<FeatureRow>): (days: seq<string>)
    ensures |days| == |rows|
    ensures forall i :: 0 <= i < |rows| ==> days[i] == rows[i].dayOfWeek
  {
    seq(|rows|, i requires 0 <= i < |rows| => rows[i].dayOfWeek)
  }

  /** The weekdays that get an indicator: the sorted distinct ones present, less the first. */
  function KeptDays(rows: seq<FeatureRow>): (kept: seq<string>)
    ensures StrictlySorted(kept)
    ensures forall d :: d in kept ==> d in DayColumn(rows)
  {
    var cats := SortedUnique(DayColumn(rows));
    if |cats| == 0 then [] else TailSorted(cats); cats[1..]
  }

  /** The `get_dummies` column names: one `day_of_week_<day>` per kept day, distinct for distinct days. */
  function IndicatorNames(kept: seq<string>): (names: seq<string>)
    ensures |names| == |kept|
    ensures forall j :: 0 <= j < |kept| ==> names[j] == DummyPrefix + kept[j]
    ensures forall a, b :: 0 <= a < |kept| && 0 <= b < |kept| ==> (names[a] == names[b] <==> kept[a] == kept[b])
  {
    var names := seq(|kept|, j requires 0 <= j < |kept| => DummyPrefix + kept[j]);
    assert forall a, b :: 0 <= a < |kept| && 0 <= b < |kept| && names[a] == names[b] ==> kept[a] == kept[b] by {
      forall a, b | 0 <= a < |kept| && 0 <= b < |kept| && names[a] == names[b]
        ensures kept[a] == kept[b]
      {
        assert kept[a] == names[a][|DummyPrefix|..];
        assert kept[b] == names[b][|DummyPrefix|..];
      }
    }
    names
  }

  /**
   * The indicator values of one row: 1 under its own day, 0 elsewhere. Over
   * distinct sorted days at most one is set, and one exactly when the row's
   * day has a column.
   */
  function Indicators(kept: seq<string>, day: string): (flags: seq<int>)
    ensures |flags| == |kept|
    ensures forall j :: 0 <= j < |kept| ==> flags[j] == if kept[j] == day then 1 else 0
    ensures StrictlySorted(kept) ==> Ones(flags) == if day in kept then 1 else 0
    decreases |kept|
  {
    if |kept| == 0 then []
    else
      var rest := Indicators(kept[1..], day);
      var flags := [if kept[0] == day then 1 else 0] + rest;
      assert flags[1..] == rest;
      assert StrictlySorted(kept) ==> Ones(flags) == if day in kept then 1 else 0 by {
        if StrictlySorted(kept) {
          TailSorted(kept);
          if kept[0] == day {
            forall j | 0 <= j < |kept[1..]|
              ensures kept[1..][j] != day
            {
              assert Less(kept[0], kept[j + 1]);
              LessIrreflexive(day);
            }
          }
          assert day in kept <==> day == kept[0] || day in kept[1..] by {
            assert kept == [kept[0]] + kept[1..];
          }
        }
      }
      flags
  }

  /** The tail of a strictly sorted list is strictly sorted. */
  lemma {:induction false} TailSorted(kept: seq<string>)
    requires |kept| > 0 && StrictlySorted(kept)
    ensures StrictlySorted(kept[1..])
  {
    forall a, b | 0 <= a < b < |kept[1..]|
      ensures Less(kept[1..][a], kept[1..][b])
    {
      assert kept[1..][a] == kept[a + 1] && kept[1..][b] == kept[b + 1];
    }
  }

  /**
   * `prepare_data`: an empty table gives an empty `X` and `y`; otherwise
   * `get_dummies(df, columns=['day_of_week'], drop_first=True)` followed by
   * dropping `likes_count` into `y`.
   */
  function PrepareData(rows: seq<FeatureRow>): Prepared
  {
    if |rows| == 0 then Prepared(Table([], []), [])
    else
      var kept := KeptDays(rows);
      var x := seq(|rows|, i requires 0 <= i < |rows| =>
                 [rows[i].hour, rows[i].isPeakHour, rows[i].isWeekday] + Indicators(kept, rows[i].dayOfWeek));
      var y := seq(|rows|, i requires 0 <= i < |rows| => rows[i].likesCount);
      Prepared(Table(BaseColumns + IndicatorNames(kept), x), y)
  }

  /** `df.empty`: no rows or no columns. */
  predicate IsEmpty(t: Table)
  {
    |t.columns| == 0 || |t.rows| == 0
  }

  /** The number of entries equal to 1. */
  function Ones(s: seq<int>): nat
  {
    if |s| == 0 then 0 else (if s[0] == 1 then 1 else 0) + Ones(s[1..])
  }

  /** Row counts are kept, `y` is the likes column, and `X` has no likes column. */
  lemma {:induction false} PrepareShape(rows: seq<FeatureRow>)
    ensures var p := PrepareData(rows);
      && |p.x.rows| == |rows| && |p.y| == |rows|
      && (forall i :: 0 <= i < |rows| ==> p.y[i] == rows[i].likesCount)
      && (forall i :: 0 <= i < |rows| ==> |p.x.rows[i]| == |p.x.columns|)
      && "likes_count" !in p.x.columns
      && (IsEmpty(p.x) <==> |rows| == 0)
      && (|rows| == 0 ==> p.x.columns == [] && p.x.rows == [] && p.y == [])
  {
    var p := PrepareData(rows);
    if |rows| > 0 {
      var kept := KeptDays(rows);
      forall c | c in p.x.columns
        ensures c != "likes_count"
      {
        assert c[0] != 'l';
      }
    }
  }

  /**
   * The columns of `X`: `hour`, `is_peak_hour`, `is_weekday`, then one
   * indicator per distinct weekday present except the alphabetically first,
   * in alphabetical order.
   */
  lemma {:induction false} PrepareColumns(rows: seq<FeatureRow>)
    requires |rows| > 0
    ensures var first := SortedUnique(DayColumn(rows))[0];
      var kept := KeptDays(rows);
      && first in DayColumn(rows)
      && (forall d :: d in DayColumn(rows) ==> d == first || Less(first, d))
      && StrictlySorted(kept)
      && (forall d :: d in kept <==> d in DayColumn(rows) && d != first)
      && PrepareData(rows).x.columns == BaseColumns + IndicatorNames(kept)
  {
    var days := DayColumn(rows);
    var cats := SortedUnique(days);
    assert days[0] in days;
    var first := cats[0];
    forall d | d in days
      ensures d == first || Less(first, d)
    {
      var j :| 0 <= j < |cats| && cats[j] == d;
    }
    forall d
      ensures d in cats[1..] <==> d in days && d != first
    {
      if d in cats[1..] {
        var j :| 1 <= j < |cats| && cats[j] == d;
        LessIrreflexive(first);
      }
      if d in days && d != first {
        var j :| 0 <= j < |cats| && cats[j] == d;
        assert cats[1..][j - 1] == d;
      }
    }
    forall a, b | 0 <= a < b < |cats[1..]|
      ensures Less(cats[1..][a], cats[1..][b])
    {
      assert cats[1..][a] == cats[a + 1] && cats[1..][b] == cats[b + 1];
    }
  }

  /**
   * One row of `X`: the hour, the two flags, then an indicator set under the
   * row's own weekday only, so exactly one indicator is set, or none when the
   * row's weekday is the dropped first one.
   */
  lemma {:induction false} PrepareRow(rows: seq<FeatureRow>, i: nat)
    requires i < |rows|
    ensures var p := PrepareData(rows);
      var row := p.x.rows[i];
      var first := SortedUnique(DayColumn(rows))[0];
      && |row| == |p.x.columns|
      && row[..3] == [rows[i].hour, rows[i].isPeakHour, rows[i].isWeekday]
      && (forall j :: 3 <= j < |row| ==> (row[j] == 1 <==> p.x.columns[j] == DummyPrefix + rows[i].dayOfWeek))
      && (forall j :: 3 <= j < |row| ==> row[j] == 0 || row[j] == 1)
      && Ones(row[3..]) == if rows[i].dayOfWeek == first then 0 else 1
  {
    PrepareColumns(rows);
    var p := PrepareData(rows);
    var kept := KeptDays(rows);
    var day := rows[i].dayOfWeek;
    var row := p.x.rows[i];
    assert row[3..] == Indicators(kept, day);
    forall j | 3 <= j < |row|
      ensures row[j] == 1 <==> p.x.columns[j] == DummyPrefix + day
    {
      assert p.x.columns[j] == DummyPrefix + kept[j - 3];
      if DummyPrefix + kept[j - 3] == DummyPrefix + day {
        assert kept[j - 3] == (DummyPrefix + kept[j - 3])[|DummyPrefix|..];
        assert day == (DummyPrefix + day)[|DummyPrefix|..];
      }
    }
    assert day in DayColumn(rows) by {
      assert DayColumn(rows)[i] == day;
    }
  }

  /** An increasing list drawn from another increasing list is no longer than it. */
  lemma {:induction false} SortedSubsetLength(s: seq<string>, t: seq<string>)
    requires StrictlySorted(s) && StrictlySorted(t)
    requires forall d :: d in s ==> d in t
    ensures |s| <= |t|
    decreases |t|
  {
    if |s| > 0 {
      assert s[0] in t;
      assert StrictlySorted(s[1..]) && StrictlySorted(t[1..]) by {
        forall a, b | 0 <= a < b < |s| - 1
          ensures Less(s[1..][a], s[1..][b])
        {
          assert s[1..][a] == s[a + 1] && s[1..][b] == s[b + 1];
        }
        forall a, b | 0 <= a < b < |t| - 1
          ensures Less(t[1..][a], t[1..][b])
        {
          assert t[1..][a] == t[a + 1] && t[1..][b] == t[b + 1];
        }
      }
      if s[0] == t[0] {
        forall d | d in s[1..]
          ensures d in t[1..]
        {
          var j :| 1 <= j < |s| && s[j] == d;
          assert s[j] in s;
          assert Less(t[0], d);
          LessIrreflexive(d);
          var k :| 0 <= k < |t| && t[k] == d;
          assert t[1..][k - 1] == d;
        }
        SortedSubsetLength(s[1..], t[1..]);
      } else {
        var k :| 0 <= k < |t| && t[k] == s[0];
        assert Less(t[0], s[0]);
        forall d | d in s
          ensures d in t[1..]
        {
          var j :| 0 <= j < |s| && s[j] == d;
          if j > 0 {
            assert Less(s[0], d);
            LessTransitive(t[0], s[0], d);
          }
          assert Less(t[0], d);
          LessIrreflexive(d);
          var m :| 0 <= m < |t| && t[m] == d;
          assert t[1..][m - 1] == d;
        }
        SortedSubsetLength(s, t[1..]);
      }
    }
  }

  /** `X` never has more than nine columns: three base columns and at most six weekday indicators. */
  lemma {:induction false} ColumnsAtMostNine(data: seq<SamplePost>)
    requires AllParse(data)
    ensures |PrepareData(FeatureTable(data)).x.columns| <= 9
  {
    var rows := FeatureTable(data);
    if |rows| > 0 {
      var cats := SortedUnique(DayColumn(rows));
      forall d | d in cats
        ensures d in SortedDays
      {
        var i :| 0 <= i < |rows| && rows[i].dayOfWeek == d;
        FeatureOfFacts(data[i]);
        assert d in DayNames;
      }
      EncoderClassesSorted();
      SortedSubsetLength(cats, SortedDays);
    }
  }

  /**
   * The shuffle `train_test_split` draws: every row index `0 .. n-1` exactly
   * once (the draw itself, seeded with 42, is numpy's and not modelled).
   */
  predicate IsPermutation(order: seq<nat>, n: nat)
  {
    && |order| == n
    && (forall k :: 0 <= k < n ==> order[k] < n)
    && (forall k :: 0 <= k < n ==> k in order)
    && (forall a, b :: 0 <= a < b < n ==> order[a] != order[b])
  }

  /** `test_size=0.2`: the test part has `ceil(0.2 * n)` rows. */
  function TestSize(n: nat): (t: nat)
    ensures t <= n
  {
    (n + 4) / 5
  }

  /** The row indices of the test part: the first `TestSize(n)` of the shuffle. */
  function TestIndices(order: seq<nat>): seq<nat>
  {
    order[..TestSize(|order|)]
  }

  /** The row indices of the training part: the rest of the shuffle. */
  function TrainIndices(order: seq<nat>): seq<nat>
  {
    order[TestSize(|order|)..]
  }

  /**
   * The split is a partition: every row lands in exactly one part, the test
   * part is a fifth of the rows rounded up, and the training part is empty
   * exactly when there is a single row.
   */
  lemma {:induction false} SplitPartitions(order: seq<nat>, n: nat)
    requires IsPermutation(order, n)
    ensures |TrainIndices(order)| + |TestIndices(order)| == n
    ensures 5 * |TestIndices(order)| >= n && 5 * |TestIndices(order)| < n + 5
    ensures forall k :: 0 <= k < n ==> (k in TrainIndices(order) <==> k !in TestIndices(order))
    ensures n > 0 ==> (|TrainIndices(order)| == 0 <==> n == 1)
    ensures n > 0 ==> |TestIndices(order)| > 0
  {
    var t := TestSize(n);
    forall k | 0 <= k < n
      ensures k in TrainIndices(order) <==> k !in TestIndices(order)
    {
      assert k in order;
      var p :| 0 <= p < n && order[p] == k;
      if p < t {
        assert TestIndices(order)[p] == k;
        forall q | 0 <= q < n - t
          ensures TrainIndices(order)[q] != k
        {
          assert TrainIndices(order)[q] == order[t + q];
        }
      } else {
        assert TrainIndices(order)[p - t] == k;
        forall q | 0 <= q < t
          ensures TestIndices(order)[q] != k
        {
          assert TestIndices(order)[q] == order[q];
        }
      }
    }
  }

  /** `X_train, y_train`: the rows and targets at the training indices, all columns kept. */
  function TrainPart(x: Table, y: seq<int>, order: seq<nat>): (part: Prepared)
    requires |x.rows| == |y| && IsPermutation(order, |y|)
    ensures part.x.columns == x.columns
    ensures |part.x.rows| == |part.y| == |TrainIndices(order)|
    ensures forall i :: 0 <= i < |part.y| ==>
      part.x.rows[i] == x.rows[TrainIndices(order)[i]] && part.y[i] == y[TrainIndices(order)[i]]
    ensures |part.y| == |y| - TestSize(|y|)
    ensures forall i :: 0 <= i < |part.y| ==> TrainIndices(order)[i] !in TestIndices(order)
    ensures forall k :: 0 <= k < |y| && k !in TestIndices(order) ==> k in TrainIndices(order)
  {
    var train := TrainIndices(order);
    SplitPartitions(order, |y|);
    assert forall i :: 0 <= i < |train| ==> train[i] == order[TestSize(|y|) + i] && train[i] < |y|;
    Prepared(Table(x.columns, seq(|train|, i requires 0 <= i < |train| => x.rows[train[i]])),
             seq(|train|, i requires 0 <= i < |train| => y[train[i]]))
  }

  /** What `train_model` returns when it trains: the model and its feature names. */
  datatype Trained<M> = Trained(model: M, featureNames: seq<string>)

  /**
   * Why `train_model` gives no model: it returns `(None, None)` on an empty
   * table, and the split raises when the training part would be empty.
   */
  datatype TrainFailure = NoTrainingData | EmptyTrainSplit

  /**
   * `train_model`: `fit` stands for `XGBRegressor(...).fit` on the training
   * part; the test part only feeds the printed error, which is not modelled.
   */
  function TrainModel<M>(x: Table, y: seq<int>, order: seq<nat>, fit: Prepared -> M): (r: Result<Trained<M>, TrainFailure>)
    requires |x.rows| == |y| && IsPermutation(order, |y|)
    ensures r == Failure(NoTrainingData) <==> IsEmpty(x) || |y| == 0
    ensures r == Failure(EmptyTrainSplit) <==> !IsEmpty(x) && |y| == 1
    ensures r.Success? <==> !IsEmpty(x) && |y| >= 2
    ensures r.Success? ==> r.value.featureNames == x.columns && r.value.model == fit(TrainPart(x, y, order))
  {
    SplitPartitions(order, |y|);
    if IsEmpty(x) || |y| == 0 then Failure(NoTrainingData)
    else if |TrainIndices(order)| == 0 then Failure(EmptyTrainSplit)
    else
      var part := TrainPart(x, y, order);
      Success(Trained(fit(part), part.x.columns))
  }

  /** Why `main` saves nothing. */
  datatype MainStop = UnreadableTimestamp(timestamp: string) | NoTableData | TrainingStopped(failure: TrainFailure)

  /** What a run of `main` leaves behind: the saved `{model, feature_names}`, or nothing. */
  datatype RunOutcome<M> = Saved(artifact: Trained<M>) | NotSaved(reason: MainStop)

  /**
   * `main` after loading the posts: extract, prepare, stop on an empty
   * table, train, and save the artifact; a raised error is caught and
   * nothing is saved.
   */
  method RetrainMain<M>(data: seq<SamplePost>, order: seq<nat>, fit: Prepared -> M) returns (r: RunOutcome<M>)
    requires IsPermutation(order, |data|)
    ensures FirstInvalid(data).Some? ==> r == NotSaved(UnreadableTimestamp(data[FirstInvalid(data).value].timestamp))
    ensures AllParse(data) && |data| == 0 ==> r == NotSaved(NoTableData)
    ensures AllParse(data) && |data| == 1 ==> r == NotSaved(TrainingStopped(EmptyTrainSplit))
    ensures AllParse(data) && |data| >= 2 ==>
      var p := PrepareData(FeatureTable(data));
      r == Saved(Trained(fit(TrainPart(p.x, p.y, order)), p.x.columns))
  {
    var features := ExtractFeatures(data);
    if features.Failure? {
      return NotSaved(UnreadableTimestamp(features.error));
    }
    var p := PrepareData(features.value);
    PrepareShape(features.value);
    if IsEmpty(p.x) || |p.y| == 0 {
      return NotSaved(NoTableData);
    }
    var trained := TrainModel(p.x, p.y, order, fit);
    if trained.Failure? {
      return NotSaved(TrainingStopped(trained.error));
    }
    return Saved(trained.value);
  }
}
