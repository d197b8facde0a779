/**
 * The prediction side of the API: the `[hour, day code]` training rows that
 * `train_or_load_model` builds, the `LabelEncoder` that turns weekday names
 * into codes, and `POST /api/predict`, which encodes a request the same way
 * and clamps the model's answer to a non-negative whole number of likes.
 */
module Prediction {
  import opened Wrappers
  import opened Strings
  import opened Timestamps
  import opened Stats

  /** `all_days`, the labels the encoder is fitted on. */
  const AllDays: seq<string> := ["Monday", "Tuesday", "Wednesday", "Thursday", "Friday", "Saturday", "Sunday"]

  /** The same names in Python's string order. */
  const SortedDays: seq<string> := ["Friday", "Monday", "Saturday", "Sunday", "Thursday", "Tuesday", "Wednesday"]

  /** `LabelEncoder().fit(all_days).classes_`. */
  function EncoderClasses(): seq<string>
  {
    SortedUnique(AllDays)
  }

  /** The fitted classes are the seven names in alphabetical order. */
  lemma {:induction false} EncoderClassesSorted()
    ensures EncoderClasses() == SortedDays
  {
    assert Less(SortedDays[0], SortedDays[1]);
    assert Less(SortedDays[1], SortedDays[2]);
    assert Less(SortedDays[2], SortedDays[3]);
    assert Less(SortedDays[3], SortedDays[4]);
    assert Less(SortedDays[4], SortedDays[5]);
    assert Less(SortedDays[5], SortedDays[6]);
    StrictlySortedByNeighbours(SortedDays);
    assert forall y :: y in SortedDays <==> y in AllDays;
    StrictlySortedUnique(EncoderClasses(), SortedDays);
  }

  /** `encoder.transform([name])[0]`: the position of `name` among the classes; raises (`None`) on an unseen name. */
  function Transform(classes: seq<string>, name: string): (r: Option<nat>)
    ensures r.None? <==> name !in classes
    ensures r.Some? ==> r.value < |classes| && classes[r.value] == name
    ensures r.Some? ==> forall j :: 0 <= j < r.value ==> classes[j] != name
  {
    if |classes| == 0 then None
    else if classes[0] == name then Some(0)
    else
      match Transform(classes[1..], name)
      case None => None
      case Some(i) => Some(i + 1)
  }

  /** The code a weekday name gets, at training and at prediction alike: its alphabetical rank. */
  function DayCode(day: string): (r: Option<nat>)
    ensures r.Some? <==> day in AllDays
    ensures r.Some? ==> r.value < 7 && SortedDays[r.value] == day
  {
    EncoderClassesSorted();
    Transform(EncoderClasses(), day)
  }

  /** `X` (rows `[hour, code]`) and `y` (likes) as `train_or_load_model` builds them. */
  datatype TrainingSet = TrainingSet(x: seq<seq<int>>, y: seq<int>)

  /** The feature row of a post: the hour and the code of the weekday of its timestamp. */
  function RowOf(p: SamplePost): (row: seq<int>)
    requires Parses(p)
    ensures |row| == 2 && 0 <= row[0] < 24 && 0 <= row[1] < 7
  {
    [HourOf(p), DayCode(DayOf(p)).value]
  }

  /** The rows before encoding: hours, weekday names and likes, one entry per post. */
  datatype RawRows = RawRows(hours: seq<int>, days: seq<string>, likes: seq<int>)

  /**
   * The loop `X.append([hour, day]); y.append(post['likes_count'])`; a
   * timestamp `fromisoformat` rejects raises, and that is the error.
   */
  method CollectRows(posts: seq<SamplePost>) returns (r: Result<RawRows, string>)
    ensures FirstInvalid(posts).Some? ==> r == Failure(posts[FirstInvalid(posts).value].timestamp)
    ensures FirstInvalid(posts).None? ==> r == Success(RawRows(Hours(posts), Days(posts), Likes(posts)))
  {
    var hours: seq<int> := [];
    var days: seq<string> := [];
    var y: seq<int> := [];
    var i := 0;
    while i < |posts|
      invariant 0 <= i <= |posts|
      invariant AllParse(posts[..i])
      invariant hours == Hours(posts[..i]) && days == Days(posts[..i]) && y == Likes(posts[..i])
    {
      var dt := ParseTimestamp(posts[i].timestamp);
      if dt.None? {
        FirstInvalidAt(posts, i);
        return Failure(posts[i].timestamp);
      }
      ParsesSnoc(posts, i);
      ColumnsSnoc(posts, i);
      hours := hours + [dt.value.hour];
      days := days + [DayName(dt.value)];
      y := y + [posts[i].likesCount];
      i := i + 1;
    }
    assert posts[..i] == posts;
    return Success(RawRows(hours, days, y));
  }

  /**
   * `train_or_load_model` without a stored model: the rows `[hour, code]` and
   * the targets it fits on, or the timestamp that made it raise.
   */
  method TrainingRows(posts: seq<SamplePost>) returns (r: Result<TrainingSet, string>)
    ensures FirstInvalid(posts).Some? ==> r == Failure(posts[FirstInvalid(posts).value].timestamp)
    ensures FirstInvalid(posts).None? ==>
      && r.Success? && |r.value.x| == |posts| && |r.value.y| == |posts|
      && (forall i :: 0 <= i < |posts| ==> r.value.x[i] == RowOf(posts[i]) && r.value.y[i] == posts[i].likesCount)
  {
    var raw := CollectRows(posts);
    if raw.Failure? {
      return Failure(raw.error);
    }
    var rows := raw.value;
    assert forall j :: 0 <= j < |posts| ==> rows.days[j] in AllDays;
    var x := seq(|posts|, j requires 0 <= j < |posts| && rows.days[j] in AllDays => [rows.hours[j], DayCode(rows.days[j]).value]);
    return Success(TrainingSet(x, rows.likes));
  }

  /** Why `train_or_load_model` raises. */
  datatype TrainError = BadTimestamp(timestamp: string) | NoSamples

  /**
   * `train_or_load_model`: a stored model is returned as it is; otherwise the
   * model is fitted on the training rows (`fit` stands for
   * `LinearRegression().fit`, which raises on an empty table).
   */
  method TrainOrLoadModel<M>(posts: seq<SamplePost>, stored: Option<M>, fit: TrainingSet -> M) returns (r: Result<M, TrainError>)
    ensures stored.Some? ==> r == Success(stored.value)
    ensures stored.None? && FirstInvalid(posts).Some? ==>
      r == Failure(BadTimestamp(posts[FirstInvalid(posts).value].timestamp))
    ensures stored.None? && AllParse(posts) && |posts| == 0 ==> r == Failure(NoSamples)
    ensures stored.None? && AllParse(posts) && |posts| > 0 ==>
      exists t: TrainingSet ::
        && r == Success(fit(t)) && |t.x| == |posts| && |t.y| == |posts|
        && (forall i :: 0 <= i < |posts| ==> t.x[i] == RowOf(posts[i]) && t.y[i] == posts[i].likesCount)
  {
    if stored.Some? {
      return Success(stored.value);
    }
    var rows := TrainingRows(posts);
    if rows.Failure? {
      return Failure(BadTimestamp(rows.error));
    }
    if |rows.value.x| == 0 {
      return Failure(NoSamples);
    }
    return Success(fit(rows.value));
  }

  /** `int(p)` on a float: the whole part, rounding toward zero. */
  function Truncate(p: real): (r: int)
    ensures p >= 0.0 ==> 0 <= r && r as real <= p < r as real + 1.0
    ensures p < 0.0 ==> r <= 0 && r as real - 1.0 < p <= r as real
  {
    if p >= 0.0 then p.Floor else -((-p).Floor)
  }

  /** `max(0, int(p))`. */
  function Clamp(p: real): (r: int)
    ensures r >= 0
  {
    if Truncate(p) > 0 then Truncate(p) else 0
  }

  /** The clamp never answers a negative count; below one like it answers 0, and otherwise the whole part. */
  lemma {:induction false} ClampBounds(p: real)
    ensures Clamp(p) >= 0
    ensures Clamp(p) == 0 <==> p < 1.0
    ensures p >= 0.0 ==> Clamp(p) as real <= p < Clamp(p) as real + 1.0
  {
  }

  /** Why `predict_likes` answers 500. */
  datatype PredictError = ModelUnavailable | UnknownDay(day: string)

  /**
   * `POST /api/predict` given the request's hour and day: the stored model
   * (`None` when it cannot be loaded) predicts from `[hour, code(day)]`.
   * The hour is passed through unchecked.
   */
  function PredictLikes(hour: int, day: string, model: Option<seq<int> -> real>): (r: Result<int, PredictError>)
    ensures model.None? ==> r == Failure(ModelUnavailable)
    ensures model.Some? && day !in AllDays ==> r == Failure(UnknownDay(day))
    ensures model.Some? && day in AllDays ==>
      r.Success? && r.value >= 0 && r.value == Clamp(model.value([hour, DayCode(day).value]))
  {
    ClampBounds(0.0);
    match model
    case None => Failure(ModelUnavailable)
    case Some(predict) =>
      match DayCode(day)
      case None => Failure(UnknownDay(day))
      case Some(code) => Success(Clamp(predict([hour, code])))
  }

  /**
   * Training and prediction encode alike: asking about a post's own hour and
   * weekday feeds the model exactly the row it was trained on for that post.
   */
  lemma {:induction false} TrainPredictAgree(p: SamplePost, predict: seq<int> -> real)
    requires Parses(p)
    ensures PredictLikes(HourOf(p), DayOf(p), Some(predict)) == Success(Clamp(predict(RowOf(p))))
  {
    assert DayOf(p) in AllDays;
  }
}
