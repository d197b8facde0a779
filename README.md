# Viralyze core in Dafny

This project models the computational core of Viralyze, a small back end. It
scrapes Instagram post metadata, derives engagement statistics and trains a
regressor that predicts likes from the posting hour and weekday. Three pieces
of the Python back end are modelled and proved:

- **`backend/app.py`**. `get_stats` tallies likes per hour and per weekday,
  picks the best hour and day with `max`, picks the top post by likes plus
  comments, and builds the engagement trend over posts sorted by timestamp.
  `train_or_load_model` builds `[hour, day code]` rows with a `LabelEncoder`.
  `predict_likes` encodes a request the same way and clamps the answer to
  `max(0, int(p))`. (modules `Dicts`, `Stats`, `Prediction`)
- **`backend/retrain_model.py`**. `extract_features` builds the feature table
  (hour, weekday name, peak-hour flag, weekday flag, likes). `prepare_data`
  one-hot encodes the weekday with `drop_first=True` and splits off the likes
  as `y`. `train_model` fits on an 80/20 split. `main` saves the model with its
  feature names, or saves nothing. (module `Features`)
- **`backend/scraper.py`**. `process_posts` projects each raw timeline edge to a
  post record with caption and hashtags. `fetch_all_posts` is the pagination
  loop. It buffers edges, writes 500-post batches, follows the cursor, backs
  off on 401 and writes the remainder at the end. (modules `Posts`, `Fetcher`)

Supporting modules:

- `Wrappers` defines `Option` and `Result`.
- `Strings` models Python string order, sorted-unique label lists and
  `str.split()`.
- `Timestamps` parses and formats the fixed `YYYY-MM-DDTHH:MM:SSZ` form (RFC
  3339 section 5.6 `date-time` in UTC) and computes the proleptic Gregorian
  weekday.

Python behaviour that matters here is written out explicitly:

- A dict keeps insertion order, and `max(d, key=d.get)` returns the first key
  with the largest value.
- `sorted` is stable.
- `int(float)` truncates toward zero.
- `max` on an empty sequence raises.
- An exception that the source catches becomes a `Failure` value.

Where the code does a loop that updates variables, the model is a method with
a `while` loop. That method is proved equal to a function that states its result, and
the properties are lemmas about that function. The one exception is
`process_posts`: its loop maps each edge to one record independently, so it is
modelled as a sequence comprehension (`Posts.ProcessPosts`). `fetch_all_posts`
is modelled as a step function over the loop state, iterated once per server
answer (`Fetcher.Run`); the method `Fetcher.FetchAllPosts` runs that loop with
`while` and is proved equal to `Fetcher.FetchAll`.

### Behaviour of the code worth knowing

- **Bad timestamps.** `fromisoformat` raises on a malformed timestamp, so the
  whole call fails; no record is skipped. Here the result is `Failure`
  carrying the first bad timestamp.
- **Best-hour ties.** `max(d, key=d.get)` picks the first key inserted, that
  is, the hour met first in input order, not the smallest hour.
- **Indicator columns.** `get_dummies(..., drop_first=True)` makes indicators
  only for the days *present* in the data, minus the alphabetically first of
  them, so there are 0 to 6 indicator columns.
- **Prediction.** `/api/predict` encodes `[hour, LabelEncoder code]` with the
  hour unchecked, and truncates the prediction toward zero with `int()`
  before taking `max(0, ...)`.
- **No posts.** `get_stats` over no posts calls `max` on an empty dict, which
  raises and becomes a 500 answer.
- **Single-row training.** With a single row the 80/20 split raises. `main`
  catches the error and saves nothing.

## Model

| member | source | states |
|---|---|---|
| Strings.LessTotal | backend/app.py:116 | any two different strings are ordered one way or the other by Python's `<` |
| Strings.LessTransitive | backend/app.py:116 | Python's string `<` is transitive |
| Strings.LessAsymmetric | backend/app.py:116 | if `a < b` then not `b < a` |
| Strings.LessIrreflexive | backend/app.py:116 | no string is below itself |
| Strings.Insert | backend/app.py:61 | inserting into a strictly sorted list keeps it strictly sorted and adds exactly the new value |
| Strings.SortedUnique | backend/app.py:61 | the encoder's classes are strictly increasing and contain exactly the values of the input |
| Strings.StrictlySortedUnique | backend/app.py:61 | two strictly sorted lists with the same elements are equal, so the classes are determined by the labels |
| Strings.WordLength | backend/scraper.py:130 | the run at the front has no whitespace and ends at whitespace or the end |
| Strings.Words | backend/scraper.py:130 | every piece of `str.split()` is a non-empty word without whitespace |
| Strings.WordsKeepText | backend/scraper.py:130 | splitting loses exactly the whitespace: the words concatenated are the caption's other characters |
| Strings.WordsOfJoin | backend/scraper.py:130 | `split()` undoes `" ".join` of words |
| Strings.NonSpacePrefix | backend/scraper.py:130 | a leading word passes unchanged into the non-whitespace text |
| Strings.WordLengthOfWord | backend/scraper.py:130 | a word followed by whitespace is read as exactly that word |
| Timestamps.ParseTimestamp | backend/app.py:93 | every accepted timestamp names a valid date and time |
| Timestamps.ParseFormat | backend/scraper.py:126 | every timestamp the scraper writes reads back as the date and time it came from |
| Timestamps.FormatTimestamp | backend/scraper.py:126 | `%Y-%m-%dT%H:%M:%SZ` is 20 characters with `-`, `-`, `T`, `:`, `:` and `Z` in their places (its round trip is ParseFormat) |
| Timestamps.FormatParse | backend/app.py:93 | every accepted string is the canonical spelling of what it names |
| Timestamps.Pad | backend/scraper.py:126 | `%02d`/`%04d` padding has the requested width and only digits |
| Timestamps.NumberOfPad | backend/scraper.py:126 | a padded number reads back as the number |
| Timestamps.PadOfNumber | backend/app.py:93 | a digit string is the padding of its value |
| Timestamps.Weekday | backend/retrain_model.py:39 | `weekday()` is between 0 and 6 |
| Timestamps.WeekdayCalendar | backend/retrain_model.py:39 | 0001-01-01 is a Monday and each next day has the next weekday |
| Timestamps.OrdinalNextDay | backend/retrain_model.py:39 | the next calendar day has the next ordinal |
| Timestamps.DaysBeforeNextYear | backend/retrain_model.py:39 | a year adds 365 days, or 366 in a leap year |
| Timestamps.NextDay | backend/retrain_model.py:39 | the next calendar day is a valid date |
| Timestamps.DayName | backend/app.py:100 | `strftime('%A')` is one of the seven English weekday names |
| Posts.Hashtags | backend/scraper.py:130 | a word is kept exactly when it starts with `#`, and there are no more tags than words |
| Posts.HashtagsAppend | backend/scraper.py:130 | picking hashtags keeps caption order |
| Posts.HashtagsAreWords | backend/scraper.py:130 | every hashtag is a whitespace-free word that starts with `#` |
| Posts.Caption | backend/scraper.py:127 | the caption is one of the caption edges' texts, or "" when there are none |
| Posts.ProcessPost | backend/scraper.py:123-140 | the record of one edge; what it keeps of the edge is stated by ProcessPostNormalised |
| Posts.ProcessPostNormalised | backend/scraper.py:122-141 | the post copies id, shortcode, likes and comments; caption is the first caption edge or ""; the timestamp reads back as the local time; hashtags are exactly the `#` words |
| Posts.ProcessPosts | backend/scraper.py:118-143 | one formatted post per edge, in order, each normalised as above |
| Dicts.Dict.Put | backend/app.py:94 | `d[k] = v`: a new key goes last and an existing key keeps its place, so distinct keys stay distinct |
| Dicts.Dict.Add | backend/app.py:94 | `d[k] = d.get(k, 0) + v` changes only the entry of `k` |
| Dicts.ArgMax | backend/app.py:95 | `max` of a list: nothing for an empty list, otherwise the first index holding the largest value |
| Dicts.BestKey | backend/app.py:95 | `max(d, key=d.get)` has an answer exactly when the dict is not empty; the answer is a key with the largest value, and no key before it in insertion order has that value |
| Stats.FirstIndex | backend/app.py:95 | the first position of a value |
| Stats.FirstOccurrences | backend/app.py:94 | the distinct keys in order of first appearance hold the same values as the input |
| Stats.FirstOccurrencesOrdered | backend/app.py:94 | dict keys appear in the order their first posts appear |
| Stats.FirstIndexPrefix | backend/app.py:94 | a key's first position is unchanged by later posts |
| Stats.TallyOf | backend/app.py:91-94 | the dict the hour (day) loop builds with `d.get(k, 0) + likes`; its keys and sums are stated by TallyOfValid, TallyOfKeys and TallyOfSums |
| Stats.TallyOfValid | backend/app.py:91-94 | the tally's keys are distinct and are exactly its map's keys |
| Stats.TallyOfKeys | backend/app.py:91-94 | the tally's keys are the distinct hours (days) in order of first appearance |
| Stats.TallyOfSums | backend/app.py:91-94 | `hourly_likes[h]` is the sum of likes over the posts whose hour is `h` |
| Stats.SumWhereAbsent | backend/app.py:91-94 | a key no post has sums to 0 |
| Stats.SumValuesBump | backend/app.py:94 | bumping one key's value bumps the total by the same amount |
| Stats.BumpTotal | backend/app.py:94 | one update adds its likes to the sum of the dict's values |
| Stats.TallyOfStepTotal | backend/app.py:94 | one more post adds its likes to the total |
| Stats.TallyOfTotal | backend/app.py:91-94 | the values of `hourly_likes` sum to the total likes |
| Stats.BestKeyFirstMax | backend/app.py:95 | the best key exists iff there are posts, has the largest sum, and on ties is the key met first in input order |
| Stats.FirstInvalid | backend/app.py:92-93 | nothing iff every timestamp parses, otherwise the first post whose timestamp does not |
| Stats.FirstInvalidAt | backend/app.py:92-93 | a bad timestamp after only good ones is the first bad one |
| Stats.HourOf | backend/app.py:93 | the hour is between 0 and 23 |
| Stats.DayOf | backend/app.py:100 | the day is one of the seven weekday names |
| Stats.HourlyLikes | backend/app.py:91-94 | the hour loop fails at the first bad timestamp, and otherwise yields the tally of likes by hour |
| Stats.DailyLikes | backend/app.py:98-101 | the day loop yields the tally of likes by weekday name |
| Stats.BestDay | backend/app.py:102 | `best_day` has the largest summed likes and on ties is the day met first |
| Stats.EngagementRates | backend/app.py:105-112 | one record per post, in order, with id, likes plus comments, and timestamp |
| Stats.TopPost | backend/app.py:113 | `top_post` is the record of the first post with the largest likes plus comments |
| Stats.DigitCount | backend/app.py:131 | exactly the number of digits of `str(n)`: enough to write `n`, and one fewer would not be |
| Stats.BestTime | backend/app.py:131 | `f'{best_hour}:00'`; how it reads back is stated by BestTimeReadsBack |
| Stats.BestTimeReadsBack | backend/app.py:131 | `f'{best_hour}:00'` is exactly the hour's decimal digits followed by `:00`; it reads back as the hour, and only hour 0 starts with `0`, as `0:00` |
| Stats.LeadingDigit | backend/app.py:131 | only 0 is written with a leading zero |
| Stats.InsertKeepsPosts | backend/app.py:116 | inserting a post adds exactly that post |
| Stats.InsertSorted | backend/app.py:116 | inserting keeps the list sorted by timestamp |
| Stats.SortByTimestamp | backend/app.py:116 | `sorted(posts, key=timestamp)` is sorted by timestamp and a permutation of the posts |
| Stats.WithTimestampNone | backend/app.py:116 | selecting a timestamp no post has gives nothing |
| Stats.InsertAfterTies | backend/app.py:116 | an inserted post goes after the posts with an equal timestamp |
| Stats.SortIsStable | backend/app.py:116 | posts with equal timestamps keep their input order |
| Stats.TrendOf | backend/app.py:117-127 | `len(posts) - 1` entries, or none for at most one post |
| Stats.TrendEntryOf | backend/app.py:119-127 | an entry runs from the earlier post's timestamp to the later one's, its change is the engagement difference, and it is `up` exactly when the change is positive |
| Stats.TrendEntries | backend/app.py:118-127 | entry `i` runs from sorted post `i` to `i+1`, its change is the engagement difference, and it is `up` iff the change is positive |
| Stats.TrendChains | backend/app.py:116-127 | each entry ends where the next begins, and no entry goes back in time |
| Stats.ChangesTelescope | backend/app.py:126 | the changes add up to the last engagement minus the first |
| Stats.EngagementTrend | backend/app.py:117-127 | the trend loop yields exactly the trend of the sorted posts |
| Stats.GetStats | backend/app.py:90-137 | a bad timestamp gives an error naming it; no posts gives the empty-`max` error; otherwise the page holds the posts, the best hour and day, the top post and the trend as above |
| Prediction.EncoderClassesSorted | backend/app.py:61 | the classes fitted on `all_days` are the seven names in alphabetical order |
| Prediction.Transform | backend/app.py:62 | an unseen label is refused; a seen one gets the position where it first occurs |
| Prediction.DayCode | backend/app.py:61-62 | a weekday name gets a code below 7, namely its alphabetical rank; any other string is refused |
| Prediction.CollectRows | backend/app.py:51-56 | the loop fails at the first bad timestamp, and otherwise gives one hour, day and likes entry per post |
| Prediction.RowOf | backend/app.py:52-63 | a post's training row is `[hour, code]` with the hour in 0..23 and the code in 0..6 |
| Prediction.TrainingRows | backend/app.py:51-63 | the rows are `[hour, code(day)]`, one per post in order, with the likes as targets |
| Prediction.TrainOrLoadModel | backend/app.py:42-73 | a stored model is used as is; otherwise a bad timestamp or no posts fails, and the model is fitted on exactly the training rows |
| Prediction.Truncate | backend/app.py:156 | `int(p)` truncates toward zero: it is the whole part below `p` for `p >= 0` and the whole part above `p` for negative `p` |
| Prediction.Clamp | backend/app.py:156 | `max(0, int(p))` is never negative |
| Prediction.ClampBounds | backend/app.py:156 | `max(0, int(p))` is never negative; it is 0 exactly below 1, and otherwise it is the whole part |
| Prediction.PredictLikes | backend/app.py:147-160 | no model or an unknown day is an error; otherwise the answer is the non-negative clamp of the model at `[hour, code(day)]` |
| Prediction.TrainPredictAgree | backend/app.py:151-152 | a post's own hour and day are encoded exactly as its training row |
| Features.FeatureTable | backend/retrain_model.py:32-50 | one feature row per post |
| Features.FeatureOf | backend/retrain_model.py:33-47 | the feature row of one post; its fields are stated by FeatureOfFacts |
| Features.FeatureOfFacts | backend/retrain_model.py:33-47 | hour in 0..23; peak flag 1 exactly from 12 to 18; weekday flag 1 exactly on Monday to Friday; likes copied |
| Features.ExtractFeatures | backend/retrain_model.py:27-50 | no posts give an empty table; a bad timestamp is the error; otherwise the rows are those of the posts |
| Features.KeptDays | backend/retrain_model.py:60 | the days that get an indicator are strictly sorted and each one occurs in the day column |
| Features.IndicatorNames | backend/retrain_model.py:60 | one `day_of_week_<day>` column per kept day, and two columns have the same name exactly when they are for the same day |
| Features.Indicators | backend/retrain_model.py:60 | one flag per kept day, 1 under the row's own day and 0 elsewhere; with sorted distinct days exactly one flag is set when the day has a column and none otherwise |
| Features.PrepareShape | backend/retrain_model.py:55-64 | an empty table gives empty `X` and `y`; otherwise the rows are kept, `y` is the likes column, and `X` has no likes column |
| Features.PrepareData | backend/retrain_model.py:53-66 | `prepare_data`; its shape, columns and rows are stated by PrepareShape, PrepareColumns and PrepareRow |
| Features.PrepareColumns | backend/retrain_model.py:60-63 | `X`'s columns are `hour`, `is_peak_hour`, `is_weekday`, then one indicator per day present except the alphabetically first, in alphabetical order |
| Features.PrepareRow | backend/retrain_model.py:60-63 | a row of `X` starts with hour and the two flags, and has exactly one indicator set, or none when its day is the dropped one |
| Features.SortedSubsetLength | backend/retrain_model.py:60 | a sorted list of distinct days drawn from the seven has at most seven entries |
| Features.ColumnsAtMostNine | backend/retrain_model.py:60 | `X` has at most nine columns |
| Features.TestSize | backend/retrain_model.py:75 | the test part is never larger than the table |
| Features.SplitPartitions | backend/retrain_model.py:75 | every row is in exactly one part; the test part is a fifth rounded up; the training part is empty exactly for one row |
| Features.TrainPart | backend/retrain_model.py:75 | `X_train` keeps all columns and pairs each training row with its own target; it has `n - ceil(n/5)` rows, uses no test row, and uses every row that is not in the test part |
| Features.TrainModel | backend/retrain_model.py:69-91 | an empty table gives no model; one row makes the split fail; otherwise the model is fitted on the training part and the feature names are `X`'s columns |
| Features.RetrainMain | backend/retrain_model.py:94-118 | a bad timestamp, an empty table or a failed split saves nothing; otherwise the artifact is the model with `X`'s columns |
| Fetcher.WriteBatchKeeps | backend/scraper.py:79-82 | writing a batch keeps the numbering and moves its posts from buffer to files |
| Fetcher.StartInv | backend/scraper.py:43-57 | the start state satisfies the loop invariant |
| Fetcher.TakePageInv | backend/scraper.py:68-90 | a 200 page keeps the invariant |
| Fetcher.RetryInv | backend/scraper.py:92-100 | a 401 keeps the invariant: at most 3 retries, and the pauses since the last success are 2, 4, 8 |
| Fetcher.AppendInv | backend/scraper.py:74 | adding a page's edges to the buffer keeps every fetched edge accounted for |
| Fetcher.CutInv | backend/scraper.py:79-82 | cutting the first 500 buffered edges into the next numbered file keeps the invariant |
| Fetcher.ResetInv | backend/scraper.py:85-89 | resetting `retry_attempts` after a success keeps the invariant |
| Fetcher.PauseInv | backend/scraper.py:94-100 | a 401 below the limit pauses `2**retry_attempts` seconds, which is 2, 4 or 8 |
| Fetcher.StepInv | backend/scraper.py:59-109 | every iteration keeps the invariant: batches numbered from 1, each exactly 500 posts, batches plus buffer equal to all fetched edges in order |
| Fetcher.Step | backend/scraper.py:59-109 | one loop iteration; its effects are stated by StepEffects and StepInv |
| Fetcher.Run | backend/scraper.py:59-109 | the loop answered once per response until it ends; RunInv, RunStops and OneRequestPerAnswer state what it keeps |
| Fetcher.RunInv | backend/scraper.py:59-109 | the invariant holds after any number of iterations |
| Fetcher.StepEffects | backend/scraper.py:59-109 | one request per iteration with the cursor; a page sets `has_next_page`, the cursor and the cache and resets retries; at most one batch per page, made of the first 500 buffered posts; 401 counts a retry and pauses or ends; anything else ends the loop |
| Fetcher.FetchAllWritesEverything | backend/scraper.py:79-114 | after the loop and the final write, batches numbered 1.. hold every fetched edge in order, all but the last with 500 posts and the last non-empty |
| Fetcher.FetchAll | backend/scraper.py:40-114 | the loop then the final write of the remaining buffer; FetchAllWritesEverything states its output |
| Fetcher.BackoffBound | backend/scraper.py:92-100 | every pause is 2, 4 or 8 seconds |
| Fetcher.FourthUnauthorizedStops | backend/scraper.py:92-100 | after a success, three 401s pause 2, 4 and 8 seconds and a fourth ends the loop without pausing |
| Fetcher.NothingWhenCachedDone | backend/scraper.py:53-59 | a cached `has_next_page = False` means no request and no file |
| Fetcher.OneRequestPerAnswer | backend/scraper.py:59-66 | one request per loop iteration, never more than the answers |
| Fetcher.RunStops | backend/scraper.py:95-109 | after `break` or the last page, nothing more happens |
| Fetcher.CursorFollowed | backend/scraper.py:62-76 | after a page with a next page, the next request carries that page's cursor, and only when it is non-empty |
| Fetcher.FetchAllPosts | backend/scraper.py:40-114 | the loop and the final write compute exactly `FetchAll` |

Lemmas that carry single steps of the proofs above are not listed in the
table. Among them are `Timestamps.WeekdaySucc`, `Strings.StrictlySortedByNeighbours`, `Stats.TallyOfStep`,
`Stats.TallyOfAppend`, `Stats.SumValuesAgree`, `Stats.ParsesSnoc`,
`Stats.ColumnsSnoc`, `Stats.EarlierThanAll`, `Stats.WithTimestampAppend`,
`Features.FeatureTableSnoc`, `Features.TailSorted`, `Fetcher.WrittenSnoc`,
and `Fetcher.GiveUpInv`.

## Left out

- Flask routing, JSON request and response handling, CORS, SQLite writes, `init_db`, environment loading and `load_sample_data` are left out. They are I/O. `get_stats` starts from the list of posts.
- Missing dictionary keys (`KeyError`) in posts and in request bodies are left out. Records are typed.
- `int(data['hour'])` on the request value is left out. `PredictLikes` takes the hour as an integer.
- `joblib` loading and saving is left out. A stored model is an input (`Option`). The loaded encoder is taken to be the one fitted on `all_days`, which is what `train_or_load_model` saves.
- `LinearRegression`, `XGBRegressor` and `mean_absolute_error` are left out: they are floating-point numerics in foreign libraries. A fitted model is an opaque function `fit` or `predict`, and the printed error is not modelled. NaN and infinite predictions are not modelled, so `int()` of them does not raise here.
- Features.TrainModel: which rows go to the training part comes from numpy's seeded shuffle. That shuffle is a parameter `order`, and the requires states only that it is a permutation. The split needs `X` and `y` of equal length, which `prepare_data` always produces, so TrainModel requires this.
- Features.RetrainMain: `if model:` is taken to be true for a fitted regressor. The `KeyboardInterrupt` branch is not modelled. `load_data` is left out, as file I/O.
- Features.PrepareData: the indicator columns are modelled as 0/1 integers, where pandas gives booleans. pandas dtypes (such as the float64 empty Series) are not modelled.
- `datetime.fromtimestamp` in the host's time zone is a parameter `toLocal` of `Posts.ProcessPosts`. Posts.ProcessPosts requires that it yields a valid date, where Python would raise out of range. Only the fixed `YYYY-MM-DDTHH:MM:SSZ` form of `fromisoformat` is accepted; other forms Python accepts are refused.
- Stats.DailyLikes, Stats.BestDay, Stats.TopPost: these require that every timestamp parses and, for the two selections, that there are posts. `GetStats` calls them only after the hour loop has parsed every timestamp and `max` has succeeded on the hours, which is where the source raises first.
- Fetcher.FetchAllPosts: HTTP requests, random user agents, `time.sleep` (the random 2–5 s pause after a success), and cache and batch file writes are outputs recorded in the state, or left out. The server's answers are an input sequence, and once it is used up the run is reported as still going, without the final write. A cache entry missing one of its two keys, failures while writing files, and a 200 page whose `page_info` lacks only one of its fields are not modelled.
- `load_cache`, `save_cache`, `save_to_file` and `process_posts`' output writing are left out. They are file I/O.
