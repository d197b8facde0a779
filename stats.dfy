/**
 * The engagement statistics of `get_stats`: likes summed per hour and per
 * weekday with the best of each, the most engaging post, and the trend
 * between posts taken in timestamp order.
 */
module Stats {
  import opened Wrappers
  import opened Strings
  import opened Timestamps
  import opened Posts
  import opened Dicts

  // ---------------------------------------------------------------------
  // Grouped sums: `d[k] = d.get(k, 0) + w` over a sequence of keys
  // ---------------------------------------------------------------------

  /** The sum of the weights whose key is `k`. */
  function SumWhere<K(==,!new)>(ks: seq<K>, w: seq<int>, k: K): int
    requires |ks| == |w|
  {
    if |ks| == 0 then 0
    else SumWhere(ks[..|ks| - 1], w[..|w| - 1], k) + (if ks[|ks| - 1] == k then w[|w| - 1] else 0)
  }

  function Sum(w: seq<int>): int
  {
    if |w| == 0 then 0 else Sum(w[..|w| - 1]) + w[|w| - 1]
  }

  /** Position of the first occurrence of `k`. */
  function FirstIndex<K(==,!new)>(ks: seq<K>, k: K): (r: nat)
    requires k in ks
    ensures r < |ks| && ks[r] == k
    ensures forall j :: 0 <= j < r ==> ks[j] != k
  {
    if k in ks[..|ks| - 1] then FirstIndex(ks[..|ks| - 1], k) else |ks| - 1
  }

  /** The distinct keys, in order of first occurrence. */
  function FirstOccurrences<K(==,!new)>(ks: seq<K>): (r: seq<K>)
    ensures forall x :: x in r <==> x in ks
  {
    if |ks| == 0 then []
    else
      var init := FirstOccurrences(ks[..|ks| - 1]);
      SplitLast(ks);
      if ks[|ks| - 1] in ks[..|ks| - 1] then init else init + [ks[|ks| - 1]]
  }

  /**
   * The key `k` has the largest sum, and no key with that sum occurs in `ks`
   * before `k` first does: Python's `max` over a dictionary filled in the
   * order of `ks`.
   */
  ghost predicate FirstMaxKey<K(!new)>(ks: seq<K>, w: seq<int>, k: K)
    requires |ks| == |w|
  {
    && k in ks
    && (forall j :: 0 <= j < |ks| ==> SumWhere(ks, w, ks[j]) <= SumWhere(ks, w, k))
    && (forall j :: 0 <= j < |ks| && SumWhere(ks, w, ks[j]) == SumWhere(ks, w, k) ==> FirstIndex(ks, k) <= j)
  }

  /** The dictionary the loop `d[k] = d.get(k, 0) + w` builds. */
  function TallyOf<K(==,!new)>(ks: seq<K>, w: seq<int>): Dict<K>
    requires |ks| == |w|
  {
    if |ks| == 0 then Dict([], map[])
    else
      var n := |ks| - 1;
      var d := TallyOf(ks[..n], w[..n]);
      d.Add(ks[n], w[n])
  }

  /** The dictionary the loop builds lists every key once, and exactly the keys it holds. */
  lemma {:induction false} TallyOfValid<K(!new)>(ks: seq<K>, w: seq<int>)
    requires |ks| == |w|
    ensures TallyOf(ks, w).Valid()
  {
    if |ks| > 0 {
      TallyOfValid(ks[..|ks| - 1], w[..|w| - 1]);
    }
  }

  lemma {:induction false} SumWhereAbsent<K(!new)>(ks: seq<K>, w: seq<int>, k: K)
    requires |ks| == |w| && k !in ks
    ensures SumWhere(ks, w, k) == 0
  {
    if |ks| > 0 {
      SumWhereAbsent(ks[..|ks| - 1], w[..|w| - 1], k);
    }
  }

  lemma {:induction false} FirstIndexPrefix<K(!new)>(ks: seq<K>, n: nat, k: K)
    requires n <= |ks| && k in ks[..n]
    ensures FirstIndex(ks, k) == FirstIndex(ks[..n], k)
  {
    var i := FirstIndex(ks[..n], k);
    var j := FirstIndex(ks, k);
    assert ks[i] == k;
    assert j <= i;
    assert ks[..n][j] == k;
  }

  /** Distinct keys come out in the order they first occur. */
  lemma {:induction false} FirstOccurrencesOrdered<K(!new)>(ks: seq<K>)
    ensures forall a, b :: 0 <= a < b < |FirstOccurrences(ks)| ==>
      FirstIndex(ks, FirstOccurrences(ks)[a]) < FirstIndex(ks, FirstOccurrences(ks)[b])
  {
    if |ks| > 0 {
      var n := |ks| - 1;
      var init := ks[..n];
      var p := FirstOccurrences(init);
      FirstOccurrencesOrdered(init);
      var r := FirstOccurrences(ks);
      forall a, b | 0 <= a < b < |r|
        ensures FirstIndex(ks, r[a]) < FirstIndex(ks, r[b])
      {
        assert r[a] in p;
        FirstIndexPrefix(ks, n, r[a]);
        if b < |p| {
          FirstIndexPrefix(ks, n, r[b]);
        } else {
          assert r[b] == ks[n] && ks[n] !in init;
          assert FirstIndex(ks, r[b]) == n;
        }
      }
    }
  }

  /** The loop leaves one entry per distinct key, in first-occurrence order. */
  lemma {:induction false} TallyOfKeys<K(!new)>(ks: seq<K>, w: seq<int>)
    requires |ks| == |w|
    ensures TallyOf(ks, w).keys == FirstOccurrences(ks)
    ensures forall k :: k in TallyOf(ks, w).values <==> k in ks
  {
    if |ks| > 0 {
      var n := |ks| - 1;
      TallyOfKeys(ks[..n], w[..n]);
      SplitLast(ks);
    }
  }

  /** One step of the loop: the last key's entry grows by the last weight. */
  lemma {:induction false} TallyOfStep<K(!new)>(ks: seq<K>, w: seq<int>)
    requires |ks| == |w| && |ks| > 0
    ensures var n := |ks| - 1;
            var d := TallyOf(ks[..n], w[..n]);
            && TallyOf(ks, w).values == d.values[ks[n] := d.Get(ks[n], 0) + w[n]]
            && TallyOf(ks, w).keys == if ks[n] in d.values then d.keys else d.keys + [ks[n]]
  {
  }

  /** Each entry the loop leaves holds the sum of the weights of its key. */
  lemma {:induction false} TallyOfSums<K(!new)>(ks: seq<K>, w: seq<int>)
    requires |ks| == |w|
    ensures forall k :: k in TallyOf(ks, w).values ==> TallyOf(ks, w).values[k] == SumWhere(ks, w, k)
  {
    if |ks| > 0 {
      var n := |ks| - 1;
      var init, winit := ks[..n], w[..n];
      TallyOfSums(init, winit);
      TallyOfKeys(init, winit);
      TallyOfStep(ks, w);
      var d, k := TallyOf(init, winit), ks[n];
      var m := TallyOf(ks, w).values;
      if k !in init {
        SumWhereAbsent(init, winit, k);
      }
      forall x | x in m
        ensures m[x] == SumWhere(ks, w, x)
      {
        assert SumWhere(ks, w, x) == SumWhere(init, winit, x) + (if k == x then w[n] else 0);
      }
    }
  }

  lemma {:induction false} SumValuesAgree<K(!new)>(ks: seq<K>, m: map<K, int>, m': map<K, int>)
    requires forall i :: 0 <= i < |ks| ==> ks[i] in m && ks[i] in m' && m[ks[i]] == m'[ks[i]]
    ensures SumValues(ks, m) == SumValues(ks, m')
  {
    if |ks| > 0 {
      SumValuesAgree(ks[..|ks| - 1], m, m');
    }
  }

  lemma {:induction false} SumValuesBump<K(!new)>(ks: seq<K>, m: map<K, int>, k: K, v: int)
    requires forall i :: 0 <= i < |ks| ==> ks[i] in m
    requires forall i, j :: 0 <= i < j < |ks| ==> ks[i] != ks[j]
    requires k in m
    ensures SumValues(ks, m[k := m[k] + v]) == SumValues(ks, m) + (if k in ks then v else 0)
  {
    if |ks| > 0 {
      var n := |ks| - 1;
      SumValuesBump(ks[..n], m, k, v);
      SplitLast(ks);
      assert ks[n] == k ==> k !in ks[..n];
    }
  }

  /** `d[k] = d.get(k, 0) + v` adds `v` to the sum of the values. */
  lemma {:induction false} BumpTotal<K(!new)>(d: Dict<K>, d': Dict<K>, k: K, v: int)
    requires d.Valid()
    requires d'.values == d.values[k := d.Get(k, 0) + v]
    requires d'.keys == if k in d.values then d.keys else d.keys + [k]
    ensures SumValues(d'.keys, d'.values) == SumValues(d.keys, d.values) + v
  {
    if k in d.values {
      SumValuesBump(d.keys, d.values, k, v);
    } else {
      SumValuesAgree(d.keys, d.values, d'.values);
      assert d'.keys[..|d'.keys| - 1] == d.keys;
    }
  }

  /** One step of the loop adds its weight to the sum of the values. */
  lemma {:induction false} TallyOfStepTotal<K(!new)>(ks: seq<K>, w: seq<int>)
    requires |ks| == |w| && |ks| > 0
    ensures var n := |ks| - 1;
            SumValues(TallyOf(ks, w).keys, TallyOf(ks, w).values)
            == SumValues(TallyOf(ks[..n], w[..n]).keys, TallyOf(ks[..n], w[..n]).values) + w[n]
  {
    var n := |ks| - 1;
    TallyOfValid(ks[..n], w[..n]);
    TallyOfStep(ks, w);
    BumpTotal(TallyOf(ks[..n], w[..n]), TallyOf(ks, w), ks[n], w[n]);
  }

  /** The per-key sums add up to the sum of all weights (every like is counted once). */
  lemma {:induction false} TallyOfTotal<K(!new)>(ks: seq<K>, w: seq<int>)
    requires |ks| == |w|
    ensures SumValues(TallyOf(ks, w).keys, TallyOf(ks, w).values) == Sum(w)
  {
    if |ks| > 0 {
      var n := |ks| - 1;
      TallyOfTotal(ks[..n], w[..n]);
      TallyOfStepTotal(ks, w);
      assert Sum(w) == Sum(w[..n]) + w[n];
    }
  }

  /**
   * `max(d, key=d.get)` on the dictionary the loop builds is a key with the
   * largest sum, the first such key met in `ks`; it raises only when `ks` is empty.
   */
  lemma {:induction false} BestKeyFirstMax<K(!new)>(ks: seq<K>, w: seq<int>)
    requires |ks| == |w|
    ensures BestKey(TallyOf(ks, w)).None? <==> |ks| == 0
    ensures BestKey(TallyOf(ks, w)).Some? ==> FirstMaxKey(ks, w, BestKey(TallyOf(ks, w)).value)
  {
    var d := TallyOf(ks, w);
    TallyOfKeys(ks, w);
    TallyOfSums(ks, w);
    FirstOccurrencesOrdered(ks);
    if |ks| > 0 {
      assert ks[0] in d.keys;
      var vals := d.Ordered();
      var r := ArgMax(vals).value;
      var k := d.keys[r];
      assert BestKey(d) == Some(k);
      forall j | 0 <= j < |ks|
        ensures SumWhere(ks, w, ks[j]) <= SumWhere(ks, w, k)
        ensures SumWhere(ks, w, ks[j]) == SumWhere(ks, w, k) ==> FirstIndex(ks, k) <= j
      {
        assert ks[j] in d.keys;
        var i :| 0 <= i < |d.keys| && d.keys[i] == ks[j];
        assert vals[i] == SumWhere(ks, w, ks[j]);
        if vals[i] == vals[r] && i != r {
          assert r < i;
          assert FirstIndex(ks, k) < FirstIndex(ks, ks[j]);
        }
      }
    }
  }

  // ---------------------------------------------------------------------
  // The records `get_stats` reads and the answer it builds
  // ---------------------------------------------------------------------

  /** A record of the sample data: `id`, `likes_count`, `comments_count`, `timestamp`. */
  datatype SamplePost = SamplePost(id: string, likesCount: int, commentsCount: int, timestamp: string)

  /** An entry of `engagement_rates`; the one picked is the answer's `topPost`. */
  datatype Rate = Rate(postId: string, engagement: int, timestamp: string)

  datatype Trend = Up | Down

  /** An entry of `engagementTrend`: `from`, `to`, `trend` and `change`. */
  datatype TrendEntry = TrendEntry(fromTimestamp: string, toTimestamp: string, trend: Trend, change: int)

  /** The JSON body of a successful answer. */
  datatype StatsPage = StatsPage(
    stats: seq<SamplePost>,
    bestTime: string,
    bestDay: string,
    topPost: Rate,
    engagementTrend: seq<TrendEntry>)

  /** Why the endpoint answers 500: `fromisoformat` rejected a timestamp, or `max` met an empty sequence. */
  datatype StatsError = InvalidTimestamp(timestamp: string) | EmptySequence

  predicate Parses(p: SamplePost)
  {
    ParseTimestamp(p.timestamp).Some?
  }

  predicate AllParse(posts: seq<SamplePost>)
  {
    forall i :: 0 <= i < |posts| ==> Parses(posts[i])
  }

  /** The first post whose timestamp does not parse, where the hour loop raises. */
  function FirstInvalid(posts: seq<SamplePost>): (r: Option<nat>)
    ensures r.None? <==> AllParse(posts)
    ensures r.Some? ==> r.value < |posts| && !Parses(posts[r.value]) && AllParse(posts[..r.value])
  {
    if |posts| == 0 then None
    else
      var n := |posts| - 1;
      match FirstInvalid(posts[..n])
      case Some(i) =>
        assert posts[..n][..i] == posts[..i];
        Some(i)
      case None =>
        if Parses(posts[n]) then
          assert forall i :: 0 <= i < n ==> posts[..n][i] == posts[i];
          None
        else Some(n)
  }

  /** `datetime.fromisoformat(...).hour`. */
  function HourOf(p: SamplePost): (h: int)
    requires Parses(p)
    ensures 0 <= h < 24
  {
    ParseTimestamp(p.timestamp).value.hour
  }

  /** `datetime.fromisoformat(...).strftime('%A')`. */
  function DayOf(p: SamplePost): (day: string)
    requires Parses(p)
    ensures day in DayNames
  {
    DayName(ParseTimestamp(p.timestamp).value)
  }

  function Engagement(p: SamplePost): int
  {
    p.likesCount + p.commentsCount
  }

  function RateOf(p: SamplePost): Rate
  {
    Rate(p.id, Engagement(p), p.timestamp)
  }

  function Hours(posts: seq<SamplePost>): (hs: seq<int>)
    requires AllParse(posts)
    ensures |hs| == |posts|
  {
    seq(|posts|, i requires 0 <= i < |posts| && AllParse(posts) => HourOf(posts[i]))
  }

  function Days(posts: seq<SamplePost>): (ds: seq<string>)
    requires AllParse(posts)
    ensures |ds| == |posts|
  {
    seq(|posts|, i requires 0 <= i < |posts| && AllParse(posts) => DayOf(posts[i]))
  }

  function Likes(posts: seq<SamplePost>): (ls: seq<int>)
    ensures |ls| == |posts|
  {
    seq(|posts|, i requires 0 <= i < |posts| => posts[i].likesCount)
  }

  function Engagements(posts: seq<SamplePost>): (es: seq<int>)
    ensures |es| == |posts|
  {
    seq(|posts|, i requires 0 <= i < |posts| => Engagement(posts[i]))
  }

  // ---------------------------------------------------------------------
  // `f'{best_hour}:00'`
  // ---------------------------------------------------------------------

  /** The number of decimal digits `str(n)` has: enough to write `n`, and no more. */
  function DigitCount(n: nat): (w: nat)
    ensures 1 <= w && n < Pow10(w)
    ensures w == 1 || Pow10(w - 1) <= n
  {
    if n < 10 then 1
    else
      var w := DigitCount(n / 10);
      assert Pow10(w) <= n by {
        if w > 1 {
          assert Pow10(w) == 10 * Pow10(w - 1) <= 10 * (n / 10);
        }
      }
      1 + w
  }

  /** `f'{h}:00'`: the hour in decimal without padding, then `:00`. */
  function BestTime(h: nat): string
  {
    Pad(h, DigitCount(h)) + ":00"
  }

  /** The text before `:00` is exactly the hour's digits: it reads back as the hour, and only 0 is written with a `0`, as `0:00`. */
  lemma {:induction false} BestTimeReadsBack(h: nat)
    ensures var t := BestTime(h);
            && |t| >= 4 && t[|t| - 3..] == ":00"
            && |t| == DigitCount(h) + 3
            && AllDigits(t[..|t| - 3]) && Number(t[..|t| - 3]) == h
            && (t[0] == '0' ==> h == 0 && |t| == 4)
  {
    var w := DigitCount(h);
    var t := BestTime(h);
    assert t[..|t| - 3] == Pad(h, w);
    NumberOfPad(h, w);
    LeadingDigit(h);
  }

  /** `str(n)` starts with `0` only for zero. */
  lemma {:induction false} LeadingDigit(n: nat)
    ensures Pad(n, DigitCount(n))[0] == '0' ==> n == 0
  {
    if n >= 10 {
      LeadingDigit(n / 10);
      assert Pad(n, DigitCount(n))[0] == Pad(n / 10, DigitCount(n / 10))[0];
    }
  }

  // ---------------------------------------------------------------------
  // `sorted(posts, key=lambda x: x['timestamp'])`
  // ---------------------------------------------------------------------

  /** No post is preceded by one with a later timestamp string. */
  ghost predicate SortedByTimestamp(s: seq<SamplePost>)
  {
    forall i, j :: 0 <= i < j < |s| ==> !Less(s[j].timestamp, s[i].timestamp)
  }

  /** The posts carrying timestamp `t`, in order. */
  function WithTimestamp(s: seq<SamplePost>, t: string): seq<SamplePost>
  {
    if |s| == 0 then []
    else (if s[0].timestamp == t then [s[0]] else []) + WithTimestamp(s[1..], t)
  }

  /** Puts `p` after every post whose timestamp is not later than its own. */
  function InsertByTimestamp(p: SamplePost, s: seq<SamplePost>): seq<SamplePost>
  {
    if |s| == 0 then [p]
    else if Less(p.timestamp, s[0].timestamp) then [p] + s
    else [s[0]] + InsertByTimestamp(p, s[1..])
  }

  /** Inserting adds `p` and loses nothing. */
  lemma {:induction false} InsertKeepsPosts(p: SamplePost, s: seq<SamplePost>)
    ensures multiset(InsertByTimestamp(p, s)) == multiset(s) + multiset{p}
  {
    if |s| > 0 && !Less(p.timestamp, s[0].timestamp) {
      InsertKeepsPosts(p, s[1..]);
      assert s == [s[0]] + s[1..];
    }
  }

  /** In a sorted list, a timestamp earlier than the first is earlier than all. */
  lemma {:induction false} EarlierThanAll(p: SamplePost, s: seq<SamplePost>)
    requires SortedByTimestamp(s) && |s| > 0 && Less(p.timestamp, s[0].timestamp)
    ensures forall j :: 0 <= j < |s| ==> Less(p.timestamp, s[j].timestamp)
  {
    forall j | 0 < j < |s|
      ensures Less(p.timestamp, s[j].timestamp)
    {
      LessTotal(s[0].timestamp, s[j].timestamp);
      if s[0].timestamp != s[j].timestamp {
        LessTransitive(p.timestamp, s[0].timestamp, s[j].timestamp);
      }
    }
  }

  /** Inserting into a sorted list keeps it sorted. */
  lemma {:induction false} InsertSorted(p: SamplePost, s: seq<SamplePost>)
    requires SortedByTimestamp(s)
    ensures SortedByTimestamp(InsertByTimestamp(p, s))
  {
    if |s| > 0 {
      if Less(p.timestamp, s[0].timestamp) {
        EarlierThanAll(p, s);
        forall j | 0 <= j < |s|
          ensures !Less(s[j].timestamp, p.timestamp)
        {
          LessAsymmetric(p.timestamp, s[j].timestamp);
        }
      } else {
        var rest := InsertByTimestamp(p, s[1..]);
        InsertSorted(p, s[1..]);
        InsertKeepsPosts(p, s[1..]);
        forall j | 0 <= j < |rest|
          ensures !Less(rest[j].timestamp, s[0].timestamp)
        {
          assert rest[j] in multiset(rest);
          assert rest[j] == p || rest[j] in s[1..];
        }
      }
    }
  }

  /** A non-empty list is its front followed by its last element. */
  lemma SplitLast<T>(s: seq<T>)
    requires |s| > 0
    ensures s == s[..|s| - 1] + [s[|s| - 1]]
  {
  }

  /** Python's `sorted`: stable, by timestamp string. */
  function SortByTimestamp(posts: seq<SamplePost>): (r: seq<SamplePost>)
    ensures SortedByTimestamp(r)
    ensures multiset(r) == multiset(posts)
  {
    if |posts| == 0 then []
    else
      var n := |posts| - 1;
      var init := SortByTimestamp(posts[..n]);
      InsertSorted(posts[n], init);
      InsertKeepsPosts(posts[n], init);
      SplitLast(posts);
      InsertByTimestamp(posts[n], init)
  }

  lemma {:induction false} WithTimestampAppend(a: seq<SamplePost>, b: seq<SamplePost>, t: string)
    ensures WithTimestamp(a + b, t) == WithTimestamp(a, t) + WithTimestamp(b, t)
  {
    if |a| == 0 {
      assert a + b == b;
    } else {
      var head := if a[0].timestamp == t then [a[0]] else [];
      assert (a + b)[0] == a[0];
      assert (a + b)[1..] == a[1..] + b;
      WithTimestampAppend(a[1..], b, t);
      calc {
        WithTimestamp(a + b, t);
        head + WithTimestamp(a[1..] + b, t);
        head + (WithTimestamp(a[1..], t) + WithTimestamp(b, t));
        (head + WithTimestamp(a[1..], t)) + WithTimestamp(b, t);
      }
    }
  }

  lemma {:induction false} WithTimestampNone(s: seq<SamplePost>, t: string)
    requires forall j :: 0 <= j < |s| ==> s[j].timestamp != t
    ensures WithTimestamp(s, t) == []
  {
    if |s| > 0 {
      WithTimestampNone(s[1..], t);
    }
  }

  /** Inserting `p` puts it after every post of a sorted list that has its timestamp. */
  lemma {:induction false} InsertAfterTies(p: SamplePost, s: seq<SamplePost>, t: string)
    requires SortedByTimestamp(s)
    ensures WithTimestamp(InsertByTimestamp(p, s), t) == WithTimestamp(s, t) + WithTimestamp([p], t)
  {
    if |s| == 0 {
    } else if Less(p.timestamp, s[0].timestamp) {
      var r := InsertByTimestamp(p, s);
      assert r[1..] == s;
      if p.timestamp == t {
        EarlierThanAll(p, s);
        forall j | 0 <= j < |s|
          ensures s[j].timestamp != t
        {
          if s[j].timestamp == t {
            LessIrreflexive(t);
          }
        }
        WithTimestampNone(s, t);
      }
    } else {
      var r := InsertByTimestamp(p, s);
      InsertAfterTies(p, s[1..], t);
      assert r[1..] == InsertByTimestamp(p, s[1..]);
    }
  }

  /**
   * `sorted` is stable: the posts that share a timestamp come out in the order
   * they came in.
   */
  lemma {:induction false} SortIsStable(posts: seq<SamplePost>, t: string)
    ensures WithTimestamp(SortByTimestamp(posts), t) == WithTimestamp(posts, t)
  {
    if |posts| > 0 {
      var n := |posts| - 1;
      SplitLast(posts);
      var init := SortByTimestamp(posts[..n]);
      assert SortByTimestamp(posts) == InsertByTimestamp(posts[n], init);
      SortIsStable(posts[..n], t);
      InsertAfterTies(posts[n], init, t);
      WithTimestampAppend(posts[..n], [posts[n]], t);
      calc {
        WithTimestamp(SortByTimestamp(posts), t);
        WithTimestamp(init, t) + WithTimestamp([posts[n]], t);
        WithTimestamp(posts[..n], t) + WithTimestamp([posts[n]], t);
        WithTimestamp(posts, t);
      }
    }
  }

  // ---------------------------------------------------------------------
  // `engagement_trend`
  // ---------------------------------------------------------------------

  /** The trend entry for two consecutive sorted posts. */
  function TrendEntryOf(prev: SamplePost, curr: SamplePost): (e: TrendEntry)
    ensures e.fromTimestamp == prev.timestamp && e.toTimestamp == curr.timestamp
    ensures e.trend == Up <==> e.change > 0
    ensures Engagement(prev) + e.change == Engagement(curr)
  {
    var change := Engagement(curr) - Engagement(prev);
    TrendEntry(prev.timestamp, curr.timestamp, if Engagement(curr) > Engagement(prev) then Up else Down, change)
  }

  /** One entry per pair of neighbours in `sorted`. */
  function TrendOf(sorted: seq<SamplePost>): (t: seq<TrendEntry>)
    ensures |t| == if |sorted| == 0 then 0 else |sorted| - 1
  {
    if |sorted| == 0 then []
    else seq(|sorted| - 1, i requires 0 <= i < |sorted| - 1 => TrendEntryOf(sorted[i], sorted[i + 1]))
  }

  function SumChanges(t: seq<TrendEntry>): int
  {
    if |t| == 0 then 0 else SumChanges(t[..|t| - 1]) + t[|t| - 1].change
  }

  /**
   * Entry `i` links sorted posts `i` and `i + 1`: its change is the difference of
   * their engagements, and it says `up` exactly when that change is positive.
   */
  lemma {:induction false} TrendEntries(sorted: seq<SamplePost>, i: nat)
    requires i + 1 < |sorted|
    ensures var e := TrendOf(sorted)[i];
            && e.fromTimestamp == sorted[i].timestamp && e.toTimestamp == sorted[i + 1].timestamp
            && e.change == Engagement(sorted[i + 1]) - Engagement(sorted[i])
            && (e.trend == Up <==> e.change > 0)
  {
  }

  /** Neighbouring entries chain, and on sorted posts each runs forward in time. */
  lemma {:induction false} TrendChains(sorted: seq<SamplePost>)
    requires SortedByTimestamp(sorted)
    ensures forall i :: 0 <= i < |TrendOf(sorted)| ==> !Less(TrendOf(sorted)[i].toTimestamp, TrendOf(sorted)[i].fromTimestamp)
    ensures forall i :: 0 < i < |TrendOf(sorted)| ==> TrendOf(sorted)[i - 1].toTimestamp == TrendOf(sorted)[i].fromTimestamp
  {
    var t := TrendOf(sorted);
    forall i | 0 <= i < |t|
      ensures !Less(t[i].toTimestamp, t[i].fromTimestamp)
    {
      TrendEntries(sorted, i);
    }
    forall i | 0 < i < |t|
      ensures t[i - 1].toTimestamp == t[i].fromTimestamp
    {
      TrendEntries(sorted, i - 1);
      TrendEntries(sorted, i);
    }
  }

  /** The changes telescope: they add up to last engagement minus first. */
  lemma {:induction false} ChangesTelescope(sorted: seq<SamplePost>)
    requires |sorted| > 0
    ensures SumChanges(TrendOf(sorted)) == Engagement(sorted[|sorted| - 1]) - Engagement(sorted[0])
  {
    var n := |sorted| - 1;
    if n > 0 {
      ChangesTelescope(sorted[..n]);
      assert TrendOf(sorted)[..n - 1] == TrendOf(sorted[..n]);
    }
  }

  // ---------------------------------------------------------------------
  // The loops of `get_stats`
  // ---------------------------------------------------------------------

  /** One more `d[k] = d.get(k, 0) + v` extends the sequences the loop has read. */
  lemma {:induction false} TallyOfAppend<K(!new)>(ks: seq<K>, w: seq<int>, k: K, v: int)
    requires |ks| == |w|
    ensures TallyOf(ks + [k], w + [v]) == TallyOf(ks, w).Add(k, v)
  {
    var ks', w' := ks + [k], w + [v];
    assert ks'[..|ks|] == ks && w'[..|w|] == w;
    TallyOfStep(ks', w');
  }

  /** A timestamp that fails after all earlier ones parsed is the first invalid one. */
  lemma {:induction false} FirstInvalidAt(posts: seq<SamplePost>, i: nat)
    requires i < |posts| && AllParse(posts[..i]) && !Parses(posts[i])
    ensures FirstInvalid(posts) == Some(i)
  {
    assert !AllParse(posts);
    var v := FirstInvalid(posts).value;
    assert forall j :: 0 <= j < i ==> posts[..i][j] == posts[j];
    assert forall j :: 0 <= j < v ==> posts[..v][j] == posts[j];
  }

  /** One more post whose timestamp parses extends a prefix that parses. */
  lemma {:induction false} ParsesSnoc(posts: seq<SamplePost>, i: nat)
    requires i < |posts| && AllParse(posts[..i]) && Parses(posts[i])
    ensures AllParse(posts[..i + 1])
  {
    var longer := posts[..i + 1];
    forall j | 0 <= j < |longer|
      ensures Parses(longer[j])
    {
      if j < i {
        assert longer[j] == posts[..i][j];
      }
    }
  }

  lemma {:induction false} ColumnsSnoc(posts: seq<SamplePost>, i: nat)
    requires i < |posts| && AllParse(posts[..i + 1])
    ensures AllParse(posts[..i])
    ensures Hours(posts[..i + 1]) == Hours(posts[..i]) + [HourOf(posts[i])]
    ensures Days(posts[..i + 1]) == Days(posts[..i]) + [DayOf(posts[i])]
    ensures Likes(posts[..i + 1]) == Likes(posts[..i]) + [posts[i].likesCount]
  {
    assert posts[..i + 1] == posts[..i] + [posts[i]];
  }

  /** The hour loop: `hourly_likes[hour] = hourly_likes.get(hour, 0) + post['likes_count']`. */
  method HourlyLikes(posts: seq<SamplePost>) returns (r: Result<Dict<int>, string>)
    ensures FirstInvalid(posts).Some? ==> r == Failure(posts[FirstInvalid(posts).value].timestamp)
    ensures FirstInvalid(posts).None? ==> r == Success(TallyOf(Hours(posts), Likes(posts)))
  {
    var hourly := Dict([], map[]);
    var i := 0;
    while i < |posts|
      invariant 0 <= i <= |posts|
      invariant AllParse(posts[..i])
      invariant hourly == TallyOf(Hours(posts[..i]), Likes(posts[..i]))
    {
      var dt := ParseTimestamp(posts[i].timestamp);
      if dt.None? {
        FirstInvalidAt(posts, i);
        return Failure(posts[i].timestamp);
      }
      var hour := HourOf(posts[i]);
      ParsesSnoc(posts, i);
      ColumnsSnoc(posts, i);
      TallyOfAppend(Hours(posts[..i]), Likes(posts[..i]), hour, posts[i].likesCount);
      hourly := hourly.Add(hour, posts[i].likesCount);
      i := i + 1;
    }
    assert posts[..i] == posts;
    return Success(hourly);
  }

  /**
   * The day loop: `daily_likes[day] = daily_likes.get(day, 0) + post['likes_count']`.
   * It runs after the hour loop has parsed every timestamp.
   */
  method DailyLikes(posts: seq<SamplePost>) returns (daily: Dict<string>)
    requires AllParse(posts)
    ensures daily == TallyOf(Days(posts), Likes(posts))
  {
    daily := Dict([], map[]);
    var i := 0;
    while i < |posts|
      invariant 0 <= i <= |posts|
      invariant daily == TallyOf(Days(posts[..i]), Likes(posts[..i]))
    {
      var day := DayOf(posts[i]);
      assert AllParse(posts[..i + 1]) by {
        assert forall j :: 0 <= j <= i ==> posts[..i + 1][j] == posts[j];
      }
      ColumnsSnoc(posts, i);
      var ks, w, l := Days(posts[..i]), Likes(posts[..i]), posts[i].likesCount;
      TallyOfAppend(ks, w, day, l);
      daily := daily.Add(day, l);
      i := i + 1;
    }
    assert posts[..i] == posts;
  }

  /** The rates loop: one `{post_id, engagement, timestamp}` per post, in order. */
  method EngagementRates(posts: seq<SamplePost>) returns (rates: seq<Rate>)
    ensures |rates| == |posts|
    ensures forall i :: 0 <= i < |posts| ==> rates[i] == RateOf(posts[i])
  {
    rates := [];
    var i := 0;
    while i < |posts|
      invariant 0 <= i <= |posts|
      invariant |rates| == i
      invariant forall j :: 0 <= j < i ==> rates[j] == RateOf(posts[j])
    {
      rates := rates + [RateOf(posts[i])];
      i := i + 1;
    }
  }

  /** The trend loop over neighbouring sorted posts. */
  method EngagementTrend(sorted: seq<SamplePost>) returns (trend: seq<TrendEntry>)
    ensures trend == TrendOf(sorted)
  {
    trend := [];
    if |sorted| == 0 {
      return;
    }
    var i := 1;
    while i < |sorted|
      invariant 1 <= i <= |sorted|
      invariant |trend| == i - 1
      invariant forall j :: 0 <= j < i - 1 ==> trend[j] == TrendEntryOf(sorted[j], sorted[j + 1])
    {
      var prev := sorted[i - 1].likesCount + sorted[i - 1].commentsCount;
      var curr := sorted[i].likesCount + sorted[i].commentsCount;
      var t := if curr > prev then Up else Down;
      trend := trend + [TrendEntry(sorted[i - 1].timestamp, sorted[i].timestamp, t, curr - prev)];
      i := i + 1;
    }
    assert forall j :: 0 <= j < |trend| ==> trend[j] == TrendOf(sorted)[j];
  }

  /**
   * `best_day = max(daily_likes, key=daily_likes.get)`, reached once the hour
   * loop has parsed every timestamp and its own `max` has found a post.
   */
  method BestDay(posts: seq<SamplePost>) returns (day: string)
    requires AllParse(posts) && |posts| > 0
    ensures FirstMaxKey(Days(posts), Likes(posts), day)
  {
    var daily := DailyLikes(posts);
    BestKeyFirstMax(Days(posts), Likes(posts));
    day := BestKey(daily).value;
  }

  /**
   * `top_post = max(engagement_rates, key=lambda x: x['engagement'])`, reached
   * once the hour loop's `max` has found a post.
   */
  method TopPost(posts: seq<SamplePost>) returns (top: Rate)
    requires |posts| > 0
    ensures exists j :: FirstMaxIndex(Engagements(posts), j) && top == RateOf(posts[j])
  {
    var rates := EngagementRates(posts);
    var engagements := seq(|rates|, i requires 0 <= i < |rates| => rates[i].engagement);
    assert forall i :: 0 <= i < |posts| ==> engagements[i] == Engagements(posts)[i];
    assert engagements == Engagements(posts);
    var j := ArgMax(engagements).value;
    top := rates[j];
  }

  /**
   * What a successful answer says about `posts`: the posts themselves, the hour
   * and the day with the most likes (first met on ties), the first post with
   * the most engagement, and the trend over the posts in timestamp order.
   */
  ghost predicate Describes(posts: seq<SamplePost>, page: StatsPage)
    requires AllParse(posts)
  {
    && page.stats == posts
    && (exists h: nat :: FirstMaxKey(Hours(posts), Likes(posts), h) && page.bestTime == BestTime(h))
    && FirstMaxKey(Days(posts), Likes(posts), page.bestDay)
    && (exists j :: FirstMaxIndex(Engagements(posts), j) && page.topPost == RateOf(posts[j]))
    && page.engagementTrend == TrendOf(SortByTimestamp(posts))
  }

  /**
   * `GET /api/stats`: the statistics, or the reason the endpoint answers 500
   * (a timestamp `fromisoformat` rejects, or no posts for `max`).
   */
  method GetStats(posts: seq<SamplePost>) returns (r: Result<StatsPage, StatsError>)
    ensures FirstInvalid(posts).Some? ==> r == Failure(InvalidTimestamp(posts[FirstInvalid(posts).value].timestamp))
    ensures AllParse(posts) && |posts| == 0 ==> r == Failure(EmptySequence)
    ensures AllParse(posts) && |posts| > 0 ==> r.Success? && Describes(posts, r.value)
  {
    var hourly := HourlyLikes(posts);
    if hourly.Failure? {
      return Failure(InvalidTimestamp(hourly.error));
    }
    BestKeyFirstMax(Hours(posts), Likes(posts));
    var bestHour := BestKey(hourly.value);
    if bestHour.None? {
      return Failure(EmptySequence);
    }
    var h := bestHour.value;
    assert FirstMaxKey(Hours(posts), Likes(posts), h);
    var bestDay := BestDay(posts);
    var top := TopPost(posts);
    var trend := EngagementTrend(SortByTimestamp(posts));
    r := Success(StatsPage(posts, BestTime(h), bestDay, top, trend));
  }
}
