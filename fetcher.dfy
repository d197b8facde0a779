/**
 * The scraper's paginated fetch (`fetch_all_posts`): request a timeline page,
 * append its edges to a buffer, write every 500 buffered posts as a numbered
 * batch, follow the page cursor, back off and retry on 401, stop on anything
 * else, and write what is left at the end. Each HTTP exchange is an input
 * (`Response`); files written, requests made and pauses taken are outputs.
 */
module Fetcher {
  import opened Wrappers
  import opened Posts

  /** `batch_size`. */
  const BatchSize: nat := 500

  /** `max_retries`. */
  const MaxRetries: nat := 3

  /** `page_info` of a timeline page. */
  datatype PageInfo = PageInfo(hasNextPage: bool, endCursor: Option<string>)

  /** The `edge_owner_to_timeline_media` part of a page; `info` is `None` when `page_info` is missing. */
  datatype Page = Page(edges: seq<Edge>, info: Option<PageInfo>)

  /** A response body: not JSON at all, or JSON that does or does not hold a timeline page. */
  datatype Body = NotJson | Json(page: Option<Page>)

  /** One request's fate: an HTTP answer, or an exception from `requests.get`. */
  datatype Response = Answer(status: int, body: Body) | Raised

  /** The user's entry in the fetch cache. */
  datatype CacheEntry = CacheEntry(endCursor: Option<string>, hasNextPage: bool)

  /** A written file `batch_<number>.json`. */
  datatype Batch = Batch(number: nat, posts: seq<Edge>)

  /**
   * The variables of `fetch_all_posts` (`all_posts`, `batch_count`,
   * `retry_attempts`, `has_next_page`, `end_cursor`, the user's cache entry),
   * whether the loop has hit `break`, and the record of what it did: batches
   * written, the cursor sent with each request, the back-off pauses, and
   * every edge fetched in order.
   */
  datatype State = State(
    buffer: seq<Edge>,
    batchCount: nat,
    retryAttempts: nat,
    hasNextPage: bool,
    endCursor: Option<string>,
    cache: Option<CacheEntry>,
    stopped: bool,
    batches: seq<Batch>,
    requests: seq<Option<string>>,
    backoffs: seq<nat>,
    fetched: seq<Edge>)

  /** The state before the first request, read from the cache entry if there is one. */
  function Start(cached: Option<CacheEntry>): State
  {
    State([], 0, 0,
          if cached.Some? then cached.value.hasNextPage else true,
          if cached.Some? then cached.value.endCursor else None,
          cached, false, [], [], [], [])
  }

  /** The loop goes on: `while has_next_page`, and no `break` yet. */
  predicate Looping(s: State)
  {
    s.hasNextPage && !s.stopped
  }

  /** The `after` parameter of a request: the cursor, only when it is set and not empty. */
  function SentCursor(c: Option<string>): Option<string>
  {
    if c.Some? && |c.value| > 0 then c else None
  }

  function Pow2(n: nat): nat
  {
    if n == 0 then 1 else 2 * Pow2(n - 1)
  }

  /** Every request is made with the cursor as it stands. */
  function Request(s: State): State
  {
    s.(requests := s.requests + [SentCursor(s.endCursor)])
  }

  /** `break`. */
  function Stop(s: State): State
  {
    s.(stopped := true)
  }

  /** `batch_count += 1` and the file `batch_<batch_count>.json` holding `posts`. */
  function WriteBatch(s: State, posts: seq<Edge>): State
  {
    s.(batchCount := s.batchCount + 1, batches := s.batches + [Batch(s.batchCount + 1, posts)])
  }

  /** A 200 with a timeline page: extend the buffer, take `page_info`, write a full batch, update the cache. */
  function TakePage(s: State, page: Page): State
  {
    var buffer := s.buffer + page.edges;
    var s := s.(buffer := buffer, fetched := s.fetched + page.edges);
    match page.info
    case None => Stop(s)
    case Some(info) =>
      var s := s.(hasNextPage := info.hasNextPage, endCursor := info.endCursor);
      var s := if |buffer| >= BatchSize then WriteBatch(s, buffer[..BatchSize]).(buffer := buffer[BatchSize..]) else s;
      s.(cache := Some(CacheEntry(info.endCursor, info.hasNextPage)), retryAttempts := 0)
  }

  /** A 401 with a JSON body: count the retry; past `max_retries` break, otherwise pause `2**retry_attempts`. */
  function Retry(s: State): State
  {
    var attempts := s.retryAttempts + 1;
    if attempts > MaxRetries then Stop(s.(retryAttempts := attempts))
    else s.(retryAttempts := attempts, backoffs := s.backoffs + [Pow2(attempts)])
  }

  /**
   * One iteration of the loop: a request, then what its answer does. A body
   * that is not JSON raises where it is read, and so does a 200 without a
   * timeline; an exception breaks the loop.
   */
  function Step(s: State, r: Response): State
  {
    var s := Request(s);
    match r
    case Raised => Stop(s)
    case Answer(status, body) =>
      if status == 200 then
        match body
        case Json(Some(page)) => TakePage(s, page)
        case _ => Stop(s)
      else if status == 401 && body.Json? then Retry(s)
      else Stop(s)
  }

  /** The state after answering the requests with `rs`, one per iteration, until the loop ends. */
  function Run(s: State, rs: seq<Response>): State
  {
    if |rs| == 0 then s
    else
      var t := Run(s, rs[..|rs| - 1]);
      if Looping(t) then Step(t, rs[|rs| - 1]) else t
  }

  /** `if all_posts:` after the loop: the rest of the buffer becomes one last batch. */
  function Flush(s: State): State
  {
    if |s.buffer| > 0 then WriteBatch(s, s.buffer).(buffer := []) else s
  }

  /**
   * `fetch_all_posts` with the server answering `rs`: the final flush comes
   * once the loop has ended; while it still runs the state is as it stands.
   */
  function FetchAll(cached: Option<CacheEntry>, rs: seq<Response>): State
  {
    var s := Run(Start(cached), rs);
    if Looping(s) then s else Flush(s)
  }

  /** The posts of the batches, one after another. */
  function Written(bs: seq<Batch>): seq<Edge>
  {
    if |bs| == 0 then [] else Written(bs[..|bs| - 1]) + bs[|bs| - 1].posts
  }

  /** `[2, 4, …, 2^k]`: the pauses of `k` back-offs in a row. */
  function Doublings(k: nat): seq<nat>
  {
    if k == 0 then [] else Doublings(k - 1) + [Pow2(k)]
  }

  /** Batches are numbered 1, 2, … and `batch_count` is their number. */
  ghost predicate Numbered(s: State)
  {
    && s.batchCount == |s.batches|
    && (forall i :: 0 <= i < |s.batches| ==> s.batches[i].number == i + 1)
  }

  /** The batches followed by the buffer are every edge fetched, in order. */
  ghost predicate Conserved(s: State)
  {
    Written(s.batches) + s.buffer == s.fetched
  }

  /**
   * The retry count is at most 3 unless the loop broke on the fourth 401;
   * the latest pauses are `2, 4, …` for the 401s since the last success,
   * and no pause is longer than 8 seconds.
   */
  ghost predicate Retrying(s: State)
  {
    && (s.retryAttempts <= MaxRetries || (s.stopped && s.retryAttempts == MaxRetries + 1))
    && (var k := if s.retryAttempts <= MaxRetries then s.retryAttempts else MaxRetries;
        |s.backoffs| >= k && s.backoffs[|s.backoffs| - k..] == Doublings(k))
    && (forall i :: 0 <= i < |s.backoffs| ==> s.backoffs[i] in {2, 4, 8})
  }

  /** What holds after every iteration; while the loop runs every batch holds exactly 500 posts. */
  ghost predicate Inv(s: State)
  {
    && Numbered(s)
    && (forall i :: 0 <= i < |s.batches| ==> |s.batches[i].posts| == BatchSize)
    && Conserved(s)
    && Retrying(s)
  }

  lemma {:induction false} WrittenSnoc(bs: seq<Batch>, b: Batch)
    ensures Written(bs + [b]) == Written(bs) + b.posts
  {
    assert (bs + [b])[..|bs|] == bs;
  }

  /** Writing a batch keeps the numbering and moves its posts from the buffer to the written files. */
  lemma {:induction false} WriteBatchKeeps(s: State, n: nat)
    requires Numbered(s) && Conserved(s) && n <= |s.buffer|
    ensures var t := WriteBatch(s, s.buffer[..n]).(buffer := s.buffer[n..]);
      Numbered(t) && Conserved(t)
  {
    var b := Batch(s.batchCount + 1, s.buffer[..n]);
    WrittenSnoc(s.batches, b);
    assert s.buffer[..n] + s.buffer[n..] == s.buffer;
  }

  lemma {:induction false} StartInv(cached: Option<CacheEntry>)
    ensures Inv(Start(cached))
  {
    assert Start(cached).backoffs[0..] == [] == Doublings(0);
  }

  /** Appending a page's edges to both the buffer and the fetched edges keeps the invariant. */
  lemma {:induction false} AppendInv(s: State, edges: seq<Edge>)
    requires Inv(s)
    ensures Inv(s.(buffer := s.buffer + edges, fetched := s.fetched + edges))
  {
    var u := s.(buffer := s.buffer + edges, fetched := s.fetched + edges);
    assert Written(u.batches) + u.buffer == (Written(s.batches) + s.buffer) + edges;
  }

  /** Cutting the first 500 buffered edges into the next batch keeps the invariant. */
  lemma {:induction false} CutInv(s: State)
    requires Inv(s) && |s.buffer| >= BatchSize
    ensures Inv(WriteBatch(s, s.buffer[..BatchSize]).(buffer := s.buffer[BatchSize..]))
  {
    WriteBatchKeeps(s, BatchSize);
    var t := WriteBatch(s, s.buffer[..BatchSize]).(buffer := s.buffer[BatchSize..]);
    assert t.batches == s.batches + [Batch(s.batchCount + 1, s.buffer[..BatchSize])];
    assert forall i :: 0 <= i < |t.batches| ==> |t.batches[i].posts| == BatchSize;
  }

  /** Resetting the retry count after a success keeps the invariant. */
  lemma {:induction false} ResetInv(s: State, entry: Option<CacheEntry>)
    requires Inv(s)
    ensures Inv(s.(cache := entry, retryAttempts := 0))
  {
    var t := s.(cache := entry, retryAttempts := 0);
    assert t.backoffs[|t.backoffs| - 0..] == [] == Doublings(0);
  }

  lemma {:induction false} TakePageInv(s: State, page: Page)
    requires Inv(s) && !s.stopped
    ensures Inv(TakePage(s, page))
  {
    var buffer := s.buffer + page.edges;
    var u := s.(buffer := buffer, fetched := s.fetched + page.edges);
    AppendInv(s, page.edges);
    match page.info {
      case None =>
      case Some(info) =>
        var v := u.(hasNextPage := info.hasNextPage, endCursor := info.endCursor);
        assert Inv(v);
        var w := if |buffer| >= BatchSize then WriteBatch(v, buffer[..BatchSize]).(buffer := buffer[BatchSize..]) else v;
        if |buffer| >= BatchSize {
          CutInv(v);
        }
        ResetInv(w, Some(CacheEntry(info.endCursor, info.hasNextPage)));
        assert TakePage(s, page) == w.(cache := Some(CacheEntry(info.endCursor, info.hasNextPage)), retryAttempts := 0);
    }
  }

  lemma {:induction false} RetryInv(s: State)
    requires Inv(s) && !s.stopped
    ensures Inv(Retry(s))
  {
    if s.retryAttempts < MaxRetries {
      PauseInv(s);
    } else {
      GiveUpInv(s);
    }
  }

  /** A 401 below the retry limit records the pause `2**retry_attempts`. */
  lemma {:induction false} PauseInv(s: State)
    requires Inv(s) && !s.stopped && s.retryAttempts < MaxRetries
    ensures Inv(s.(retryAttempts := s.retryAttempts + 1, backoffs := s.backoffs + [Pow2(s.retryAttempts + 1)]))
  {
    var k := s.retryAttempts;
    var p := Pow2(k + 1);
    assert p in {2, 4, 8} by {
      if k == 0 { assert p == 2; } else if k == 1 { assert p == 4; } else { assert p == 8; }
    }
    var b := s.backoffs + [p];
    assert b[|b| - (k + 1)..] == s.backoffs[|s.backoffs| - k..] + [p];
    assert forall i :: 0 <= i < |b| ==> b[i] in {2, 4, 8};
  }

  /** The fourth 401 since the last success breaks the loop with the count at 4. */
  lemma {:induction false} GiveUpInv(s: State)
    requires Inv(s) && !s.stopped && s.retryAttempts == MaxRetries
    ensures Inv(Stop(s.(retryAttempts := MaxRetries + 1)))
  {
  }

  /** Every iteration keeps the invariant. */
  lemma {:induction false} StepInv(s: State, r: Response)
    requires Inv(s) && Looping(s)
    ensures Inv(Step(s, r))
  {
    var q := Request(s);
    assert Inv(q);
    match r
    case Raised =>
    case Answer(status, body) =>
      if status == 200 && body.Json? && body.page.Some? {
        TakePageInv(q, body.page.value);
      } else if status == 401 && body.Json? {
        RetryInv(q);
      }
  }

  /** Running any answers from a state that satisfies the invariant keeps it. */
  lemma {:induction false} RunInv(s: State, rs: seq<Response>)
    requires Inv(s)
    ensures Inv(Run(s, rs))
    decreases |rs|
  {
    if |rs| > 0 {
      RunInv(s, rs[..|rs| - 1]);
      var t := Run(s, rs[..|rs| - 1]);
      if Looping(t) {
        StepInv(t, rs[|rs| - 1]);
      }
    }
  }

  /**
   * Once the fetch has ended, every fetched edge has been written, in fetch
   * order, into batches numbered 1, 2, … of which all but the last hold
   * exactly 500 posts and the last holds at least one.
   */
  lemma {:induction false} FetchAllWritesEverything(cached: Option<CacheEntry>, rs: seq<Response>)
    requires !Looping(FetchAll(cached, rs))
    ensures var f := FetchAll(cached, rs);
      && f.buffer == []
      && Written(f.batches) == f.fetched
      && f.batchCount == |f.batches|
      && (forall i :: 0 <= i < |f.batches| ==> f.batches[i].number == i + 1)
      && (forall i :: 0 <= i < |f.batches| - 1 ==> |f.batches[i].posts| == BatchSize)
      && (forall i :: 0 <= i < |f.batches| ==> |f.batches[i].posts| > 0)
  {
    var s := Run(Start(cached), rs);
    StartInv(cached);
    RunInv(Start(cached), rs);
    if |s.buffer| > 0 {
      WriteBatchKeeps(s, |s.buffer|);
      assert s.buffer[..|s.buffer|] == s.buffer;
    }
    assert Written(s.batches) + [] == Written(s.batches);
  }

  /** Pauses are `2, 4, 8` seconds at most, in runs that restart at 2 after each success. */
  lemma {:induction false} BackoffBound(cached: Option<CacheEntry>, rs: seq<Response>)
    ensures forall i :: 0 <= i < |FetchAll(cached, rs).backoffs| ==> FetchAll(cached, rs).backoffs[i] in {2, 4, 8}
  {
    StartInv(cached);
    RunInv(Start(cached), rs);
  }

  /**
   * What one iteration does: exactly one request, carrying the cursor when
   * it is set; a 200 page is appended to the buffer, sets `has_next_page`,
   * `end_cursor` and the cache entry from its `page_info` and resets the
   * retry count, and writes exactly the first 500 buffered posts as the next
   * batch when the buffer reaches 500 (never more than one batch); a 401
   * counts a retry and pauses `2**retry_attempts` seconds unless that is the
   * fourth in a row, which ends the loop; anything else ends the loop at once.
   */
  lemma {:induction false} StepEffects(s: State, r: Response)
    requires Inv(s) && Looping(s)
    ensures var t := Step(s, r);
      && t.requests == s.requests + [SentCursor(s.endCursor)]
      && (t.batches == s.batches || t.batches == s.batches + [Batch(|s.batches| + 1, t.fetched[|Written(s.batches)|..][..BatchSize])])
      && (match r
          case Answer(200, Json(Some(Page(edges, Some(info))))) =>
            && t.fetched == s.fetched + edges
            && !t.stopped && t.hasNextPage == info.hasNextPage && t.endCursor == info.endCursor
            && t.cache == Some(CacheEntry(info.endCursor, info.hasNextPage))
            && t.retryAttempts == 0 && t.backoffs == s.backoffs
            && (|s.buffer| + |edges| >= BatchSize <==> |t.batches| == |s.batches| + 1)
          case Answer(401, Json(_)) =>
            && t.fetched == s.fetched && t.batches == s.batches && t.buffer == s.buffer
            && t.retryAttempts == s.retryAttempts + 1
            && (t.stopped <==> s.retryAttempts == MaxRetries)
            && (t.backoffs == if t.stopped then s.backoffs else s.backoffs + [Pow2(t.retryAttempts)])
          case Answer(200, Json(Some(Page(edges, None)))) =>
            t.stopped && t.fetched == s.fetched + edges && t.buffer == s.buffer + edges && t.batches == s.batches
          case _ =>
            t.stopped && t.fetched == s.fetched && t.buffer == s.buffer && t.batches == s.batches
              && t.backoffs == s.backoffs)
  {
    if r.Answer? && r.status == 200 && r.body.Json? && r.body.page.Some? {
      var page := r.body.page.value;
      var buffer := s.buffer + page.edges;
      if page.info.Some? && |buffer| >= BatchSize {
        assert Step(s, r).fetched == Written(s.batches) + buffer;
        assert Step(s, r).fetched[|Written(s.batches)|..] == buffer;
      }
    }
  }

  /** A cached `has_next_page = False` means no request at all and nothing written. */
  lemma {:induction false} NothingWhenCachedDone(cached: Option<CacheEntry>, rs: seq<Response>)
    requires cached.Some? && !cached.value.hasNextPage
    ensures FetchAll(cached, rs).requests == []
    ensures FetchAll(cached, rs).batches == []
    decreases |rs|
  {
    if |rs| > 0 {
      NothingWhenCachedDone(cached, rs[..|rs| - 1]);
      assert Run(Start(cached), rs) == Run(Start(cached), rs[..|rs| - 1]);
    }
  }

  /** Each answer consumed is one request: never more requests than answers, and one per answer while the loop runs. */
  lemma {:induction false} OneRequestPerAnswer(s: State, rs: seq<Response>)
    ensures |Run(s, rs).requests| <= |s.requests| + |rs|
    ensures Looping(Run(s, rs)) ==> |Run(s, rs).requests| == |s.requests| + |rs|
    decreases |rs|
  {
    if |rs| > 0 {
      OneRequestPerAnswer(s, rs[..|rs| - 1]);
    }
  }

  /** After the loop has ended, further answers change nothing: nothing more is requested. */
  lemma {:induction false} RunStops(s: State, rs: seq<Response>, n: nat)
    requires n <= |rs| && !Looping(Run(s, rs[..n]))
    ensures Run(s, rs) == Run(s, rs[..n])
    decreases |rs| - n
  {
    if n < |rs| {
      assert rs[..|rs| - 1][..n] == rs[..n];
      RunStops(s, rs[..|rs| - 1], n);
    } else {
      assert rs[..n] == rs;
    }
  }

  /** After a 200 page that has a next page, the next request carries that page's cursor when it is set. */
  lemma {:induction false} CursorFollowed(s: State, edges: seq<Edge>, info: PageInfo, r: Response)
    requires Looping(s) && info.hasNextPage
    ensures var t := Step(s, Answer(200, Json(Some(Page(edges, Some(info))))));
      && Looping(t)
      && Step(t, r).requests[|s.requests| + 1] == SentCursor(info.endCursor)
      && (Step(t, r).requests[|s.requests| + 1].Some? <==> info.endCursor.Some? && info.endCursor.value != "")
  {
  }

  /**
   * After a success, three 401s in a row pause 2, 4 and 8 seconds and the
   * fourth ends the loop without pausing.
   */
  lemma {:induction false} FourthUnauthorizedStops(s: State, b1: Body, b2: Body, b3: Body, b4: Body)
    requires Looping(s) && s.retryAttempts == 0
    requires b1.Json? && b2.Json? && b3.Json? && b4.Json?
    ensures var t3 := Step(Step(Step(s, Answer(401, b1)), Answer(401, b2)), Answer(401, b3));
      && Looping(t3) && t3.backoffs == s.backoffs + [2, 4, 8]
      && !Looping(Step(t3, Answer(401, b4))) && Step(t3, Answer(401, b4)).backoffs == t3.backoffs
  {
    var t1 := Step(s, Answer(401, b1));
    var t2 := Step(t1, Answer(401, b2));
    assert t1.backoffs == s.backoffs + [2];
    assert t2.backoffs == s.backoffs + [2] + [4];
  }

  /**
   * `fetch_all_posts`: the loop over its variables, answered by `responses`
   * one request at a time, then the final flush.
   */
  method FetchAllPosts(cached: Option<CacheEntry>, responses: seq<Response>) returns (f: State)
    ensures f == FetchAll(cached, responses)
  {
    var allPosts: seq<Edge> := [];
    var batchCount: nat := 0;
    var endCursor := if cached.Some? then cached.value.endCursor else None;
    var hasNextPage := if cached.Some? then cached.value.hasNextPage else true;
    var cache := cached;
    var retryAttempts: nat := 0;
    var stopped := false;
    var batches: seq<Batch> := [];
    var requests: seq<Option<string>> := [];
    var backoffs: seq<nat> := [];
    var fetched: seq<Edge> := [];
    var i := 0;
    while i < |responses| && hasNextPage && !stopped
      invariant 0 <= i <= |responses|
      invariant State(allPosts, batchCount, retryAttempts, hasNextPage, endCursor, cache, stopped,
                      batches, requests, backoffs, fetched) == Run(Start(cached), responses[..i])
      decreases |responses| - i
    {
      ghost var before := State(allPosts, batchCount, retryAttempts, hasNextPage, endCursor, cache, stopped,
                                batches, requests, backoffs, fetched);
      requests := requests + [SentCursor(endCursor)];
      match responses[i] {
      case Raised =>
        stopped := true;
      case Answer(status, body) =>
        if status == 200 {
          if body.NotJson? || body.page.None? {
            stopped := true;
          } else {
            var page := body.page.value;
            allPosts := allPosts + page.edges;
            fetched := fetched + page.edges;
            if page.info.None? {
              stopped := true;
            } else {
              hasNextPage := page.info.value.hasNextPage;
              endCursor := page.info.value.endCursor;
              if |allPosts| >= BatchSize {
                batchCount := batchCount + 1;
                batches := batches + [Batch(batchCount, allPosts[..BatchSize])];
                allPosts := allPosts[BatchSize..];
              }
              cache := Some(CacheEntry(endCursor, hasNextPage));
              retryAttempts := 0;
            }
          }
        } else if status == 401 {
          if body.NotJson? {
            stopped := true;
          } else {
            retryAttempts := retryAttempts + 1;
            if retryAttempts > MaxRetries {
              stopped := true;
            } else {
              backoffs := backoffs + [Pow2(retryAttempts)];
            }
          }
        } else {
          stopped := true;
        }
      }
      assert State(allPosts, batchCount, retryAttempts, hasNextPage, endCursor, cache, stopped,
                   batches, requests, backoffs, fetched) == Step(before, responses[i]);
      assert responses[..i + 1][..i] == responses[..i];
      i := i + 1;
    }
    if i < |responses| {
      RunStops(Start(cached), responses, i);
    } else {
      assert responses[..i] == responses;
    }
    // Past the answers given the loop would still be running; the flush follows the loop's end.
    if !(hasNextPage && !stopped) && |allPosts| > 0 {
      batchCount := batchCount + 1;
      batches := batches + [Batch(batchCount, allPosts)];
      allPosts := [];
    }
    f := State(allPosts, batchCount, retryAttempts, hasNextPage, endCursor, cache, stopped,
               batches, requests, backoffs, fetched);
  }
}
