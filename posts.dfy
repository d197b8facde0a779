/**
 * Normalisation of the scraper's raw timeline edges into the post records
 * that the statistics, the training rows and the feature extraction read
 * (`process_posts`).
 */
module Posts {
  import opened Wrappers
  import opened Strings
  import opened Timestamps

  /** One media node of a timeline page, with the fields the scraper reads. */
  datatype Node = Node(
    id: string,
    shortcode: string,
    takenAtTimestamp: int,     // seconds since the Unix epoch
    captionTexts: seq<string>, // the text of each caption edge, in order
    commentCount: int,
    likeCount: int)

  /** An element of a page's `edges` list. */
  datatype Edge = Edge(node: Node)

  /** A normalised post record. */
  datatype Post = Post(
    id: string,
    shortcode: string,
    likesCount: int,
    commentsCount: int,
    timestamp: string,
    caption: string,
    hashtags: seq<string>)

  predicate IsHashtag(w: string)
  {
    |w| > 0 && w[0] == '#'
  }

  /** The words that start with `#`, in the order they come. */
  function Hashtags(words: seq<string>): (tags: seq<string>)
    ensures forall w :: w in tags <==> w in words && IsHashtag(w)
    ensures |tags| <= |words|
  {
    if |words| == 0 then []
    else (if IsHashtag(words[0]) then [words[0]] else []) + Hashtags(words[1..])
  }

  /** Picking hashtags keeps their order: it distributes over concatenation. */
  lemma {:induction false} HashtagsAppend(a: seq<string>, b: seq<string>)
    ensures Hashtags(a + b) == Hashtags(a) + Hashtags(b)
    decreases |a|
  {
    if |a| > 0 {
      var head := if IsHashtag(a[0]) then [a[0]] else [];
      assert (a + b)[0] == a[0];
      assert (a + b)[1..] == a[1..] + b;
      HashtagsAppend(a[1..], b);
      calc {
        Hashtags(a + b);
        head + Hashtags(a[1..] + b);
        head + (Hashtags(a[1..]) + Hashtags(b));
        (head + Hashtags(a[1..])) + Hashtags(b);
      }
    } else {
      assert a + b == b;
    }
  }

  /** The text of the first caption edge, or the empty string when there is none. */
  function Caption(node: Node): (c: string)
    ensures c in node.captionTexts || (c == "" && |node.captionTexts| == 0)
  {
    if |node.captionTexts| > 0 then node.captionTexts[0] else ""
  }

  /** One formatted post; `toLocal` stands for `datetime.fromtimestamp` in the host's time zone. */
  function ProcessPost(edge: Edge, toLocal: int -> DateTime): Post
    requires Valid(toLocal(edge.node.takenAtTimestamp))
  {
    var node := edge.node;
    var caption := Caption(node);
    Post(node.id, node.shortcode, node.likeCount, node.commentCount,
         FormatTimestamp(toLocal(node.takenAtTimestamp)), caption, Hashtags(Words(caption)))
  }

  /**
   * What a formatted post keeps of its edge: the identifiers and counts, the
   * first caption or "", a timestamp that reads back as the local time of
   * `taken_at_timestamp`, and as hashtags the caption's words that start with `#`,
   * in caption order and with repeats kept.
   */
  ghost predicate Normalised(edge: Edge, post: Post, toLocal: int -> DateTime)
  {
    var node := edge.node;
    && post.id == node.id
    && post.shortcode == node.shortcode
    && post.likesCount == node.likeCount
    && post.commentsCount == node.commentCount
    && (|node.captionTexts| > 0 ==> post.caption == node.captionTexts[0])
    && (|node.captionTexts| == 0 ==> post.caption == "")
    && ParseTimestamp(post.timestamp) == Some(toLocal(node.takenAtTimestamp))
    && post.hashtags == Hashtags(Words(post.caption))
    && (forall w :: w in post.hashtags <==> w in Words(post.caption) && IsHashtag(w))
    && (forall k :: 0 <= k < |post.hashtags| ==> IsWord(post.hashtags[k]) && post.hashtags[k][0] == '#')
  }

  lemma {:induction false} HashtagsAreWords(caption: string)
    ensures forall k :: 0 <= k < |Hashtags(Words(caption))| ==>
      IsWord(Hashtags(Words(caption))[k]) && Hashtags(Words(caption))[k][0] == '#'
  {
    var words := Words(caption);
    var tags := Hashtags(words);
    forall k | 0 <= k < |tags|
      ensures IsWord(tags[k]) && tags[k][0] == '#'
    {
      assert tags[k] in words;
      var j :| 0 <= j < |words| && words[j] == tags[k];
    }
  }

  lemma {:induction false} ProcessPostNormalised(edge: Edge, toLocal: int -> DateTime)
    requires Valid(toLocal(edge.node.takenAtTimestamp))
    ensures Normalised(edge, ProcessPost(edge, toLocal), toLocal)
  {
    var post := ProcessPost(edge, toLocal);
    var dt := toLocal(edge.node.takenAtTimestamp);
    assert post.timestamp == FormatTimestamp(dt);
    ParseFormat(dt);
    assert post.hashtags == Hashtags(Words(post.caption));
    HashtagsAreWords(post.caption);
  }

  /** `process_posts`: one formatted post per edge, in order. */
  function ProcessPosts(edges: seq<Edge>, toLocal: int -> DateTime): (posts: seq<Post>)
    requires forall i :: 0 <= i < |edges| ==> Valid(toLocal(edges[i].node.takenAtTimestamp))
    ensures |posts| == |edges|
    ensures forall i :: 0 <= i < |edges| ==> Normalised(edges[i], posts[i], toLocal)
  {
    var posts := seq(|edges|, i requires 0 <= i < |edges| => ProcessPost(edges[i], toLocal));
    assert forall i :: 0 <= i < |edges| ==> Normalised(edges[i], posts[i], toLocal) by {
      forall i | 0 <= i < |edges| {
        ProcessPostNormalised(edges[i], toLocal);
      }
    }
    posts
  }
}
