/** The Reddit data source used by the social-media analyst.

    The praw client is an `Option<Reddit>`; a client is seen only through the
    listings it would serve (`subreddit(c).top(...)`, `subreddit(s).hot(...)`,
    `subreddit("all").search(q, ...)`), each either a sequence of posts or
    the message of the exception raised while fetching it. What remains is
    the pure post-processing: limits, the score filter, truncation, the entry
    format and the fixed fallback texts. */
module RedditUtils {
  import opened Wrappers
  import opened Strings

  /** The `REDDIT_CLIENT_ID` and `REDDIT_CLIENT_SECRET` environment variables. */
  datatype Credentials = Credentials(clientId: Option<string>, clientSecret: Option<string>)

  /** The attributes of a praw submission that the code reads. */
  datatype Post = Post(
    title: string,
    score: int,
    url: string,
    createdUtc: real,
    numComments: int,
    selftext: string,
    subreddit: string)

  /** A listing as iterated: the posts Reddit returns, or the message of the
      exception the fetch raised. */
  datatype Listing = Fetched(posts: seq<Post>) | FetchFailed(message: string)

  /** A connected client: the weekly top listing of a subreddit, its hot
      listing, and the weekly relevance search of r/all for a query. */
  datatype Reddit = Reddit(top: string -> Listing, hot: string -> Listing, search: string -> Listing)

  /** `get_reddit_client`: no client unless both credentials are non-empty;
      `constructed` is what `praw.Reddit(...)` yields (`None` when it raises). */
  function GetRedditClient(creds: Credentials, constructed: Option<Reddit>): (r: Option<Reddit>)
    ensures r.Some? <==> creds.clientId.GetOr("") != "" && creds.clientSecret.GetOr("") != "" && constructed.Some?
    ensures r.Some? ==> r == constructed
  {
    if creds.clientId.GetOr("") == "" || creds.clientSecret.GetOr("") == "" then None else constructed
  }

  /** One dictionary of `fetch_top_from_category`. */
  datatype TopPost = TopPost(title: string, score: int, url: string, createdUtc: real, numComments: int, selftext: string)

  function Summarize(p: Post): TopPost {
    TopPost(p.title, p.score, p.url, p.createdUtc, p.numComments, Abbreviate(p.selftext, 500))
  }

  /** `fetch_top_from_category(category, limit)`: one summary per post, in
      listing order, at most `limit` of them; no client or a failed fetch
      gives the empty list. */
  function FetchTopFromCategory(client: Option<Reddit>, category: string, limit: nat): (r: seq<TopPost>)
    ensures client.None? ==> r == []
    ensures client.Some? && client.value.top(category).FetchFailed? ==> r == []
    ensures client.Some? && client.value.top(category).Fetched? ==>
      var posts := client.value.top(category).posts;
      && |r| == (if limit <= |posts| then limit else |posts|)
      && forall i :: 0 <= i < |r| ==>
           && r[i].title == posts[i].title && r[i].score == posts[i].score && r[i].url == posts[i].url
           && r[i].createdUtc == posts[i].createdUtc && r[i].numComments == posts[i].numComments
           && (|posts[i].selftext| <= 500 ==> r[i].selftext == posts[i].selftext)
           && (|posts[i].selftext| > 500 ==> r[i].selftext == posts[i].selftext[..500] + "...")
  {
    match client
    case None => []
    case Some(reddit) =>
      match reddit.top(category)
      case FetchFailed(_) => []
      case Fetched(posts) =>
        var shown := Take(posts, limit);
        seq(|shown|, i requires 0 <= i < |shown| => Summarize(shown[i]))
  }

  const GlobalSubreddits: seq<string> := ["economics", "finance", "investing", "stocks", "wallstreetbets"]
  const HotLimit := 5

  /** One entry of the global news: the body is cut to 800 characters with no ellipsis. */
  function GlobalEntry(sub: string, p: Post): string {
    "### r/" + sub + ": " + p.title + " (Score: " + IntToString(p.score) + ")\n" + Take(p.selftext, 800) + "\n"
  }

  function GlobalEntriesOf(sub: string, posts: seq<Post>): (es: seq<string>)
    ensures |es| == |posts|
    ensures forall i :: 0 <= i < |es| ==> es[i] == GlobalEntry(sub, posts[i])
  {
    seq(|posts|, i requires 0 <= i < |posts| => GlobalEntry(sub, posts[i]))
  }

  /** Every listing of `subs` is fetched without an exception. */
  predicate AllFetched(hot: string -> Listing, subs: seq<string>)
    decreases |subs|
  {
    |subs| == 0 || (hot(subs[0]).Fetched? && AllFetched(hot, subs[1..]))
  }

  /** The loop over the subreddits of `get_reddit_global_news`: up to five
      hot posts from each, subreddit by subreddit; the first listing that
      fails aborts the whole loop with its message (`GlobalEntriesFailure`). */
  function GlobalEntries(hot: string -> Listing, subs: seq<string>): (r: Result<seq<string>, string>)
    ensures r.Success? <==> AllFetched(hot, subs)
    ensures r.Success? ==> |r.value| <= HotLimit * |subs|
    decreases |subs|
  {
    if |subs| == 0 then Success([])
    else match hot(subs[0])
      case FetchFailed(message) => Failure(message)
      case Fetched(posts) =>
        var rest := GlobalEntries(hot, subs[1..]);
        if rest.Failure? then rest
        else Success(GlobalEntriesOf(subs[0], Take(posts, HotLimit)) + rest.value)
  }

  /** A failed loop reports the message of the first listing that failed. */
  lemma {:induction false} GlobalEntriesFailure(hot: string -> Listing, subs: seq<string>)
    requires GlobalEntries(hot, subs).Failure?
    ensures exists i ::
              && 0 <= i < |subs|
              && hot(subs[i]) == FetchFailed(GlobalEntries(hot, subs).error)
              && forall j :: 0 <= j < i ==> hot(subs[j]).Fetched?
    decreases |subs|
  {
    if hot(subs[0]).Fetched? {
      GlobalEntriesFailure(hot, subs[1..]);
      var i :| 0 <= i < |subs| - 1 && hot(subs[1..][i]) == FetchFailed(GlobalEntries(hot, subs[1..]).error) &&
        forall j :: 0 <= j < i ==> hot(subs[1..][j]).Fetched?;
      assert hot(subs[i + 1]) == FetchFailed(GlobalEntries(hot, subs).error);
      forall j | 0 <= j < i + 1 ensures hot(subs[j]).Fetched? {
        if j > 0 { assert subs[j] == subs[1..][j - 1]; }
      }
    } else {
      assert hot(subs[0]) == FetchFailed(GlobalEntries(hot, subs).error);
    }
  }

  lemma {:induction false} AllFetchedConcat(hot: string -> Listing, a: seq<string>, b: seq<string>)
    requires AllFetched(hot, a) && AllFetched(hot, b)
    ensures AllFetched(hot, a + b)
    decreases |a|
  {
    if |a| == 0 {
      assert a + b == b;
    } else {
      assert (a + b)[0] == a[0];
      assert (a + b)[1..] == a[1..] + b;
      AllFetchedConcat(hot, a[1..], b);
    }
  }

  lemma ConcatAssociative<T>(x: seq<T>, y: seq<T>, z: seq<T>)
    ensures x + (y + z) == (x + y) + z
  {
  }

  /** One turn of the loop, when the first listing is fetched. */
  lemma GlobalEntriesCons(hot: string -> Listing, subs: seq<string>)
    requires |subs| > 0 && hot(subs[0]).Fetched? && AllFetched(hot, subs[1..])
    ensures GlobalEntries(hot, subs).Success?
    ensures GlobalEntries(hot, subs).value ==
      GlobalEntriesOf(subs[0], Take(hot(subs[0]).posts, HotLimit)) + GlobalEntries(hot, subs[1..]).value
  {
  }

  /** The subreddits are visited in order: when every listing is fetched,
      the entries for `a + b` are those for `a` followed by those for `b`. */
  lemma {:induction false} GlobalEntriesInOrder(hot: string -> Listing, a: seq<string>, b: seq<string>)
    requires AllFetched(hot, a) && AllFetched(hot, b)
    ensures GlobalEntries(hot, a + b).Success?
    ensures GlobalEntries(hot, a + b).value == GlobalEntries(hot, a).value + GlobalEntries(hot, b).value
    decreases |a|
  {
    if |a| == 0 {
      assert a + b == b;
    } else {
      AllFetchedConcat(hot, a, b);
      assert (a + b)[0] == a[0];
      assert (a + b)[1..] == a[1..] + b;
      GlobalEntriesInOrder(hot, a[1..], b);
      GlobalEntriesCons(hot, a);
      GlobalEntriesCons(hot, a + b);
      ghost var head := GlobalEntriesOf(a[0], Take(hot(a[0]).posts, HotLimit));
      ConcatAssociative(head, GlobalEntries(hot, a[1..]).value, GlobalEntries(hot, b).value);
    }
  }

  const GlobalNotConfigured := "Reddit API not configured. Unable to fetch Reddit news."
  const GlobalNothingFound := "No relevant global Reddit news found."
  const GlobalHeader := "## Global Market Discussions from Reddit:\n\n"

  /** `get_reddit_global_news(curr_date, look_back_days)`; neither argument
      affects the result. */
  function GetRedditGlobalNews(client: Option<Reddit>, currDate: string, lookBackDays: int): (r: string)
    ensures client.None? ==> r == GlobalNotConfigured
    ensures client.Some? ==>
      var entries := GlobalEntries(client.value.hot, GlobalSubreddits);
      && (entries.Failure? ==> r == "Error fetching Reddit news: " + entries.error)
      && (entries.Success? && entries.value == [] ==> r == GlobalNothingFound)
      && (entries.Success? && entries.value != [] ==>
            |entries.value| <= 25 && r == GlobalHeader + Join(entries.value, "\n\n"))
  {
    match client
    case None => GlobalNotConfigured
    case Some(reddit) =>
      match GlobalEntries(reddit.hot, GlobalSubreddits)
      case Failure(message) => "Error fetching Reddit news: " + message
      case Success(entries) =>
        if entries == [] then GlobalNothingFound
        else GlobalHeader + Join(entries, "\n\n")
  }

  const MinScore := 5
  const SearchLimit := 15

  /** The search results that pass the score filter, in search order. */
  function Kept(posts: seq<Post>): (r: seq<Post>)
    ensures forall p :: p in r <==> p in posts && p.score >= MinScore
    ensures |r| <= |posts|
  {
    if |posts| == 0 then []
    else
      var rest := Kept(posts[1..]);
      assert forall p :: p in posts <==> p == posts[0] || p in posts[1..];
      if posts[0].score < MinScore then rest else [posts[0]] + rest
  }

  /** Filtering commutes with concatenation, so kept posts keep their order. */
  lemma {:induction false} KeptInOrder(a: seq<Post>, b: seq<Post>)
    ensures Kept(a + b) == Kept(a) + Kept(b)
    decreases |a|
  {
    if |a| == 0 {
      assert a + b == b;
    } else {
      assert (a + b)[0] == a[0];
      assert (a + b)[1..] == a[1..] + b;
      KeptInOrder(a[1..], b);
    }
  }

  /** The text shown for a submission: its self text cut to 800 characters
      with an ellipsis when longer, or `(Link Post)` when it has none. */
  function Content(selftext: string): (c: string)
    ensures c != ""
    ensures selftext == "" ==> c == "(Link Post)"
    ensures selftext != "" && |selftext| <= 800 ==> c == selftext
    ensures |selftext| > 800 ==> c == selftext[..800] + "..."
  {
    var content := Abbreviate(selftext, 800);
    if content == "" then "(Link Post)" else content
  }

  function CompanyEntry(p: Post): string {
    "### " + p.title + " (Score: " + IntToString(p.score) + ", Sub: r/" + p.subreddit + ")\n" + Content(p.selftext) + "\n"
  }

  function CompanyEntriesOf(posts: seq<Post>): (es: seq<string>)
    ensures |es| == |posts|
    ensures forall i :: 0 <= i < |es| ==> es[i] == CompanyEntry(posts[i])
  {
    seq(|posts|, i requires 0 <= i < |posts| => CompanyEntry(posts[i]))
  }

  /** The submissions that make it into the company report: the first 15
      search results whose score is at least 5. */
  function CompanyPosts(search: Listing): (r: seq<Post>)
    requires search.Fetched?
    ensures |r| <= SearchLimit
    ensures forall p :: p in r <==> p in Take(search.posts, SearchLimit) && p.score >= MinScore
  {
    Kept(Take(search.posts, SearchLimit))
  }

  /** `get_reddit_company_news(ticker, curr_date, look_back_days)`; only the
      ticker matters. */
  function GetRedditCompanyNews(client: Option<Reddit>, ticker: string, currDate: string, lookBackDays: int): (r: string)
    ensures client.None? ==> r == "Reddit API not configured. Unable to fetch discussions for " + ticker + "."
    ensures client.Some? && client.value.search(ticker).FetchFailed? ==>
      r == "Error fetching Reddit data for " + ticker + ": " + client.value.search(ticker).message
    ensures client.Some? && client.value.search(ticker).Fetched? ==>
      var kept := CompanyPosts(client.value.search(ticker));
      && (kept == [] ==> r == "No significant Reddit discussions found for " + ticker + " in the past week.")
      && (kept != [] ==> r == "## Reddit Discussions for " + ticker + ":\n\n" + Join(CompanyEntriesOf(kept), "\n\n"))
  {
    match client
    case None => "Reddit API not configured. Unable to fetch discussions for " + ticker + "."
    case Some(reddit) =>
      match reddit.search(ticker)
      case FetchFailed(message) => "Error fetching Reddit data for " + ticker + ": " + message
      case Fetched(posts) =>
        var kept := CompanyPosts(Fetched(posts));
        if kept == [] then "No significant Reddit discussions found for " + ticker + " in the past week."
        else "## Reddit Discussions for " + ticker + ":\n\n" + Join(CompanyEntriesOf(kept), "\n\n")
  }

  /** `get_reddit_stock_info(ticker)`: company news with today's date. */
  function GetRedditStockInfo(client: Option<Reddit>, ticker: string, today: string): (r: string)
    ensures forall date: string, days: int :: r == GetRedditCompanyNews(client, ticker, date, days)
  {
    GetRedditCompanyNews(client, ticker, today, 7)
  }

  /** `get_reddit_sentiment(ticker)`: the same as company news. */
  function GetRedditSentiment(client: Option<Reddit>, ticker: string, today: string): (r: string)
    ensures forall date: string, days: int :: r == GetRedditCompanyNews(client, ticker, date, days)
  {
    GetRedditCompanyNews(client, ticker, today, 7)
  }
}
