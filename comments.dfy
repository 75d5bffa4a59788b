/**
 * The comments feed (`HandleComments`, lib/comments.go): one GET of the
 * configured comments endpoint with `page=1` and the application id added to
 * its query, then one feed item per returned comment, in response order.
 */
module Comments {
  import opened Wrappers
  import opened Strings
  import opened UrlValues
  import opened Params
  import opened Config
  import opened Http
  import opened Feeds

  /** A comment as the endpoint returns it (`Datum`). */
  datatype Comment = Comment(
    id: string,
    createdAt: Time,
    content: string,
    byNickname: string,
    pageUrl: string,
    parsedContent: string)

  /** How many characters of a comment the item text keeps (the first argument of the truncation). */
  const TruncateLength: nat := 50

  /** Whether `Options[key].(string)` succeeds rather than panicking. */
  predicate OptionIsString(options: map<string, Param>, key: string)
  {
    key in options && options[key].Single? && options[key].value.Str?
  }

  function OptionString(options: map<string, Param>, key: string): string
    requires OptionIsString(options, key)
  {
    options[key].value.s
  }

  /** The query after `Add("page", "1")` and then `Add("appId", appId)`. */
  function CommentsQuery(q: Entries, appId: string): (r: Entries)
  {
    Added(Added(q, "page", "1"), "appId", appId)
  }

  /**
   * Both values go after whatever the endpoint URL already carried under
   * those keys, and no other key is touched.
   */
  lemma CommentsQueryContents(q: Entries, appId: string)
    ensures var r := CommentsQuery(q, appId);
      r.Keys == q.Keys + {"page", "appId"} &&
      r["page"] == ValuesOf(q, "page") + ["1"] &&
      r["appId"] == ValuesOf(q, "appId") + [appId] &&
      (forall k :: k in q && k != "page" && k != "appId" ==> r[k] == q[k])
  {
  }

  /** With neither key in the endpoint URL, the query's first values are page 1 and the application id. */
  lemma CommentsQueryFirstValues(q: Entries, appId: string)
    requires "page" !in q && "appId" !in q
    ensures First(CommentsQuery(q, appId), "page") == "1"
    ensures First(CommentsQuery(q, appId), "appId") == appId
  {
  }

  /** The two `Add` calls on the query taken from the endpoint URL. */
  method AddUpstreamParams(query: Values, appId: string)
    modifies query
    ensures query.entries == CommentsQuery(old(query.entries), appId)
  {
    query.Add("page", "1");
    query.Add("appId", appId);
  }

  /** The text used for both the title and the description of a comment's item. */
  function CommentText(c: Comment, truncate: (string, nat) -> string): string
  {
    c.byNickname + ": " + truncate(c.content, TruncateLength)
  }

  /** The item a comment becomes: keyed and linked by the page it was left on. */
  function CommentItem(c: Comment, truncate: (string, nat) -> string): Item
  {
    var text := CommentText(c, truncate);
    Item(c.pageUrl, text, text, c.pageUrl, c.createdAt, ZeroTime)
  }

  /**
   * What every comment item looks like: id and link are both the page URL,
   * title and description are the same text, which starts with the
   * nickname and ": ", and the creation time is the comment's.
   */
  lemma CommentItemShape(c: Comment, truncate: (string, nat) -> string)
    ensures var item := CommentItem(c, truncate);
      item.id == item.link == c.pageUrl &&
      item.title == item.description &&
      |item.title| >= |c.byNickname| + 2 &&
      item.title[..|c.byNickname| + 2] == c.byNickname + ": " &&
      item.created == c.createdAt && item.updated == ZeroTime
  {
    var text := CommentText(c, truncate);
    assert text[..|c.byNickname| + 2] == c.byNickname + ": ";
  }

  /** A nickname without a colon is recovered as the part of the title before the first colon. */
  lemma {:induction false} NicknameRecoverable(c: Comment, truncate: (string, nat) -> string)
    requires ':' !in c.byNickname
    ensures Split(CommentItem(c, truncate).title, ':')[0] == c.byNickname
  {
    var rest := " " + truncate(c.content, TruncateLength);
    assert CommentText(c, truncate) == c.byNickname + [':'] + rest;
    SplitAfterFirst(c.byNickname, ':', rest);
  }

  /** The loop over `Data.Data`: one item per comment, in order. */
  method CommentItems(comments: seq<Comment>, truncate: (string, nat) -> string) returns (items: seq<Item>)
    ensures |items| == |comments|
    ensures forall i :: 0 <= i < |comments| ==> items[i] == CommentItem(comments[i], truncate)
  {
    items := [];
    for i := 0 to |comments|
      invariant |items| == i
      invariant forall j :: 0 <= j < i ==> items[j] == CommentItem(comments[j], truncate)
    {
      var comment := comments[i];
      var href := comment.pageUrl;
      var content := comment.byNickname + ": " + truncate(comment.content, TruncateLength);
      items := items + [Item(href, content, content, href, comment.createdAt, ZeroTime)];
    }
  }

  /** The GET the handler sends: the endpoint URL with page 1 and the application id added to its query. */
  function UpstreamRequest(feedConfig: FeedConfig, queryOf: string -> Entries): Request
    requires OptionIsString(feedConfig.options, "url") && OptionIsString(feedConfig.options, "appId")
  {
    var url := OptionString(feedConfig.options, "url");
    Request(url, CommentsQuery(queryOf(url), OptionString(feedConfig.options, "appId")))
  }

  /**
   * `HandleComments`: a failed fetch returns at once with the fetch's error
   * (nil for a status other than 200); otherwise the feed carries the
   * configured metadata and one item per comment.
   */
  method HandleComments(
    config: Config, feedConfig: FeedConfig, queryOf: string -> Entries,
    fetch: Request -> HttpResult<seq<Comment>>, truncate: (string, nat) -> string)
    returns (result: Handled, request: Request)
    requires OptionIsString(feedConfig.options, "url") && OptionIsString(feedConfig.options, "appId")
    ensures request == UpstreamRequest(feedConfig, queryOf)
    ensures !Succeeded(fetch(request)) ==> result == Failed(FailureError(fetch(request)))
    ensures Succeeded(fetch(request)) ==>
      var comments := fetch(request).body.value;
      result.Rendered? &&
      result.feed.title == feedConfig.title && result.feed.description == feedConfig.description &&
      result.feed.link == config.baseUrl && result.feed.language == feedConfig.language &&
      |result.feed.items| == |comments| &&
      forall i :: 0 <= i < |comments| ==> result.feed.items[i] == CommentItem(comments[i], truncate)
  {
    var url := OptionString(feedConfig.options, "url");
    var query := new Values(queryOf(url));
    AddUpstreamParams(query, OptionString(feedConfig.options, "appId"));
    request := Request(url, query.entries);

    var response := fetch(request);
    if !Succeeded(response) {
      result := Failed(FailureError(response));
      return;
    }
    var items := CommentItems(response.body.value, truncate);
    result := Rendered(Feed(feedConfig.title, feedConfig.description, config.baseUrl, feedConfig.language, items));
  }
}
