/** The `youtube-summary` edge function (supabase/functions/youtube-summary/index.ts):
    a stateless handler from one HTTP request to one response. The page
    fetch and the HTML parser are outside the model; what they yield is part
    of the request. */
module SummaryFunction {
  import opened Strings

  const AllowOrigin := "Access-Control-Allow-Origin"
  const AllowHeaders := "Access-Control-Allow-Headers"
  const ContentType := "Content-Type"
  const AllowedHeaderList := "authorization, x-client-info, apikey, content-type"

  const CorsHeaders: map<string, string> := map[AllowOrigin := "*", AllowHeaders := AllowedHeaderList]
  const JsonHeaders: map<string, string> := CorsHeaders[ContentType := "application/json"]

  const WatchMarker := "youtube.com/watch?v="
  const InvalidUrlMessage := "Invalid YouTube URL"
  const FailureMessage := "Failed to generate summary"

  /** What `await req.json()` yields: a body that cannot be parsed (or the
      JSON `null`, whose destructuring throws), or the body's `url`
      property, `None` when it is missing or `null`. */
  datatype Body = Unparsable | Parsed(url: Option<string>)

  /** What `fetch(url)`, `response.text()` and the HTML parser yield: a
      failure at any of those steps, or the `content` attribute of the
      `og:title` and `og:description` meta tags, `None` when a tag or its
      attribute is absent. */
  datatype Page = Unreachable | Fetched(ogTitle: Option<string>, ogDescription: Option<string>)

  datatype Request = Request(httpMethod: string, body: Body, page: Page)

  /** The JSON object in a response, or no body at all. */
  datatype ResponseBody = NoBody | ErrorJson(error: string) | SummaryJson(summary: string)

  datatype Response = Response(status: nat, headers: map<string, string>, body: ResponseBody)

  /** The URL check: present, non-empty and containing the watch marker.
      The emptiness test adds nothing: a URL holding the marker is longer
      than the marker. */
  predicate IsWatchUrl(url: Option<string>): (valid: bool)
    ensures valid <==> url.Some? && Contains(url.value, WatchMarker)
    ensures valid ==> |url.value| >= |WatchMarker|
  {
    url.Some? && url.value != "" && Contains(url.value, WatchMarker)
  }

  /** The summary template; both metadata values appear in it. */
  function SummaryText(title: string, description: string): (summary: string)
    ensures |summary| >= 7 + 2 * |title| + 2 * |description|
    ensures summary[..7 + |title|] == "Title: " + title
    ensures Contains(summary, title) && Contains(summary, description)
  {
    var head := "Title: " + title + "\n\nDescription: ";
    var summary := head + description + "\n\nThis video discusses " + title + ". " + description;
    assert summary[7..7 + |title|] == title;
    assert OccursAt(summary, title, 7);
    assert summary[|head|..|head| + |description|] == description;
    assert OccursAt(summary, description, |head|);
    summary
  }

  /** The request handler. */
  function Handle(req: Request): (resp: Response)
    ensures resp.status in {200, 400, 500}
    ensures AllowOrigin in resp.headers && resp.headers[AllowOrigin] == "*"
    ensures AllowHeaders in resp.headers && resp.headers[AllowHeaders] == AllowedHeaderList
    ensures resp.body != NoBody ==> ContentType in resp.headers && resp.headers[ContentType] == "application/json"
  {
    if req.httpMethod == "OPTIONS" then
      Response(200, CorsHeaders, NoBody)
    else
      match req.body
      case Unparsable => Response(500, JsonHeaders, ErrorJson(FailureMessage))
      case Parsed(url) =>
        if !IsWatchUrl(url) then
          Response(400, JsonHeaders, ErrorJson(InvalidUrlMessage))
        else
          match req.page
          case Unreachable => Response(500, JsonHeaders, ErrorJson(FailureMessage))
          case Fetched(ogTitle, ogDescription) =>
            var title := OptionOrDefault(ogTitle, "");
            var description := OptionOrDefault(ogDescription, "");
            Response(200, JsonHeaders, SummaryJson(SummaryText(title, description)))
  }

  /** A preflight request gets the CORS headers and no body, whatever its
      body and whatever the page would have been. */
  lemma OptionsPreflight(req: Request, other: Request)
    requires req.httpMethod == "OPTIONS" && other.httpMethod == "OPTIONS"
    ensures Handle(req) == Response(200, CorsHeaders, NoBody)
    ensures Handle(req) == Handle(other)
  {
  }

  /** A URL that fails the check is answered with 400 before any fetch: the
      page does not influence the answer. */
  lemma InvalidUrlRejected(req: Request, page: Page)
    requires req.httpMethod != "OPTIONS" && req.body.Parsed? && !IsWatchUrl(req.body.url)
    ensures Handle(req) == Response(400, JsonHeaders, ErrorJson(InvalidUrlMessage))
    ensures Handle(req) == Handle(req.(page := page))
  {
  }

  /** 400 is given exactly for a parsed body whose URL fails the check. */
  lemma BadRequestExactly(req: Request)
    ensures Handle(req).status == 400
        <==> req.httpMethod != "OPTIONS" && req.body.Parsed? && !IsWatchUrl(req.body.url)
  {
  }

  /** A body that does not parse, or a page that cannot be fetched, gives the
      generic 500 and never a 400. */
  lemma FailuresCollapseTo500(req: Request)
    requires req.httpMethod != "OPTIONS"
    requires req.body.Unparsable? || (IsWatchUrl(req.body.url) && req.page.Unreachable?)
    ensures Handle(req) == Response(500, JsonHeaders, ErrorJson(FailureMessage))
  {
  }

  /** A fetched page always succeeds, missing metadata becoming the empty
      string, and the summary mentions the title and the description. */
  lemma FetchedPageSucceeds(req: Request)
    requires req.httpMethod != "OPTIONS" && req.body.Parsed? && IsWatchUrl(req.body.url)
    requires req.page.Fetched?
    ensures var title := OptionOrDefault(req.page.ogTitle, "");
            var description := OptionOrDefault(req.page.ogDescription, "");
            && Handle(req).status == 200
            && Handle(req).body == SummaryJson(SummaryText(title, description))
            && Contains(Handle(req).body.summary, title)
            && Contains(Handle(req).body.summary, description)
            && (req.page.ogTitle == None ==> title == "")
            && (req.page.ogDescription == None ==> description == "")
  {
  }

  /** The template, character for character. */
  lemma SummaryTemplate(title: string, description: string)
    ensures SummaryText(title, description)
         == "Title: " + title + "\n\nDescription: " + description
          + "\n\nThis video discusses " + title + ". " + description
  {
  }
}
