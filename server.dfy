/**
 * The two pieces of logic of server.js: the write gate handed to swagger as its validator, and
 * the `/docs` route, which redirects the bare path and strips the prefix before static serving.
 */
module Server {
  import opened Wrappers

  /** The shared secret a mutating request must carry. */
  const API_KEY := "1234"

  /** The path the documentation is served under. */
  const DOCS := "/docs"

  /** The verbs the gate inspects. */
  predicate IsWrite(verb: string) {
    verb == "POST" || verb == "DELETE" || verb == "PUT"
  }

  /**
   * The key the gate compares: the `api_key` header, unless it is absent or empty (falsy), in
   * which case the `api_key` query parameter.
   */
  function EffectiveKey(header: Option<string>, query: Option<string>): (k: Option<string>)
    ensures header.Some? && header.value != "" ==> k == header
    ensures header.None? || header.value == "" ==> k == query
  {
    if header.None? || header.value == "" then query else header
  }

  /** `validate(req, path, httpMethod)`: POST, DELETE and PUT pass only with the right key. */
  function Validate(verb: string, header: Option<string>, query: Option<string>): (ok: bool)
    ensures !IsWrite(verb) ==> ok
    ensures IsWrite(verb) ==> (ok <==> EffectiveKey(header, query) == Some(API_KEY))
  {
    if IsWrite(verb) then
      var apiKey := EffectiveKey(header, query);
      apiKey == Some(API_KEY)
    else true
  }

  /** A non-empty header decides alone: the query parameter is then never consulted. */
  lemma HeaderTakesPrecedence(verb: string, header: string, q1: Option<string>, q2: Option<string>)
    requires header != ""
    ensures Validate(verb, Some(header), q1) == Validate(verb, Some(header), q2)
    ensures IsWrite(verb) ==> (Validate(verb, Some(header), q1) <==> header == API_KEY)
  {
  }

  /** A mutating request with no usable key is refused. */
  lemma KeylessWriteRefused(verb: string, header: Option<string>, query: Option<string>)
    requires IsWrite(verb)
    requires header.None? || header.value == ""
    requires query.None? || query.value != API_KEY
    ensures !Validate(verb, header, query)
  {
  }

  /** The characters JavaScript's `.` does not match. */
  predicate LineTerminator(c: char) {
    c == '\n' || c == '\r' || c == '\U{2028}' || c == '\U{2029}'
  }

  /** The characters that end the pathname of a URL: the start of the query or of the fragment. */
  predicate EndsPath(c: char) {
    c == '?' || c == '#'
  }

  /**
   * The path part of a request URL: everything before the first '?' or '#'. Express matches
   * routes against this part; `req.url` keeps the rest.
   */
  function Pathname(url: string): (p: string)
    ensures |p| <= |url| && p == url[..|p|]
    ensures forall i | 0 <= i < |p| :: !EndsPath(p[i])
    ensures |p| < |url| ==> EndsPath(url[|p|])
  {
    if url == [] || EndsPath(url[0]) then [] else [url[0]] + Pathname(url[1..])
  }

  /** The route pattern `^\/docs(\/.*)?$`: the path `/docs`, or `/docs/` and then one line. */
  function DocsRouteMatches(path: string): (m: bool)
    ensures m ==> |path| >= 5 && path[..5] == DOCS && (|path| == 5 || path[5] == '/')
    ensures m <==> path == DOCS ||
                   (|path| >= 6 && path[..6] == DOCS + "/" && forall i | 6 <= i < |path| :: !LineTerminator(path[i]))
  {
    if path == DOCS then true
    else if |path| < 6 || path[..6] != DOCS + "/" then false
    else forall i | 6 <= i < |path| :: !LineTerminator(path[i])
  }

  /** `app.get` registers the route for GET, and Express also runs GET routes for HEAD. */
  predicate GetRoute(verb: string) {
    verb == "GET" || verb == "HEAD"
  }

  /** Whether the `/docs` route handles a request with this verb and URL. */
  predicate DocsRouted(verb: string, url: string) {
    GetRoute(verb) && DocsRouteMatches(Pathname(url))
  }

  /** `s.substr(start)` for a non-negative start: the characters from `start` on, "" past the end. */
  function Substr(s: string, start: nat): (r: string)
    ensures start <= |s| ==> s == s[..start] + r
    ensures |s| <= start ==> r == ""
  {
    if start <= |s| then s[start..] else ""
  }

  /**
   * The URL handed to static serving for a matched request that is not exactly `/docs`: the
   * request URL without its five-character prefix. It is never empty and starts with '/' or,
   * when the path is `/docs` followed by a query string or a fragment, with '?' or '#'.
   */
  function StripDocs(url: string): (rest: string)
    requires DocsRouteMatches(Pathname(url)) && url != DOCS
    ensures DOCS + rest == url
    ensures |rest| > 0 && (rest[0] == '/' || EndsPath(rest[0]))
    ensures Pathname(url) == DOCS <==> EndsPath(rest[0])
  {
    var p := Pathname(url);
    assert p[..5] == DOCS;
    assert url[..5] == DOCS;
    Substr(url, |DOCS|)
  }

  /**
   * Paths that only resemble the documentation path are not handled by the route. The path with
   * a line break is a property of the pattern alone: Node's parser refuses a raw line break in a
   * request target, and `url.parse` escapes one, so no request arrives with such a path.
   */
  lemma NearMissesNotRouted()
    ensures !DocsRouteMatches("/docsx")
    ensures !DocsRouteMatches("/doc")
    ensures !DocsRouteMatches("/docs/a\nb")
    ensures DocsRouteMatches("/docs/") && DocsRouteMatches("/docs/index.html")
  {
    assert "/docsx"[..6] != DOCS + "/" by { assert "/docsx"[5] == 'x'; }
    assert "/docs/a\nb"[7] == '\n';
  }

  /**
   * The route sees only the path: `/docs#top` is routed and forwarded as `#top`; and only GET
   * and HEAD reach it, so a POST to `/docs` is passed on.
   */
  lemma FragmentAndVerbRouting()
    ensures DocsRouted("GET", "/docs#top") && StripDocs("/docs#top") == "#top"
    ensures DocsRouted("HEAD", "/docs?x=1") && StripDocs("/docs?x=1") == "?x=1"
    ensures !DocsRouted("POST", "/docs") && !DocsRouted("PUT", "/docs/index.html")
  {
    PathnameEndsAt("/docs#top", 5);
    PathnameEndsAt("/docs?x=1", 5);
  }

  /** The pathname is the prefix up to the first '?' or '#'. */
  lemma {:induction false} PathnameEndsAt(url: string, k: nat)
    requires k <= |url| && (k < |url| ==> EndsPath(url[k]))
    requires forall i | 0 <= i < k :: !EndsPath(url[i])
    ensures Pathname(url) == url[..k]
  {
    if k > 0 {
      PathnameEndsAt(url[1..], k - 1);
      assert url[..k] == [url[0]] + url[1..][..k - 1];
    }
  }

  /** One request and its response as the route sees them: `req.url` and what `res` has been sent. */
  class Exchange {
    const verb: string
    var url: string
    var statusCode: nat              // 0 until a head is written
    var headers: map<string, string>
    var ended: bool                  // res.end() was called
    var servedStatic: bool           // handed on to the static handler
    var passedOn: bool               // the route did not match; the next route runs

    constructor (verb: string, url: string)
      ensures this.verb == verb && this.url == url && statusCode == 0 && headers == map[]
      ensures !ended && !servedStatic && !passedOn
    {
      this.verb, this.url := verb, url;
      statusCode, headers := 0, map[];
      ended, servedStatic, passedOn := false, false, false;
    }

    /**
     * The `/docs` route: a GET or HEAD whose URL is exactly `/docs` is redirected with 302 to
     * `/docs/` and the response ended; any other routed URL loses its prefix and goes to static
     * serving; every other request is passed on.
     */
    method RouteDocs()
      modifies this
      ensures !DocsRouted(verb, old(url)) ==>
                passedOn && url == old(url) && statusCode == old(statusCode) && headers == old(headers) &&
                ended == old(ended) && servedStatic == old(servedStatic)
      ensures GetRoute(verb) && old(url) == DOCS ==>
                statusCode == 302 && headers == old(headers)["Location" := DOCS + "/"] && ended &&
                url == old(url) && servedStatic == old(servedStatic) && passedOn == old(passedOn)
      ensures DocsRouted(verb, old(url)) && old(url) != DOCS ==>
                servedStatic && url == StripDocs(old(url)) && statusCode == old(statusCode) &&
                headers == old(headers) && ended == old(ended) && passedOn == old(passedOn)
    {
      if !DocsRouted(verb, url) {
        passedOn := true;
        return;
      }
      if url == DOCS {
        statusCode := 302;
        headers := headers["Location" := url + "/"];
        ended := true;
        return;
      }
      url := Substr(url, |DOCS|);
      servedStatic := true;
    }
  }
}
