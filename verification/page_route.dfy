/**
 * PageRoute (middleware/page_route.go): a GET request for one configured
 * path is answered by a page handler at the middleware level; every other
 * request goes on to `next`. The path comparison ignores letter case
 * (strings.EqualFold); the method comparison does not.
 */
module PageRoute {
  import opened Text
  import opened NetHttp

  /** Which handler serves the request: exactly one of the two runs. */
  datatype Choice = Page | Next

  /** The handler PageRoute(path, handler) wraps around `next`, deciding on the request's method and URL path. */
  function Route(path: string, httpMethod: string, urlPath: string): (c: Choice)
    ensures c == Page <==> httpMethod == MethodGet && ToLower(urlPath) == ToLower(path)
  {
    EqualFoldIsLowerEquality(urlPath, path);
    if httpMethod == "GET" && EqualFold(urlPath, path) then Page else Next
  }

  /** The configured path itself, in any letter case, is served by the page handler on GET. */
  lemma PathCaseIgnored(path: string, urlPath: string)
    requires |urlPath| == |path| && forall i | 0 <= i < |path| :: LowerChar(urlPath[i]) == LowerChar(path[i])
    ensures Route(path, MethodGet, urlPath) == Page
  {
    assert ToLower(urlPath) == ToLower(path);
  }

  /** The method is compared case-sensitively: HEAD, a lower-case "get" and every other method fall through to `next`. */
  lemma OnlyGetServed(path: string, httpMethod: string, urlPath: string)
    requires httpMethod != "GET"
    ensures Route(path, httpMethod, urlPath) == Next
  {
  }
}
