/**
 * The path resolver: maps an inbound pathname and search string onto a URL
 * under the fixed upstream base `https://api.xai.com/v1`.
 *
 * It works in two steps. `ResolvePath` first rewrites the pathname into
 * the `/v1/...` namespace:
 * - the root and bare `/v1` paths go to the chat-completions endpoint;
 * - any other path outside `/v1/` gets `/v1` prepended.
 * `StripV1` then removes the leading `/v1` again (the anchored pattern
 * `^\/v1`), and the remainder follows the base URL.
 */
module Paths {

  /** The upstream base URL. */
  const XaiApiBaseUrl: string := "https://api.xai.com/v1"

  /** Where the root and bare `/v1` paths are sent. */
  const DefaultPath: string := "/v1/chat/completions"

  /** `s.startsWith(prefix)`. */
  predicate StartsWith(s: string, prefix: string) {
    |prefix| <= |s| && s[..|prefix|] == prefix
  }

  /** The paths the resolver treats as "no endpoint given". */
  predicate IsDefaultPath(path: string) {
    path == "/" || path == "/v1" || path == "/v1/"
  }

  /** The rewrite of the pathname into the `/v1/` namespace. Whatever the
      input, the result lies under `/v1/`. */
  function ResolvePath(path: string): (r: string)
    ensures StartsWith(r, "/v1/")
  {
    if IsDefaultPath(path) then DefaultPath
    else if !StartsWith(path, "/v1/") then
      "/v1" + (if StartsWith(path, "/") then path else "/" + path)
    else path
  }

  /** `path.replace(/^\/v1/, "")`: removes one `/v1` at the very start of
      the string, if there is one, and nothing else. */
  function StripV1(path: string): (r: string)
    ensures StartsWith(path, "/v1") ==> path == "/v1" + r
    ensures !StartsWith(path, "/v1") ==> r == path
  {
    if StartsWith(path, "/v1") then path[3..] else path
  }

  /** The part of the target URL between the base and the search string.
      It is what `ResolvePath` produced, less exactly one leading `/v1`, so
      it is never empty and begins with `/`. */
  function TargetSuffix(pathname: string): (r: string)
    ensures "/v1" + r == ResolvePath(pathname)
    ensures StartsWith(r, "/")
  {
    var resolved := ResolvePath(pathname);
    assert resolved == "/v1" + resolved[3..];
    StripV1(resolved)
  }

  /** The upstream URL for an inbound pathname and search string: the base,
      then a path under it, then the search string unchanged. */
  function TargetUrl(pathname: string, search: string): (r: string)
    ensures StartsWith(r, XaiApiBaseUrl + "/")
    ensures r == XaiApiBaseUrl + TargetSuffix(pathname) + search
  {
    var suffix := TargetSuffix(pathname);
    assert (XaiApiBaseUrl + suffix + search)[..|XaiApiBaseUrl| + 1]
        == XaiApiBaseUrl + suffix[..1];
    XaiApiBaseUrl + suffix + search
  }

  /** The root and bare `/v1` paths reach the chat-completions endpoint. */
  lemma DefaultPathTarget(pathname: string, search: string)
    requires IsDefaultPath(pathname)
    ensures TargetUrl(pathname, search)
         == "https://api.xai.com/v1/chat/completions" + search
  {
  }

  /** A path already under `/v1/` (other than `/v1/` itself) is kept, and
      only its leading `/v1` is dropped: `/v1/models` becomes `/models`. */
  lemma V1PathTarget(pathname: string)
    requires StartsWith(pathname, "/v1/") && pathname != "/v1/"
    ensures TargetSuffix(pathname) == pathname[3..]
  {
  }

  /** Any other absolute path ends up unchanged after the base, since the
      `/v1` added to it is stripped again: `/chat/completions` and `/v1abc`
      both stay as they are. */
  lemma AbsolutePathTarget(pathname: string)
    requires StartsWith(pathname, "/") && !StartsWith(pathname, "/v1/")
    requires pathname != "/" && pathname != "/v1"
    ensures TargetSuffix(pathname) == pathname
  {
  }

  /** A path without a leading slash gets one: `models` becomes `/models`,
      and the empty path becomes `/` (it is not treated like the root). */
  lemma RelativePathTarget(pathname: string)
    requires !StartsWith(pathname, "/")
    ensures TargetSuffix(pathname) == "/" + pathname
  {
  }

  /** The suffix in closed form: the chat-completions endpoint for the
      root and bare `/v1` paths, the path less `/v1` for paths under `/v1/`,
      and otherwise the path itself with a leading slash ensured. */
  function ExpectedSuffix(pathname: string): string {
    if IsDefaultPath(pathname) then "/chat/completions"
    else if StartsWith(pathname, "/v1/") then pathname[3..]
    else if StartsWith(pathname, "/") then pathname
    else "/" + pathname
  }

  /** The two-step rewrite (prepend `/v1`, strip `/v1`) agrees with the
      closed form on every pathname. */
  lemma TargetSuffixIsExpected(pathname: string)
    ensures TargetSuffix(pathname) == ExpectedSuffix(pathname)
  {
    if IsDefaultPath(pathname) {
    } else if StartsWith(pathname, "/v1/") {
      V1PathTarget(pathname);
    } else if StartsWith(pathname, "/") {
      AbsolutePathTarget(pathname);
    } else {
      RelativePathTarget(pathname);
    }
  }

  /** The search string comes last and is not altered. */
  lemma SearchAppended(pathname: string, search: string)
    ensures TargetUrl(pathname, search) == TargetUrl(pathname, "") + search
    ensures TargetUrl(pathname, search)[|TargetUrl(pathname, search)| - |search|..] == search
  {
    var prefix := XaiApiBaseUrl + TargetSuffix(pathname);
    assert TargetUrl(pathname, "") == prefix + "" == prefix;
    assert (prefix + search)[|prefix|..] == search;
  }

  /** Resolving a resolved path changes nothing, except for the empty
      pathname: it resolves to `/v1/`, which is itself a default path. */
  lemma ResolvePathIdempotent(pathname: string)
    requires pathname != ""
    ensures ResolvePath(ResolvePath(pathname)) == ResolvePath(pathname)
  {
  }

  /** The empty pathname is the one exception to idempotence. */
  lemma EmptyPathNotIdempotent()
    ensures ResolvePath("") == "/v1/"
    ensures ResolvePath(ResolvePath("")) == DefaultPath
  {
  }

  /** Putting `/v1` back in front of a resolved suffix resolves to that
      same suffix, for every absolute pathname. */
  lemma TargetSuffixIdempotent(pathname: string)
    requires StartsWith(pathname, "/")
    ensures TargetSuffix("/v1" + TargetSuffix(pathname)) == TargetSuffix(pathname)
  {
    var suffix := TargetSuffix(pathname);
    ResolvePathIdempotent(pathname);
    assert "/v1" + suffix == ResolvePath(pathname);
  }

  /** `/chat/completions?x=1` is sent to the chat-completions endpoint
      with its search string. */
  lemma ChatCompletionsTarget()
    ensures TargetUrl("/chat/completions", "?x=1")
         == "https://api.xai.com/v1/chat/completions?x=1"
  {
    var pathname := "/chat/completions";
    assert pathname[..4] == "/cha";
    AbsolutePathTarget(pathname);
  }
}
