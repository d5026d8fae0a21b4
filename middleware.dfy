/**
 * The authentication middleware's bookkeeping: the registry of public (method, path)
 * pairs, where a registered path may hold `{param}` segments, and the helpers that split
 * an Authorization header and recognise an expired-token error.
 */
module AuthMiddleware {
  import opened Strings

  // ---------------------------------------------------------------------------
  // Path patterns with `{param}` segments.
  // ---------------------------------------------------------------------------

  /** A segment that starts with '{' and ends with '}' matches any segment. */
  predicate IsParam(part: string) {
    HasPrefix(part, "{") && HasSuffix(part, "}")
  }

  /**
   * matchPath: the '/'-separated segments line up one for one, and each pattern segment is
   * a parameter or equal to the path's.
   */
  predicate MatchPath(pattern: string, path: string) {
    var pp, ps := Split(pattern, '/'), Split(path, '/');
    |pp| == |ps| && forall i :: 0 <= i < |pp| ==> IsParam(pp[i]) || pp[i] == ps[i]
  }

  /** Every path matches itself as a pattern. */
  lemma MatchPathReflexive(p: string)
    ensures MatchPath(p, p)
  {
  }

  /** Without parameter segments, a pattern matches exactly the path it spells. */
  lemma MatchPathLiteral(pattern: string, path: string)
    requires forall i :: 0 <= i < |Split(pattern, '/')| ==> !IsParam(Split(pattern, '/')[i])
    ensures MatchPath(pattern, path) <==> pattern == path
  {
    if MatchPath(pattern, path) {
      assert Split(pattern, '/') == Split(path, '/');
      JoinSplit(pattern, '/');
      JoinSplit(path, '/');
    }
  }

  /** A pattern with more or fewer separators than the path never matches it. */
  lemma MatchPathNeedsSameDepth(pattern: string, path: string)
    requires CountChar(pattern, '/') != CountChar(path, '/')
    ensures !MatchPath(pattern, path)
  {
    SplitCount(pattern, '/');
    SplitCount(path, '/');
  }

  // ---------------------------------------------------------------------------
  // The public-path registry.
  // ---------------------------------------------------------------------------

  /** A method marked true in a method map; a missing method reads as false. */
  predicate Marked(methods: map<string, bool>, httpMethod: string) {
    httpMethod in methods && methods[httpMethod]
  }

  /** The method, or the wildcard "*", is marked. */
  predicate AllowsMethod(methods: map<string, bool>, httpMethod: string) {
    Marked(methods, httpMethod) || Marked(methods, "*")
  }

  /** The registry's entry for (path, method). */
  predicate Registered(publicPaths: map<string, map<string, bool>>, path: string, httpMethod: string) {
    path in publicPaths && Marked(publicPaths[path], httpMethod)
  }

  /** Some registered pattern matches the path and allows the method. */
  ghost predicate MatchedPublic(publicPaths: map<string, map<string, bool>>, httpMethod: string, path: string) {
    exists pattern :: pattern in publicPaths && MatchPath(pattern, path) && AllowsMethod(publicPaths[pattern], httpMethod)
  }

  /** isPublicPath's answer: an exact entry allowing the method, or a matching pattern. */
  ghost predicate PublicIn(publicPaths: map<string, map<string, bool>>, httpMethod: string, path: string) {
    (path in publicPaths && AllowsMethod(publicPaths[path], httpMethod)) || MatchedPublic(publicPaths, httpMethod, path)
  }

  /** The registry after AddPublicPath: the path's method map, created if missing, marks the method. */
  function WithPublicPath(publicPaths: map<string, map<string, bool>>, httpMethod: string, path: string): map<string, map<string, bool>> {
    publicPaths[path := (if path in publicPaths then publicPaths[path] else map[])[httpMethod := true]]
  }

  /** The exact-path check is a shortcut: the pattern scan alone gives the same answer. */
  lemma ExactCheckIsShortcut(publicPaths: map<string, map<string, bool>>, httpMethod: string, path: string)
    ensures PublicIn(publicPaths, httpMethod, path) <==> MatchedPublic(publicPaths, httpMethod, path)
  {
    if path in publicPaths && AllowsMethod(publicPaths[path], httpMethod) {
      MatchPathReflexive(path);
    }
  }

  /** AddPublicPath marks exactly the added (path, method) and leaves every other entry as it was. */
  lemma WithPublicPathEffect(publicPaths: map<string, map<string, bool>>, httpMethod: string, path: string,
                             path': string, httpMethod': string)
    ensures Registered(WithPublicPath(publicPaths, httpMethod, path), path', httpMethod')
            <==> Registered(publicPaths, path', httpMethod') || (path' == path && httpMethod' == httpMethod)
  {
  }

  /** After AddPublicPath the added method on the added path is public. */
  lemma AddedPathIsPublic(publicPaths: map<string, map<string, bool>>, httpMethod: string, path: string)
    ensures PublicIn(WithPublicPath(publicPaths, httpMethod, path), httpMethod, path)
  {
  }

  /** Registering never makes a public request private. */
  lemma WithPublicPathMonotone(publicPaths: map<string, map<string, bool>>, httpMethod: string, path: string,
                               httpMethod': string, path': string)
    requires PublicIn(publicPaths, httpMethod', path')
    ensures PublicIn(WithPublicPath(publicPaths, httpMethod, path), httpMethod', path')
  {
    var after := WithPublicPath(publicPaths, httpMethod, path);
    ExactCheckIsShortcut(publicPaths, httpMethod', path');
    var pattern :| pattern in publicPaths && MatchPath(pattern, path') && AllowsMethod(publicPaths[pattern], httpMethod');
    assert pattern in after && AllowsMethod(after[pattern], httpMethod');
  }

  /** The middleware's registry of public endpoints. */
  class Middleware {
    var publicPaths: map<string, map<string, bool>>

    /** NewMiddleware: an empty registry. */
    constructor ()
      ensures publicPaths == map[]
    {
      publicPaths := map[];
    }

    /** AddPublicPath: mark the method on the path. */
    method AddPublicPath(httpMethod: string, path: string)
      modifies this
      ensures publicPaths == WithPublicPath(old(publicPaths), httpMethod, path)
    {
      if path !in publicPaths {
        publicPaths := publicPaths[path := map[]];
      }
      publicPaths := publicPaths[path := publicPaths[path][httpMethod := true]];
    }

    /**
     * isPublicPath: the exact entry first, then every registered pattern in whatever order
     * the map is walked; the answer does not depend on that order.
     */
    method IsPublicPath(httpMethod: string, path: string) returns (b: bool)
      ensures b == PublicIn(publicPaths, httpMethod, path)
    {
      if path in publicPaths && AllowsMethod(publicPaths[path], httpMethod) {
        return true;
      }
      var remaining := publicPaths.Keys;
      while remaining != {}
        invariant remaining <= publicPaths.Keys
        invariant forall p :: p in publicPaths && p !in remaining ==>
                    !(MatchPath(p, path) && AllowsMethod(publicPaths[p], httpMethod))
        decreases remaining
      {
        var pattern :| pattern in remaining;
        if MatchPath(pattern, path) && AllowsMethod(publicPaths[pattern], httpMethod) {
          return true;
        }
        remaining := remaining - {pattern};
      }
      return false;
    }
  }

  // ---------------------------------------------------------------------------
  // Header helpers.
  // ---------------------------------------------------------------------------

  /**
   * splitAuthHeader: split at the first space only; with two parts, the first is lowered
   * in place.
   */
  function SplitAuthHeader(header: string): (parts: seq<string>)
    ensures 1 <= |parts| <= 2
    ensures |parts| == 1 <==> ' ' !in header
    ensures |parts| == 1 ==> parts[0] == header
    ensures |parts| == 2 ==>
              && var k := |parts[0]|;
                 k < |header| && header[k] == ' ' && ' ' !in header[..k]
                 && parts[0] == ToLower(header[..k]) && parts[1] == header[k + 1..]
  {
    var parts := SplitFirst(header, ' ');
    if |parts| == 2 then
      assert header[..|parts[0]|] == parts[0];
      parts[0 := ToLower(parts[0])]
    else parts
  }

  /** A header "<scheme> <rest>" splits into the lowered scheme and the rest, spaces included. */
  lemma SplitAuthHeaderOf(scheme: string, rest: string)
    requires ' ' !in scheme
    ensures SplitAuthHeader(scheme + " " + rest) == [ToLower(scheme), rest]
  {
    var header := scheme + " " + rest;
    assert header[|scheme|] == ' ';
    var parts := SplitAuthHeader(header);
    var k := |parts[0]|;
    assert header[..k] == scheme;
    assert header[k + 1..] == rest;
  }

  lemma LowerBearer()
    ensures ToLower("Bearer") == "bearer"
  {
  }

  /** "Bearer a b" gives the scheme "bearer" and the token "a b". */
  lemma SplitAuthHeaderExample()
    ensures SplitAuthHeader("Bearer a b") == ["bearer", "a b"]
  {
    assert "Bearer a b" == "Bearer" + " " + "a b";
    SplitAuthHeaderOf("Bearer", "a b");
    LowerBearer();
  }

  /** containsExpired: "expired" occurs in the error text. */
  function ContainsExpired(s: string): (b: bool)
    ensures b <==> exists k :: OccursAt(s, "expired", k)
  {
    ContainsIff(s, "expired");
    Contains(s, "expired")
  }
}
