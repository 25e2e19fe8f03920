/**
 * The navigation scope guard of the Android shell (PwaWebViewClient).
 *
 * At construction the manifest's `scope` is resolved against its `start_url`, a `*`
 * path segment is resolved onto it when its text does not already end in `*`, and
 * the resulting wildcard boundary is translated into a java.util.regex pattern by a
 * hand-written escaper. Any MalformedURLException leaves the pattern absent, and an
 * absent pattern puts every URL in scope (fail open). Each navigation is kept in the
 * embedded browser when it is in scope and handed to an ACTION_VIEW intent otherwise.
 */
module ScopeGuard {
  import opened Common
  import Seqs

  // ---------------------------------------------------------------------------
  // java.net.URL, left abstract

  /** The two ways the guard builds a java.net.URL: `new URL(spec)` (parse) and
      `new URL(context, spec)` (resolve against a context URL). A URL is represented
      by its `toString()` text; `None` stands for a MalformedURLException. */
  datatype UrlLibrary = UrlLibrary(
    parse: string -> Option<string>,
    resolve: (string, string) -> Option<string>)

  // ---------------------------------------------------------------------------
  // The escaper (regexFromPattern)

  /** The characters the escaper prefixes with a backslash (`toReplace`). */
  const RegexMeta: string := "\\.[]{}()^$?+|"

  predicate IsRegexMeta(c: char)
  {
    c in RegexMeta
  }

  /** A character the escaper does not copy unchanged. */
  predicate IsSpecial(c: char)
  {
    c == '*' || IsRegexMeta(c)
  }

  /** What the escaper appends for one pattern character. */
  function EscapeChar(c: char): string
  {
    if c == '*' then ".*" else if IsRegexMeta(c) then ['\\', c] else [c]
  }

  /** The regex text the escaper produces for a whole pattern. */
  function Escape(pattern: string): string
  {
    if pattern == [] then [] else EscapeChar(pattern[0]) + Escape(pattern[1..])
  }

  lemma {:induction false} EscapeConcat(a: string, b: string)
    ensures Escape(a + b) == Escape(a) + Escape(b)
  {
    if a == [] {
      assert a + b == b;
    } else {
      assert (a + b)[0] == a[0] && (a + b)[1..] == a[1..] + b;
      EscapeConcat(a[1..], b);
    }
  }

  /** The regex is one character longer than the pattern for every `*` and every
      metacharacter, and exactly as long otherwise. */
  lemma {:induction false} EscapeLength(pattern: string)
    ensures |Escape(pattern)| == |pattern| + Seqs.Count(pattern, IsSpecial)
  {
    if pattern != [] { EscapeLength(pattern[1..]); }
  }

  /** regexFromPattern: one pass over the pattern, appending to a buffer. */
  method RegexFromPattern(pattern: string) returns (regex: string)
    ensures regex == Escape(pattern)
  {
    regex := "";
    var i := 0;
    while i < |pattern|
      invariant 0 <= i <= |pattern|
      invariant regex == Escape(pattern[..i])
    {
      var c := pattern[i];
      if c == '*' {
        regex := regex + ".";
      } else if IsRegexMeta(c) {
        regex := regex + "\\";
      }
      regex := regex + [c];
      assert pattern[..i + 1] == pattern[..i] + [c];
      EscapeConcat(pattern[..i], [c]);
      i := i + 1;
    }
    assert pattern[..i] == pattern;
  }

  // ---------------------------------------------------------------------------
  // The fragment of java.util.regex that the escaper emits

  /** A piece of a regex of the emitted fragment: a literal character (written
      plainly or as `\c`), `.` and `.*`. */
  datatype Piece = Literal(c: char) | AnyChar | AnyRun

  function Prepend(p: Piece, rest: Option<seq<Piece>>): Option<seq<Piece>>
  {
    match rest
    case None => None
    case Some(ps) => Some([p] + ps)
  }

  /** Reads a regex of the fragment; `None` for any text outside it (an unescaped
      metacharacter or `*` not after `.`, or a backslash before an ordinary character). */
  function ParseRegex(r: string): Option<seq<Piece>>
    decreases |r|
  {
    if r == [] then Some([])
    else if r[0] == '\\' then
      if |r| >= 2 && IsSpecial(r[1]) then Prepend(Literal(r[1]), ParseRegex(r[2..])) else None
    else if r[0] == '.' then
      if |r| >= 2 && r[1] == '*' then Prepend(AnyRun, ParseRegex(r[2..]))
      else Prepend(AnyChar, ParseRegex(r[1..]))
    else if IsSpecial(r[0]) then None
    else Prepend(Literal(r[0]), ParseRegex(r[1..]))
  }

  /** The characters java.util.regex's `.` does not match without DOTALL. */
  predicate IsLineTerminator(c: char)
  {
    c == '\n' || c == '\r' || c == '\U{85}' || c == '\U{2028}' || c == '\U{2029}'
  }

  predicate NoLineTerminators(s: string)
  {
    forall i :: 0 <= i < |s| ==> !IsLineTerminator(s[i])
  }

  /** Whether the pieces match all of `s` (Matcher.matches(): anchored at both ends). */
  function PiecesMatch(ps: seq<Piece>, s: string): bool
    decreases |ps|, |s|
  {
    if ps == [] then s == []
    else match ps[0]
      case Literal(c) => |s| > 0 && s[0] == c && PiecesMatch(ps[1..], s[1..])
      case AnyChar => |s| > 0 && !IsLineTerminator(s[0]) && PiecesMatch(ps[1..], s[1..])
      case AnyRun =>
        PiecesMatch(ps[1..], s) || (|s| > 0 && !IsLineTerminator(s[0]) && PiecesMatch(ps, s[1..]))
  }

  /** `Pattern.compile(regex).matcher(s).matches()` for a regex of the fragment. */
  predicate RegexMatches(regex: string, s: string)
  {
    match ParseRegex(regex)
    case None => false
    case Some(ps) => PiecesMatch(ps, s)
  }

  // ---------------------------------------------------------------------------
  // The meaning the escaper is meant to preserve

  /** Wildcard matching: `*` matches any string, possibly empty, and every other
      character matches only itself; the whole of `s` must be matched. */
  predicate GlobMatches(glob: string, s: string)
    decreases |glob|, |s|
  {
    if glob == [] then s == []
    else if glob[0] == '*' then GlobMatches(glob[1..], s) || (|s| > 0 && GlobMatches(glob, s[1..]))
    else |s| > 0 && s[0] == glob[0] && GlobMatches(glob[1..], s[1..])
  }

  /** The pieces a glob denotes, character by character. */
  function GlobPieces(glob: string): (ps: seq<Piece>)
    ensures |ps| == |glob|
  {
    if glob == [] then [] else [if glob[0] == '*' then AnyRun else Literal(glob[0])] + GlobPieces(glob[1..])
  }

  /** The escaper's output always lies in the fragment, and reads back as the
      pieces of the glob. */
  lemma {:induction false} ParseEscape(glob: string)
    ensures ParseRegex(Escape(glob)) == Some(GlobPieces(glob))
  {
    if glob != [] {
      var c, rest := glob[0], Escape(glob[1..]);
      var r := Escape(glob);
      assert r == EscapeChar(c) + rest;
      ParseEscape(glob[1..]);
      if c == '*' {
        assert r[0] == '.' && r[1] == '*' && r[2..] == rest;
      } else if IsRegexMeta(c) {
        assert r[0] == '\\' && r[1] == c && r[2..] == rest;
      } else {
        assert c != '\\' && c != '.' by { assert '\\' in RegexMeta && '.' in RegexMeta; }
        assert r[0] == c && r[1..] == rest;
      }
    }
  }

  lemma {:induction false} GlobPiecesMatch(glob: string, s: string)
    requires NoLineTerminators(s)
    ensures PiecesMatch(GlobPieces(glob), s) == GlobMatches(glob, s)
    decreases |glob|, |s|
  {
    if glob != [] {
      var ps := GlobPieces(glob);
      assert ps[1..] == GlobPieces(glob[1..]);
      GlobPiecesMatch(glob[1..], s);
      if |s| > 0 {
        assert NoLineTerminators(s[1..]) by {
          forall i | 0 <= i < |s[1..]| ensures !IsLineTerminator(s[1..][i]) {
            assert s[1..][i] == s[i + 1];
          }
        }
        GlobPiecesMatch(glob[1..], s[1..]);
        if glob[0] == '*' {
          assert !IsLineTerminator(s[0]);
          GlobPiecesMatch(glob, s[1..]);
        }
      }
    }
  }

  /** The compiled regex matches exactly the URLs the wildcard boundary matches, with
      metacharacters taken literally. Java's `.` stops at line terminators, so this
      holds of strings without them. */
  lemma EscapedRegexMatchesGlob(glob: string, s: string)
    requires NoLineTerminators(s)
    ensures RegexMatches(Escape(glob), s) <==> GlobMatches(glob, s)
  {
    ParseEscape(glob);
    GlobPiecesMatch(glob, s);
  }

  lemma {:induction false} StarMatchesEverything(s: string)
    ensures GlobMatches("*", s)
  {
    if s != [] {
      StarMatchesEverything(s[1..]);
    }
  }

  /** A boundary whose only wildcard is its last character matches exactly the
      strings that start with the literal part before it. */
  lemma {:induction false} TrailingStarIsPrefix(literal: string, s: string)
    requires '*' !in literal
    ensures GlobMatches(literal + "*", s) <==> |literal| <= |s| && s[..|literal|] == literal
  {
    if literal == [] {
      assert literal + "*" == "*";
      StarMatchesEverything(s);
    } else {
      var g := literal + "*";
      assert g[0] == literal[0] && g[1..] == literal[1..] + "*";
      assert '*' !in literal[1..];
      if |s| > 0 {
        TrailingStarIsPrefix(literal[1..], s[1..]);
        if |literal| <= |s| {
          assert s[..|literal|] == [s[0]] + s[1..][..|literal| - 1];
          assert literal == [literal[0]] + literal[1..];
        }
      }
    }
  }

  // ---------------------------------------------------------------------------
  // Scope construction and the decision

  /** The wildcard boundary the constructor compiles; `None` when a URL constructor
      threw. */
  function ScopeBoundary(startUrl: string, scope: string, urls: UrlLibrary): Option<string>
  {
    match urls.parse(startUrl)
    case None => None
    case Some(base) =>
      match urls.resolve(base, scope)
      case None => None
      case Some(scopeUrl) =>
        if EndsWith(scopeUrl, "*") then Some(scopeUrl) else urls.resolve(scopeUrl, "*")
  }

  /** The value scope_pattern receives: the escaped boundary, or null. */
  function ScopePattern(startUrl: string, scope: string, urls: UrlLibrary): Option<string>
  {
    match ScopeBoundary(startUrl, scope, urls)
    case None => None
    case Some(boundary) => Some(Escape(boundary))
  }

  /** scoped(url): in scope when there is no pattern, or when the pattern matches the
      whole URL. */
  predicate Scoped(scopePattern: Option<string>, url: string): (inScope: bool)
    ensures scopePattern.None? ==> inScope
    ensures NoLineTerminators(url) ==>
      forall glob :: scopePattern == Some(Escape(glob)) ==> (inScope <==> GlobMatches(glob, url))
  {
    EscapedRegexMatchesGlobs(url);
    scopePattern.None? || RegexMatches(scopePattern.value, url)
  }

  /** EscapedRegexMatchesGlob for every glob at once. */
  lemma EscapedRegexMatchesGlobs(url: string)
    ensures NoLineTerminators(url) ==> forall glob :: RegexMatches(Escape(glob), url) <==> GlobMatches(glob, url)
  {
    if NoLineTerminators(url) {
      forall glob ensures RegexMatches(Escape(glob), url) <==> GlobMatches(glob, url) {
        EscapedRegexMatchesGlob(glob, url);
      }
    }
  }

  /** The intent handed to the platform for an out-of-scope navigation. */
  datatype Intent = ActionView(uri: string)

  class PwaWebViewClient {
    /** The compiled scope regex (as text), or null. */
    const scopePattern: Option<string>

    constructor (startUrl: string, scope: string, urls: UrlLibrary)
      ensures scopePattern == ScopePattern(startUrl, scope, urls)
    {
      var pattern: Option<string> := None;
      var baseUrl := urls.parse(startUrl);
      if baseUrl.Some? {
        var scopeUrl := urls.resolve(baseUrl.value, scope);
        if scopeUrl.Some? && !EndsWith(scopeUrl.value, "*") {
          scopeUrl := urls.resolve(scopeUrl.value, "*");
        }
        if scopeUrl.Some? {
          var regex := RegexFromPattern(scopeUrl.value);
          pattern := Some(regex);
        }
      }
      scopePattern := pattern;
    }

    /** shouldOverrideUrlLoading: keeps an in-scope navigation in the web view
        (returns false, launches nothing) and otherwise launches one ACTION_VIEW
        intent for the URL and returns true. */
    method ShouldOverrideUrlLoading(url: string) returns (overridden: bool, launched: Option<Intent>)
      ensures overridden <==> !Scoped(scopePattern, url)
      ensures launched == if overridden then Some(ActionView(url)) else None
      ensures scopePattern.None? ==> !overridden && launched == None
    {
      if Scoped(scopePattern, url) {
        overridden, launched := false, None;
      } else {
        overridden, launched := true, Some(ActionView(url));
      }
    }
  }

  // ---------------------------------------------------------------------------
  // Properties of the guard

  /** Fail open: without a pattern every URL is in scope. */
  lemma AbsentPatternScopesEverything(url: string)
    ensures Scoped(None, url)
  {
  }

  /** A start_url that does not parse, or a scope that cannot be resolved against it,
      leaves the pattern absent, and the guard then keeps every navigation. */
  lemma MalformedUrlFailsOpen(startUrl: string, scope: string, urls: UrlLibrary, url: string)
    requires urls.parse(startUrl).None?
          || urls.resolve(urls.parse(startUrl).value, scope).None?
    ensures ScopePattern(startUrl, scope, urls) == None
    ensures Scoped(ScopePattern(startUrl, scope, urls), url)
  {
  }

  /** A resolved scope already ending in `*` is compiled unchanged (no second
      wildcard); otherwise the boundary is the resolution of `*` against it. */
  lemma WildcardAppendedOnlyWhenMissing(startUrl: string, scope: string, urls: UrlLibrary, base: string, scopeUrl: string)
    requires urls.parse(startUrl) == Some(base) && urls.resolve(base, scope) == Some(scopeUrl)
    ensures EndsWith(scopeUrl, "*") ==> ScopeBoundary(startUrl, scope, urls) == Some(scopeUrl)
    ensures !EndsWith(scopeUrl, "*") ==> ScopeBoundary(startUrl, scope, urls) == urls.resolve(scopeUrl, "*")
  {
  }

  /** Resolving `*` against a URL yields text ending in `*` (an assumption about
      java.net.URL, which replaces the last path segment by the reference). */
  ghost predicate StarResolvesToStar(urls: UrlLibrary)
  {
    forall u :: urls.resolve(u, "*").Some? ==> EndsWith(urls.resolve(u, "*").value, "*")
  }

  /** Under that assumption every boundary the guard compiles ends in `*`. */
  lemma BoundaryEndsInStar(startUrl: string, scope: string, urls: UrlLibrary)
    requires StarResolvesToStar(urls)
    requires ScopeBoundary(startUrl, scope, urls).Some?
    ensures EndsWith(ScopeBoundary(startUrl, scope, urls).value, "*")
  {
    var scopeUrl := urls.resolve(urls.parse(startUrl).value, scope).value;
    if !EndsWith(scopeUrl, "*") {
      assert urls.resolve(scopeUrl, "*").Some?;
    }
  }

  /** With a pattern present, a URL without line terminators is in scope exactly
      when it matches the wildcard boundary. */
  lemma ScopedIffBoundaryMatches(startUrl: string, scope: string, urls: UrlLibrary, url: string)
    requires ScopeBoundary(startUrl, scope, urls).Some?
    requires NoLineTerminators(url)
    ensures Scoped(ScopePattern(startUrl, scope, urls), url)
        <==> GlobMatches(ScopeBoundary(startUrl, scope, urls).value, url)
  {
    EscapedRegexMatchesGlob(ScopeBoundary(startUrl, scope, urls).value, url);
  }

  /** For a boundary whose only `*` is its last character, a URL without line
      terminators is in scope exactly when the literal part is a prefix of it. */
  lemma ScopedIffPrefix(scopePattern: Option<string>, literal: string, url: string)
    requires scopePattern == Some(Escape(literal + "*"))
    requires '*' !in literal
    requires NoLineTerminators(url)
    ensures Scoped(scopePattern, url) <==> |literal| <= |url| && url[..|literal|] == literal
  {
    EscapedRegexMatchesGlob(literal + "*", url);
    TrailingStarIsPrefix(literal, url);
  }

  /** When the boundary is a literal followed by one trailing `*` (however it was
      reached), a URL without line terminators is in scope exactly when it starts
      with the literal. */
  lemma BoundaryPrefixScope(startUrl: string, scope: string, urls: UrlLibrary, literal: string, url: string)
    requires ScopeBoundary(startUrl, scope, urls) == Some(literal + "*")
    requires '*' !in literal
    requires NoLineTerminators(url)
    ensures Scoped(ScopePattern(startUrl, scope, urls), url) <==> |literal| <= |url| && url[..|literal|] == literal
  {
    ScopedIffPrefix(ScopePattern(startUrl, scope, urls), literal, url);
  }

  // ---------------------------------------------------------------------------
  // Worked examples, under the resolutions java.net.URL performs for these inputs

  /** The java.net.URL resolutions for start_url `https://example.com/app/` and an
      empty scope: the scope resolves to start_url, and `*` to start_url + `*`. */
  ghost predicate ResolvesEmptyScope(urls: UrlLibrary, startUrl: string)
  {
    && startUrl == "https://example.com/app/"
    && urls.parse(startUrl) == Some(startUrl)
    && urls.resolve(startUrl, "") == Some(startUrl)
    && urls.resolve(startUrl, "*") == Some(startUrl + "*")
  }

  lemma EmptyScopeBoundary(urls: UrlLibrary, startUrl: string)
    requires ResolvesEmptyScope(urls, startUrl)
    ensures ScopeBoundary(startUrl, "", urls) == Some(startUrl + "*")
    ensures '*' !in startUrl
  {
    assert startUrl[|startUrl| - 1] != '*';
  }

  /** An empty scope covers everything under start_url, not only start_url. */
  lemma EmptyScopeKeepsPagesUnderStartUrl(urls: UrlLibrary, startUrl: string, url: string)
    requires ResolvesEmptyScope(urls, startUrl)
    requires url == "https://example.com/app/x/y"
    ensures Scoped(ScopePattern(startUrl, "", urls), url)
  {
    EmptyScopeBoundary(urls, startUrl);
    BoundaryPrefixScope(startUrl, "", urls, startUrl, url);
  }

  lemma EmptyScopeDelegatesOtherPaths(urls: UrlLibrary, startUrl: string, url: string)
    requires ResolvesEmptyScope(urls, startUrl)
    requires url == "https://example.com/other"
    ensures !Scoped(ScopePattern(startUrl, "", urls), url)
  {
    EmptyScopeBoundary(urls, startUrl);
    BoundaryPrefixScope(startUrl, "", urls, startUrl, url);
    assert url[20] != startUrl[20];
  }

  /** The java.net.URL resolutions for start_url `https://example.com/` and the scope
      `a(b)/`: the scope resolves to `https://example.com/a(b)/`, and `*` against that
      to the same text followed by `*`. */
  ghost predicate ResolvesParenthesisedScope(urls: UrlLibrary, startUrl: string, scope: string, literal: string)
  {
    && startUrl == "https://example.com/" && scope == "a(b)/"
    && literal == "https://example.com/a(b)/"
    && urls.parse(startUrl) == Some(startUrl)
    && urls.resolve(startUrl, scope) == Some(literal)
    && urls.resolve(literal, "*") == Some(literal + "*")
  }

  /** The resolved scope does not end in `*`, so the constructor resolves `*` onto it. */
  lemma ParenthesisedScopeBoundary(urls: UrlLibrary, startUrl: string, scope: string, literal: string)
    requires ResolvesParenthesisedScope(urls, startUrl, scope, literal)
    ensures ScopeBoundary(startUrl, scope, urls) == Some(literal + "*")
    ensures '*' !in literal
  {
    assert literal[|literal| - 1] != '*';
  }

  /** Parentheses in the boundary match themselves ... */
  lemma ParenthesesMatchLiterally(urls: UrlLibrary, startUrl: string, scope: string, literal: string, url: string)
    requires ResolvesParenthesisedScope(urls, startUrl, scope, literal)
    requires url == "https://example.com/a(b)/page"
    ensures Scoped(ScopePattern(startUrl, scope, urls), url)
  {
    ParenthesisedScopeBoundary(urls, startUrl, scope, literal);
    BoundaryPrefixScope(startUrl, scope, urls, literal, url);
  }

  /** ... and do not form a regex group: `ab` is not in scope. */
  lemma ParenthesesAreNotAGroup(urls: UrlLibrary, startUrl: string, scope: string, literal: string, url: string)
    requires ResolvesParenthesisedScope(urls, startUrl, scope, literal)
    requires url == "https://example.com/ab/page"
    ensures !Scoped(ScopePattern(startUrl, scope, urls), url)
  {
    ParenthesisedScopeBoundary(urls, startUrl, scope, literal);
    BoundaryPrefixScope(startUrl, scope, urls, literal, url);
    assert url[21] != literal[21];
  }
}
