/** The pathname rewriting at the top of the worker's request handler:
    a directory request gets its index file, an extensionless request gets
    the `.html` extension, and anything else is fetched as named. */
module PathRewrite {

  /** JavaScript's `s.endsWith(suffix)`. */
  predicate EndsWith(s: string, suffix: string) {
    |suffix| <= |s| && s[|s| - |suffix|..] == suffix
  }

  /** `t` occurs in `s` starting at index `i`. */
  predicate OccursAt(s: string, t: string, i: int) {
    0 <= i <= |s| - |t| && s[i..i + |t|] == t
  }

  /** JavaScript's `s.includes(t)`: `t` occurs somewhere in `s`. */
  predicate Includes(s: string, t: string) {
    exists i :: 0 <= i <= |s| - |t| && OccursAt(s, t, i)
  }

  /** What a directory request is completed with. */
  const IndexFile: string := "index.html"

  /** What an extensionless request is completed with. */
  const HtmlExtension: string := ".html"

  /** The pathname the handler fetches: the two appends happen one after
      the other, the second one testing the path the first one produced. */
  function Rewrite(pathname: string): (path: string) {
    var path := if EndsWith(pathname, "/") then pathname + IndexFile else pathname;
    if Includes(path, ".") then path else path + HtmlExtension
  }

  /** The handler's own steps on its local `path`, proved to compute
      `Rewrite` and to yield a path that names a file. */
  method RewritePath(pathname: string) returns (path: string)
    ensures path == Rewrite(pathname)
    ensures Includes(path, ".") && !EndsWith(path, "/")
    ensures pathname <= path
  {
    path := pathname;
    if EndsWith(path, "/") {
      path := path + IndexFile;
    }
    if !Includes(path, ".") {
      path := path + HtmlExtension;
    }
    RewriteShape(pathname);
  }

  /** `includes` with a one-character argument is membership. */
  lemma IncludesChar(s: string, c: char)
    ensures Includes(s, [c]) <==> c in s
  {
    if Includes(s, [c]) {
      var i :| 0 <= i <= |s| - |[c]| && OccursAt(s, [c], i);
      assert s[i] == s[i..i + 1][0];
    }
    if c in s {
      var i :| 0 <= i < |s| && s[i] == c;
      assert s[i..i + 1] == [c];
      assert OccursAt(s, [c], i);
    }
  }

  /** `endsWith` with a one-character argument looks at the last character. */
  lemma EndsWithChar(s: string, c: char)
    ensures EndsWith(s, [c]) <==> |s| > 0 && s[|s| - 1] == c
  {
  }

  /** A character of `t` is a character of `s + t`. */
  lemma IncludesAppended(s: string, t: string, c: char)
    requires c in t
    ensures Includes(s + t, [c])
  {
    var j :| 0 <= j < |t| && t[j] == c;
    assert (s + t)[|s| + j] == c;
    IncludesChar(s + t, c);
  }

  /** A directory request gets `index.html` and nothing more: the second
      append never fires on it. */
  lemma RewriteDirectory(pathname: string)
    requires EndsWith(pathname, "/")
    ensures Rewrite(pathname) == pathname + IndexFile
    ensures Rewrite(pathname) != pathname + HtmlExtension
    ensures Rewrite(pathname) != pathname + IndexFile + HtmlExtension
  {
    assert IndexFile[5] == '.';
    IncludesAppended(pathname, IndexFile, '.');
    assert IndexFile != HtmlExtension;
    assert |pathname + IndexFile| != |pathname + IndexFile + HtmlExtension|;
  }

  /** An extensionless request that is not a directory gets `.html`. */
  lemma RewriteExtensionless(pathname: string)
    requires !EndsWith(pathname, "/") && !Includes(pathname, ".")
    ensures Rewrite(pathname) == pathname + HtmlExtension
  {
  }

  /** A request that already has a `.` and is not a directory is fetched as named. */
  lemma RewriteDotted(pathname: string)
    requires !EndsWith(pathname, "/") && Includes(pathname, ".")
    ensures Rewrite(pathname) == pathname
  {
  }

  /** The rewrite leaves a path alone exactly when it is not a directory
      and already holds a `.`. */
  lemma RewriteUnchangedIff(pathname: string)
    ensures Rewrite(pathname) == pathname <==> !EndsWith(pathname, "/") && Includes(pathname, ".")
  {
  }

  /** The rewritten path always holds a `.`, never ends in `/`, and
      extends the original. */
  lemma RewriteShape(pathname: string)
    ensures Includes(Rewrite(pathname), ".")
    ensures !EndsWith(Rewrite(pathname), "/")
    ensures pathname <= Rewrite(pathname)
  {
    var r := Rewrite(pathname);
    if EndsWith(pathname, "/") {
      RewriteDirectory(pathname);
      assert IndexFile[|IndexFile| - 1] == 'l';
      assert r[|r| - 1] == 'l';
    } else if !Includes(pathname, ".") {
      assert HtmlExtension[0] == '.';
      IncludesAppended(pathname, HtmlExtension, '.');
      assert r[|r| - 1] == 'l';
    }
    EndsWithChar(r, '/');
    assert pathname == r[..|pathname|];
  }

  /** Rewriting an already rewritten path changes nothing. */
  lemma RewriteIdempotent(pathname: string)
    ensures Rewrite(Rewrite(pathname)) == Rewrite(pathname)
  {
    RewriteShape(pathname);
    RewriteDotted(Rewrite(pathname));
  }

  /** The rewrite appends one of three suffixes and nothing else. */
  lemma RewriteSuffix(pathname: string)
    ensures Rewrite(pathname) in {pathname, pathname + IndexFile, pathname + HtmlExtension}
  {
    if EndsWith(pathname, "/") {
      RewriteDirectory(pathname);
    }
  }

  /** Sample requests: a directory, an extensionless page, an asset with
      an extension, a directory whose name holds a `.`, and a page under
      such a directory, which the `.` test leaves without `.html`. */
  lemma RewriteSamples()
    ensures Rewrite("/blog/") == "/blog/index.html"
    ensures Rewrite("/about") == "/about.html"
    ensures Rewrite("/img/logo.png") == "/img/logo.png"
    ensures Rewrite("/a.b/") == "/a.b/index.html"
    ensures Rewrite("/v1.2/about") == "/v1.2/about"
  {
    RewriteDirectory("/blog/");
    RewriteDirectory("/a.b/");
    IncludesChar("/about", '.');
    RewriteExtensionless("/about");
    IncludesChar("/img/logo.png", '.');
    assert "/img/logo.png"[9] == '.';
    IncludesChar("/v1.2/about", '.');
    assert "/v1.2/about"[3] == '.';
  }
}
