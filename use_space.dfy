/**
 * `useSpace` of src/hooks/use-space.ts: `location.pathname.split("/")[1]`,
 * the first segment of the current path. Indexing past the end of the
 * split gives `undefined` (`None`); a router path always starts with `/`,
 * so that case is only reachable for a path without any `/`.
 */
module UseSpace {
  import opened Wrappers
  import opened Strings

  function Space(pathname: string): (r: Option<string>)
    ensures r.None? <==> Avoids(pathname, '/')
    ensures r.Some? ==> Avoids(r.value, '/')
  {
    var parts := Split(pathname, "/");
    SplitShape(pathname);
    if |parts| > 1 then Some(parts[1]) else None
  }

  /** `s` has no `/` exactly when `s.includes("/")` is false. */
  lemma AvoidsSlash(s: string)
    ensures Avoids(s, '/') <==> !Contains(s, "/")
  {
    if !Avoids(s, '/') {
      var j :| 0 <= j < |s| && s[j] == '/';
      OccursAtChar('/', s, j);
    }
    if Contains(s, "/") {
      var j :| 0 <= j <= |s| && OccursAt("/", s, j);
      OccursAtChar('/', s, j);
    }
  }

  lemma SplitShape(pathname: string)
    ensures |Split(pathname, "/")| > 1 <==> !Avoids(pathname, '/')
    ensures |Split(pathname, "/")| > 1 ==> Avoids(Split(pathname, "/")[1], '/')
  {
    AvoidsSlash(pathname);
    if Contains(pathname, "/") {
      SplitPresent(pathname, "/");
      SplitPiecesAvoidSep(pathname, "/", 1);
      AvoidsSlash(Split(pathname, "/")[1]);
    } else {
      SplitAbsent(pathname, "/");
    }
  }

  /** The segment is the text between the first `/` of the path and the
      next `/` after it (or the end of the path). */
  lemma SpaceBetweenSlashes(pathname: string)
    requires !Avoids(pathname, '/')
    ensures var i := FirstIndexOr(pathname, '/');
      var rest := pathname[i + 1..];
      i < |pathname| && Space(pathname) == Some(rest[..FirstIndexOr(rest, '/')])
  {
    var i := FirstIndexOr(pathname, '/');
    FirstSlash(pathname);
    var rest := pathname[i + 1..];
    SplitStep(pathname, "/", i);
    SplitFirstPiece(rest, '/');
    SecondPiece(pathname, Split(rest, "/"));
  }

  /** `indexOf("/")` finds the first `/`. */
  lemma FirstSlash(pathname: string)
    requires !Avoids(pathname, '/')
    ensures FirstIndexOr(pathname, '/') < |pathname|
    ensures IndexOf(pathname, "/", 0) == Some(FirstIndexOr(pathname, '/'))
  {
    var i := FirstIndexOr(pathname, '/');
    var w :| 0 <= w < |pathname| && pathname[w] == '/';
    assert i <= w;
    OccursAtChar('/', pathname, i);
    var k := FirstAtOrBefore(pathname, "/", i);
    OccursAtChar('/', pathname, k);
    assert pathname[k] == '/';
    assert i <= k;
  }

  /** The segment is the second piece of the split. */
  lemma SecondPiece(pathname: string, tail: seq<string>)
    requires |tail| >= 1
    requires Split(pathname, "/") == [Split(pathname, "/")[0]] + tail
    ensures Space(pathname) == Some(tail[0])
  {
  }

  /** The root path gives the empty segment. */
  lemma RootSpace()
    ensures Space("/") == Some("")
  {
    assert "/"[0] == '/';
    SpaceBetweenSlashes("/");
  }

  /** A nested path gives only its first segment. */
  lemma NestedSpace()
    ensures Space("/products/12/34") == Some("products")
  {
    SpaceOfSlashPath("products/12/34", 8);
    assert "/products/12/34" == "/" + "products/12/34";
    assert "products/12/34"[..8] == "products";
  }

  /** A path `"/" + rest` whose `rest` has its first `/` at `k`. */
  lemma SpaceOfSlashPath(rest: string, k: nat)
    requires k < |rest| && rest[k] == '/' && Avoids(rest[..k], '/')
    ensures Space("/" + rest) == Some(rest[..k])
  {
    var p := "/" + rest;
    assert p[0] == '/';
    SpaceBetweenSlashes(p);
    FirstSlashAt(p, 0);
    assert p[1..] == rest;
    FirstSlashAt(rest, k);
  }

  lemma FirstSlashAt(s: string, k: nat)
    requires k < |s| && s[k] == '/' && Avoids(s[..k], '/')
    ensures FirstIndexOr(s, '/') == k
  {
  }
}
