/** Mount paths of the panel and of the subscriptions (internal/config/config.go). */
module Mount {
  import opened Text

  predicate SegmentChar(c: char) {
    IsAlnum(c) || c == '.' || c == '_' || c == '~' || c == '-'
  }

  predicate SafeSegment(s: string) {
    s != "" && s != "." && s != ".." && forall i :: 0 <= i < |s| ==> SegmentChar(s[i])
  }

  predicate HasDoubleSlash(s: string) {
    exists i :: 0 <= i < |s| - 1 && s[i] == '/' && s[i + 1] == '/'
  }

  /** ValidateMountPath returns nil */
  predicate ValidMount(value: string, allowRoot: bool) {
    if value == "" || value[0] != '/' then false
    else if value == "/" then allowRoot
    else if value[|value| - 1] == '/' || HasDoubleSlash(value) || ContainsAny(value, {'?', '#', '\\', '%'}) then false
    else forall s :: s in Split(value[1..], '/') ==> SafeSegment(s)
  }

  /** The segments of a mount path; the root has none. */
  function Segments(value: string): seq<string>
    requires value != ""
  {
    if value == "/" then [] else Split(value[1..], '/')
  }

  /** pathsOverlap */
  predicate PathsOverlap(left: string, right: string) {
    left == right || HasPrefix(left, right + "/") || HasPrefix(right, left + "/")
  }

  /** JoinURLPath */
  function JoinURLPath(base: string, route: string): string {
    var tail := if HasPrefix(route, "/") then route[1..] else route;
    if base == "/" then "/" + tail
    else if route == "/" || route == "" then base + "/"
    else (if HasSuffix(base, "/") then base[..|base| - 1] else base) + "/" + tail
  }

  // A valid mount path other than the root.
  predicate Mounted(value: string) {
    ValidMount(value, true) && value != "/"
  }

  lemma MountedIsJoined(value: string)
    requires Mounted(value)
    ensures Segments(value) != [] && value == "/" + Join(Segments(value), '/')
    ensures forall s :: s in Segments(value) ==> s != "" && '/' !in s
  {
    JoinSplit(value[1..], '/');
    assert value == "/" + value[1..];
  }

  lemma {:induction false} JoinedPrefix(a: seq<string>, b: seq<string>)
    requires a != [] && b != []
    requires forall s :: s in a ==> '/' !in s
    requires forall s :: s in b ==> '/' !in s
    ensures HasPrefix(Join(b, '/') + "/", Join(a, '/') + "/") <==> a <= b
  {
    var x, y := Join(a, '/') + "/", Join(b, '/') + "/";
    JoinHead(a);
    JoinHead(b);
    if a[0] != b[0] {
      if HasPrefix(y, x) {
        HeadsAgree(a[0], JoinTail(a), b[0], JoinTail(b));
      }
    } else if |a| == 1 {
      assert x == a[0] + ['/'];
    } else if |b| == 1 {
      assert y == b[0] + ['/'];
      assert |x| > |y|;
    } else {
      JoinedPrefix(a[1..], b[1..]);
      assert a <= b <==> a[1..] <= b[1..];
      SharedHead(a[0] + ['/'], JoinTail(a), JoinTail(b));
    }
  }

  // What follows the first segment and its slash.
  function JoinTail(s: seq<string>): string
    requires s != []
  {
    if |s| == 1 then "" else Join(s[1..], '/') + "/"
  }

  lemma {:induction false} JoinHead(s: seq<string>)
    requires s != []
    ensures Join(s, '/') + "/" == s[0] + ['/'] + JoinTail(s)
  {}

  lemma SharedHead(head: string, x: string, y: string)
    ensures HasPrefix(head + y, head + x) <==> HasPrefix(y, x)
  {
    if HasPrefix(y, x) {
      assert (head + y)[..|head + x|] == head + y[..|x|];
    }
    if HasPrefix(head + y, head + x) {
      assert y[..|x|] == (head + y)[..|head + x|][|head|..];
    }
  }

  lemma HeadsAgree(a: string, x: string, b: string, y: string)
    requires '/' !in a && '/' !in b
    requires HasPrefix(b + ['/'] + y, a + ['/'] + x)
    ensures a == b
  {
    var s, t := a + ['/'] + x, b + ['/'] + y;
    IndexAt(b, '/', y);
    assert t[..|s|] == s;
    assert forall i :: 0 <= i < |a| ==> t[i] == s[i] == a[i];
    assert t[|a|] == s[|a|] == '/';
    assert |a| == |b|;
    assert b == t[..|a|] == s[..|a|] == a;
  }

  // Overlapping is a prefix of text with a slash behind it.
  lemma OverlapSlashed(l: string, r: string)
    ensures PathsOverlap(l, r) <==> HasPrefix(l + "/", r + "/") || HasPrefix(r + "/", l + "/")
  {
    SlashedPrefix(l, r);
    SlashedPrefix(r, l);
  }

  lemma SlashedPrefix(l: string, r: string)
    ensures HasPrefix(l + "/", r + "/") <==> l == r || HasPrefix(l, r + "/")
  {
    if HasPrefix(l + "/", r + "/") {
      if |l| == |r| {
        assert l == (l + "/")[..|l|] == (r + "/")[..|r|] == r;
      } else {
        assert l[..|r| + 1] == (l + "/")[..|r| + 1] == r + "/";
      }
    }
    if HasPrefix(l, r + "/") {
      assert (l + "/")[..|r| + 1] == l[..|r| + 1];
    }
  }

  /** Two mounts overlap exactly when the segments of one begin the segments of the other. */
  lemma OverlapIsPrefix(l: string, r: string)
    requires Mounted(l) && Mounted(r)
    ensures PathsOverlap(l, r) <==> Segments(l) <= Segments(r) || Segments(r) <= Segments(l)
  {
    MountedIsJoined(l);
    MountedIsJoined(r);
    var a, b := Segments(l), Segments(r);
    OverlapSlashed(l, r);
    JoinedPrefix(a, b);
    JoinedPrefix(b, a);
    hide Join, Segments, Mounted, PathsOverlap, HasPrefix;
    SlashedEnds(Join(a, '/'), Join(b, '/'));
    SlashedEnds(Join(b, '/'), Join(a, '/'));
  }

  lemma SlashedEnds(x: string, y: string)
    ensures HasPrefix("/" + y + "/", "/" + x + "/") <==> HasPrefix(y + "/", x + "/")
  {
    SharedHead("/", x + "/", y + "/");
    assert "/" + (x + "/") == "/" + x + "/" && "/" + (y + "/") == "/" + y + "/";
  }

  /** The root has no segments, so it begins every mount, but pathsOverlap does not see it. */
  lemma RootOverlapsNothing(r: string)
    requires Mounted(r)
    ensures Segments("/") <= Segments(r) && !PathsOverlap("/", r) && !PathsOverlap(r, "/")
  {
    assert r[|r| - 1] != '/';
    if HasPrefix(r, "//") {
      assert r[0] == '/' && r[1] == '/';
      assert HasDoubleSlash(r);
    }
  }

  // What JoinURLPath appends to a mount.
  lemma JoinedUnder(base: string, route: string)
    requires Mounted(base)
    ensures JoinURLPath(base, route) == base + "/" + if HasPrefix(route, "/") then route[1..] else route
  {
    assert base[|base| - 1] != '/';
    if route == "/" {
      assert route[1..] == "";
    }
  }

  predicate Collide(l: string, r: string, p: string, q: string) {
    JoinURLPath(l, p) == JoinURLPath(r, q)
  }

  /** Some route under one path has the same URL as some route under the other. */
  ghost predicate Collision(l: string, r: string) {
    exists p, q :: Collide(l, r, p, q)
  }

  lemma SamePrefix(l: string, x: string, r: string, y: string)
    requires l + "/" + x == r + "/" + y
    ensures PathsOverlap(l, r)
  {
    var s := l + "/" + x;
    assert s[..|l| + 1] == l + "/" && s[..|r| + 1] == r + "/";
    assert s[..|l|] == l && s[..|r|] == r;
    if |l| < |r| {
      assert r[..|l| + 1] == s[..|l| + 1];
    } else if |r| < |l| {
      assert l[..|r| + 1] == s[..|r| + 1];
    }
  }

  lemma NestedCollides(outer: string, inner: string)
    requires Mounted(outer) && Mounted(inner) && HasPrefix(inner, outer + "/")
    ensures Collide(outer, inner, inner[|outer|..] + "/", "")
  {
    var rest := inner[|outer| + 1..];
    var route := inner[|outer|..] + "/";
    assert inner == outer + "/" + rest;
    assert route == "/" + rest + "/";
    JoinedUnder(outer, route);
    JoinedUnder(inner, "");
    assert outer + "/" + route[1..] == inner + "/" + "";
  }

  /**
   Two mounts keep their URLs apart, whatever the routes below them, if and only if
   pathsOverlap is false.
   */
  lemma SeparateMounts(l: string, r: string)
    requires Mounted(l) && Mounted(r)
    ensures Collision(l, r) <==> PathsOverlap(l, r)
  {
    if Collision(l, r) {
      var p, q :| Collide(l, r, p, q);
      JoinedUnder(l, p);
      JoinedUnder(r, q);
      SamePrefix(l, if HasPrefix(p, "/") then p[1..] else p, r, if HasPrefix(q, "/") then q[1..] else q);
    }
    if PathsOverlap(l, r) {
      if l == r {
        assert Collide(l, r, "", "");
      } else if HasPrefix(r, l + "/") {
        NestedCollides(l, r);
      } else {
        NestedCollides(r, l);
        assert Collide(l, r, "", l[|r|..] + "/");
      }
    }
  }

  /** A panel at the root shares URLs with every other mount, which is why it is not checked for overlap. */
  lemma RootCollides(r: string)
    requires Mounted(r)
    ensures Collision("/", r) && !PathsOverlap("/", r)
  {
    RootOverlapsNothing(r);
    JoinedUnder(r, "");
    assert JoinURLPath("/", r + "/") == "/" + r[1..] + "/" == r + "/" + "";
    assert Collide("/", r, r + "/", "");
  }
}
