/** Slash-separated path utilities the operations rely on: Go's
    `path.Split`, `path.Clean` and `path.Join` (two arguments), and the
    path comparison, assumed here to prefix a missing leading slash and
    clean both sides before comparing them. */
module Paths {

  /** Index of the last '/' in `s`, or -1 when there is none. */
  function LastSlash(s: string): (i: int)
    ensures -1 <= i < |s|
    ensures i >= 0 ==> s[i] == '/'
    ensures forall j :: i < j < |s| ==> s[j] != '/'
  {
    if s == [] then -1
    else if s[|s| - 1] == '/' then |s| - 1
    else LastSlash(s[..|s| - 1])
  }

  /** Splits `p` just after its last slash into a directory part and a
      final name; without a slash the directory part is empty. */
  function Split(p: string): (parts: (string, string))
    ensures parts.0 + parts.1 == p
    ensures '/' !in parts.1
    ensures parts.0 == [] || parts.0[|parts.0| - 1] == '/'
  {
    var i := LastSlash(p);
    var name := p[i + 1..];
    assert forall k :: 0 <= k < |name| ==> name[k] != '/' by {
      forall k | 0 <= k < |name| ensures name[k] != '/' {
        assert name[k] == p[i + 1 + k];
      }
    }
    (p[..i + 1], name)
  }

  /** The three facts `Split` ensures pin its result down: any other way of
      cutting `p` with the same shape is the same cut. */
  lemma SplitUnique(p: string, dir: string, name: string)
    requires dir + name == p
    requires '/' !in name
    requires dir == [] || dir[|dir| - 1] == '/'
    ensures Split(p) == (dir, name)
  {
    var i := LastSlash(p);
    forall j | |dir| <= j < |p| ensures p[j] != '/' {
      assert p[j] == name[j - |dir|];
    }
    assert i < |dir|;
    if dir != [] {
      assert p[|dir| - 1] == '/';
    }
    assert i == |dir| - 1;
    assert p[..i + 1] == dir && p[i + 1..] == name;
  }

  /** The non-empty elements of `p` between slashes, in order. */
  function Elements(p: string): (es: seq<string>)
    decreases |p|
  {
    if p == [] then []
    else
      var parts := Split(p);
      var rest := if parts.0 == [] then [] else Elements(parts.0[..|parts.0| - 1]);
      if parts.1 == [] then rest else rest + [parts.1]
  }

  /** `Elements` of a path cut at its last slash. */
  lemma ElementsCut(p: string, parent: string, name: string)
    requires p == parent + "/" + name
    requires '/' !in name
    ensures Elements(p) == Elements(parent) + (if name == [] then [] else [name])
  {
    var dir := parent + "/";
    SplitUnique(p, dir, name);
    assert dir[..|dir| - 1] == parent;
  }

  /** `Elements` of a path without a slash. */
  lemma ElementsNoSlash(p: string)
    requires '/' !in p
    ensures Elements(p) == if p == [] then [] else [p]
  {
  }

  /** Joining two paths with a slash concatenates their elements; in
      particular a doubled slash adds no element. */
  lemma {:induction false} ElementsConcat(a: string, b: string)
    ensures Elements(a + "/" + b) == Elements(a) + Elements(b)
    decreases |b|
  {
    var parts := Split(b);
    if parts.0 == [] {
      assert b == parts.1;
      ElementsCut(a + "/" + b, a, b);
      ElementsNoSlash(b);
    } else {
      var b1, b2 := parts.0[..|parts.0| - 1], parts.1;
      assert b == b1 + "/" + b2;
      assert a + "/" + b == (a + "/" + b1) + "/" + b2;
      ElementsCut(a + "/" + b, a + "/" + b1, b2);
      ElementsConcat(a, b1);
      ElementsCut(b, b1, b2);
    }
  }

  /** Lexical resolution of "." and "..": a "." element is dropped; a ".."
      removes the element before it when that is not itself ".."; a leading
      ".." is dropped in a rooted path and kept otherwise. */
  function Reduce(es: seq<string>, rooted: bool): (out: seq<string>)
    ensures forall k :: 0 <= k < |out| ==> out[k] != "."
    ensures rooted ==> forall k :: 0 <= k < |out| ==> out[k] != ".."
  {
    if es == [] then []
    else
      var done := Reduce(es[..|es| - 1], rooted);
      var e := es[|es| - 1];
      if e == "." then done
      else if e == ".." then
        if |done| > 0 && done[|done| - 1] != ".." then done[..|done| - 1]
        else if rooted then done
        else done + [".."]
      else done + [e]
  }

  /** The elements joined with single slashes. */
  function JoinElements(es: seq<string>): string
  {
    if es == [] then []
    else if |es| == 1 then es[0]
    else JoinElements(es[..|es| - 1]) + "/" + es[|es| - 1]
  }

  /** The shortest path equivalent to `p` by purely lexical processing:
      repeated slashes collapse, "." and ".." are resolved, a trailing slash
      goes, a rooted path stays rooted and an empty result is ".". */
  function Clean(p: string): (c: string)
    ensures c != []
    ensures |p| > 0 && p[0] == '/' ==> c[0] == '/'
  {
    var rooted := |p| > 0 && p[0] == '/';
    var body := JoinElements(Reduce(Elements(p), rooted));
    if rooted then "/" + body
    else if body == [] then "."
    else body
  }

  /** `path.Join(a, b)`: the non-empty arguments joined by a slash and
      cleaned; empty when both are empty. */
  function Join(a: string, b: string): (j: string)
    ensures j == [] <==> a == [] && b == []
  {
    if a != [] then Clean(a + "/" + b)
    else if b != [] then Clean(b)
    else []
  }

  /** A path as this model assumes the operations compare it: given a
      leading '/' when it lacks one, then cleaned. The comparison's own
      code is not part of this model. */
  function Canonical(p: string): (c: string)
    ensures c != [] && c[0] == '/'
  {
    Clean(if |p| > 0 && p[0] == '/' then p else "/" + p)
  }

  predicate PathEqual(a: string, b: string)
  {
    Canonical(a) == Canonical(b)
  }

  /** A leading slash adds no element. */
  lemma ElementsLeadingSlash(b: string)
    ensures Elements("/" + b) == Elements(b)
  {
    ElementsConcat([], b);
    assert "/" + b == [] + "/" + b;
  }

  /** `Clean` depends only on whether a path is rooted and on its elements. */
  lemma CleanByElements(p: string, q: string)
    requires (|p| > 0 && p[0] == '/') == (|q| > 0 && q[0] == '/')
    requires Elements(p) == Elements(q)
    ensures Clean(p) == Clean(q)
  {
  }

  /** A trailing slash does not change what a path denotes. */
  lemma CanonicalIgnoresTrailingSlash(p: string)
    ensures PathEqual(p + "/", p)
  {
    if p != [] {
      var q := if p[0] == '/' then p else "/" + p;
      var r := if (p + "/")[0] == '/' then p + "/" else "/" + (p + "/");
      assert r == q + "/" + [];
      assert Elements(r) == Elements(q) by {
        ElementsConcat(q, []);
      }
      CleanByElements(r, q);
      assert Canonical(p + "/") == Clean(r);
      assert Canonical(p) == Clean(q);
    }
  }

  /** A missing leading slash does not change what a path denotes; in
      particular the empty path denotes the root "/". */
  lemma CanonicalIgnoresLeadingSlash(p: string)
    ensures PathEqual("/" + p, p)
  {
    var q := if |p| > 0 && p[0] == '/' then p else "/" + p;
    assert ("/" + p)[0] == '/';
    assert Canonical("/" + p) == Clean("/" + p);
    if q == p {
      assert Elements("/" + p) == Elements(p) by {
        ElementsLeadingSlash(p);
      }
      CleanByElements("/" + p, p);
    }
    assert Canonical(p) == Clean(q);
  }

  /** "/dir/rest" under `mount` and "/rest" under `mount/dir` have the
      same elements once joined. */
  lemma ElementsNested(mount: string, dir: string, rest: string)
    ensures Elements(mount + "/" + ("/" + dir + "/" + rest)) == Elements((mount + "/" + dir) + "/" + ("/" + rest))
  {
    calc {
      Elements(mount + "/" + ("/" + dir + "/" + rest));
      { ElementsConcat(mount, "/" + dir + "/" + rest); }
      Elements(mount) + Elements("/" + dir + "/" + rest);
      { assert "/" + dir + "/" + rest == "/" + (dir + "/" + rest);
        ElementsLeadingSlash(dir + "/" + rest); }
      Elements(mount) + Elements(dir + "/" + rest);
      { ElementsConcat(dir, rest); }
      Elements(mount) + (Elements(dir) + Elements(rest));
      (Elements(mount) + Elements(dir)) + Elements(rest);
      { ElementsConcat(mount, dir); ElementsLeadingSlash(rest); }
      Elements(mount + "/" + dir) + Elements("/" + rest);
      { ElementsConcat(mount + "/" + dir, "/" + rest); }
      Elements((mount + "/" + dir) + "/" + ("/" + rest));
    }
  }

  /** The two joined forms of `ElementsNested` clean to the same path. */
  lemma CleanNested(mount: string, dir: string, rest: string)
    ensures Clean(mount + "/" + ("/" + dir + "/" + rest)) == Clean((mount + "/" + dir) + "/" + ("/" + rest))
  {
    var p1 := mount + "/" + ("/" + dir + "/" + rest);
    var p2 := (mount + "/" + dir) + "/" + ("/" + rest);
    ElementsNested(mount, dir, rest);
    assert p1[0] == (mount + "/")[0] == p2[0];
    CleanByElements(p1, p2);
  }

  /** With no mount, "/dir/rest" cleans like "/dir" joined with "/rest". */
  lemma CleanNestedAtRoot(dir: string, rest: string)
    ensures Clean("/" + dir + "/" + rest) == Clean(("/" + dir) + "/" + ("/" + rest))
  {
    var p1 := "/" + dir + "/" + rest;
    var p2 := ("/" + dir) + "/" + ("/" + rest);
    assert Elements(p1) == Elements(dir) + Elements(rest) by {
      assert p1 == "/" + (dir + "/" + rest);
      ElementsLeadingSlash(dir + "/" + rest);
      ElementsConcat(dir, rest);
    }
    assert Elements(p2) == Elements(dir) + Elements(rest) by {
      ElementsConcat("/" + dir, "/" + rest);
      ElementsLeadingSlash(dir);
      ElementsLeadingSlash(rest);
    }
    assert p1[0] == '/' == p2[0];
    CleanByElements(p1, p2);
  }

  /** Joining "/dir/rest" onto `mount` and "/rest" onto `mount/dir` give
      the same path. */
  lemma JoinNestedCollide(mount: string, dir: string, rest: string)
    ensures Join(mount, "/" + dir + "/" + rest) == Join(mount + "/" + dir, "/" + rest)
  {
    if mount == [] {
      CleanNestedAtRoot(dir, rest);
      assert mount + "/" + dir == "/" + dir;
    } else {
      CleanNested(mount, dir, rest);
    }
  }
}
