/**
 * The relay's sandbox path resolver (server/index.mjs, `safeResolve`).
 *
 * The project root is the process's working directory, given here as its
 * list of directory names. `path.join` is Node's POSIX join: the two parts
 * are glued with "/" and normalised, which splits the path at "/", drops
 * empty and "." segments, lets ".." remove the previous segment (never
 * going above "/"), and keeps one trailing "/" when the joined text ended
 * with one. A client path is accepted when the joined result starts, as a
 * string, with the root's "src" directory followed by "/".
 */
module Paths {
  import opened Js
  import opened Text

  /** A segment that survives normalisation: non-empty, not "." or "..", no "/". */
  predicate IsName(seg: string)
  {
    seg != "" && seg != "." && seg != ".." && '/' !in seg
  }

  predicate AllNames(segs: seq<string>)
  {
    forall i :: 0 <= i < |segs| ==> IsName(segs[i])
  }

  /** One segment of normalisation applied to the directories seen so far. */
  function Step(stack: seq<string>, seg: string): seq<string>
  {
    if seg == "" || seg == "." then stack
    else if seg == ".." then (if stack == [] then [] else stack[..|stack| - 1])
    else stack + [seg]
  }

  /** Normalisation of a whole list of segments, left to right. */
  function Fold(stack: seq<string>, segs: seq<string>): seq<string>
    decreases |segs|
  {
    if segs == [] then stack else Fold(Step(stack, segs[0]), segs[1..])
  }

  /** Segments written as an absolute path without a trailing "/": "/a/b". */
  function Render(segs: seq<string>): (r: string)
    ensures segs != [] ==> |r| > 0 && r[0] == '/'
  {
    if segs == [] then "" else "/" + segs[0] + Render(segs[1..])
  }

  /** `path.normalize` of an absolute path. */
  function Normalize(p: string): string
  {
    var stack := Fold([], Split(p, '/'));
    if stack == [] then "/" else Render(stack) + (if EndsWith(p, '/') then "/" else "")
  }

  /** `path.join(base, rel)`: an empty `rel` is skipped. */
  function JoinPath(base: string, rel: string): string
  {
    if rel == "" then Normalize(base) else Normalize(base + "/" + rel)
  }

  /** `PROJECT_ROOT`, the working directory with directory names `root`. */
  function RootPath(root: seq<string>): string
  {
    if root == [] then "/" else Render(root)
  }

  /** `SAFE_PREFIX = path.join(PROJECT_ROOT, 'src') + path.sep`. */
  function SafePrefix(root: seq<string>): string
  {
    JoinPath(RootPath(root), "src") + "/"
  }

  /**
   * `safeResolve(rel)`: the joined absolute path when it lies under the safe
   * prefix, otherwise the error `outside-allowed-path`.
   */
  function SafeResolve(root: seq<string>, rel: string): (r: Result<string>)
    ensures r.Ok? <==> StartsWith(JoinPath(RootPath(root), rel), SafePrefix(root))
    ensures r.Ok? ==> r.value == JoinPath(RootPath(root), rel) && StartsWith(r.value, SafePrefix(root))
    ensures r.Err? ==> r.error == "outside-allowed-path"
  {
    var abs := JoinPath(RootPath(root), rel);
    if StartsWith(abs, SafePrefix(root)) then Ok(abs) else Err("outside-allowed-path")
  }

  /**
   * The reference definition of "inside src": after normalisation the
   * client path names the root, then "src", then at least one more segment,
   * or exactly the "src" directory written with a trailing "/".
   */
  predicate InsideSrc(root: seq<string>, rel: string)
  {
    var s := Fold(root, Split(rel, '/'));
    var p := root + ["src"];
    rel != "" && |p| <= |s| && s[..|p|] == p && (|p| < |s| || EndsWith(rel, '/'))
  }

  // ---- facts about normalisation ----

  lemma {:induction false} FoldAppend(stack: seq<string>, a: seq<string>, b: seq<string>)
    ensures Fold(stack, a + b) == Fold(Fold(stack, a), b)
    decreases |a|
  {
    if a != [] {
      assert (a + b)[1..] == a[1..] + b;
      FoldAppend(Step(stack, a[0]), a[1..], b);
    } else {
      assert a + b == b;
    }
  }

  /** Normalising names only appends them. */
  lemma {:induction false} FoldNames(stack: seq<string>, segs: seq<string>)
    requires AllNames(segs)
    ensures Fold(stack, segs) == stack + segs
    decreases |segs|
  {
    if segs != [] {
      FoldNames(stack + [segs[0]], segs[1..]);
      assert stack + [segs[0]] + segs[1..] == stack + segs;
    }
  }

  /** Normalisation keeps only names, whatever the input segments. */
  lemma {:induction false} FoldKeepsNames(stack: seq<string>, segs: seq<string>)
    requires AllNames(stack)
    requires forall i :: 0 <= i < |segs| ==> '/' !in segs[i]
    ensures AllNames(Fold(stack, segs))
    decreases |segs|
  {
    if segs != [] {
      FoldKeepsNames(Step(stack, segs[0]), segs[1..]);
    }
  }

  lemma {:induction false} RenderAppend(a: seq<string>, b: seq<string>)
    ensures Render(a + b) == Render(a) + Render(b)
    decreases |a|
  {
    if a != [] {
      assert (a + b)[1..] == a[1..] + b;
      RenderAppend(a[1..], b);
    } else {
      assert a + b == b;
    }
  }

  /** "/" then a name then text starting with "/" (or nothing) splits as "", the name, then that text's pieces. */
  lemma SplitSlashName(name: string, t: string)
    requires '/' !in name
    requires t == [] || t[0] == '/'
    ensures Split("/" + name + t, '/') == ["", name] + Split(t, '/')[1..]
  {
    assert ("/" + name + t)[1..] == name + t;
    SplitNoSeparator(name, '/');
    if t == [] {
      assert name + t == name;
    } else {
      assert name + t == name + ['/'] + t[1..];
      SplitAppend(name, t[1..], '/');
    }
  }

  /** A rendered list of names splits back into "" followed by the names. */
  lemma {:induction false} SplitRender(segs: seq<string>)
    requires AllNames(segs) && segs != []
    ensures Split(Render(segs), '/') == [""] + segs
    decreases |segs|
  {
    var name, rest := segs[0], segs[1..];
    var t := Render(rest);
    assert Render(segs) == "/" + name + t;
    assert '/' !in name;
    SplitSlashName(name, t);
    var tail := Split(t, '/')[1..];
    if rest == [] {
      assert t == "" && tail == [];
    } else {
      SplitRender(rest);
      assert tail == rest;
    }
    assert ["", name] + tail == [""] + segs;
  }

  /** Normalising the root's own path gives back its names. */
  lemma RootSegments(root: seq<string>)
    requires AllNames(root)
    ensures Fold([], Split(RootPath(root), '/')) == root
  {
    if root == [] {
      assert Split("/", '/') == ["", ""];
      assert Fold([], ["", ""]) == [];
    } else {
      SplitRender(root);
      FoldNames([], root);
    }
  }

  /** A non-empty list of names renders to text ending in a non-"/" character. */
  lemma RenderEnd(segs: seq<string>)
    requires AllNames(segs) && segs != []
    ensures !EndsWith(Render(segs), '/')
  {
    var last := segs[|segs| - 1];
    RenderAppend(segs[..|segs| - 1], [last]);
    assert segs[..|segs| - 1] + [last] == segs;
    assert Render([last]) == "/" + last;
    assert last[|last| - 1] in last;
  }

  /** The shape of `path.join(PROJECT_ROOT, rel)` for a non-empty `rel`. */
  lemma JoinShape(root: seq<string>, rel: string)
    requires AllNames(root) && rel != ""
    ensures var s := Fold(root, Split(rel, '/'));
            JoinPath(RootPath(root), rel)
            == if s == [] then "/" else Render(s) + (if EndsWith(rel, '/') then "/" else "")
  {
    var base := RootPath(root);
    SplitAppend(base, rel, '/');
    assert base + "/" + rel == base + ['/'] + rel;
    FoldAppend([], Split(base, '/'), Split(rel, '/'));
    RootSegments(root);
  }

  /** `SAFE_PREFIX` is the root's "src" directory followed by "/". */
  lemma SafePrefixShape(root: seq<string>)
    requires AllNames(root)
    ensures SafePrefix(root) == Render(root + ["src"]) + "/"
  {
    JoinShape(root, "src");
    SplitNoSeparator("src", '/');
    FoldNames(root, ["src"]);
  }

  // ---- the string prefix test read as a segment prefix test ----

  lemma ConsPrefix(c: char, a: string, b: string)
    ensures StartsWith([c] + a, [c] + b) <==> StartsWith(a, b)
  {
    if |b| <= |a| {
      assert ([c] + a)[..|b| + 1] == [c] + a[..|b|];
      if ([c] + a)[..|b| + 1] == [c] + b {
        assert a[..|b|] == ([c] + a[..|b|])[1..] == ([c] + b)[1..] == b;
      }
    }
  }

  /** A character of a prefix is the character at the same place of the whole. */
  lemma PrefixAt(whole: string, pre: string, k: nat)
    requires StartsWith(whole, pre) && k < |pre|
    ensures whole[k] == pre[k]
  {
    assert whole[..|pre|][k] == whole[k];
  }

  /**
   * Two names followed by text that starts with "/" (or is empty on the
   * longer side) compare as a prefix only when the names are equal.
   */
  lemma NamePrefix(p: string, s: string, x: string, y: string)
    requires '/' !in p && '/' !in s
    requires |x| > 0 && x[0] == '/'
    requires y == [] || y[0] == '/'
    ensures StartsWith(s + y, p + x) <==> p == s && StartsWith(y, x)
  {
    if StartsWith(s + y, p + x) {
      if |p| < |s| {
        PrefixAt(s + y, p + x, |p|);
        assert false;
      } else if |p| > |s| {
        PrefixAt(s + y, p + x, |s|);
        assert false;
      }
      assert (s + y)[..|p|] == s;
      assert (p + x)[..|p|] == p;
      assert (s + y)[..|p + x|] == p + x;
      assert (s + y)[|p|..][..|x|] == y[..|x|];
      assert (p + x)[|p|..] == x;
    }
    if p == s && StartsWith(y, x) {
      assert (s + y)[..|p + x|] == s + y[..|x|];
    }
  }

  /** The string test `startsWith(Render(S)+tail, Render(P)+"/")` as a test on segments. */
  lemma {:induction false} RenderPrefix(pre: seq<string>, segs: seq<string>, tail: string)
    requires AllNames(pre) && AllNames(segs)
    requires tail == "" || tail == "/"
    ensures StartsWith(Render(segs) + tail, Render(pre) + "/")
            <==> |pre| <= |segs| && segs[..|pre|] == pre && (|pre| < |segs| || tail == "/")
    decreases |pre|
  {
    if pre == [] {
      assert Render(pre) + "/" == "/";
      if segs != [] {
        assert (Render(segs) + tail)[..1] == "/";
      } else {
        assert Render(segs) + tail == tail;
      }
    } else if segs == [] {
      assert |Render(pre) + "/"| > |tail|;
    } else {
      var p, s := pre[0], segs[0];
      var x := Render(pre[1..]) + "/";
      var y := Render(segs[1..]) + tail;
      assert Render(pre) + "/" == ['/'] + (p + x);
      assert Render(segs) + tail == ['/'] + (s + y);
      ConsPrefix('/', s + y, p + x);
      assert IsName(p) && IsName(s);
      NamePrefix(p, s, x, y);
      RenderPrefix(pre[1..], segs[1..], tail);
      ConsSeqPrefix(pre, segs);
    }
  }

  /** A list is a prefix of another when the heads agree and the tails are prefixes. */
  lemma ConsSeqPrefix(pre: seq<string>, segs: seq<string>)
    requires pre != [] && segs != []
    ensures (|pre| <= |segs| && segs[..|pre|] == pre)
            <==> (pre[0] == segs[0] && |pre[1..]| <= |segs[1..]| && segs[1..][..|pre[1..]|] == pre[1..])
  {
    if |pre| <= |segs| {
      assert segs[..|pre|] == [segs[0]] + segs[1..][..|pre| - 1];
      assert pre == [pre[0]] + pre[1..];
    }
  }

  // ---- the resolver's contract ----

  /**
   * `safeResolve` accepts a client path exactly when it resolves inside the
   * root's "src" directory.
   */
  lemma SafeResolveIff(root: seq<string>, rel: string)
    requires AllNames(root)
    ensures SafeResolve(root, rel).Ok? <==> InsideSrc(root, rel)
  {
    SafePrefixShape(root);
    var pre := root + ["src"];
    assert AllNames(pre);
    RenderAppend(root, ["src"]);
    assert Render(["src"]) == "/src";
    if rel == "" {
      RootSegments(root);
      if root != [] {
        RenderEnd(root);
      }
      assert JoinPath(RootPath(root), rel) == RootPath(root);
      assert |RootPath(root)| < |SafePrefix(root)|;
    } else {
      JoinShape(root, rel);
      var s := Fold(root, Split(rel, '/'));
      FoldKeepsNames(root, Split(rel, '/'));
      if s == [] {
        assert |SafePrefix(root)| > 1;
      } else {
        RenderPrefix(pre, s, if EndsWith(rel, '/') then "/" else "");
      }
    }
  }

  /** An accepted path never leaves the project root: its segments start with the root's. */
  lemma AcceptedStaysInRoot(root: seq<string>, rel: string)
    requires AllNames(root)
    requires SafeResolve(root, rel).Ok?
    ensures var s := Fold(root, Split(rel, '/')); |root| < |s| && s[..|root|] == root
  {
    SafeResolveIff(root, rel);
    var s := Fold(root, Split(rel, '/'));
    assert s[..|root|] == (s[..|root| + 1])[..|root|];
  }

  /** `"src"` alone names the directory without a trailing "/" and is refused. */
  lemma SrcAloneRejected(root: seq<string>)
    requires AllNames(root)
    ensures SafeResolve(root, "src") == Err("outside-allowed-path")
  {
    SafeResolveIff(root, "src");
    SplitNoSeparator("src", '/');
    FoldNames(root, ["src"]);
  }

  /** A directory and a name, joined by one "/", split back into the two. */
  lemma SplitTwo(dir: string, name: string)
    requires '/' !in dir && IsName(name)
    ensures Split(dir + ['/'] + name, '/') == [dir, name]
  {
    SplitNoSeparator(dir, '/');
    SplitNoSeparator(name, '/');
    SplitAppend(dir, name, '/');
  }

  /** `"../" + name` splits into ".." and the name. */
  lemma SplitParent(name: string)
    requires IsName(name)
    ensures Split("../" + name, '/') == ["..", name]
  {
    assert ".." + ['/'] + name == "../" + name;
    SplitTwo("..", name);
  }

  /** `"../" + name` climbs above the root's own last directory and is refused. */
  lemma ParentRejected(root: seq<string>, name: string)
    requires AllNames(root) && IsName(name)
    ensures SafeResolve(root, "../" + name) == Err("outside-allowed-path")
  {
    var rel := "../" + name;
    SplitParent(name);
    var up := if root == [] then [] else root[..|root| - 1];
    assert Step(root, "..") == up;
    assert Fold(up, [name]) == up + [name];
    var s := Fold(root, Split(rel, '/'));
    assert s == up + [name];
    assert rel[|rel| - 1] == name[|name| - 1];
    assert name[|name| - 1] in name;
    assert !InsideSrc(root, rel);
    SafeResolveIff(root, rel);
  }

  /** `"src/../" + name` splits into "src", ".." and the name. */
  lemma SplitSrcParent(name: string)
    requires IsName(name)
    ensures Split("src/../" + name, '/') == ["src", "..", name]
  {
    SplitParent(name);
    SplitNoSeparator("src", '/');
    SplitAppend("src", "../" + name, '/');
    assert "src" + ['/'] + ("../" + name) == "src/../" + name;
  }

  /** `"src/../" + name` climbs back out of "src" and is refused, whatever the name. */
  lemma SrcParentRejected(root: seq<string>, name: string)
    requires AllNames(root) && IsName(name)
    ensures SafeResolve(root, "src/../" + name) == Err("outside-allowed-path")
  {
    var rel := "src/../" + name;
    SplitSrcParent(name);
    assert Step(root, "src") == root + ["src"];
    assert Step(root + ["src"], "..") == root;
    assert ["src", "..", name][1..] == ["..", name] && ["..", name][1..] == [name];
    assert Fold(root, ["src", "..", name]) == Fold(root, [name]);
    FoldNames(root, [name]);
    assert rel[|rel| - 1] == name[|name| - 1];
    assert name[|name| - 1] in name;
    assert !InsideSrc(root, rel);
    SafeResolveIff(root, rel);
  }

  /** `"src/"` splits into "src" and an empty piece. */
  lemma SplitSrcSlash()
    ensures Split("src/", '/') == ["src", ""]
  {
    SplitNoSeparator("src", '/');
    SplitAppend("src", "", '/');
    assert "src" + ['/'] + "" == "src/";
  }

  /** `"src/"` keeps its trailing "/", so the "src" directory itself is accepted. */
  lemma SrcSlashAccepted(root: seq<string>)
    requires AllNames(root)
    ensures SafeResolve(root, "src/").Ok?
  {
    var rel := "src/";
    SplitSrcSlash();
    assert ["src", ""][1..] == [""];
    assert Fold(root, ["src", ""]) == Fold(root + ["src"], [""]);
    assert Fold(root + ["src"], [""]) == root + ["src"];
    assert EndsWith(rel, '/');
    assert InsideSrc(root, rel);
    SafeResolveIff(root, rel);
  }

  /** A name ends in a character other than "/", whatever comes before it. */
  lemma NameEnd(pre: string, name: string)
    requires IsName(name)
    ensures !EndsWith(pre + name, '/')
  {
    var t := pre + name;
    assert t[|t| - 1] == name[|name| - 1];
    assert name[|name| - 1] in name;
  }

  /** A file directly in "src" is accepted, named by the root, "src" and the file. */
  lemma SrcFileAccepted(root: seq<string>, name: string)
    requires AllNames(root) && IsName(name)
    ensures SafeResolve(root, "src/" + name) == Ok(Render(root + ["src", name]))
  {
    var rel := "src/" + name;
    var s := root + ["src", name];
    assert "src" + ['/'] + name == rel;
    SplitTwo("src", name);
    assert AllNames(["src", name]);
    FoldNames(root, ["src", name]);
    assert Fold(root, Split(rel, '/')) == s;
    NameEnd("src/", name);
    assert s[..|root| + 1] == root + ["src"];
    assert InsideSrc(root, rel);
    SafeResolveIff(root, rel);
    JoinShape(root, rel);
    var abs := JoinPath(RootPath(root), rel);
    assert abs == Render(s) + "";
    assert abs == Render(s);
  }
}
