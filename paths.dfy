/** A lexical model of the parts of Go's `path/filepath` (Unix flavour) that
    path resolution uses: `Clean`, `Join` and `Abs`, with the working
    directory passed in explicitly. */
module Paths {
  import opened GoText

  /** `strings.Split(p, "/")`: the text between separators, never empty. */
  function Split(p: string): (segs: seq<string>)
    ensures |segs| >= 1
    ensures forall k :: 0 <= k < |segs| ==> '/' !in segs[k]
  {
    if |p| == 0 then [""]
    else if p[0] == '/' then [""] + Split(p[1..])
    else
      var rest := Split(p[1..]);
      [[p[0]] + rest[0]] + rest[1..]
  }

  /** `strings.Join(segs, "/")`. */
  function JoinSegs(segs: seq<string>): string
  {
    if |segs| == 0 then ""
    else if |segs| == 1 then segs[0]
    else segs[0] + "/" + JoinSegs(segs[1..])
  }

  /** Splitting then joining gives the path back. */
  lemma {:induction false} JoinSplit(p: string)
    ensures JoinSegs(Split(p)) == p
  {
    if |p| > 0 {
      JoinSplit(p[1..]);
      var rest := Split(p[1..]);
      if p[0] == '/' {
        assert p == "/" + p[1..];
      } else if |rest| == 1 {
        assert p == [p[0]] + rest[0];
      } else {
        assert JoinSegs(rest) == rest[0] + "/" + JoinSegs(rest[1..]);
        assert p == [p[0]] + (rest[0] + "/" + JoinSegs(rest[1..]));
      }
    }
  }

  lemma {:induction false} SplitNoSlash(a: string)
    requires '/' !in a
    ensures Split(a) == [a]
  {
    if |a| > 0 {
      SplitNoSlash(a[1..]);
      assert a == [a[0]] + a[1..];
    }
  }

  lemma {:induction false} SplitSlash(a: string, t: string)
    requires '/' !in a
    ensures Split(a + "/" + t) == [a] + Split(t)
  {
    if |a| == 0 {
      assert a + "/" + t == "/" + t;
      assert ("/" + t)[1..] == t;
    } else {
      assert (a + "/" + t)[1..] == a[1..] + "/" + t;
      SplitSlash(a[1..], t);
      assert a == [a[0]] + a[1..];
    }
  }

  /** Joining then splitting gives the segments back, so a path is
      determined by its segments. */
  lemma {:induction false} SplitJoin(segs: seq<string>)
    requires |segs| >= 1
    requires forall k :: 0 <= k < |segs| ==> '/' !in segs[k]
    ensures Split(JoinSegs(segs)) == segs
  {
    if |segs| == 1 {
      SplitNoSlash(segs[0]);
    } else {
      SplitJoin(segs[1..]);
      SplitSlash(segs[0], JoinSegs(segs[1..]));
    }
  }

  lemma JoinCons(a: string, rest: seq<string>)
    requires |rest| >= 1
    ensures JoinSegs([a] + rest) == a + "/" + JoinSegs(rest)
  {
    assert ([a] + rest)[1..] == rest;
  }

  lemma FoldCons(stack: seq<string>, seg: string, rest: seq<string>, rooted: bool)
    ensures Fold(stack, [seg] + rest, rooted) == Fold(Push(stack, seg, rooted), rest, rooted)
  {
    assert ([seg] + rest)[1..] == rest;
  }

  /** Splitting at an inserted separator splits the two sides. */
  lemma {:induction false} SplitConcat(a: string, b: string)
    ensures Split(a + "/" + b) == Split(a) + Split(b)
  {
    if |a| == 0 {
      assert a + "/" + b == "/" + b;
      assert ("/" + b)[1..] == b;
    } else {
      assert (a + "/" + b)[1..] == a[1..] + "/" + b;
      SplitConcat(a[1..], b);
    }
  }

  predicate IsAbs(p: string) { |p| > 0 && p[0] == '/' }

  /** What `os.Getwd()` returns: always an absolute path. */
  type AbsolutePath = p: string | IsAbs(p) witness "/"

  /** A segment that survives cleaning as a name. */
  predicate Normal(seg: string)
  {
    seg != "" && seg != "." && seg != ".." && '/' !in seg
  }

  /** The segments of a cleaned path: names, preceded in a relative path by
      any number of `..`. */
  predicate Canonical(st: seq<string>, rooted: bool)
  {
    forall k :: 0 <= k < |st| ==>
      Normal(st[k]) || (!rooted && st[k] == ".." && forall m :: 0 <= m < k ==> st[m] == "..")
  }

  /** One segment of Clean's scan: skip empty and `.`, let `..` cancel the
      last name (or vanish at the root, or stay in a relative path), keep
      every other name. */
  function Push(stack: seq<string>, seg: string, rooted: bool): seq<string>
  {
    if seg == "" || seg == "." then stack
    else if seg == ".." then
      if |stack| > 0 && stack[|stack| - 1] != ".." then stack[..|stack| - 1]
      else if rooted then stack
      else stack + [".."]
    else stack + [seg]
  }

  function Fold(stack: seq<string>, segs: seq<string>, rooted: bool): seq<string>
    decreases |segs|
  {
    if |segs| == 0 then stack else Fold(Push(stack, segs[0], rooted), segs[1..], rooted)
  }

  /** `filepath.Clean`: the shortest lexically equivalent path. */
  function Clean(p: string): (c: string)
    ensures |c| > 0
  {
    Render(Fold([], Split(p), IsAbs(p)), IsAbs(p))
  }

  /** The text of a scanned path: `.` when nothing is left. */
  function Render(st: seq<string>, rooted: bool): (c: string)
    ensures |c| > 0
  {
    var s := (if rooted then "/" else "") + JoinSegs(st);
    if s == "" then "." else s
  }

  /** `filepath.Join(base, target)`: from the first non-empty element on,
      join with separators and clean; empty when both are empty. */
  function Join(base: string, target: string): string
  {
    if base != "" then Clean(base + "/" + target)
    else if target != "" then Clean(target)
    else ""
  }

  /** `filepath.Abs` with `cwd` standing for `os.Getwd()`. */
  function Abs(cwd: string, p: string): string
  {
    if IsAbs(p) then Clean(p) else Join(cwd, p)
  }

  lemma PushCanonical(stack: seq<string>, seg: string, rooted: bool)
    requires Canonical(stack, rooted)
    requires '/' !in seg
    ensures Canonical(Push(stack, seg, rooted), rooted)
  {
    if seg == ".." && !(|stack| > 0 && stack[|stack| - 1] != "..") && !rooted {
      // only `..` so far: the stack is a run of `..` and stays one
      if |stack| > 0 {
        assert !Normal(stack[|stack| - 1]);
      }
      assert forall m :: 0 <= m < |stack| ==> stack[m] == "..";
      var r := Push(stack, seg, rooted);
      assert forall m :: 0 <= m < |r| ==> r[m] == "..";
    }
  }

  lemma {:induction false} FoldCanonical(stack: seq<string>, segs: seq<string>, rooted: bool)
    requires Canonical(stack, rooted)
    requires forall k :: 0 <= k < |segs| ==> '/' !in segs[k]
    ensures Canonical(Fold(stack, segs, rooted), rooted)
    decreases |segs|
  {
    if |segs| > 0 {
      PushCanonical(stack, segs[0], rooted);
      FoldCanonical(Push(stack, segs[0], rooted), segs[1..], rooted);
    }
  }

  /** Scanning segments that are already canonical just appends them. */
  lemma {:induction false} FoldIdentity(stack: seq<string>, segs: seq<string>, rooted: bool)
    requires Canonical(stack + segs, rooted)
    ensures Fold(stack, segs, rooted) == stack + segs
    decreases |segs|
  {
    if |segs| > 0 {
      var all := stack + segs;
      assert all[|stack|] == segs[0];
      if segs[0] == ".." && |stack| > 0 {
        assert all[|stack| - 1] == stack[|stack| - 1];
      }
      assert Push(stack, segs[0], rooted) == stack + [segs[0]];
      assert (stack + [segs[0]]) + segs[1..] == all;
      FoldIdentity(stack + [segs[0]], segs[1..], rooted);
    }
  }

  lemma {:induction false} FoldAppend(stack: seq<string>, a: seq<string>, b: seq<string>, rooted: bool)
    ensures Fold(stack, a + b, rooted) == Fold(Fold(stack, a, rooted), b, rooted)
    decreases |a|
  {
    if |a| == 0 {
      assert a + b == b;
    } else {
      assert (a + b)[1..] == a[1..] + b;
      FoldAppend(Push(stack, a[0], rooted), a[1..], b, rooted);
    }
  }

  /** The segments a scan without `..` keeps: every name. */
  function Names(segs: seq<string>): seq<string>
  {
    if |segs| == 0 then []
    else (if segs[0] == "" || segs[0] == "." then [] else [segs[0]]) + Names(segs[1..])
  }

  lemma {:induction false} FoldWithoutDotDot(stack: seq<string>, segs: seq<string>, rooted: bool)
    requires ".." !in segs
    ensures Fold(stack, segs, rooted) == stack + Names(segs)
    decreases |segs|
  {
    if |segs| > 0 {
      assert segs[0] != "..";
      assert ".." !in segs[1..];
      FoldWithoutDotDot(Push(stack, segs[0], rooted), segs[1..], rooted);
    }
  }

  lemma {:induction false} JoinSegsPrefix(a: seq<string>, b: seq<string>)
    ensures HasPrefix(JoinSegs(a + b), JoinSegs(a))
    decreases |a|
  {
    if |a| == 1 {
      assert (a + b)[0] == a[0];
      if |b| > 0 {
        assert (a + b)[1..] == b;
      } else {
        assert a + b == a;
      }
    } else if |a| > 1 {
      assert (a + b)[1..] == a[1..] + b;
      JoinSegsPrefix(a[1..], b);
    }
  }

  lemma JoinSegsHead(st: seq<string>)
    requires |st| > 0 && |st[0]| > 0
    ensures |JoinSegs(st)| > 0 && JoinSegs(st)[0] == st[0][0]
  {
  }

  /** The cleaned scan of a relative path never starts at the root. */
  lemma RelativeStaysRelative(st: seq<string>)
    requires |st| > 0 && Canonical(st, false)
    ensures !IsAbs(JoinSegs(st))
  {
    assert Normal(st[0]) || st[0] == "..";
    assert st[0][0] != '/';
    JoinSegsHead(st);
  }

  /** Cleaning keeps a path absolute or relative. */
  lemma CleanIsAbs(p: string)
    ensures IsAbs(Clean(p)) <==> IsAbs(p)
  {
    var st := Fold([], Split(p), IsAbs(p));
    FoldCanonical([], Split(p), IsAbs(p));
    if !IsAbs(p) && |st| > 0 {
      RelativeStaysRelative(st);
    }
  }

  lemma CleanRenderRooted(st: seq<string>)
    requires |st| > 0 && Canonical(st, true)
    ensures Clean(Render(st, true)) == Render(st, true)
  {
    var c := Render(st, true);
    assert forall k :: 0 <= k < |st| ==> '/' !in st[k];
    SplitJoin(st);
    assert c[1..] == JoinSegs(st);
    assert Split(c) == [""] + st;
    assert ([""] + st)[1..] == st;
    assert [] + st == st;
    FoldIdentity([], st, true);
    assert Fold([], Split(c), true) == st;
    assert IsAbs(c);
  }

  lemma CleanRenderRelative(st: seq<string>)
    requires |st| > 0 && Canonical(st, false)
    ensures Clean(Render(st, false)) == Render(st, false)
  {
    var c := Render(st, false);
    assert forall k :: 0 <= k < |st| ==> '/' !in st[k];
    SplitJoin(st);
    RelativeStaysRelative(st);
    FoldIdentity([], st, false);
    JoinSegsHead(st);
    assert c == JoinSegs(st);
    assert [] + st == st;
    assert Fold([], Split(c), false) == st;
    assert !IsAbs(c);
  }

  /** A canonical scan renders to a path that cleans to itself. */
  lemma CleanRender(st: seq<string>, rooted: bool)
    requires Canonical(st, rooted)
    ensures Clean(Render(st, rooted)) == Render(st, rooted)
  {
    if |st| == 0 {
      if rooted {
        assert Render(st, rooted) == "/";
        assert Split("/") == ["", ""];
      } else {
        assert Render(st, rooted) == ".";
        SplitNoSlash(".");
      }
    } else if rooted {
      CleanRenderRooted(st);
    } else {
      CleanRenderRelative(st);
    }
  }

  /** Cleaning is idempotent: a cleaned path is its own canonical form. */
  lemma CleanIdempotent(p: string)
    ensures Clean(Clean(p)) == Clean(p)
  {
    FoldCanonical([], Split(p), IsAbs(p));
    CleanRender(Fold([], Split(p), IsAbs(p)), IsAbs(p));
  }

  /** A cleaned absolute path has no `..` segment left. */
  lemma CleanRootedNoDotDot(p: string)
    requires IsAbs(p)
    ensures ".." !in Split(Clean(p))
  {
    var st := Fold([], Split(p), true);
    FoldCanonical([], Split(p), true);
    var c := Clean(p);
    if |st| == 0 {
      assert c == "/";
      assert Split("/") == ["", ""];
    } else {
      assert c[1..] == JoinSegs(st);
      SplitJoin(st);
      assert Split(c) == [""] + st;
      assert forall k :: 0 <= k < |st| ==> Normal(st[k]);
    }
  }

  /** Under an absolute working directory, `Abs` always yields an absolute,
      canonical path with no `..` segment. */
  lemma AbsCanonical(cwd: string, p: string)
    requires IsAbs(cwd)
    ensures var a := Abs(cwd, p);
      IsAbs(a) && Clean(a) == a && ".." !in Split(a)
  {
    var q := if IsAbs(p) then p else cwd + "/" + p;
    assert IsAbs(q);
    assert Abs(cwd, p) == Clean(q);
    CleanIdempotent(q);
    CleanRootedNoDotDot(q);
  }

  /** Cleaning `base/target` when `target` has no `..` segment keeps the
      cleaned base as a prefix. */
  lemma CleanExtends(base: string, target: string)
    requires IsAbs(base)
    requires ".." !in Split(target)
    ensures HasPrefix(Clean(base + "/" + target), Clean(base))
  {
    var sb := Fold([], Split(base), true);
    var q := base + "/" + target;
    assert IsAbs(q);
    SplitConcat(base, target);
    FoldAppend([], Split(base), Split(target), true);
    FoldWithoutDotDot(sb, Split(target), true);
    var st := sb + Names(Split(target));
    assert Fold([], Split(q), true) == st;
    JoinSegsPrefix(sb, Names(Split(target)));
    assert Clean(q) == "/" + JoinSegs(st);
    assert Clean(base) == "/" + JoinSegs(sb);
  }
}
