/** POSIX path handling as Python's `os.path` does it on '/'-separated
    strings: `join` of two components, `split` into directory and last
    component, and `abspath` against a given working directory. */
module Paths {

  const Sep: char := '/'

  predicate NoSep(s: string)
  {
    forall i :: 0 <= i < |s| ==> s[i] != Sep
  }

  predicate AllSep(s: string)
  {
    forall i :: 0 <= i < |s| ==> s[i] == Sep
  }

  predicate EndsWithSep(s: string)
  {
    |s| > 0 && s[|s| - 1] == Sep
  }

  predicate StartsWithSep(s: string)
  {
    |s| > 0 && s[0] == Sep
  }

  /** No two separators in a row anywhere in `p`. */
  predicate NoDoubleSep(p: string)
  {
    forall i :: 0 <= i < |p| - 1 ==> !(p[i] == Sep && p[i + 1] == Sep)
  }

  /** `os.path.join(a, b)`: an absolute `b` replaces `a`; otherwise `b` is
      appended, with a separator unless `a` is empty or already ends in one. */
  function Join(a: string, b: string): string
  {
    if StartsWithSep(b) then b
    else if a == [] || EndsWithSep(a) then a + b
    else a + [Sep] + b
  }

  /** The index just after the last separator of `p` (0 when there is none). */
  function TailStart(p: string): (i: nat)
    ensures i <= |p|
    ensures forall k :: i <= k < |p| ==> p[k] != Sep
    ensures i > 0 ==> p[i - 1] == Sep
  {
    if p == [] then 0
    else if p[|p| - 1] == Sep then |p|
    else TailStart(p[..|p| - 1])
  }

  /** The last component of `p`: everything after its last separator. */
  function Tail(p: string): string
  {
    p[TailStart(p)..]
  }

  /** The last component holds no separator, ends the path, and is preceded
      by a separator unless it is the whole path. */
  lemma TailShape(p: string)
    ensures var t := Tail(p);
            NoSep(t) && |t| <= |p| && p[|p| - |t|..] == t &&
            (|t| < |p| ==> p[|p| - |t| - 1] == Sep)
  {
    var i := TailStart(p);
    assert forall k :: 0 <= k < |p| - i ==> p[i..][k] == p[i + k];
  }

  /** A path without separators is its own last component. */
  lemma TailOfPlainName(p: string)
    requires NoSep(p)
    ensures Tail(p) == p
  {
    TailShape(p);
  }

  /** `s.rstrip('/')`. */
  function RStripSep(s: string): (r: string)
    ensures |r| <= |s| && r == s[..|r|]
    ensures AllSep(s[|r|..])
    ensures r == [] || !EndsWithSep(r)
  {
    if EndsWithSep(s) then RStripSep(s[..|s| - 1]) else s
  }

  /** `os.path.split(p)`: the last component (everything after the last
      separator) and the directory before it, whose trailing separators are
      stripped unless it consists of separators only. */
  function Split(p: string): (r: (string, string))
    ensures r.1 == Tail(p)
    ensures |r.0| <= |p| - |r.1| && r.0 == p[..|r.0|] && AllSep(p[|r.0|..|p| - |r.1|])
    ensures r.0 == [] || AllSep(r.0) || !EndsWithSep(r.0)
    ensures AllSep(p[..TailStart(p)]) ==> r.0 == p[..TailStart(p)]
  {
    var i := TailStart(p);
    var head := p[..i];
    (if head != [] && !AllSep(head) then RStripSep(head) else head, p[i..])
  }

  /** `os.path.abspath(p)` with the working directory passed in; a relative
      path is joined onto it. Normalisation of `.`/`..` is not modelled. */
  function AbsPath(cwd: string, p: string): string
  {
    if StartsWithSep(p) then p else Join(cwd, p)
  }

  /** `join` keeps both parts: an absolute `b` is the whole result;
      otherwise the result starts with `a` and ends with `b`, with one
      separator between them unless `a` is empty or ends in one. */
  lemma JoinShape(a: string, b: string)
    ensures StartsWithSep(b) ==> Join(a, b) == b
    ensures !StartsWithSep(b) ==> |Join(a, b)| >= |a| + |b| && Join(a, b)[..|a|] == a &&
                                  Join(a, b)[|Join(a, b)| - |b|..] == b
    ensures !StartsWithSep(b) && a != [] && !EndsWithSep(a) ==>
              |Join(a, b)| == |a| + 1 + |b| && Join(a, b)[|a|] == Sep
    ensures !StartsWithSep(b) && (a == [] || EndsWithSep(a)) ==> Join(a, b) == a + b
  {
  }

  /** An absolute path is its own absolute path, and a relative one becomes
      absolute under an absolute working directory. */
  lemma AbsPathIsAbsolute(cwd: string, p: string)
    requires StartsWithSep(cwd) || StartsWithSep(p)
    ensures StartsWithSep(AbsPath(cwd, p))
    ensures StartsWithSep(p) ==> AbsPath(cwd, p) == p
  {
  }

  /** The last component after a separator-terminated (or empty) prefix is
      the last component of what follows it. */
  lemma {:induction false} TailAfterSep(x: string, y: string)
    requires x == [] || EndsWithSep(x)
    ensures TailStart(x + y) == |x| + TailStart(y)
    decreases |y|
  {
    var p := x + y;
    if y == [] {
      assert p == x;
    } else if EndsWithSep(y) {
      assert EndsWithSep(p);
    } else {
      var y' := y[..|y| - 1];
      TailAfterSep(x, y');
      assert p[..|p| - 1] == x + y';
      assert TailStart(p) == TailStart(x + y');
      assert TailStart(y) == TailStart(y');
    }
  }

  /** Joining onto any directory leaves the last component of `b` unchanged:
      the script file name does not depend on the working directory. */
  lemma TailOfJoin(a: string, b: string)
    ensures Tail(Join(a, b)) == Tail(b)
  {
    if StartsWithSep(b) {
    } else {
      var x := if a == [] || EndsWithSep(a) then a else a + [Sep];
      assert Join(a, b) == x + b;
      TailAfterSep(x, b);
      assert (x + b)[|x| + TailStart(b)..] == b[TailStart(b)..];
    }
  }

  /** Making a path absolute keeps its last component. */
  lemma TailOfAbsPath(cwd: string, p: string)
    ensures Tail(AbsPath(cwd, p)) == Tail(p)
  {
    if !StartsWithSep(p) { TailOfJoin(cwd, p); }
  }

  /** `split` undoes `join` of a directory and a plain file name. */
  lemma SplitJoin(a: string, b: string)
    requires b != [] && NoSep(b)
    requires a == [] || !EndsWithSep(a)
    ensures Split(Join(a, b)) == (a, b)
  {
    var p := Join(a, b);
    if a == [] {
      assert p == b;
      assert TailStart(p) == 0;
    } else {
      assert p == a + [Sep] + b;
      assert p[|a|] == Sep;
      assert forall k :: |a| < k < |p| ==> p[k] == b[k - |a| - 1];
      assert TailStart(p) == |a| + 1;
      assert p[..|a| + 1] == a + [Sep];
      assert RStripSep(a + [Sep]) == RStripSep(a) == a by {
        assert (a + [Sep])[..|a|] == a;
      }
      assert !AllSep(a + [Sep]) by { assert a[|a| - 1] != Sep; }
    }
  }

  /** `join` undoes `split` for a path without repeated separators. */
  lemma JoinSplit(p: string)
    requires NoDoubleSep(p)
    ensures Join(Split(p).0, Split(p).1) == p
  {
    var i := TailStart(p);
    var (head, tail) := Split(p);
    assert tail == p[i..];
    if i == 0 {
      assert head == [];
      assert p[i..] == p;
    } else if i == 1 {
      assert p[..1] == [Sep] && AllSep([Sep]);
      assert head == [Sep];
      assert [Sep] + p[1..] == p;
    } else {
      assert p[i - 2] != Sep;
      var h := p[..i];
      assert !AllSep(h);
      assert h == p[..i - 1] + [Sep];
      assert RStripSep(h) == p[..i - 1] by {
        assert h[..|h| - 1] == p[..i - 1];
      }
      assert head == p[..i - 1];
      assert !StartsWithSep(tail);
      assert p[..i - 1] + [Sep] + p[i..] == p;
    }
  }
}
