/**
 * File-system paths as the include family of macros sees them, and
 * `res_rel_file`, which resolves the argument of `include!`,
 * `include_str!` and `include_bin!`.
 */
module Paths {
  import opened Strings

  /** A POSIX path: whether it starts at the root, and its components in order. */
  datatype Path = Path(isAbsolute: bool, components: seq<string>)

  /** What `Path(s)` keeps between two separators: a non-empty run without '/'. */
  predicate IsComponent(c: string)
  {
    |c| > 0 && '/' !in c
  }

  /** The length of the leading component of `s`, which does not start with '/'. */
  function SegmentEnd(s: string): (k: nat)
    requires |s| > 0 && s[0] != '/'
    ensures 1 <= k <= |s| && '/' !in s[..k]
    ensures k < |s| ==> s[k] == '/'
    decreases |s|
  {
    if |s| == 1 || s[1] == '/' then 1
    else
      var k := 1 + SegmentEnd(s[1..]);
      assert s[..k] == [s[0]] + s[1..][..k - 1];
      k
  }

  /** The components of `s`: the maximal runs between separators, empty runs dropped. */
  function Components(s: string): (r: seq<string>)
    ensures forall i :: 0 <= i < |r| ==> IsComponent(r[i])
    decreases |s|
  {
    if |s| == 0 then []
    else if s[0] == '/' then Components(s[1..])
    else
      var k := SegmentEnd(s);
      [s[..k]] + Components(s[k..])
  }

  /** `Path(s)`: absolute exactly when `s` starts with '/'. */
  function FromStr(s: string): (p: Path)
    ensures p.isAbsolute <==> |s| > 0 && s[0] == '/'
    ensures forall i :: 0 <= i < |p.components| ==> IsComponent(p.components[i])
  {
    Path(|s| > 0 && s[0] == '/', Components(s))
  }

  lemma {:induction false} SegmentEndOf(c: string, t: string)
    requires IsComponent(c)
    requires |t| == 0 || t[0] == '/'
    ensures SegmentEnd(c + t) == |c|
    decreases |c|
  {
    var s := c + t;
    assert s[0] == c[0];
    if |c| == 1 {
      assert |s| == 1 || s[1] == t[0];
    } else {
      assert s[1] == c[1];
      assert s[1..] == c[1..] + t;
      SegmentEndOf(c[1..], t);
    }
  }

  /** Splitting the '/'-joined components of a path gives back exactly those components. */
  lemma {:induction false} ComponentsOfJoin(cs: seq<string>)
    requires forall i :: 0 <= i < |cs| ==> IsComponent(cs[i])
    ensures Components(Join(cs, "/")) == cs
    ensures Components("/" + Join(cs, "/")) == cs
    decreases |cs|
  {
    var s := Join(cs, "/");
    assert ("/" + s)[1..] == s;
    if |cs| == 1 {
      SegmentEndOf(cs[0], "");
      assert cs[0] + "" == cs[0];
      assert s[SegmentEnd(s)..] == [];
    } else if |cs| > 1 {
      var j := Join(cs[1..], "/");
      ComponentsOfJoin(cs[1..]);
      assert s == cs[0] + ("/" + j);
      SegmentEndOf(cs[0], "/" + j);
      assert s[..|cs[0]|] == cs[0];
      assert s[|cs[0]|..] == "/" + j;
      assert ("/" + j)[1..] == j;
      assert cs == [cs[0]] + cs[1..];
    }
  }

  /** `dir_path`: the path without its last component; a path with none is kept. */
  function DirPath(p: Path): (d: Path)
    ensures d.isAbsolute == p.isAbsolute
    ensures |p.components| > 0 ==> d.components + [p.components[|p.components| - 1]] == p.components
    ensures |p.components| == 0 ==> d == p
  {
    if |p.components| == 0 then p
    else Path(p.isAbsolute, p.components[..|p.components| - 1])
  }

  /** `push_many`: `cs` appended after the components of `p`, in order. */
  function PushMany(p: Path, cs: seq<string>): (r: Path)
    ensures r.isAbsolute == p.isAbsolute
    ensures |r.components| == |p.components| + |cs|
    ensures r.components[..|p.components|] == p.components
    ensures r.components[|p.components|..] == cs
  {
    Path(p.isAbsolute, p.components + cs)
  }

  /**
   * `res_rel_file`: an absolute argument is used as it is; a relative one
   * is put under the directory of the file named `cuName`, which is the
   * file holding the invocation. Nothing is normalised.
   */
  function ResRelFile(cuName: string, arg: Path): (r: Path)
    requires forall i :: 0 <= i < |arg.components| ==> IsComponent(arg.components[i])
    ensures forall i :: 0 <= i < |r.components| ==> IsComponent(r.components[i])
    ensures arg.isAbsolute ==> r == arg
    ensures !arg.isAbsolute ==>
      var cu := FromStr(cuName).components;
      && r.isAbsolute == (|cuName| > 0 && cuName[0] == '/')
      && r.components == (if |cu| == 0 then [] else cu[..|cu| - 1]) + arg.components
  {
    if !arg.isAbsolute then
      var cu := FromStr(cuName);
      PushMany(DirPath(cu), arg.components)
    else
      arg
  }

  /** Resolving twice against an absolute file name changes nothing more. */
  lemma ResRelFileIdempotent(cuName: string, arg: Path)
    requires |cuName| > 0 && cuName[0] == '/'
    requires forall i :: 0 <= i < |arg.components| ==> IsComponent(arg.components[i])
    ensures ResRelFile(cuName, ResRelFile(cuName, arg)) == ResRelFile(cuName, arg)
  {
  }

  /** `include_str!("b.inc")` written in "/proj/src/a.rs" names "/proj/src/b.inc". */
  lemma ResRelFileSibling()
    ensures ResRelFile("/proj/src/a.rs", FromStr("b.inc")) == Path(true, ["proj", "src", "b.inc"])
  {
    var cs := ["proj", "src", "a.rs"];
    assert Join(cs[2..], "/") == "a.rs";
    assert Join(cs[1..], "/") == "src/a.rs" by {
      assert cs[1..][1..] == cs[2..];
    }
    assert Join(cs, "/") == "proj/src/a.rs";
    ComponentsOfJoin(cs);
    var cu := FromStr("/proj/src/a.rs");
    assert "/proj/src/a.rs" == "/" + Join(cs, "/");
    assert cu == Path(true, cs);
    var arg := FromStr("b.inc");
    ComponentsOfJoin(["b.inc"]);
    assert arg == Path(false, ["b.inc"]);
    assert cs[..2] + ["b.inc"] == ["proj", "src", "b.inc"];
  }
}
