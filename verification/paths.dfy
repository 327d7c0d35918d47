/** Absolute file-system paths as lists of components (TSCBasic's `AbsolutePath`). */
module Paths {
  import opened Strings
  import opened Wrappers

  /** `/a/b/c` is `AbsolutePath(["a", "b", "c"])`; the root is the empty list. */
  datatype AbsolutePath = AbsolutePath(components: seq<string>) {

    /** `appending(component:)`. */
    function Appending(c: string): (r: AbsolutePath)
      ensures |r.components| == |components| + 1 && r.components[|components|] == c
      ensures r.components[..|components|] == components
    {
      AbsolutePath(components + [c])
    }

    /** `appending(components:)`. */
    function AppendingAll(cs: seq<string>): (r: AbsolutePath)
      ensures |r.components| == |components| + |cs|
      ensures r.components[..|components|] == components && r.components[|components|..] == cs
    {
      AbsolutePath(components + cs)
    }

    /** `pathString`: the root prints as "/", every other path as "/" before each component. */
    function PathString(): string
    {
      if |components| == 0 then "/" else "/" + Join(components, "/")
    }

    /** `basename`: the last component, or "/" for the root. */
    function Basename(): string
    {
      if |components| == 0 then "/" else components[|components| - 1]
    }
  }

  /** `descendant` lies strictly below `ancestor`, `extra` components deeper. */
  predicate IsDescendant(descendant: AbsolutePath, ancestor: AbsolutePath, extra: nat)
  {
    && |descendant.components| == |ancestor.components| + extra
    && descendant.components[..|ancestor.components|] == ancestor.components
  }

  /** Position of the last '.' in `s`, if any. */
  function LastDot(s: string): (r: Option<nat>)
    ensures r.Some? ==> r.value < |s| && s[r.value] == '.'
    ensures r.Some? ==> forall j :: r.value < j < |s| ==> s[j] != '.'
    ensures r.None? ==> forall j :: 0 <= j < |s| ==> s[j] != '.'
  {
    if |s| == 0 then None
    else if s[|s| - 1] == '.' then Some(|s| - 1)
    else LastDot(s[..|s| - 1])
  }

  /** `extension`: the text after the basename's last '.', unless that '.' starts the
      basename or ends it. */
  function Extension(p: AbsolutePath): (r: Option<string>)
    ensures r.Some? ==> |r.value| > 0 && '.' !in r.value
  {
    var b := p.Basename();
    match LastDot(b)
    case None => None
    case Some(i) =>
      if i == 0 || i + 1 == |b| then None
      else
        Some(b[i + 1..])
  }

  /** `basenameWithoutExt`: the basename with ".<extension>" removed when it has one. */
  function BasenameWithoutExt(p: AbsolutePath): (r: string)
    ensures Extension(p).None? ==> r == p.Basename()
    ensures Extension(p).Some? ==> r + "." + Extension(p).value == p.Basename()
  {
    var b := p.Basename();
    match Extension(p)
    case None => b
    case Some(e) =>
      var i := LastDot(b).value;
      assert b[..i] + "." + b[i + 1..] == b;
      b[..i]
  }
}
