// The vertex data the manager batches into one buffer: the concatenation, in
// list (paint) order, of what each existing widget loads.
module VertexBuffer {
  import opened Widget
  import opened Registry

  /** The buffer contents for `s`; a widget that does not exist adds nothing.
      `loadData` stands for the widgets' virtual loadData. */
  function Build(s: seq<Element>, loadData: Element -> seq<Vertex>): (r: seq<Vertex>)
  {
    if s == [] then []
    else
      var last := s[|s| - 1];
      Build(s[..|s| - 1], loadData) + (if last.exist then loadData(last) else [])
  }

  /** The buffer of a concatenation is the concatenation of the buffers. */
  lemma {:induction false} BuildAppend(a: seq<Element>, b: seq<Element>, loadData: Element -> seq<Vertex>)
    ensures Build(a + b, loadData) == Build(a, loadData) + Build(b, loadData)
  {
    if b == [] {
      assert a + b == a;
    } else {
      var b' := b[..|b| - 1];
      assert (a + b)[..|a + b| - 1] == a + b';
      BuildAppend(a, b', loadData);
    }
  }

  /** Each widget's data sits in the buffer between that of the widgets
      painted before it and that of the widgets painted after it. */
  lemma BuildAt(s: seq<Element>, k: nat, loadData: Element -> seq<Vertex>)
    requires k < |s|
    ensures Build(s, loadData)
         == Build(s[..k], loadData)
            + (if s[k].exist then loadData(s[k]) else [])
            + Build(s[k + 1..], loadData)
  {
    var pre, rest, post := s[..k], s[k..], s[k + 1..];
    BuildSingle(s[k], loadData);
    assert rest == [s[k]] + post;
    BuildAppend([s[k]], post, loadData);
    assert pre + rest == s;
    BuildAppend(pre, rest, loadData);
  }

  lemma BuildSingle(e: Element, loadData: Element -> seq<Vertex>)
    ensures Build([e], loadData) == if e.exist then loadData(e) else []
  {
    assert [e][..0] == [];
  }

  /** Widgets that do not exist contribute nothing: compacting the list does
      not change its buffer. */
  lemma {:induction false} BuildLive(s: seq<Element>, loadData: Element -> seq<Vertex>)
    ensures Build(Live(s), loadData) == Build(s, loadData)
  {
    if s != [] {
      var init, last := s[..|s| - 1], s[|s| - 1];
      BuildLive(init, loadData);
      var tail := if last.exist then [last] else [];
      assert Live(s) == Live(init) + tail;
      BuildAppend(Live(init), tail, loadData);
      BuildAppend(init, [last], loadData);
      assert s == init + [last];
    }
  }

  /** A list with no existing widget yields an empty buffer. */
  lemma {:induction false} BuildNoneExist(s: seq<Element>, loadData: Element -> seq<Vertex>)
    requires forall k :: 0 <= k < |s| ==> !s[k].exist
    ensures Build(s, loadData) == []
  {
    if s != [] {
      BuildNoneExist(s[..|s| - 1], loadData);
    }
  }
}
