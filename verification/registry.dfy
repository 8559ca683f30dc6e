// The two ways the manager removes widgets from its list: withdrawing one
// widget by identity, and compacting out every widget that no longer exists.
module Registry {
  import opened Widget

  /** The list with its first widget of identity `id` taken out. */
  function RemoveFirst(s: seq<Element>, id: Id): (r: seq<Element>)
  {
    if s == [] then []
    else if s[0].id == id then s[1..]
    else [s[0]] + RemoveFirst(s[1..], id)
  }

  /** Withdrawing removes exactly the first match and keeps the rest in order. */
  lemma {:induction false} RemoveFirstAt(s: seq<Element>, id: Id, k: nat)
    requires k < |s| && s[k].id == id
    requires forall j :: 0 <= j < k ==> s[j].id != id
    ensures RemoveFirst(s, id) == s[..k] + s[k + 1..]
  {
    if k > 0 {
      RemoveFirstAt(s[1..], id, k - 1);
      assert s[1..][..k - 1] == s[1..k];
      assert s[1..][k..] == s[k + 1..];
      assert [s[0]] + s[1..k] == s[..k];
    }
  }

  /** Withdrawing a widget that is not in the list leaves the list as it is. */
  lemma {:induction false} RemoveFirstAbsent(s: seq<Element>, id: Id)
    requires id !in Ids(s)
    ensures RemoveFirst(s, id) == s
  {
    if s != [] {
      assert Ids(s) == [s[0].id] + Ids(s[1..]);
      RemoveFirstAbsent(s[1..], id);
    }
  }

  /** Withdrawing shortens the list by one exactly when the widget is there. */
  lemma {:induction false} RemoveFirstLength(s: seq<Element>, id: Id)
    ensures |RemoveFirst(s, id)| == if id in Ids(s) then |s| - 1 else |s|
  {
    if s != [] {
      assert Ids(s) == [s[0].id] + Ids(s[1..]);
      RemoveFirstLength(s[1..], id);
    }
  }

  /** Round trip: withdrawing a freshly appended widget restores the list. */
  lemma {:induction false} RemoveFirstAfterAppend(s: seq<Element>, w: Element)
    requires w.id !in Ids(s)
    ensures RemoveFirst(s + [w], w.id) == s
  {
    var t := s + [w];
    assert t[|s|] == w;
    assert forall j :: 0 <= j < |s| ==> t[j].id == Ids(s)[j] != w.id;
    RemoveFirstAt(t, w.id, |s|);
    assert t[..|s|] == s;
  }

  /** The widgets of `s` whose `exist` holds, in their original order. */
  function Live(s: seq<Element>): (r: seq<Element>)
    ensures |r| <= |s|
  {
    if s == [] then []
    else
      var last := s[|s| - 1];
      Live(s[..|s| - 1]) + (if last.exist then [last] else [])
  }

  /** Compaction keeps exactly the widgets that exist. */
  lemma {:induction false} LiveMembers(s: seq<Element>)
    ensures forall x :: x in Live(s) <==> x in s && x.exist
  {
    if s != [] {
      var init, last := s[..|s| - 1], s[|s| - 1];
      LiveMembers(init);
      assert s == init + [last];
    }
  }

  /** Compaction of a prefix one widget longer: the step a loop takes. */
  lemma LiveSnoc(s: seq<Element>, j: nat)
    requires j < |s|
    ensures Live(s[..j + 1]) == Live(s[..j]) + (if s[j].exist then [s[j]] else [])
  {
    assert s[..j + 1][..j] == s[..j];
  }

  /** One step of compacting in place: with the first `j` widgets of `source`
      done, the widget at the cut is `source[j]`; erasing it when it does not
      exist, or stepping past it when it does, gives the list with `j + 1`
      done. */
  lemma CompactInPlaceStep(source: seq<Element>, j: nat, cur: seq<Element>)
    requires j < |source| && cur == Live(source[..j]) + source[j..]
    ensures var i := |Live(source[..j])|;
      i < |cur| && cur[i] == source[j]
      && (if source[j].exist
          then cur == Live(source[..j + 1]) + source[j + 1..]
               && Ids(Live(source[..j + 1])) == Ids(Live(source[..j])) + [source[j].id]
          else Live(source[..j + 1]) == Live(source[..j])
               && cur[..i] + cur[i + 1..] == Live(source[..j + 1]) + source[j + 1..])
  {
    LiveSnoc(source, j);
    var i := |Live(source[..j])|;
    assert source[j..] == [source[j]] + source[j + 1..];
    if source[j].exist {
      IdsAppend(Live(source[..j]), [source[j]]);
    } else {
      assert cur[..i] == Live(source[..j]);
      assert cur[i + 1..] == source[j + 1..];
    }
  }

  /** Compaction distributes over concatenation: relative order is kept. */
  lemma {:induction false} LiveAppend(a: seq<Element>, b: seq<Element>)
    ensures Live(a + b) == Live(a) + Live(b)
  {
    if b == [] {
      assert a + b == a;
    } else {
      var b' := b[..|b| - 1];
      assert (a + b)[..|a + b| - 1] == a + b';
      LiveAppend(a, b');
    }
  }

  /** A list whose widgets all exist is left alone by compaction. */
  lemma {:induction false} LiveOfExisting(s: seq<Element>)
    requires forall k :: 0 <= k < |s| ==> s[k].exist
    ensures Live(s) == s
  {
    if s != [] {
      LiveOfExisting(s[..|s| - 1]);
    }
  }

  /** Compacting twice is compacting once. */
  lemma LiveIdempotent(s: seq<Element>)
    ensures Live(Live(s)) == Live(s)
  {
    var r := Live(s);
    LiveMembers(s);
    forall k | 0 <= k < |r|
      ensures r[k].exist
    {
      assert r[k] in r;
    }
    LiveOfExisting(r);
  }
}
