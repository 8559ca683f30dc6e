// The manager's bulk operations walk the list once and hand every widget that
// passes a filter to one of its virtual operations (move, moveTo, normalise,
// crop, turnOffAim). `Apply` is that walk; the filters and the effects the
// manager relies on are defined next to it.
module Placement {
  import opened Widget
  import opened Registry

  /** The list with `f` applied to every widget that satisfies `p`. */
  function Apply(s: seq<Element>, p: Element -> bool, f: Element -> Element): (r: seq<Element>)
    ensures |r| == |s|
  {
    if s == [] then []
    else
      var last := s[|s| - 1];
      Apply(s[..|s| - 1], p, f) + [if p(last) then f(last) else last]
  }

  /** Element-wise meaning of Apply: filtered widgets are transformed in place,
      every other widget is left exactly as it was. */
  lemma {:induction false} ApplyAt(s: seq<Element>, p: Element -> bool, f: Element -> Element, k: nat)
    requires k < |s|
    ensures Apply(s, p, f)[k] == if p(s[k]) then f(s[k]) else s[k]
  {
    if k < |s| - 1 {
      ApplyAt(s[..|s| - 1], p, f, k);
    }
  }

  /** Apply over a prefix one element longer: the step a loop takes. */
  lemma ApplySnoc(s: seq<Element>, p: Element -> bool, f: Element -> Element, i: nat)
    requires i < |s|
    ensures Apply(s[..i + 1], p, f) == Apply(s[..i], p, f) + [if p(s[i]) then f(s[i]) else s[i]]
  {
    assert s[..i + 1][..i] == s[..i];
  }

  /** One step of an in-place pass: the list with its first `i` widgets done
      becomes the list with `i + 1` done after the update at index `i`. */
  lemma ApplyInPlaceStep(source: seq<Element>, p: Element -> bool, f: Element -> Element, i: nat, cur: seq<Element>)
    requires i < |source| && cur == Apply(source[..i], p, f) + source[i..]
    ensures cur[i] == source[i]
    ensures (if p(cur[i]) then cur[i := f(cur[i])] else cur) == Apply(source[..i + 1], p, f) + source[i + 1..]
  {
    ApplySnoc(source, p, f, i);
    assert source[i..] == [source[i]] + source[i + 1..];
  }

  /** Widgets that the manager's moveGUI and normalizeElements act on. */
  predicate MovesWithGui(e: Element)
  {
    e.exist && !e.networking
  }

  /** Widgets that moveGUITo acts on. */
  predicate NotNetworking(e: Element)
  {
    !e.networking
  }

  /** Widgets that cropGUI acts on. */
  predicate Croppable(e: Element)
  {
    !e.networking && e.allowedCrop
  }

  /** moveElement: shift the widget by a vector. */
  function ShiftBy(v: Vec): Element -> Element
  {
    (e: Element) => e.(pos := e.pos.Plus(v))
  }

  /** moveTo: place the widget at a position. */
  function PlaceAt(target: Vec): Element -> Element
  {
    (e: Element) => e.(pos := target)
  }

  /** normalizeElement with its vector fixed; the widget's own operation is
      not part of this model and is supplied by the caller. */
  function NormalizeBy(normalizeElement: (Element, Vec) -> Element, v: Vec): Element -> Element
  {
    (e: Element) => normalizeElement(e, v)
  }

  /** cropElement with its rectangle fixed, supplied by the caller likewise. */
  function CropTo(cropElement: (Element, Rect) -> Element, rect: Rect): Element -> Element
  {
    (e: Element) => cropElement(e, rect)
  }

  predicate IsAiming(e: Element)
  {
    e.aiming
  }

  /** turnOffAim: drop the widget's highlight. */
  function TurnOffAim(e: Element): Element
  {
    e.(aiming := false)
  }

  /** The list after checkAimingElements. */
  function ClearAim(s: seq<Element>): seq<Element>
  {
    Apply(s, IsAiming, TurnOffAim)
  }

  /** Whether some widget of the list passes the filter. */
  predicate AnyMatch(s: seq<Element>, p: Element -> bool)
  {
    exists k :: 0 <= k < |s| && p(s[k])
  }

  lemma AnyMatchSnoc(s: seq<Element>, p: Element -> bool, i: nat)
    requires i < |s|
    ensures AnyMatch(s[..i + 1], p) == (AnyMatch(s[..i], p) || p(s[i]))
  {
    if AnyMatch(s[..i + 1], p) && !p(s[i]) {
      var k :| 0 <= k < i + 1 && p(s[..i + 1][k]);
      assert s[..i][k] == s[k];
    }
    if AnyMatch(s[..i], p) {
      var k :| 0 <= k < i && p(s[..i][k]);
      assert s[..i + 1][k] == s[k];
    }
    if p(s[i]) {
      assert s[..i + 1][i] == s[i];
    }
  }

  /** Two moves of the whole GUI add up to one move by the sum. */
  lemma {:induction false} MoveCompose(s: seq<Element>, a: Vec, b: Vec)
    ensures Apply(Apply(s, MovesWithGui, ShiftBy(a)), MovesWithGui, ShiftBy(b))
         == Apply(s, MovesWithGui, ShiftBy(a.Plus(b)))
  {
    var once := Apply(s, MovesWithGui, ShiftBy(a));
    var twice := Apply(once, MovesWithGui, ShiftBy(b));
    var direct := Apply(s, MovesWithGui, ShiftBy(a.Plus(b)));
    forall k | 0 <= k < |s|
      ensures twice[k] == direct[k]
    {
      ApplyAt(s, MovesWithGui, ShiftBy(a), k);
      ApplyAt(once, MovesWithGui, ShiftBy(b), k);
      ApplyAt(s, MovesWithGui, ShiftBy(a.Plus(b)), k);
    }
  }

  /** Moving the GUI by nothing changes nothing. */
  lemma {:induction false} MoveByZero(s: seq<Element>)
    ensures Apply(s, MovesWithGui, ShiftBy(Vec(0, 0))) == s
  {
    var r := Apply(s, MovesWithGui, ShiftBy(Vec(0, 0)));
    forall k | 0 <= k < |s|
      ensures r[k] == s[k]
    {
      ApplyAt(s, MovesWithGui, ShiftBy(Vec(0, 0)), k);
    }
  }

  /** Moving the GUI back by the opposite vector undoes a move. */
  lemma {:induction false} MoveUndo(s: seq<Element>, v: Vec)
    ensures Apply(Apply(s, MovesWithGui, ShiftBy(v)), MovesWithGui, ShiftBy(v.Negated())) == s
  {
    MoveCompose(s, v, v.Negated());
    assert v.Plus(v.Negated()) == Vec(0, 0);
    MoveByZero(s);
  }

  /** Moving the GUI to a position twice is moving it there once. */
  lemma {:induction false} MoveToIdempotent(s: seq<Element>, target: Vec)
    ensures Apply(Apply(s, NotNetworking, PlaceAt(target)), NotNetworking, PlaceAt(target))
         == Apply(s, NotNetworking, PlaceAt(target))
  {
    var once := Apply(s, NotNetworking, PlaceAt(target));
    var twice := Apply(once, NotNetworking, PlaceAt(target));
    forall k | 0 <= k < |s|
      ensures twice[k] == once[k]
    {
      ApplyAt(s, NotNetworking, PlaceAt(target), k);
      ApplyAt(once, NotNetworking, PlaceAt(target), k);
    }
  }

  /** A bulk operation that leaves identities alone keeps the list's
      identities, in order. */
  lemma {:induction false} ApplyKeepsIds(s: seq<Element>, p: Element -> bool, f: Element -> Element)
    requires forall e :: f(e).id == e.id
    ensures Ids(Apply(s, p, f)) == Ids(s)
  {
    var r := Apply(s, p, f);
    forall k | 0 <= k < |s|
      ensures Ids(r)[k] == Ids(s)[k]
    {
      ApplyAt(s, p, f, k);
    }
  }

  /** A bulk operation that keeps every widget's existence commutes with
      compaction: it may run before or after dead widgets are dropped. */
  lemma {:induction false} ApplyLive(s: seq<Element>, p: Element -> bool, f: Element -> Element)
    requires forall e :: f(e).exist == e.exist
    ensures Live(Apply(s, p, f)) == Apply(Live(s), p, f)
  {
    if s != [] {
      var init, last := s[..|s| - 1], s[|s| - 1];
      var last' := if p(last) then f(last) else last;
      var r := Apply(s, p, f);
      ApplyLive(init, p, f);
      assert r == Apply(init, p, f) + [last'];
      assert r[..|r| - 1] == Apply(init, p, f);
      if last.exist {
        assert Live(s) == Live(init) + [last];
        ApplySnoc(Live(init) + [last], p, f, |Live(init)|);
        assert (Live(init) + [last])[..|Live(init)|] == Live(init);
        assert (Live(init) + [last])[..|Live(init)| + 1] == Live(init) + [last];
      } else {
        assert Live(s) == Live(init);
      }
    }
  }

  /** After checkAimingElements no widget is highlighted. */
  lemma {:induction false} ClearAimClears(s: seq<Element>)
    ensures !AnyMatch(ClearAim(s), IsAiming)
  {
    forall k | 0 <= k < |s|
      ensures !ClearAim(s)[k].aiming
    {
      ApplyAt(s, IsAiming, TurnOffAim, k);
    }
  }

  /** When no widget is highlighted, checkAimingElements changes no widget. */
  lemma {:induction false} ClearAimNoop(s: seq<Element>)
    requires !AnyMatch(s, IsAiming)
    ensures ClearAim(s) == s
  {
    forall k | 0 <= k < |s|
      ensures ClearAim(s)[k] == s[k]
    {
      ApplyAt(s, IsAiming, TurnOffAim, k);
    }
  }
}
