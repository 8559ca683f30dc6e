// Picking the widget under the pointer. A widget's collide takes the manager's
// `_needUpdate` flag and its manipulating-element pointer by reference, so a
// probe yields both whether the widget is hit and new values for those two.
module Collision {
  import opened Widget

  /** The two manager fields that collide may read and overwrite. */
  datatype ProbeState = ProbeState(needUpdate: bool, manipulating: Option<Id>)

  /** What one call of a widget's collide produces. */
  datatype Probe = Probe(hit: bool, after: ProbeState)

  /** The outcome of a scan: the index picked, if any, and the probe state
      after the last probe made. */
  datatype Scan = Scan(picked: Option<nat>, after: ProbeState)

  /** The scan of checkCollisions from index `i` on: the first widget that is
      hit and is not a Window is picked and ends the scan; every probe's state
      is passed on to the next probe. */
  function ScanFrom(es: seq<Element>, i: nat, st: ProbeState, collide: (Id, ProbeState) -> Probe): (r: Scan)
    requires i <= |es|
    ensures r.picked.Some? ==> i <= r.picked.value < |es|
    decreases |es| - i
  {
    if i == |es| then Scan(None, st)
    else
      var p := collide(es[i].id, st);
      if p.hit && es[i].kind != Window then Scan(Some(i), p.after)
      else ScanFrom(es, i + 1, p.after, collide)
  }

  /** The probe state in which the widget at index `j` is probed, when none
      of the widgets before it ended the scan. */
  function Before(es: seq<Element>, j: nat, start: ProbeState, collide: (Id, ProbeState) -> Probe): ProbeState
    requires j <= |es|
  {
    if j == 0 then start else collide(es[j - 1].id, Before(es, j - 1, start, collide)).after
  }

  /** The widget at index `j` would be picked when its turn comes. */
  predicate Eligible(es: seq<Element>, j: nat, start: ProbeState, collide: (Id, ProbeState) -> Probe)
    requires j < |es|
  {
    collide(es[j].id, Before(es, j, start, collide)).hit && es[j].kind != Window
  }

  lemma {:induction false} ScanFromFirst(es: seq<Element>, i: nat, start: ProbeState, collide: (Id, ProbeState) -> Probe)
    requires i <= |es|
    requires forall j :: 0 <= j < i ==> !Eligible(es, j, start, collide)
    ensures var r := ScanFrom(es, i, Before(es, i, start, collide), collide);
      match r.picked
      case Some(k) =>
        k < |es| && Eligible(es, k, start, collide)
        && (forall j :: 0 <= j < k ==> !Eligible(es, j, start, collide))
        && r.after == collide(es[k].id, Before(es, k, start, collide)).after
      case None =>
        (forall j :: 0 <= j < |es| ==> !Eligible(es, j, start, collide))
        && r.after == Before(es, |es|, start, collide)
    decreases |es| - i
  {
    if i < |es| && !Eligible(es, i, start, collide) {
      ScanFromFirst(es, i + 1, start, collide);
    }
  }

  /** The scan picks the first widget, in list order, that is hit and is not
      a Window; a Window that is hit does not end the scan. When the scan
      picks nothing, no widget qualified. */
  lemma ScanPicksFirst(es: seq<Element>, start: ProbeState, collide: (Id, ProbeState) -> Probe)
    ensures var r := ScanFrom(es, 0, start, collide);
      match r.picked
      case Some(k) =>
        k < |es| && es[k].kind != Window
        && collide(es[k].id, Before(es, k, start, collide)).hit
        && (forall j :: 0 <= j < k ==> !Eligible(es, j, start, collide))
        && r.after == collide(es[k].id, Before(es, k, start, collide)).after
      case None =>
        (forall j :: 0 <= j < |es| ==> !Eligible(es, j, start, collide))
        && r.after == Before(es, |es|, start, collide)
  {
    ScanFromFirst(es, 0, start, collide);
  }
}
