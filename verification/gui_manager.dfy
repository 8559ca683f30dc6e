// The GUI manager: an ordered list of widgets (insertion order is paint order),
// the vertex data batched from it, two dirty flags and two non-owning pointers
// to the widget under the pointer and the widget being manipulated.
module GuiManager {
  import opened Widget
  import opened Registry
  import opened VertexBuffer
  import opened Placement
  import opened Collision

  /** Everything the manager holds, as one value. */
  datatype GuiState = GuiState(
    elements: seq<Element>,
    vboData: seq<Vertex>,
    needUpdate: bool,
    moved: bool,
    colliding: Option<Id>,
    manipulating: Option<Id>)

  /** checkAimingElements: every highlighted widget drops its highlight, and
      the buffer is marked stale if any did. */
  function AimStep(st: GuiState): GuiState
  {
    st.(elements := ClearAim(st.elements),
        needUpdate := st.needUpdate || AnyMatch(st.elements, IsAiming))
  }

  /** checkCollisions, given whether the input manager is in manipulating mode
      and the widgets' collide. */
  function CollisionStep(st: GuiState, inManipulatingMode: bool, collide: (Id, ProbeState) -> Probe): GuiState
  {
    if inManipulatingMode then st
    else match st.colliding
      case None =>
        var r := ScanFrom(st.elements, 0, ProbeState(st.needUpdate, st.manipulating), collide);
        var probed := st.(needUpdate := r.after.needUpdate, manipulating := r.after.manipulating);
        (match r.picked
          case None => probed
          case Some(k) => AimStep(probed.(colliding := Some(st.elements[k].id))))
      case Some(current) =>
        var p := collide(current, ProbeState(st.needUpdate, st.manipulating));
        if p.hit then st.(needUpdate := p.after.needUpdate, manipulating := p.after.manipulating)
        else st.(needUpdate := true, manipulating := p.after.manipulating, colliding := None)
  }

  /** checkCrop: after a move the crop callback runs and the buffer is stale. */
  function CropStep(st: GuiState): GuiState
  {
    if st.moved then st.(moved := false, needUpdate := true) else st
  }

  /** update: while a widget is being manipulated only that widget is driven;
      otherwise collisions (or, when they are not allowed, highlights) are
      checked; a pending move is then settled. */
  function UpdateStep(
    st: GuiState, allowCollision: bool, inManipulatingMode: bool,
    collide: (Id, ProbeState) -> Probe, manipulatingMod: Id -> Option<Id>): GuiState
  {
    var checked :=
      if st.manipulating.Some? then st.(manipulating := manipulatingMod(st.manipulating.value))
      else if allowCollision then CollisionStep(st, inManipulatingMode, collide)
      else AimStep(st);
    CropStep(checked)
  }

  /** With no widget under the pointer, checkCollisions picks the first widget
      in paint order that is hit and is not a Window, turns off every
      highlight and marks the buffer stale if one was on; when none
      qualifies, no widget changes and nothing is picked. */
  lemma CollisionPicksFirst(st: GuiState, collide: (Id, ProbeState) -> Probe)
    requires st.colliding.None?
    ensures var start := ProbeState(st.needUpdate, st.manipulating);
      var after := CollisionStep(st, false, collide);
      (after.colliding.Some? ==>
        exists k :: 0 <= k < |st.elements| && after.colliding == Some(st.elements[k].id)
          && st.elements[k].kind != Window
          && collide(st.elements[k].id, Before(st.elements, k, start, collide)).hit
          && (forall j :: 0 <= j < k ==> !Eligible(st.elements, j, start, collide))
          && after.elements == ClearAim(st.elements)
          && !AnyMatch(after.elements, IsAiming))
      && (after.colliding.None? ==>
        (forall j :: 0 <= j < |st.elements| ==> !Eligible(st.elements, j, start, collide))
        && after.elements == st.elements)
  {
    var start := ProbeState(st.needUpdate, st.manipulating);
    ScanPicksFirst(st.elements, start, collide);
    ClearAimClears(st.elements);
    var r := ScanFrom(st.elements, 0, start, collide);
    if r.picked.Some? {
      var k := r.picked.value;
      assert CollisionStep(st, false, collide).colliding == Some(st.elements[k].id);
    }
  }

  /** With a widget already under the pointer, checkCollisions releases it
      exactly when it no longer collides, and then marks the buffer stale. */
  lemma CollisionReleases(st: GuiState, collide: (Id, ProbeState) -> Probe)
    requires st.colliding.Some?
    ensures var p := collide(st.colliding.value, ProbeState(st.needUpdate, st.manipulating));
      var after := CollisionStep(st, false, collide);
      (after.colliding.None? <==> !p.hit)
      && (after.colliding.Some? ==> after.colliding == st.colliding)
      && (!p.hit ==> after.needUpdate)
      && after.elements == st.elements
  {
  }

  /** While the input manager is in manipulating mode checkCollisions does
      nothing. */
  lemma CollisionIdleWhileManipulating(st: GuiState, collide: (Id, ProbeState) -> Probe)
    ensures CollisionStep(st, true, collide) == st
  {
  }

  /** While a widget is being manipulated, update checks neither collisions
      nor highlights: the widgets and the widget under the pointer stay. */
  lemma UpdateSkipsChecksWhileManipulating(
    st: GuiState, allowCollision: bool, inManipulatingMode: bool,
    collide: (Id, ProbeState) -> Probe, manipulatingMod: Id -> Option<Id>)
    requires st.manipulating.Some?
    ensures var after := UpdateStep(st, allowCollision, inManipulatingMode, collide, manipulatingMod);
      after.elements == st.elements && after.colliding == st.colliding
      && after.vboData == st.vboData
  {
  }

  /** After update no move is pending, and a pending move left the buffer
      marked stale. */
  lemma UpdateSettlesMove(
    st: GuiState, allowCollision: bool, inManipulatingMode: bool,
    collide: (Id, ProbeState) -> Probe, manipulatingMod: Id -> Option<Id>)
    ensures var after := UpdateStep(st, allowCollision, inManipulatingMode, collide, manipulatingMod);
      !after.moved && (st.moved ==> after.needUpdate)
  {
  }

  class GUIManager {
    var elements: seq<Element>
    var vboData: seq<Vertex>
    var needUpdate: bool
    var moved: bool
    var colliding: Option<Id>
    var manipulating: Option<Id>

    function State(): GuiState
      reads this
    {
      GuiState(elements, vboData, needUpdate, moved, colliding, manipulating)
    }

    constructor ()
      ensures State() == GuiState([], [], false, false, None, None)
    {
      elements := [];
      vboData := [];
      needUpdate := false;
      moved := false;
      colliding := None;
      manipulating := None;
    }

    /** Appends a widget at the end of the paint order. */
    method PutElement(widget: Element)
      modifies this
      ensures State() == old(State()).(elements := old(elements) + [widget], needUpdate := true)
      ensures GetLastGuiElement() == Some(widget)
    {
      elements := elements + [widget];
      needUpdate := true;
    }

    /** Inserts a widget in front of all others; the flags are left alone. */
    method PutElementAtStart(widget: Element)
      modifies this
      ensures State() == old(State()).(elements := [widget] + old(elements))
      ensures GetGuiElement(0) == Some(widget)
      ensures forall k :: 0 <= k < |old(elements)| ==> GetGuiElement(k + 1) == Some(old(elements)[k])
    {
      elements := [widget] + elements;
    }

    // The single-widget create* methods each build a new widget of one kind
    // and append it. The new widget is a fresh object, so its identity is not
    // in the list yet.

    method CreateClipBoard(widget: Element)
      requires widget.kind == ClipBoard && widget.id !in Ids(elements)
      modifies this
      ensures State() == old(State()).(elements := old(elements) + [widget], needUpdate := true)
      ensures RemoveFirst(elements, widget.id) == old(elements)
    {
      PutElement(widget);
      RemoveFirstAfterAppend(old(elements), widget);
    }

    method CreateImage(widget: Element)
      requires widget.kind == Image && widget.id !in Ids(elements)
      modifies this
      ensures State() == old(State()).(elements := old(elements) + [widget], needUpdate := true)
      ensures RemoveFirst(elements, widget.id) == old(elements)
    {
      PutElement(widget);
      RemoveFirstAfterAppend(old(elements), widget);
    }

    method CreateButton(widget: Element)
      requires widget.kind == Button && widget.id !in Ids(elements)
      modifies this
      ensures State() == old(State()).(elements := old(elements) + [widget], needUpdate := true)
      ensures RemoveFirst(elements, widget.id) == old(elements)
    {
      PutElement(widget);
      RemoveFirstAfterAppend(old(elements), widget);
    }

    method CreateWindowButton(widget: Element)
      requires widget.kind == WindowButton && widget.id !in Ids(elements)
      modifies this
      ensures State() == old(State()).(elements := old(elements) + [widget], needUpdate := true)
      ensures RemoveFirst(elements, widget.id) == old(elements)
    {
      PutElement(widget);
      RemoveFirstAfterAppend(old(elements), widget);
    }

    method CreateIconButton(widget: Element)
      requires widget.kind == IconButton && widget.id !in Ids(elements)
      modifies this
      ensures State() == old(State()).(elements := old(elements) + [widget], needUpdate := true)
      ensures RemoveFirst(elements, widget.id) == old(elements)
    {
      PutElement(widget);
      RemoveFirstAfterAppend(old(elements), widget);
    }

    method CreateCheckBox(widget: Element)
      requires widget.kind == CrossBox && widget.id !in Ids(elements)
      modifies this
      ensures State() == old(State()).(elements := old(elements) + [widget], needUpdate := true)
      ensures RemoveFirst(elements, widget.id) == old(elements)
    {
      PutElement(widget);
      RemoveFirstAfterAppend(old(elements), widget);
    }

    /** A volume board is its clipboard followed by the board itself. */
    method CreateVolumeBoard(clip: Element, board: Element)
      requires clip.kind == ClipBoard && board.kind == VolumeBoard
      requires clip.id != board.id && clip.id !in Ids(elements) && board.id !in Ids(elements)
      modifies this
      ensures State() == old(State()).(elements := old(elements) + [clip, board], needUpdate := true)
    {
      CreateClipBoard(clip);
      PutElement(board);
      assert old(elements) + [clip] + [board] == old(elements) + [clip, board];
    }

    /** Removes the first widget with the given identity, if there is one;
        `found` tells whether it was there (and so had atWithdraw called). */
    method WithdrawElement(target: Id) returns (found: bool)
      modifies this
      ensures found <==> target in Ids(old(elements))
      ensures State() == old(State()).(elements := RemoveFirst(old(elements), target), needUpdate := true)
    {
      var i := 0;
      found := false;
      while i < |elements|
        invariant 0 <= i <= |elements| && !found
        invariant forall j :: 0 <= j < i ==> elements[j].id != target
      {
        if elements[i].id == target {
          found := true;
          break;
        }
        i := i + 1;
      }
      if found {
        RemoveFirstAt(elements, target, i);
        assert Ids(elements)[i] == target;
        elements := elements[..i] + elements[i + 1..];
      } else {
        assert forall j :: 0 <= j < |elements| ==> Ids(elements)[j] != target;
        RemoveFirstAbsent(elements, target);
      }
      needUpdate := true;
    }

    /** Drops every widget that no longer exists and draws the others in
        paint order; `drawn` lists the widgets drawn. */
    method RenderElements() returns (drawn: seq<Id>)
      modifies this
      ensures State() == old(State()).(elements := Live(old(elements)))
      ensures drawn == Ids(elements)
    {
      ghost var source := elements;
      ghost var j := 0;
      ghost var done: seq<Element> := [];
      var i := 0;
      drawn := [];
      while i < |elements|
        invariant j <= |source| && done == Live(source[..j])
        invariant elements == done + source[j..] && i == |done|
        invariant drawn == Ids(done)
        invariant vboData == old(vboData) && needUpdate == old(needUpdate) && moved == old(moved)
        invariant colliding == old(colliding) && manipulating == old(manipulating)
        decreases |source| - j
      {
        CompactInPlaceStep(source, j, elements);
        if !elements[i].exist {
          elements := elements[..i] + elements[i + 1..];
        } else {
          drawn := drawn + [elements[i].id];
          i := i + 1;
        }
        j := j + 1;
        done := Live(source[..j]);
      }
      assert source[..j] == source;
    }

    /** Hands the vertex data to the buffer; the stale flag is cleared only
        when bufferData answers false. */
    method LoadVBO(bufferData: seq<Vertex> -> bool)
      modifies this
      ensures State() == old(State()).(needUpdate := if bufferData(vboData) then old(needUpdate) else false)
    {
      if !bufferData(vboData) {
        needUpdate := false;
      }
    }

    /** Rebuilds the vertex data from the existing widgets, then loads it. */
    method UpdateVBO(loadData: Element -> seq<Vertex>, bufferData: seq<Vertex> -> bool)
      modifies this
      ensures vboData == Build(old(elements), loadData)
      ensures State() == old(State()).(
        vboData := vboData,
        needUpdate := if bufferData(vboData) then old(needUpdate) else false)
    {
      vboData := [];
      var i := 0;
      while i < |elements|
        invariant i <= |elements|
        invariant vboData == Build(elements[..i], loadData)
        invariant State() == old(State()).(vboData := vboData)
      {
        assert elements[..i + 1][..i] == elements[..i];
        if elements[i].exist {
          vboData := vboData + loadData(elements[i]);
        }
        i := i + 1;
      }
      assert elements[..i] == elements;
      LoadVBO(bufferData);
    }

    /** One frame of drawing: the vertex data is rebuilt exactly when the
        buffer is stale or the GUI moved, the move is then settled, and the
        widgets are compacted and drawn. */
    method Render(loadData: Element -> seq<Vertex>, bufferData: seq<Vertex> -> bool) returns (drawn: seq<Id>)
      modifies this
      ensures elements == Live(old(elements)) && drawn == Ids(elements)
      ensures !moved && colliding == old(colliding) && manipulating == old(manipulating)
      ensures old(needUpdate || moved) ==>
        vboData == Build(old(elements), loadData) && vboData == Build(elements, loadData)
        && needUpdate == (if bufferData(vboData) then old(needUpdate) else false)
      ensures !old(needUpdate || moved) ==> vboData == old(vboData) && needUpdate == old(needUpdate)
    {
      if needUpdate || moved {
        if moved {
          moved := false;
        }
        UpdateVBO(loadData, bufferData);
      }
      drawn := RenderElements();
      BuildLive(old(elements), loadData);
    }

    /** One pass over the list that applies `f` to every widget satisfying
        `p`, as moveGUI, moveGUITo, normalizeElements, cropGUI and
        checkAimingElements each do; `touched` tells whether any widget did. */
    method ApplyWhere(p: Element -> bool, f: Element -> Element) returns (touched: bool)
      modifies this
      ensures State() == old(State()).(elements := Apply(old(elements), p, f))
      ensures touched == AnyMatch(old(elements), p)
    {
      ghost var source := elements;
      var i := 0;
      touched := false;
      while i < |elements|
        invariant i <= |elements| == |source|
        invariant elements == Apply(source[..i], p, f) + source[i..]
        invariant touched == AnyMatch(source[..i], p)
        invariant State() == old(State()).(elements := elements)
      {
        ApplyInPlaceStep(source, p, f, i, elements);
        AnyMatchSnoc(source, p, i);
        if p(elements[i]) {
          elements := elements[i := f(elements[i])];
          touched := true;
        }
        i := i + 1;
      }
      assert source[..i] == source;
    }

    method CheckAimingElements()
      modifies this
      ensures State() == AimStep(old(State()))
    {
      var touched := ApplyWhere(IsAiming, TurnOffAim);
      if touched {
        needUpdate := true;
      }
    }

    method CheckCollisions(inManipulatingMode: bool, collide: (Id, ProbeState) -> Probe)
      modifies this
      ensures State() == CollisionStep(old(State()), inManipulatingMode, collide)
    {
      if !inManipulatingMode {
        if colliding.None? {
          var i := 0;
          while i < |elements|
            invariant i <= |elements|
            invariant ScanFrom(elements, i, ProbeState(needUpdate, manipulating), collide)
                   == ScanFrom(old(elements), 0, ProbeState(old(needUpdate), old(manipulating)), collide)
            invariant State() == old(State()).(needUpdate := needUpdate, manipulating := manipulating)
          {
            var p := collide(elements[i].id, ProbeState(needUpdate, manipulating));
            needUpdate, manipulating := p.after.needUpdate, p.after.manipulating;
            if p.hit && elements[i].kind != Window {
              colliding := Some(elements[i].id);
              CheckAimingElements();
              return;
            }
            i := i + 1;
          }
        } else {
          var p := collide(colliding.value, ProbeState(needUpdate, manipulating));
          needUpdate, manipulating := p.after.needUpdate, p.after.manipulating;
          if !p.hit {
            colliding := None;
            needUpdate := true;
          }
        }
      }
    }

    method DoCrop()
      modifies this
      ensures State() == old(State()).(moved := false, needUpdate := true)
    {
      moved := false;
      if !needUpdate {
        needUpdate := true;
      }
    }

    method CheckCrop()
      modifies this
      ensures State() == CropStep(old(State()))
    {
      if moved {
        DoCrop();
      }
    }

    /** One frame of input handling; `manipulatingMod` gives the new value of
        the manipulating pointer after the manipulated widget has run. */
    method Update(
      allowCollision: bool, inManipulatingMode: bool,
      collide: (Id, ProbeState) -> Probe, manipulatingMod: Id -> Option<Id>)
      modifies this
      ensures State() == UpdateStep(old(State()), allowCollision, inManipulatingMode, collide, manipulatingMod)
    {
      if manipulating.None? {
        if allowCollision {
          CheckCollisions(inManipulatingMode, collide);
        } else {
          CheckAimingElements();
        }
      } else {
        manipulating := manipulatingMod(manipulating.value);
      }
      CheckCrop();
    }

    /** Moves every existing, non-networking widget by `v`. */
    method MoveGUI(v: Vec)
      modifies this
      ensures State() == old(State()).(elements := Apply(old(elements), MovesWithGui, ShiftBy(v)), needUpdate := true)
      ensures forall k :: 0 <= k < |elements| ==>
        elements[k] == if MovesWithGui(old(elements)[k]) then old(elements)[k].(pos := old(elements)[k].pos.Plus(v))
                       else old(elements)[k]
    {
      var _ := ApplyWhere(MovesWithGui, ShiftBy(v));
      needUpdate := true;
      forall k | 0 <= k < |elements| {
        ApplyAt(old(elements), MovesWithGui, ShiftBy(v), k);
      }
    }

    /** Places every non-networking widget at `target`; the flags are left alone. */
    method MoveGUITo(target: Vec)
      modifies this
      ensures State() == old(State()).(elements := Apply(old(elements), NotNetworking, PlaceAt(target)))
      ensures forall k :: 0 <= k < |elements| ==>
        elements[k] == if old(elements)[k].networking then old(elements)[k] else old(elements)[k].(pos := target)
    {
      var _ := ApplyWhere(NotNetworking, PlaceAt(target));
      forall k | 0 <= k < |elements| {
        ApplyAt(old(elements), NotNetworking, PlaceAt(target), k);
      }
    }

    /** Normalises every existing, non-networking widget with the widgets'
        normalizeElement; the flags are left alone. */
    method NormalizeElements(v: Vec, normalizeElement: (Element, Vec) -> Element)
      modifies this
      ensures State() == old(State()).(elements := Apply(old(elements), MovesWithGui, NormalizeBy(normalizeElement, v)))
      ensures forall k :: 0 <= k < |elements| ==>
        elements[k] == if MovesWithGui(old(elements)[k]) then normalizeElement(old(elements)[k], v) else old(elements)[k]
    {
      var _ := ApplyWhere(MovesWithGui, NormalizeBy(normalizeElement, v));
      forall k | 0 <= k < |elements| {
        ApplyAt(old(elements), MovesWithGui, NormalizeBy(normalizeElement, v), k);
      }
    }

    /** Crops every non-networking widget that allows cropping with the
        widgets' cropElement; the flags are left alone. */
    method CropGUI(rect: Rect, cropElement: (Element, Rect) -> Element)
      modifies this
      ensures State() == old(State()).(elements := Apply(old(elements), Croppable, CropTo(cropElement, rect)))
      ensures forall k :: 0 <= k < |elements| ==>
        elements[k] == if Croppable(old(elements)[k]) then cropElement(old(elements)[k], rect) else old(elements)[k]
    {
      var _ := ApplyWhere(Croppable, CropTo(cropElement, rect));
      forall k | 0 <= k < |elements| {
        ApplyAt(old(elements), Croppable, CropTo(cropElement, rect), k);
      }
    }

    /** Bounds-checked lookup; None stands for the null pointer returned (and
        the error logged) when the position is past the end. */
    function GetGuiElement(position: nat): (r: Option<Element>)
      reads this
      ensures r.Some? <==> position < |elements|
      ensures r.Some? ==> r.value == elements[position]
    {
      if position < |elements| then Some(elements[position]) else None
    }

    /** The widget painted last, or None for an empty list. */
    function GetLastGuiElement(): (r: Option<Element>)
      reads this
      ensures r.None? <==> elements == []
      ensures r.Some? ==> r.value == elements[|elements| - 1]
    {
      if |elements| > 0 then Some(elements[|elements| - 1]) else None
    }

    /** Marks the buffer stale, whatever `state` says. */
    method SetUpdate(state: bool)
      modifies this
      ensures State() == old(State()).(needUpdate := true)
    {
      needUpdate := true;
    }
  }
}
