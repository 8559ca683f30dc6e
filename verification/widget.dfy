// The widget as the manager sees it. The widget classes themselves (ClipBoard,
// Button, Window, ...) are not part of this model: the manager only reads a
// few of their flags and calls their virtual operations, which appear here as
// plain record updates or as function parameters of the manager's methods.
module Widget {

  datatype Option<T> = None | Some(value: T)

  /** Identity of a widget object: two shared pointers are equal exactly when
      they point to the same widget, i.e. when their ids are equal. */
  type Id = nat

  /** Screen coordinates; the source's float GUIPos is modelled by integers. */
  datatype Vec = Vec(x: int, y: int)
  {
    function Plus(other: Vec): Vec
    {
      Vec(x + other.x, y + other.y)
    }

    function Negated(): Vec
    {
      Vec(-x, -y)
    }
  }

  /** The rectangle a GUI is cropped to. */
  datatype Rect = Rect(x: int, y: int, w: int, h: int)

  /** The kinds of widget the manager creates; only Window is treated specially. */
  datatype ElementType =
    | ClipBoard | ComboBox | VolumeBoard | ArrowBoard | Button | WindowButton
    | IconButton | CrossBox | Image | Window

  /** One vertex of the batched geometry. */
  datatype Vertex = Vertex(position: Vec, uv: Vec)

  /** The state of a widget that the manager reads or changes. */
  datatype Element = Element(
    id: Id,
    kind: ElementType,
    exist: bool,        // false once the widget asked to be removed
    networking: bool,   // exempt from the manager's bulk moves and crops
    pos: Vec,
    aiming: bool,       // highlighted because the pointer is over it
    allowedCrop: bool)

  /** The identities of a list of widgets, in the same order. */
  function Ids(s: seq<Element>): (r: seq<Id>)
    ensures |r| == |s|
    ensures forall k :: 0 <= k < |s| ==> r[k] == s[k].id
  {
    seq(|s|, k requires 0 <= k < |s| => s[k].id)
  }

  lemma IdsAppend(a: seq<Element>, b: seq<Element>)
    ensures Ids(a + b) == Ids(a) + Ids(b)
  {
  }
}
