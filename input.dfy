// Pointer state: one record per mouse or touch contact, updated by the
// down/move/up handlers and consumed once per frame by the splat logic.

module Input {
  import opened Gpu
  import opened JsMath

  /** A snapshot of a pointer's fields. */
  datatype PointerState = PointerState(
    id: int,
    texcoordX: real, texcoordY: real,
    prevTexcoordX: real, prevTexcoordY: real,
    deltaX: real, deltaY: real,
    down: bool, moved: bool,
    color: Vec3)

  /** pointerPrototype: the fields a new pointer starts with. */
  const INITIAL_POINTER: PointerState :=
    PointerState(-1, 0.0, 0.0, 0.0, 0.0, 0.0, 0.0, false, false, Vec3(30.0, 0.0, 300.0))

  class Pointer {
    var id: int
    var texcoordX: real
    var texcoordY: real
    var prevTexcoordX: real
    var prevTexcoordY: real
    var deltaX: real
    var deltaY: real
    var down: bool
    var moved: bool
    var color: Vec3

    function State(): PointerState
      reads this
    {
      PointerState(id, texcoordX, texcoordY, prevTexcoordX, prevTexcoordY, deltaX, deltaY, down, moved, color)
    }

    constructor ()
      ensures State() == INITIAL_POINTER
    {
      id := -1;
      texcoordX := 0.0;
      texcoordY := 0.0;
      prevTexcoordX := 0.0;
      prevTexcoordY := 0.0;
      deltaX := 0.0;
      deltaY := 0.0;
      down := false;
      moved := false;
      color := Vec3(30.0, 0.0, 300.0);
    }
  }

  /** correctDeltaX: on a portrait canvas horizontal motion is scaled by the aspect ratio. */
  function CorrectDeltaX(delta: real, aspectRatio: real): (r: real)
    requires aspectRatio > 0.0
    ensures aspectRatio >= 1.0 ==> r == delta
    ensures r == 0.0 <==> delta == 0.0
    ensures (r > 0.0) == (delta > 0.0)
  {
    if aspectRatio < 1.0 then
      SameSign(delta, aspectRatio);
      delta * aspectRatio
    else
      delta
  }

  /** correctDeltaY: on a landscape canvas vertical motion is divided by the aspect ratio. */
  function CorrectDeltaY(delta: real, aspectRatio: real): (r: real)
    requires aspectRatio > 0.0
    ensures aspectRatio <= 1.0 ==> r == delta
    ensures r == 0.0 <==> delta == 0.0
    ensures (r > 0.0) == (delta > 0.0)
  {
    if aspectRatio > 1.0 then
      SameSign(delta, aspectRatio);
      delta / aspectRatio
    else
      delta
  }

  /** Scaling by a positive factor keeps the sign and maps only zero to zero. */
  lemma SameSign(d: real, a: real)
    requires a > 0.0
    ensures (d * a == 0.0) <==> d == 0.0
    ensures (d * a > 0.0) <==> d > 0.0
    ensures (d / a == 0.0) <==> d == 0.0
    ensures (d / a > 0.0) <==> d > 0.0
  {
    if d > 0.0 {
      assert d / a > 0.0;
    } else if d < 0.0 {
      assert d * a < 0.0;
      assert d / a < 0.0;
    }
  }

  /** The texture coordinate of a canvas position: x to the right, y flipped to point up. */
  function Texcoord(posX: real, posY: real, canvasWidth: int, canvasHeight: int): (real, real)
    requires canvasWidth > 0 && canvasHeight > 0
  {
    (posX / canvasWidth as real, 1.0 - posY / canvasHeight as real)
  }

  /**
   * updatePointerDownData: the pointer takes the contact's id, goes down,
   * starts at the contact position with no motion, and gets a new color.
   */
  method UpdatePointerDownData(pointer: Pointer, id: int, posX: real, posY: real,
                               canvasWidth: int, canvasHeight: int, color: Vec3)
    requires canvasWidth > 0 && canvasHeight > 0
    modifies pointer
    ensures pointer.id == id && pointer.down && !pointer.moved
    ensures (pointer.texcoordX, pointer.texcoordY) == Texcoord(posX, posY, canvasWidth, canvasHeight)
    ensures pointer.prevTexcoordX == pointer.texcoordX && pointer.prevTexcoordY == pointer.texcoordY
    ensures pointer.deltaX == 0.0 && pointer.deltaY == 0.0
    ensures pointer.color == color
  {
    pointer.id := id;
    pointer.down := true;
    pointer.moved := false;
    pointer.texcoordX := posX / canvasWidth as real;
    pointer.texcoordY := 1.0 - posY / canvasHeight as real;
    pointer.prevTexcoordX := pointer.texcoordX;
    pointer.prevTexcoordY := pointer.texcoordY;
    pointer.deltaX := 0.0;
    pointer.deltaY := 0.0;
    pointer.color := color;
  }

  /**
   * updatePointerMoveData: the old position becomes the previous one, the
   * delta is the aspect-corrected motion, and `moved` is set exactly when the
   * position changed; id, down and color are kept.
   */
  method UpdatePointerMoveData(pointer: Pointer, posX: real, posY: real, canvasWidth: int, canvasHeight: int)
    requires canvasWidth > 0 && canvasHeight > 0
    modifies pointer
    ensures pointer.prevTexcoordX == old(pointer.texcoordX) && pointer.prevTexcoordY == old(pointer.texcoordY)
    ensures (pointer.texcoordX, pointer.texcoordY) == Texcoord(posX, posY, canvasWidth, canvasHeight)
    ensures var aspectRatio := canvasWidth as real / canvasHeight as real;
            pointer.deltaX == CorrectDeltaX(pointer.texcoordX - pointer.prevTexcoordX, aspectRatio)
            && pointer.deltaY == CorrectDeltaY(pointer.texcoordY - pointer.prevTexcoordY, aspectRatio)
    ensures pointer.moved <==> (pointer.texcoordX != old(pointer.texcoordX) || pointer.texcoordY != old(pointer.texcoordY))
    ensures pointer.id == old(pointer.id) && pointer.down == old(pointer.down) && pointer.color == old(pointer.color)
  {
    var aspectRatio := canvasWidth as real / canvasHeight as real;
    pointer.prevTexcoordX := pointer.texcoordX;
    pointer.prevTexcoordY := pointer.texcoordY;
    pointer.texcoordX := posX / canvasWidth as real;
    pointer.texcoordY := 1.0 - posY / canvasHeight as real;
    pointer.deltaX := CorrectDeltaX(pointer.texcoordX - pointer.prevTexcoordX, aspectRatio);
    pointer.deltaY := CorrectDeltaY(pointer.texcoordY - pointer.prevTexcoordY, aspectRatio);
    pointer.moved := Abs(pointer.deltaX) > 0.0 || Abs(pointer.deltaY) > 0.0;
  }

  /** updatePointerUpData: only `down` is cleared; a pending motion is still splatted on the next frame. */
  method UpdatePointerUpData(pointer: Pointer)
    modifies pointer
    ensures pointer.State() == old(pointer.State()).(down := false)
  {
    pointer.down := false;
  }
}
