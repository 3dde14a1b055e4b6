/** The animated entities of the signalling levels (gui.go): the draggable
    signal, the receptors and temporary kinases that follow the cursor, the
    patrolling kinases, the transcription factors, the info page toggle and
    the parallax layers. Each is a class whose update method is tied to a step
    function on a value snapshot of its fields; the properties are proved about
    the step functions. Image loading and rescaling are not modelled; an image
    is named by its asset file. */
module Entities {
  import opened Geometry
  import opened Scenes

  type ImageId = string

  // ---------------------------------------------------------------------------
  // Cursor tracking shared by receptors and temporary kinases

  /** The four lanes of the membrane: receptorA..D and temp_tk1A..D. */
  datatype Slot = SlotA | SlotB | SlotC | SlotD

  /** Numerator of the lane's share of the screen width (over 7). */
  function Column(s: Slot): int {
    match s
    case SlotA => 1
    case SlotB => 4
    case SlotC => 7
    case SlotD => 9
  }

  /** x of a lane entity: a cursor parallax term plus the lane's column, scaled
      from the base width to the current one (gui.go:449 and gui.go:492). */
  function TrackX(cursorX: int, column: int, screenWidth: int): int {
    GoDiv((GoDiv(-5 * (cursorX + 100), 9) + GoDiv(screenWidth * column, 7)) * screenWidth, BaseScreenWidth)
  }

  /** y of a lane entity: a cursor parallax term plus a row offset, scaled from
      the base height to the current one. */
  function TrackY(cursorY: int, damping: int, row: int, screenHeight: int): int
    requires damping != 0
  {
    GoDiv((GoDiv(-1 * (cursorY + 100), damping) + row) * screenHeight, BaseScreenHeight)
  }

  lemma MulMonotoneRight(a1: int, a2: int, k: int)
    requires a1 <= a2 && 0 <= k
    ensures a1 * k <= a2 * k
  {
    assert a2 * k - a1 * k == (a2 - a1) * k;
  }

  /** Lane entities move against the cursor: moving the cursor right (down)
      never moves them right (down). */
  lemma TrackOpposesCursor(x1: int, x2: int, column: int, screenWidth: int,
                           y1: int, y2: int, damping: int, row: int, screenHeight: int)
    requires x1 <= x2 && y1 <= y2 && 0 <= screenWidth && 0 <= screenHeight && 0 < damping
    ensures TrackX(x2, column, screenWidth) <= TrackX(x1, column, screenWidth)
    ensures TrackY(y2, damping, row, screenHeight) <= TrackY(y1, damping, row, screenHeight)
  {
    var c := GoDiv(screenWidth * column, 7);
    GoDivMonotone(-5 * (x2 + 100), -5 * (x1 + 100), 9);
    MulMonotoneRight(GoDiv(-5 * (x2 + 100), 9) + c, GoDiv(-5 * (x1 + 100), 9) + c, screenWidth);
    GoDivMonotone((GoDiv(-5 * (x2 + 100), 9) + c) * screenWidth,
                  (GoDiv(-5 * (x1 + 100), 9) + c) * screenWidth, BaseScreenWidth);
    GoDivMonotone(-1 * (y2 + 100), -1 * (y1 + 100), damping);
    MulMonotoneRight(GoDiv(-1 * (y2 + 100), damping) + row, GoDiv(-1 * (y1 + 100), damping) + row, screenHeight);
    GoDivMonotone((GoDiv(-1 * (y2 + 100), damping) + row) * screenHeight,
                  (GoDiv(-1 * (y1 + 100), damping) + row) * screenHeight, BaseScreenHeight);
  }

  // ---------------------------------------------------------------------------
  // Signal

  datatype SignalState = SignalState(rect: Rect, isDragged: bool)

  /** Signal.update. A free signal is picked up when the button is down over
      it; a held signal follows the pointer horizontally, and vertically only
      while both it and the pointer are above receptor B (`receptorY`). Nothing
      in update lets go: only Bind does. */
  function SignalStep(s: SignalState, input: Input, receptorY: int, h: Helpers): (r: SignalState)
    ensures s.isDragged ==> r.isDragged
    ensures !s.isDragged ==>
              r.rect == s.rect && (r.isDragged <==> h.pointIn(s.rect, input.cursor) && input.pressed)
    ensures s.isDragged ==>
              r.rect.pos.x == input.cursor.x - GoDiv(s.rect.width, 2) &&
              r.rect.width == s.rect.width && r.rect.height == s.rect.height
    ensures s.isDragged && s.rect.pos.y <= receptorY && input.cursor.y <= receptorY - 25 ==>
              r.rect.pos.y == input.cursor.y - GoDiv(s.rect.height, 2)
    ensures r.rect.pos.y != s.rect.pos.y ==>
              s.isDragged && s.rect.pos.y <= receptorY && input.cursor.y <= receptorY - 25
  {
    if !s.isDragged then
      SignalState(s.rect, h.pointIn(s.rect, input.cursor) && input.pressed)
    else
      var vertical := s.rect.pos.y <= receptorY && input.cursor.y <= receptorY - 25;
      SignalState(Drag(s.rect, true, vertical, input.cursor), true)
  }

  /** x offset of a bound signal from its receptor. */
  function BindOffset(receptorType: Slot): int {
    if receptorType == SlotA || receptorType == SlotD then 80 else 60
  }

  /** Signal.bind: the signal is released and parked on the receptor. */
  function BoundTo(s: SignalState, receptorType: Slot, receptor: Rect): (r: SignalState)
    ensures !r.isDragged
    ensures r.rect.pos.y == receptor.pos.y
    ensures r.rect.pos.x == receptor.pos.x + (if receptorType in {SlotA, SlotD} then 80 else 60)
    ensures r.rect.width == s.rect.width && r.rect.height == s.rect.height
  {
    SignalState(s.rect.(pos := Vector(receptor.pos.x + BindOffset(receptorType), receptor.pos.y)), false)
  }

  /** A bound signal stays where Bind put it until it is grabbed again. */
  lemma BoundSignalStays(s: SignalState, receptorType: Slot, receptor: Rect,
                         input: Input, receptorY: int, h: Helpers)
    requires var b := BoundTo(s, receptorType, receptor);
      !(h.pointIn(b.rect, input.cursor) && input.pressed)
    ensures var b := BoundTo(s, receptorType, receptor);
      SignalStep(b, input, receptorY, h) == b
  {
  }

  class Signal {
    var rect: Rect
    var isDragged: bool

    function State(): SignalState reads this { SignalState(rect, isDragged) }

    constructor (rect: Rect)
      ensures State() == SignalState(rect, false)
    {
      this.rect := rect;
      isDragged := false;
    }

    method Update(input: Input, receptorY: int, h: Helpers)
      modifies this
      ensures State() == SignalStep(old(State()), input, receptorY, h)
    {
      var cursor := input.cursor;
      if !isDragged {
        if h.pointIn(rect, cursor) && input.pressed {
          isDragged := true;
        }
      } else {
        if rect.pos.y <= receptorY && cursor.y <= receptorY - 25 {
          rect := Drag(rect, true, true, cursor);
        } else {
          rect := Drag(rect, true, false, cursor);
        }
      }
    }

    method Bind(receptor: Receptor)
      modifies this
      ensures State() == BoundTo(old(State()), receptor.receptorType, receptor.rect)
    {
      isDragged := false;
      if receptor.receptorType == SlotA || receptor.receptorType == SlotD {
        rect := rect.(pos := Vector(receptor.rect.pos.x + 80, receptor.rect.pos.y));
      } else {
        rect := rect.(pos := Vector(receptor.rect.pos.x + 60, receptor.rect.pos.y));
      }
    }
  }

  // ---------------------------------------------------------------------------
  // Receptor

  /** Row offset of receptors A..D. */
  function ReceptorRow(s: Slot): int {
    if s == SlotA || s == SlotD then 450 else 400
  }

  class Receptor {
    var rect: Rect
    var isTouchingSignal: bool
    const receptorType: Slot

    constructor (rect: Rect, receptorType: Slot)
      ensures this.rect == rect && !isTouchingSignal && this.receptorType == receptorType
    {
      this.rect := rect;
      isTouchingSignal := false;
      this.receptorType := receptorType;
    }

    /** Receptor.update: follow the cursor in the receptor's lane, then record
        whether the signal overlaps the receptor's new position. */
    method Update(cursor: Vector, screenWidth: int, screenHeight: int, signal: Rect, h: Helpers)
      modifies this
      ensures rect.width == old(rect.width) && rect.height == old(rect.height)
      ensures rect.pos == Vector(TrackX(cursor.x, Column(receptorType), screenWidth),
                                 TrackY(cursor.y, 4, ReceptorRow(receptorType), screenHeight))
      ensures isTouchingSignal <==> h.overlap(signal, rect)
    {
      var x := GoDiv((GoDiv(-5 * (cursor.x + 100), 9 * 1) + GoDiv(screenWidth * Column(receptorType), 7)) * screenWidth,
                     BaseScreenWidth);
      var y := GoDiv((GoDiv(-1 * (cursor.y + 100), 4 * 1) + ReceptorRow(receptorType)) * screenHeight,
                     BaseScreenHeight);
      rect := rect.(pos := Vector(x, y));
      if h.overlap(signal, rect) {
        isTouchingSignal := true;
      } else {
        isTouchingSignal := false;
      }
    }
  }

  // ---------------------------------------------------------------------------
  // Kinase

  datatype KinaseKind = Tk1 | Tk2 | TempTk1(slot: Slot)

  /** Row offset of the temporary kinases temp_tk1A..D. */
  function TempRow(s: Slot): int {
    if s == SlotA || s == SlotD then 650 else 600
  }

  datatype KinaseState = KinaseState(rect: Rect, isMoving: bool, isClickedOn: bool, delta: int)

  /** Kinase.descend: two pixels a frame in a window, three in fullscreen. */
  function Descended(k: KinaseState, fullscreen: bool): (r: KinaseState)
    ensures r.rect.pos.y > k.rect.pos.y && r.rect.pos.x == k.rect.pos.x
    ensures r.rect.pos.y - k.rect.pos.y == (if fullscreen then 3 else 2)
    ensures r == k.(rect := r.rect) && r.rect == k.rect.(pos := r.rect.pos)
  {
    k.(rect := k.rect.(pos := k.rect.pos.(y := k.rect.pos.y + if fullscreen then 3 else 2)))
  }

  /** The movement part of Kinase.update. */
  function KinaseMove(k: KinaseState, kind: KinaseKind, input: Input,
                      screenWidth: int, screenHeight: int, widthRatio: int): KinaseState
  {
    match kind
    case TempTk1(slot) =>
      if !k.isMoving then
        var c := input.cursor;
        k.(rect := k.rect.(pos := Vector(TrackX(c.x, Column(slot), screenWidth),
                                         TrackY(c.y, 5, TempRow(slot), screenHeight))))
      else if k.rect.pos.y <= screenHeight then Descended(k, input.fullscreen)
      else k
    case _ =>
      if !k.isClickedOn && k.isMoving then
        if k.rect.pos.y <= 400 * GoDiv(screenHeight, 750) && kind == Tk2 then Descended(k, input.fullscreen)
        else if k.rect.pos.y <= 50 * GoDiv(screenHeight, 750) && kind == Tk1 then Descended(k, input.fullscreen)
        else
          var step := if input.fullscreen then k.delta * widthRatio else k.delta;
          k.(rect := k.rect.(pos := k.rect.pos.(x := k.rect.pos.x + step)))
      else k
  }

  /** Kinase.update: move, possibly get clicked on, then bounce off the screen
      edges. `partner` is the rect tk1 must touch (tk2) or tk2 must touch (tfa)
      for a click to count. */
  function KinaseStep(k: KinaseState, kind: KinaseKind, input: Input, screenWidth: int,
                      screenHeight: int, widthRatio: int, partner: Rect, h: Helpers): (r: KinaseState)
    ensures r.isMoving == k.isMoving
    ensures r.rect.width == k.rect.width && r.rect.height == k.rect.height
    ensures r.rect.pos.x + r.rect.width >= screenWidth ==> r.delta == -3
    ensures r.rect.pos.x + r.rect.width < screenWidth && r.rect.pos.x <= 0 ==> r.delta == 3
    ensures 0 < r.rect.pos.x && r.rect.pos.x + r.rect.width < screenWidth ==> r.delta == k.delta
    ensures k.isClickedOn ==> r.isClickedOn
    ensures r.isClickedOn && !k.isClickedOn ==>
              !kind.TempTk1? && input.pressed && h.pointIn(r.rect, input.cursor) && h.overlap(r.rect, partner)
    ensures !kind.TempTk1? && input.pressed && h.pointIn(r.rect, input.cursor) && h.overlap(r.rect, partner) ==>
              r.isClickedOn
    ensures !kind.TempTk1? && !(k.isMoving && !k.isClickedOn) ==> r.rect == k.rect
    ensures !kind.TempTk1? && r.rect.pos.y != k.rect.pos.y ==> r.rect.pos.y > k.rect.pos.y && r.rect.pos.x == k.rect.pos.x
  {
    var moved := KinaseMove(k, kind, input, screenWidth, screenHeight, widthRatio);
    var clicked := (kind == Tk1 || kind == Tk2) && h.pointIn(moved.rect, input.cursor)
                   && input.pressed && h.overlap(moved.rect, partner);
    var k2 := if clicked then moved.(isClickedOn := true) else moved;
    var delta :=
      if k2.rect.pos.x + k2.rect.width >= screenWidth then -3
      else if k2.rect.pos.x <= 0 then 3
      else k2.delta;
    k2.(delta := delta)
  }

  /** The patrol velocity never leaves {-3, 3}: it starts at 3 and update only
      ever sets one of the two or leaves it alone. */
  lemma KinaseDeltaBounded(k: KinaseState, kind: KinaseKind, input: Input, screenWidth: int,
                           screenHeight: int, widthRatio: int, partner: Rect, h: Helpers)
    requires k.delta == 3 || k.delta == -3
    ensures var r := KinaseStep(k, kind, input, screenWidth, screenHeight, widthRatio, partner, h);
      r.delta == 3 || r.delta == -3
  {
  }

  /** A patrolling kinase at the base size moves by exactly its velocity. */
  lemma PatrolMovesByDelta(k: KinaseState, kind: KinaseKind, input: Input, widthRatio: int,
                           partner: Rect, h: Helpers)
    requires kind == Tk1 || kind == Tk2
    requires k.isMoving && !k.isClickedOn && !input.fullscreen
    requires kind == Tk2 ==> k.rect.pos.y > 400
    requires kind == Tk1 ==> k.rect.pos.y > 50
    ensures var r := KinaseStep(k, kind, input, BaseScreenWidth, BaseScreenHeight, widthRatio, partner, h);
      r.rect.pos == Vector(k.rect.pos.x + k.delta, k.rect.pos.y)
  {
  }

  /** Kinase.activate: tk2, and a temporary kinase that has not started
      moving, hop up by three scaled pixels; every kinase starts moving. */
  function KinaseActivate(k: KinaseState, kind: KinaseKind, screenHeight: int): (r: KinaseState)
    ensures r.isMoving && r.isClickedOn == k.isClickedOn && r.delta == k.delta
    ensures r.rect.pos.x == k.rect.pos.x && r.rect.width == k.rect.width && r.rect.height == k.rect.height
    ensures r.rect.pos.y == k.rect.pos.y - (if kind == Tk2 || (kind.TempTk1? && !k.isMoving)
                                            then 3 * GoDiv(screenHeight, BaseScreenHeight) else 0)
  {
    var hop := kind == Tk2 || (kind.TempTk1? && !k.isMoving);
    var y := if hop then k.rect.pos.y - 3 * GoDiv(screenHeight, BaseScreenHeight) else k.rect.pos.y;
    k.(rect := k.rect.(pos := k.rect.pos.(y := y)), isMoving := true)
  }

  class Kinase {
    var rect: Rect
    var isMoving: bool
    var isClickedOn: bool
    var delta: int
    const kind: KinaseKind
    var origImage: ImageId
    var origImage2: ImageId

    function State(): KinaseState reads this { KinaseState(rect, isMoving, isClickedOn, delta) }

    ghost predicate Valid() reads this { delta == 3 || delta == -3 }

    /** newKinase: idle, not clicked, patrolling to the right. */
    constructor (rect: Rect, kind: KinaseKind, image: ImageId, image2: ImageId)
      ensures Valid() && State() == KinaseState(rect, false, false, 3) && this.kind == kind
      ensures origImage == image && origImage2 == image2
    {
      this.rect := rect;
      isMoving, isClickedOn := false, false;
      delta := 3;
      this.kind := kind;
      origImage, origImage2 := image, image2;
    }

    method Descend(fullscreen: bool)
      modifies this
      ensures State() == Descended(old(State()), fullscreen)
      ensures origImage == old(origImage) && origImage2 == old(origImage2)
    {
      if fullscreen {
        rect := rect.(pos := rect.pos.(y := rect.pos.y + 3));
      } else {
        rect := rect.(pos := rect.pos.(y := rect.pos.y + 2));
      }
    }

    /** The movement half of Kinase.update. */
    method Move(input: Input, screenWidth: int, screenHeight: int, widthRatio: int)
      modifies this
      ensures State() == KinaseMove(old(State()), kind, input, screenWidth, screenHeight, widthRatio)
      ensures origImage == old(origImage) && origImage2 == old(origImage2)
    {
      var cursor := input.cursor;
      if kind.TempTk1? {
        if !isMoving {
          var x := GoDiv((GoDiv(-5 * (cursor.x + 100), 9 * 1) + GoDiv(screenWidth * Column(kind.slot), 7)) * screenWidth,
                         BaseScreenWidth);
          var y := GoDiv((GoDiv(-1 * (cursor.y + 100), 5 * 1) + TempRow(kind.slot)) * screenHeight,
                         BaseScreenHeight);
          rect := rect.(pos := Vector(x, y));
        } else if rect.pos.y <= screenHeight {
          Descend(input.fullscreen);
        }
      } else if !isClickedOn && isMoving {
        if rect.pos.y <= 400 * GoDiv(screenHeight, 750) && kind == Tk2 {
          Descend(input.fullscreen);
        } else if rect.pos.y <= 50 * GoDiv(screenHeight, 750) && kind == Tk1 {
          Descend(input.fullscreen);
        } else if input.fullscreen {
          rect := rect.(pos := rect.pos.(x := rect.pos.x + delta * widthRatio));
        } else {
          rect := rect.(pos := rect.pos.(x := rect.pos.x + delta));
        }
      }
    }

    method Update(input: Input, screenWidth: int, screenHeight: int, widthRatio: int, partner: Rect, h: Helpers)
      requires Valid()
      modifies this
      ensures Valid()
      ensures State() == KinaseStep(old(State()), kind, input, screenWidth, screenHeight, widthRatio, partner, h)
      ensures origImage == old(origImage) && origImage2 == old(origImage2)
    {
      Move(input, screenWidth, screenHeight, widthRatio);
      if kind == Tk1 || kind == Tk2 {
        if h.pointIn(rect, input.cursor) && input.pressed && h.overlap(rect, partner) {
          isClickedOn := true;
        }
      }
      if rect.pos.x + rect.width >= screenWidth {
        delta := -3;
      } else if rect.pos.x <= 0 {
        delta := 3;
      }
    }

    /** Kinase.activate, including animate's switch to the second image. */
    method Activate(screenHeight: int)
      modifies this
      ensures State() == KinaseActivate(old(State()), kind, screenHeight)
      ensures origImage == old(origImage2) && origImage2 == old(origImage2)
    {
      if kind == Tk2 {
        rect := rect.(pos := rect.pos.(y := rect.pos.y - 3 * GoDiv(screenHeight, BaseScreenHeight)));
      }
      if kind.TempTk1? && !isMoving {
        rect := rect.(pos := rect.pos.(y := rect.pos.y - 3 * GoDiv(screenHeight, BaseScreenHeight)));
      }
      origImage := origImage2;
      isMoving := true;
    }
  }

  // ---------------------------------------------------------------------------
  // Transcription factors

  datatype TfaKind = Tfa1 | Tfa2

  datatype TfaState = TfaState(rect: Rect, isActive: bool)

  /** TFA.activate: tfa1 hops up by three scaled pixels; both become active. */
  function TfaActivate(t: TfaState, kind: TfaKind, screenHeight: int): (r: TfaState)
    ensures r.isActive
    ensures r.rect == t.rect.(pos := r.rect.pos) && r.rect.pos.x == t.rect.pos.x
    ensures r.rect.pos.y == t.rect.pos.y - (if kind == Tfa1 then 3 * GoDiv(screenHeight, 750) else 0)
  {
    var y := if kind == Tfa1 then t.rect.pos.y - 3 * GoDiv(screenHeight, 750) else t.rect.pos.y;
    TfaState(t.rect.(pos := t.rect.pos.(y := y)), true)
  }

  /** TFA.update. An inactive factor stays put. An active tfa1 sinks until it
      is below the screen; an active tfa2 drifts down-left until the polymerase
      reaches x = 80, and from then on rides on the polymerase. */
  function TfaStep(t: TfaState, kind: TfaKind, polymerase: Vector, screenWidth: int, screenHeight: int): (r: TfaState)
    ensures r.isActive == t.isActive
    ensures r.rect.width == t.rect.width && r.rect.height == t.rect.height
    ensures !t.isActive ==> r == t
    ensures t.isActive && kind == Tfa2 && polymerase.x >= 80 ==>
              r.rect.pos == Vector(polymerase.x + 60, polymerase.y + 115)
    ensures kind == Tfa1 && 0 <= screenHeight ==> r.rect.pos.x == t.rect.pos.x && r.rect.pos.y >= t.rect.pos.y
    ensures kind == Tfa1 && t.rect.pos.y > screenHeight ==> r == t
  {
    if !t.isActive then t
    else match kind
      case Tfa1 =>
        if t.rect.pos.y <= screenHeight then
          t.(rect := t.rect.(pos := t.rect.pos.(y := t.rect.pos.y + 2 * GoDiv(screenHeight, 750))))
        else t
      case Tfa2 =>
        if polymerase.x >= 80 then
          t.(rect := t.rect.(pos := Vector(polymerase.x + 60, polymerase.y + 115)))
        else if t.rect.pos.y <= 450 then
          t.(rect := t.rect.(pos := Vector(t.rect.pos.x - 2 * GoDiv(screenWidth, 1250),
                                           t.rect.pos.y + 4 * GoDiv(screenHeight, 750))))
        else t
  }

  class TFA {
    var rect: Rect
    var isActive: bool
    const kind: TfaKind
    var origImage: ImageId
    var origImage2: ImageId

    function State(): TfaState reads this { TfaState(rect, isActive) }

    constructor (rect: Rect, kind: TfaKind, image: ImageId, image2: ImageId)
      ensures State() == TfaState(rect, false) && this.kind == kind
      ensures origImage == image && origImage2 == image2
    {
      this.rect := rect;
      isActive := false;
      this.kind := kind;
      origImage, origImage2 := image, image2;
    }

    /** TFA.activate, including animate's switch to the second image. */
    method Activate(screenHeight: int)
      modifies this
      ensures State() == TfaActivate(old(State()), kind, screenHeight)
      ensures origImage == old(origImage2) && origImage2 == old(origImage2)
    {
      if kind == Tfa1 {
        rect := rect.(pos := rect.pos.(y := rect.pos.y - 3 * GoDiv(screenHeight, 750)));
      }
      origImage := origImage2;
      isActive := true;
    }

    method Update(polymerase: Vector, screenWidth: int, screenHeight: int)
      modifies this
      ensures State() == TfaStep(old(State()), kind, polymerase, screenWidth, screenHeight)
      ensures origImage == old(origImage) && origImage2 == old(origImage2)
    {
      if isActive {
        if rect.pos.y <= screenHeight && kind == Tfa1 {
          rect := rect.(pos := rect.pos.(y := rect.pos.y + 2 * GoDiv(screenHeight, 750)));
        }
        if kind == Tfa2 {
          if polymerase.x >= 80 {
            rect := rect.(pos := Vector(polymerase.x + 60, polymerase.y + 115));
          } else if rect.pos.y <= 450 {
            rect := rect.(pos := rect.pos.(y := rect.pos.y + 4 * GoDiv(screenHeight, 750)));
            rect := rect.(pos := rect.pos.(x := rect.pos.x - 2 * GoDiv(screenWidth, 1250)));
          }
        }
      }
    }
  }

  // ---------------------------------------------------------------------------
  // Info page

  datatype InfoStatus = Btn | Pg

  datatype InfoState = InfoState(rect: Rect, status: InfoStatus, origImage: ImageId, origImage2: ImageId)

  /** Where the info button sits while closed. */
  const InfoButtonRect: Rect := Rect(Vector(850, 0), 165, 165)

  function FullScreen(screenWidth: int, screenHeight: int): Rect {
    Rect(Vector(0, 0), screenWidth, screenHeight)
  }

  /** InfoPage.update: a just-pressed click inside the page toggles between the
      button and the full-screen page and swaps the two images; anything else
      leaves it alone. */
  function InfoStep(i: InfoState, input: Input, screenWidth: int, screenHeight: int, h: Helpers): (r: InfoState)
    ensures !(h.pointIn(i.rect, input.cursor) && input.justPressed) ==> r == i
    ensures h.pointIn(i.rect, input.cursor) && input.justPressed ==>
              && r.status != i.status
              && r.origImage == i.origImage2 && r.origImage2 == i.origImage
              && r.rect == (if r.status == Pg then FullScreen(screenWidth, screenHeight) else InfoButtonRect)
  {
    if h.pointIn(i.rect, input.cursor) && input.justPressed then
      var status := if i.status == Btn then Pg else Btn;
      var rect := if i.status == Btn then FullScreen(screenWidth, screenHeight) else InfoButtonRect;
      InfoState(rect, status, i.origImage2, i.origImage)
    else i
  }

  /** The rect matches the status: the button rect while closed, the whole
      screen while open. */
  predicate InfoLaidOut(i: InfoState, screenWidth: int, screenHeight: int) {
    i.rect == if i.status == Pg then FullScreen(screenWidth, screenHeight) else InfoButtonRect
  }

  /** Two toggling clicks (at the same screen size) restore the page exactly:
      status, rect and both images. */
  lemma InfoToggleTwice(i: InfoState, first: Input, second: Input, screenWidth: int, screenHeight: int, h: Helpers)
    requires InfoLaidOut(i, screenWidth, screenHeight)
    requires h.pointIn(i.rect, first.cursor) && first.justPressed
    requires var once := InfoStep(i, first, screenWidth, screenHeight, h);
      h.pointIn(once.rect, second.cursor) && second.justPressed
    ensures var once := InfoStep(i, first, screenWidth, screenHeight, h);
      InfoLaidOut(once, screenWidth, screenHeight) &&
      InfoStep(once, second, screenWidth, screenHeight, h) == i
  {
  }

  class InfoPage {
    var rect: Rect
    var status: InfoStatus
    var origImage: ImageId
    var origImage2: ImageId

    function State(): InfoState reads this { InfoState(rect, status, origImage, origImage2) }

    /** newInfoPage: the given rect and status, showing the first image.
        Game.init opens it closed, at InfoButtonRect. */
    constructor (image: ImageId, image2: ImageId, rect: Rect, status: InfoStatus)
      ensures State() == InfoState(rect, status, image, image2)
    {
      this.rect := rect;
      this.status := status;
      origImage, origImage2 := image, image2;
    }

    method Update(input: Input, screenWidth: int, screenHeight: int, h: Helpers)
      modifies this
      ensures State() == InfoStep(old(State()), input, screenWidth, screenHeight, h)
    {
      if h.pointIn(rect, input.cursor) && input.justPressed {
        if status == Btn {
          status := Pg;
          rect := FullScreen(screenWidth, screenHeight);
        } else {
          status := Btn;
          rect := InfoButtonRect;
        }
        var tempImage := origImage;
        origImage := origImage2;
        origImage2 := tempImage;
      }
    }
  }

  // ---------------------------------------------------------------------------
  // Parallax layers

  /** The scenes whose parallax layers follow the cursor. */
  predicate HasParallax(scene: Scene) {
    scene == MainMenu || scene == SignalReception || scene == SignalTransduction || scene == Translation
  }

  /** Parallax.update's position for each scene that has one; `layer` is
      int(p.layer), which only those scenes divide by. Other scenes leave the
      layer where it is. */
  function ParallaxPos(scene: Scene, cursor: Vector, layer: int, old_: Vector): (pos: Vector)
    requires HasParallax(scene) ==> layer != 0
    ensures !HasParallax(scene) ==> pos == old_
  {
    var x, y := cursor.x, cursor.y;
    match scene
    case MainMenu => Vector(GoDiv(-5 * (x + 75), 6 * layer), GoDiv(-5 * (y + 100), 7 * layer))
    case SignalReception => Vector(GoDiv(-6 * (x + 100), 7 * layer), GoDiv(-2 * (y + 100), 3 * layer))
    case SignalTransduction => Vector(GoDiv(-5 * (x + 80), 7 * layer), GoDiv(-3 * (y + 100), 5 * layer))
    case Translation => Vector(GoDiv(-5 * (x + 95), 7 * layer), GoDiv(-3 * (y + 100), 5 * layer))
    case _ => old_
  }

  /** A parallax layer moves against the cursor: moving the cursor right
      (down) never moves the layer right (down). */
  lemma ParallaxOpposesCursor(scene: Scene, c1: Vector, c2: Vector, layer: int, old_: Vector)
    requires 0 < layer && c1.x <= c2.x && c1.y <= c2.y
    ensures ParallaxPos(scene, c2, layer, old_).x <= ParallaxPos(scene, c1, layer, old_).x
    ensures ParallaxPos(scene, c2, layer, old_).y <= ParallaxPos(scene, c1, layer, old_).y
  {
    var x1, x2, y1, y2 := c1.x, c2.x, c1.y, c2.y;
    match scene
    case MainMenu =>
      GoDivMonotone(-5 * (x2 + 75), -5 * (x1 + 75), 6 * layer);
      GoDivMonotone(-5 * (y2 + 100), -5 * (y1 + 100), 7 * layer);
    case SignalReception =>
      GoDivMonotone(-6 * (x2 + 100), -6 * (x1 + 100), 7 * layer);
      GoDivMonotone(-2 * (y2 + 100), -2 * (y1 + 100), 3 * layer);
    case SignalTransduction =>
      GoDivMonotone(-5 * (x2 + 80), -5 * (x1 + 80), 7 * layer);
      GoDivMonotone(-3 * (y2 + 100), -3 * (y1 + 100), 5 * layer);
    case Translation =>
      GoDivMonotone(-5 * (x2 + 95), -5 * (x1 + 95), 7 * layer);
      GoDivMonotone(-3 * (y2 + 100), -3 * (y1 + 100), 5 * layer);
    case _ =>
  }

  class Parallax {
    var rect: Rect
    const layer: int

    constructor (rect: Rect, layer: int)
      ensures this.rect == rect && this.layer == layer
    {
      this.rect := rect;
      this.layer := layer;
    }

    method Update(cursor: Vector, scene: Scene)
      requires HasParallax(scene) ==> layer != 0
      modifies this
      ensures rect == old(rect).(pos := ParallaxPos(scene, cursor, layer, old(rect).pos))
    {
      var l := layer;
      var x, y := cursor.x, cursor.y;
      match scene {
        case MainMenu =>
          rect := rect.(pos := Vector(GoDiv(-5 * (x + 75), 6 * l), GoDiv(-5 * (y + 100), 7 * l)));
        case SignalReception =>
          rect := rect.(pos := Vector(GoDiv(-6 * (x + 100), 7 * l), GoDiv(-2 * (y + 100), 3 * l)));
        case SignalTransduction =>
          rect := rect.(pos := Vector(GoDiv(-5 * (x + 80), 7 * l), GoDiv(-3 * (y + 100), 5 * l)));
        case Translation =>
          rect := rect.(pos := Vector(GoDiv(-5 * (x + 95), 7 * l), GoDiv(-3 * (y + 100), 5 * l)));
        case _ =>
      }
    }
  }
}
