/** The MacEachren cube, shared by the per-item cube (`MaceachrenCube`, also
    copied into the single-file front end) and the gallery-wide cube
    (`GlobalCube`): merging a config over the defaults, clamping each axis
    to [0,100], mapping it onto [-1,1], the marker position, the glow
    fractions, the condition for drawing the beam, the guard that builds no
    scene, and the mouse-drag rotation state. All arithmetic is on exact
    reals. */
module Cube {
  import opened Wrappers
  import opened GalleryData
  import opened GalleryFilter

  /** The value `Number(v)` gives for a config value: a finite number, an
      infinity, or NaN (any value that is not numeric). */
  datatype Numeric = Finite(x: real) | PosInfinity | NegInfinity | NaN

  /** The two cubes differ in two constants: the marker scale and the drag
      rate. */
  datatype Variant = ItemCube | GlobalCube

  function Scale(v: Variant): (s: real)
    ensures s > 0.0
  {
    match v
    case ItemCube => 1.0
    case GlobalCube => 1.2
  }

  function DragRate(v: Variant): (rate: real)
    ensures rate > 0.0
  {
    match v
    case ItemCube => 0.01
    case GlobalCube => 0.008
  }

  /** `Math.max(0, Math.min(100, Number(v) || 0))`: NaN (and so any
      non-numeric value) becomes 0 before the clamp. */
  function Clamp(v: Numeric): (r: real)
    ensures 0.0 <= r <= 100.0
    ensures v.Finite? && 0.0 <= v.x <= 100.0 ==> r == v.x
    ensures v.Finite? && v.x < 0.0 ==> r == 0.0
    ensures v.Finite? && v.x > 100.0 ==> r == 100.0
  {
    match v
    case NaN => 0.0
    case PosInfinity => 100.0
    case NegInfinity => 0.0
    case Finite(x) => if x < 0.0 then 0.0 else if x > 100.0 then 100.0 else x
  }

  /** A value that is not a number clamps to 0, as a value of 0 does. */
  lemma NonNumericClampsToZero()
    ensures Clamp(NaN) == 0.0 && Clamp(NaN) == Clamp(Finite(0.0))
  {
  }

  /** The clamp never decreases along the finite numbers. */
  lemma ClampMonotone(a: real, b: real)
    requires a <= b
    ensures Clamp(Finite(a)) <= Clamp(Finite(b))
  {
  }

  /** `(clamp(v) - 50) / 50`: the clamped value mapped onto [-1,1]. It can be
      undone: 50*u + 50 gives the clamped value back. */
  function ToUnit(v: Numeric): (u: real)
    ensures -1.0 <= u <= 1.0
    ensures 50.0 * u + 50.0 == Clamp(v)
  {
    (Clamp(v) - 50.0) / 50.0
  }

  /** The end points and the centre: 0 goes to -1, 50 to 0, 100 to 1. */
  lemma ToUnitLandmarks()
    ensures ToUnit(Finite(0.0)) == -1.0
    ensures ToUnit(Finite(50.0)) == 0.0
    ensures ToUnit(Finite(100.0)) == 1.0
  {
  }

  /** `toUnit` is monotone on the finite numbers and strictly so on [0,100]. */
  lemma ToUnitMonotone(a: real, b: real)
    requires a <= b
    ensures ToUnit(Finite(a)) <= ToUnit(Finite(b))
    ensures 0.0 <= a && a < b && b <= 100.0 ==> ToUnit(Finite(a)) < ToUnit(Finite(b))
  {
    ClampMonotone(a, b);
  }

  /** The three axes after the defaults merge. */
  datatype CubeData = CubeData(communication: Numeric, task: Numeric, interaction: Numeric)

  /** The value under `key` in `{ ...defaults, ...(config || {}) }`: the
      config's own value when the key is present (whatever it is), otherwise
      the default 50. */
  function Field(config: Option<map<string, Numeric>>, key: string): Numeric {
    if config.Some? && key in config.value then config.value[key] else Finite(50.0)
  }

  /** The defaults merge of the cube's `config` prop. */
  function Merge(config: Option<map<string, Numeric>>): (d: CubeData)
    ensures config.None? ==> d == CubeData(Finite(50.0), Finite(50.0), Finite(50.0))
    ensures config.Some? && "task" in config.value ==> d.task == config.value["task"]
    ensures config.Some? && "task" !in config.value ==> d.task == Finite(50.0)
    ensures config.Some? && "communication" in config.value ==> d.communication == config.value["communication"]
    ensures config.Some? && "communication" !in config.value ==> d.communication == Finite(50.0)
    ensures config.Some? && "interaction" in config.value ==> d.interaction == config.value["interaction"]
    ensures config.Some? && "interaction" !in config.value ==> d.interaction == Finite(50.0)
  {
    CubeData(Field(config, "communication"), Field(config, "task"), Field(config, "interaction"))
  }

  /** Only an absent key defaults to 50: a present NaN stays NaN and so
      clamps to 0. */
  lemma PresentNaNIsNotDefaulted(config: map<string, Numeric>)
    requires "communication" in config && config["communication"] == NaN
    ensures Clamp(Merge(Some(config)).communication) == 0.0
  {
  }

  datatype Point = Point(x: real, y: real, z: real)

  /** The marker position: X is interaction, Y is communication, Z is task,
      each `toUnit` of the axis times the cube's scale. */
  function Marker(d: CubeData, v: Variant): (p: Point)
    ensures -Scale(v) <= p.x <= Scale(v) && -Scale(v) <= p.y <= Scale(v) && -Scale(v) <= p.z <= Scale(v)
    ensures 50.0 * p.x + 50.0 * Scale(v) == Clamp(d.interaction) * Scale(v)
    ensures 50.0 * p.y + 50.0 * Scale(v) == Clamp(d.communication) * Scale(v)
    ensures 50.0 * p.z + 50.0 * Scale(v) == Clamp(d.task) * Scale(v)
  {
    var s := Scale(v);
    var p := Point(ToUnit(d.interaction) * s, ToUnit(d.communication) * s, ToUnit(d.task) * s);
    ScaleWithin(ToUnit(d.interaction), s);
    ScaleWithin(ToUnit(d.communication), s);
    ScaleWithin(ToUnit(d.task), s);
    p
  }

  lemma ScaleWithin(u: real, s: real)
    requires -1.0 <= u <= 1.0 && s > 0.0
    ensures -s <= u * s <= s
  {
  }

  /** The glow colour before it is blended towards white: red from
      interaction, green from communication, blue from task. */
  datatype Glow = Glow(red: real, green: real, blue: real)

  /** `clamp(v) / 100` for each axis; the `|| 0` after it changes nothing,
      as the fraction is never NaN. */
  function GlowOf(d: CubeData): (g: Glow)
    ensures 0.0 <= g.red <= 1.0 && 0.0 <= g.green <= 1.0 && 0.0 <= g.blue <= 1.0
  {
    Glow(Clamp(d.interaction) / 100.0, Clamp(d.communication) / 100.0, Clamp(d.task) / 100.0)
  }

  /** The glow and the marker encode the same clamped values: each colour
      fraction is the matching marker coordinate mapped from [-s,s] back onto
      [0,1]. */
  lemma GlowMatchesMarker(d: CubeData, v: Variant)
    ensures var p := Marker(d, v);
            var g := GlowOf(d);
            && 2.0 * g.red - 1.0 == p.x / Scale(v)
            && 2.0 * g.green - 1.0 == p.y / Scale(v)
            && 2.0 * g.blue - 1.0 == p.z / Scale(v)
  {
  }

  function Square(r: real): (q: real)
    ensures q >= 0.0
  {
    r * r
  }

  function SquaredLength(p: Point): real {
    Square(p.x) + Square(p.y) + Square(p.z)
  }

  /** `beamLength > 0.001`, where the length is the square root of the
      squared length; both sides are non-negative, so comparing the squares
      decides the same. */
  predicate HasBeam(p: Point) {
    SquaredLength(p) > 0.000001
  }

  /** The data whose three axes all clamp to 50. */
  predicate IsCentred(d: CubeData) {
    Clamp(d.communication) == 50.0 && Clamp(d.task) == 50.0 && Clamp(d.interaction) == 50.0
  }

  /** A centred triple (in particular the defaults) puts the marker at the
      origin and gets no beam. */
  lemma CentredHasNoBeam(d: CubeData, v: Variant)
    requires IsCentred(d)
    ensures Marker(d, v) == Point(0.0, 0.0, 0.0)
    ensures !HasBeam(Marker(d, v))
  {
  }

  /** A missing config gives the neutral triple: the marker sits at the
      origin and no beam is drawn. */
  lemma MissingConfigHasNoBeam(v: Variant)
    ensures Marker(Merge(None), v) == Point(0.0, 0.0, 0.0)
    ensures !HasBeam(Marker(Merge(None), v))
  {
    CentredHasNoBeam(Merge(None), v);
  }

  /** The clamp of a whole number. */
  function ClampInt(n: int): (r: int)
    ensures 0 <= r <= 100
    ensures Clamp(Finite(n as real)) == r as real
  {
    if n < 0 then 0 else if n > 100 then 100 else n
  }

  /** A marker coordinate that is off-centre by at least one point of the
      0..100 scale contributes more than 0.000001 to the squared length. */
  lemma OffCentreCoordinate(c: int, s: real, t: real)
    requires 0 <= c <= 100 && c != 50 && s >= 1.0
    requires t == ((c as real - 50.0) / 50.0) * s
    ensures Square(t) > 0.000001
  {
    var u := (c as real - 50.0) / 50.0;
    if c < 50 {
      assert u <= -0.02;
      assert t <= -0.02;
      assert t * t >= 0.02 * 0.02;
    } else {
      assert u >= 0.02;
      assert t >= 0.02;
      assert t * t >= 0.02 * 0.02;
    }
  }

  /** For whole-number axis values, which is what the data file and the
      rounded aggregate hold, the beam is drawn exactly when some axis does
      not clamp to 50. */
  lemma BeamIffOffCentre(a: int, b: int, c: int, v: Variant)
    ensures var d := CubeData(Finite(a as real), Finite(b as real), Finite(c as real));
            HasBeam(Marker(d, v)) <==> !IsCentred(d)
  {
    var d := CubeData(Finite(a as real), Finite(b as real), Finite(c as real));
    if IsCentred(d) {
      CentredHasNoBeam(d, v);
    } else {
      var p := Marker(d, v);
      var s := Scale(v);
      var ca, cb, cc := ClampInt(a), ClampInt(b), ClampInt(c);
      if ca != 50 {
        assert ToUnit(d.communication) == (ca as real - 50.0) / 50.0;
        OffCentreCoordinate(ca, s, p.y);
      } else if cb != 50 {
        assert ToUnit(d.task) == (cb as real - 50.0) / 50.0;
        OffCentreCoordinate(cb, s, p.z);
      } else {
        assert ToUnit(d.interaction) == (cc as real - 50.0) / 50.0;
        OffCentreCoordinate(cc, s, p.x);
      }
    }
  }

  /** The config the gallery hands to the global cube. */
  function AveragesConfig(avg: Averages): map<string, Numeric> {
    map["communication" := Finite(avg.communication as real),
        "task" := Finite(avg.task as real),
        "interaction" := Finite(avg.interaction as real)]
  }

  /** When no filtered item carries a triple, the global cube shows its
      marker at the origin without a beam. */
  lemma GlobalCubeWithoutData(filtered: seq<MapItem>)
    requires MetricsOf(filtered) == []
    ensures Marker(Merge(Some(AveragesConfig(GlobalMacEachren(filtered)))), GlobalCube) == Point(0.0, 0.0, 0.0)
    ensures !HasBeam(Marker(Merge(Some(AveragesConfig(GlobalMacEachren(filtered)))), GlobalCube))
  {
    var d := Merge(Some(AveragesConfig(GlobalMacEachren(filtered))));
    assert d == CubeData(Finite(50.0), Finite(50.0), Finite(50.0));
    CentredHasNoBeam(d, GlobalCube);
  }

  /** What the effect builds: the marker, the glow fractions and whether the
      beam is added. */
  datatype Scene = Scene(marker: Point, glow: Glow, beam: bool)

  /** The effect: without `window.THREE` or a container element it returns
      early, building nothing and raising nothing. */
  function BuildScene(hasThree: bool, hasContainer: bool, config: Option<map<string, Numeric>>, v: Variant): (r: Option<Scene>)
    ensures r.None? <==> !hasThree || !hasContainer
    ensures r.Some? ==> r.value.beam == HasBeam(r.value.marker)
    ensures r.Some? ==> r.value.glow == GlowOf(Merge(config)) && r.value.marker == Marker(Merge(config), v)
  {
    if !hasThree || !hasContainer then None
    else
      var d := Merge(config);
      var p := Marker(d, v);
      Some(Scene(p, GlowOf(d), HasBeam(p)))
  }

  /** The drag variables of the effect: `isDragging`, `previous` and
      `rotation`. */
  datatype DragState = DragState(dragging: bool, previousX: real, previousY: real, rotationX: real, rotationY: real)

  /** Not dragging, `previous` at (0,0), rotation (0.35, 0.45). */
  const InitialDrag := DragState(false, 0.0, 0.0, 0.35, 0.45)

  datatype PointerEvent = MouseDown(x: real, y: real) | MouseMove(x: real, y: real) | MouseUp

  /** One handler call. A horizontal move turns the scene about Y and a
      vertical move about X, each by `rate` times the pointer delta. */
  function Step(s: DragState, e: PointerEvent, rate: real): DragState {
    match e
    case MouseDown(x, y) => s.(dragging := true, previousX := x, previousY := y)
    case MouseMove(x, y) =>
      if !s.dragging then s
      else DragState(true, x, y, s.rotationX + (y - s.previousY) * rate, s.rotationY + (x - s.previousX) * rate)
    case MouseUp => s.(dragging := false)
  }

  /** The handlers applied to a sequence of events in order. */
  function Run(s: DragState, events: seq<PointerEvent>, rate: real): DragState
    decreases |events|
  {
    if events == [] then s else Run(Step(s, events[0], rate), events[1..], rate)
  }

  /** The rotation changes only on a mouse move while dragging; a move while
      not dragging changes nothing at all. */
  lemma RotationOnlyWhileDragging(s: DragState, e: PointerEvent, rate: real)
    ensures (Step(s, e, rate).rotationX, Step(s, e, rate).rotationY) != (s.rotationX, s.rotationY) ==>
              s.dragging && e.MouseMove?
    ensures !s.dragging && e.MouseMove? ==> Step(s, e, rate) == s
  {
  }

  /** Events that contain no mouse-down leave a non-dragging state alone. */
  lemma {:induction false} IdleRunChangesNothing(s: DragState, events: seq<PointerEvent>, rate: real)
    requires !s.dragging
    requires forall k :: 0 <= k < |events| ==> !events[k].MouseDown?
    ensures Run(s, events, rate) == s
    decreases |events|
  {
    if events != [] {
      IdleRunChangesNothing(Step(s, events[0], rate), events[1..], rate);
    }
  }

  /** The pointer position after a non-empty list of moves. */
  function LastX(moves: seq<PointerEvent>): real
    requires |moves| > 0 && moves[|moves| - 1].MouseMove?
  {
    moves[|moves| - 1].x
  }

  function LastY(moves: seq<PointerEvent>): real
    requires |moves| > 0 && moves[|moves| - 1].MouseMove?
  {
    moves[|moves| - 1].y
  }

  /** While dragging, the deltas telescope: after any non-empty run of moves
      the rotation has grown by `rate` times the distance from the previous
      position to the last one, and the last position is remembered. */
  lemma {:induction false} DragTelescopes(s: DragState, moves: seq<PointerEvent>, rate: real)
    requires s.dragging && |moves| > 0
    requires forall k :: 0 <= k < |moves| ==> moves[k].MouseMove?
    ensures var r := Run(s, moves, rate);
            && r.dragging
            && r.previousX == LastX(moves) && r.previousY == LastY(moves)
            && r.rotationY == s.rotationY + rate * (LastX(moves) - s.previousX)
            && r.rotationX == s.rotationX + rate * (LastY(moves) - s.previousY)
    decreases |moves|
  {
    var t := Step(s, moves[0], rate);
    if |moves| > 1 {
      DragTelescopes(t, moves[1..], rate);
      assert LastX(moves[1..]) == LastX(moves) && LastY(moves[1..]) == LastY(moves);
    }
  }

  /** A whole gesture from the initial state: press at (x0,y0), move, release.
      The scene ends up turned by `rate` times the total pointer travel and
      no longer dragging. */
  lemma DragGesture(x0: real, y0: real, moves: seq<PointerEvent>, rate: real)
    requires |moves| > 0
    requires forall k :: 0 <= k < |moves| ==> moves[k].MouseMove?
    ensures var r := Run(InitialDrag, [MouseDown(x0, y0)] + moves + [MouseUp], rate);
            && !r.dragging
            && r.rotationY == 0.45 + rate * (LastX(moves) - x0)
            && r.rotationX == 0.35 + rate * (LastY(moves) - y0)
  {
    var down := Step(InitialDrag, MouseDown(x0, y0), rate);
    RunAppend(InitialDrag, [MouseDown(x0, y0)] + moves, [MouseUp], rate);
    RunAppend(InitialDrag, [MouseDown(x0, y0)], moves, rate);
    DragTelescopes(down, moves, rate);
  }

  lemma {:induction false} RunAppend(s: DragState, a: seq<PointerEvent>, b: seq<PointerEvent>, rate: real)
    ensures Run(s, a + b, rate) == Run(Run(s, a, rate), b, rate)
    decreases |a|
  {
    if a == [] {
      assert a + b == b;
    } else {
      assert (a + b)[1..] == a[1..] + b;
      RunAppend(Step(s, a[0], rate), a[1..], b, rate);
    }
  }

  /** The drag handlers of one cube over their shared mutable variables. */
  class DragRotation {
    const rate: real
    var dragging: bool
    var previousX: real
    var previousY: real
    var rotationX: real
    var rotationY: real

    function State(): DragState
      reads this
    {
      DragState(dragging, previousX, previousY, rotationX, rotationY)
    }

    constructor(v: Variant)
      ensures rate == DragRate(v) && State() == InitialDrag
    {
      rate := DragRate(v);
      dragging := false;
      previousX, previousY := 0.0, 0.0;
      rotationX, rotationY := 0.35, 0.45;
    }

    /** `onMouseDown`: start dragging from the pointer position. */
    method OnMouseDown(x: real, y: real)
      modifies this
      ensures State() == Step(old(State()), MouseDown(x, y), rate)
      ensures dragging && rotationX == old(rotationX) && rotationY == old(rotationY)
    {
      dragging := true;
      previousX, previousY := x, y;
    }

    /** `onMouseMove`: ignored unless dragging; otherwise turn by the delta
        and remember the position. */
    method OnMouseMove(x: real, y: real)
      modifies this
      ensures State() == Step(old(State()), MouseMove(x, y), rate)
      ensures !old(dragging) ==> State() == old(State())
    {
      if !dragging {
        return;
      }
      var dx := x - previousX;
      var dy := y - previousY;
      rotationY := rotationY + dx * rate;
      rotationX := rotationX + dy * rate;
      previousX, previousY := x, y;
    }

    /** `onMouseUp`: stop dragging. */
    method OnMouseUp()
      modifies this
      ensures State() == Step(old(State()), MouseUp, rate)
      ensures !dragging && rotationX == old(rotationX) && rotationY == old(rotationY)
    {
      dragging := false;
    }
  }
}
