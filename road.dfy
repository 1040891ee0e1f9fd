/** The road canvas: three decorative traffic cars that scroll down and wrap
    around, and dashed lane markings whose phase advances every frame.
    Positions are real numbers; JavaScript's `%` is written out as JsRem. */
module RoadComponent {

  /** One traffic car; x is its horizontal centre, y the top of its body. */
  datatype Car = Car(x: real, y: real, lane: int, speed: real, color: string)

  /** Distance between the tops of two lane-marking dashes. */
  const LineSpacing: real := 40.0

  /** The phase of the lane markings when the road is mounted. */
  const StartOffset: real := 4.0

  /** Truncation toward zero, as JavaScript's `%` uses for its quotient. */
  function Trunc(q: real): (t: int)
    ensures q >= 0.0 ==> 0 <= t && t as real <= q < t as real + 1.0
    ensures q < 0.0 ==> t <= 0 && t as real - 1.0 < q <= t as real
  {
    if q >= 0.0 then q.Floor else -((-q).Floor)
  }

  /** The mathematical remainder of a by b > 0, always in [0, b). */
  function Mod(a: real, b: real): (r: real)
    requires b > 0.0
    ensures 0.0 <= r < b
  {
    var f := (a / b).Floor as real;
    var t := a / b - f;
    FractionScaled(t, b);
    assert b * (a / b) == a;
    assert b * t == a - b * f;
    a - b * f
  }

  /** 0 <= t < 1 scaled by b > 0 stays in [0, b). */
  lemma FractionScaled(t: real, b: real)
    requires b > 0.0 && 0.0 <= t < 1.0
    ensures 0.0 <= b * t < b
  {
    assert b * (1.0 - t) > 0.0;
  }

  /** JavaScript's remainder of a by b > 0: a less b times the quotient
      truncated toward zero. The remainder takes the sign of the dividend, so it lies in [0, b) for a >= 0 and in
      (-b, 0] for a < 0. */
  function JsRem(a: real, b: real): (r: real)
    requires b > 0.0
    ensures a >= 0.0 ==> 0.0 <= r < b
    ensures a < 0.0 ==> -b < r <= 0.0
    ensures a >= 0.0 ==> r == Mod(a, b)
    ensures a < 0.0 ==> r == -Mod(-a, b)
  {
    JsRemAsMod(a, b);
    a - b * (Trunc(a / b) as real)
  }

  /** Truncating division agrees with the floor for a >= 0 and mirrors it for a < 0. */
  lemma JsRemAsMod(a: real, b: real)
    requires b > 0.0
    ensures a >= 0.0 ==> a - b * (Trunc(a / b) as real) == Mod(a, b)
    ensures a < 0.0 ==> a - b * (Trunc(a / b) as real) == -Mod(-a, b)
  {
    if a >= 0.0 {
      assert a / b >= 0.0;
      assert Trunc(a / b) == (a / b).Floor;
    } else {
      assert -a / b == -(a / b);
      assert a / b < 0.0;
      assert Trunc(a / b) == -((-a / b).Floor);
    }
  }

  /** The sign of the dividend carries over: (-a) % b == -(a % b). */
  lemma JsRemOdd(a: real, b: real)
    requires b > 0.0
    ensures JsRem(-a, b) == -JsRem(a, b)
  {
    if a > 0.0 {
      assert -(-a) == a;
    } else if a < 0.0 {
      assert -a / b == -(a / b);
    }
  }

  /** One car's new y: y plus half its speed, reduced by JavaScript's remainder
      modulo the canvas height, and the height itself when that remainder is negative. */
  function NextY(y: real, speed: real, height: real): (r: real)
    requires height > 0.0
    ensures 0.0 <= r <= height
    ensures y + speed / 2.0 >= 0.0 ==> r == Mod(y + speed / 2.0, height) && r < height
    ensures r == height ==> y + speed / 2.0 < 0.0
  {
    var t := JsRem(y + speed / 2.0, height);
    if t < 0.0 then height else t
  }

  /** For a car at y >= 0 driving forward the update is the plain wrap-around
      modulo the canvas height, and the reset-to-height branch never fires. */
  lemma ForwardWraps(y: real, speed: real, height: real)
    requires height > 0.0 && y >= 0.0 && speed >= 0.0
    ensures NextY(y, speed, height) == Mod(y + speed / 2.0, height)
    ensures 0.0 <= NextY(y, speed, height) < height
    ensures JsRem(y + speed / 2.0, height) >= 0.0
  {
  }

  function UpdatedCar(c: Car, height: real): Car
    requires height > 0.0
  {
    c.(y := NextY(c.y, c.speed, height))
  }

  /** The traffic after one frame: same cars, same order, only y moved, and
      every y on the canvas, [0, height]. */
  function UpdatedCars(cars: seq<Car>, height: real): (r: seq<Car>)
    requires height > 0.0
    ensures |r| == |cars|
    ensures forall i :: 0 <= i < |r| ==>
      && r[i].x == cars[i].x && r[i].lane == cars[i].lane
      && r[i].speed == cars[i].speed && r[i].color == cars[i].color
      && r[i].y == NextY(cars[i].y, cars[i].speed, height)
    ensures forall i :: 0 <= i < |r| ==> 0.0 <= r[i].y <= height
  {
    seq(|cars|, i requires 0 <= i < |cars| => UpdatedCar(cars[i], height))
  }

  /** updateCars: moves every car in place. */
  method UpdateCars(cars: array<Car>, height: real)
    requires height > 0.0
    modifies cars
    ensures cars[..] == UpdatedCars(old(cars[..]), height)
  {
    for i := 0 to cars.Length
      invariant forall j :: 0 <= j < i ==> cars[j] == UpdatedCar(old(cars[j]), height)
      invariant forall j :: i <= j < cars.Length ==> cars[j] == old(cars[j])
    {
      cars[i] := UpdatedCar(cars[i], height);
    }
  }

  /** The lane-marking phase after one frame: offset plus speed, reduced by
      JavaScript's remainder modulo the dash spacing. */
  function NextOffset(offset: real, speed: real): (r: real)
    ensures offset + speed >= 0.0 ==> r == Mod(offset + speed, LineSpacing)
    ensures offset + speed >= 0.0 ==> 0.0 <= r < LineSpacing
    ensures offset + speed < 0.0 ==> -LineSpacing < r <= 0.0
  {
    JsRem(offset + speed, LineSpacing)
  }

  /** From the mounted phase, a road with non-negative speed keeps its
      lane-marking phase in [0, 40) frame after frame. */
  function OffsetAfter(speed: real, n: nat): (r: real)
    requires speed >= 0.0
    ensures 0.0 <= r < LineSpacing
    decreases n
  {
    if n == 0 then StartOffset else NextOffset(OffsetAfter(speed, n - 1), speed)
  }

  /** Taking the remainder before adding changes nothing modulo b. */
  lemma ModAddShift(a: real, s: real, b: real)
    requires b > 0.0
    ensures Mod(Mod(a, b) + s, b) == Mod(a + s, b)
  {
    var k := (a / b).Floor;
    var m := Mod(a, b);
    assert m == a - b * (k as real);
    var x := a + s;
    assert m + s == x - b * (k as real);
    DivShift(x, b, k);
    var f := (x / b).Floor;
    assert ((m + s) / b).Floor == f - k;
    assert Mod(m + s, b) == (m + s) - b * ((f - k) as real);
    assert b * ((f - k) as real) == b * (f as real) - b * (k as real);
  }

  /** Shifting a dividend by k whole divisors shifts the quotient by k. */
  lemma DivShift(x: real, b: real, k: int)
    requires b > 0.0
    ensures (x - b * (k as real)) / b == x / b - k as real
  {
    var y := (x - b * (k as real)) / b;
    assert y * b == x - b * (k as real);
    assert (x / b) * b == x;
    assert (y - (x / b - k as real)) * b == 0.0;
  }

  /** After n frames at non-negative speed the phase is (4 + n * speed) mod 40. */
  lemma {:induction false} OffsetClosedForm(speed: real, n: nat)
    requires speed >= 0.0
    ensures OffsetAfter(speed, n) == Mod(StartOffset + (n as real) * speed, LineSpacing)
    decreases n
  {
    if n == 0 {
      StartOffsetIsPhase();
    } else {
      var m: nat := n - 1;
      OffsetClosedForm(speed, m);
      OffsetStep(OffsetAfter(speed, m), speed, m, n);
    }
  }

  /** One frame of the closed form: if the phase is (4 + m * speed) mod 40,
      the next one is (4 + (m + 1) * speed) mod 40. */
  lemma OffsetStep(off: real, speed: real, m: nat, n: nat)
    requires speed >= 0.0 && n == m + 1
    requires off == Mod(StartOffset + (m as real) * speed, LineSpacing)
    ensures NextOffset(off, speed) == Mod(StartOffset + (n as real) * speed, LineSpacing)
  {
    var prev := StartOffset + (m as real) * speed;
    var next := StartOffset + (n as real) * speed;
    assert NextOffset(off, speed) == Mod(off + speed, LineSpacing);
    ModAddShift(prev, speed, LineSpacing);
    Distribute(m, n, speed);
    assert prev + speed == next;
    assert Mod(prev + speed, LineSpacing) == Mod(next, LineSpacing);
  }

  lemma StartOffsetIsPhase()
    ensures Mod(StartOffset, LineSpacing) == StartOffset
  {
    assert StartOffset / LineSpacing == 0.1;
    assert (StartOffset / LineSpacing).Floor == 0;
  }

  lemma Distribute(m: nat, n: nat, speed: real)
    requires n == m + 1
    ensures StartOffset + (m as real) * speed + speed == StartOffset + (n as real) * speed
  {
  }

  /** The y values of one dashed lane line: starting at the phase and stepping
      by the dash spacing while below the canvas height. */
  method DashPositions(offset: real, height: real) returns (ys: seq<real>)
    ensures forall i :: 0 <= i < |ys| ==> ys[i] == offset + LineSpacing * (i as real)
    ensures forall i :: 0 <= i < |ys| ==> ys[i] < height
    ensures offset + LineSpacing * (|ys| as real) >= height
  {
    ys := [];
    var y := offset;
    while y < height
      invariant y == offset + LineSpacing * (|ys| as real)
      invariant forall i :: 0 <= i < |ys| ==> ys[i] == offset + LineSpacing * (i as real)
      invariant forall i :: 0 <= i < |ys| ==> ys[i] < height
      decreases (height - y).Floor
    {
      ys := ys + [y];
      y := y + LineSpacing;
    }
  }

  /** The traffic placed when the road is mounted. */
  function InitialCars(width: real, height: real, speed: real): (cars: seq<Car>)
    ensures |cars| == 3
    ensures cars[0].speed == cars[2].speed == speed && cars[1].speed == speed + 2.0
    ensures forall i :: 0 <= i < |cars| ==> cars[i].speed >= speed
    ensures speed > 0.0 ==> forall i :: 0 <= i < |cars| ==> cars[i].speed > 0.0
    ensures forall i :: 0 <= i < |cars| ==> cars[i].lane in {1, 2}
  {
    [ Car(width / 1.3, height * 2.0, 1, speed, "#ef4444"),
      Car(width / 4.0, height * 0.3, 2, speed + 2.0, "#3b82f6"),
      Car(width / 2.0, height * 0.5, 1, speed, "#10b981") ]
  }

  /** What one drawRoad call leaves behind, as the canvas sees it. */
  class Road {
    const width: real
    const height: real
    const speed: real
    const cars: array<Car>
    var offset: real

    ghost predicate Valid()
      reads this
    {
      height > 0.0 && cars.Length == 3
    }

    /** Mounting the road for a canvas size and speed. */
    constructor (width: real, height: real, speed: real)
      requires height > 0.0
      ensures Valid() && fresh(cars)
      ensures this.width == width && this.height == height && this.speed == speed
      ensures offset == StartOffset && cars[..] == InitialCars(width, height, speed)
    {
      this.width, this.height, this.speed := width, height, speed;
      var init := InitialCars(width, height, speed);
      cars := new Car[3](i requires 0 <= i < 3 => init[i]);
      offset := StartOffset;
      new;
      assert cars[..] == init;
    }

    /** One frame: the cars and the dashes are drawn at their current
        positions, then the phase advances and the cars move. */
    method Frame() returns (drawn: seq<Car>, dashes: seq<real>)
      requires Valid()
      modifies this`offset, cars
      ensures Valid()
      ensures drawn == old(cars[..])
      ensures forall i :: 0 <= i < |dashes| ==> dashes[i] == old(offset) + LineSpacing * (i as real)
      ensures forall i :: 0 <= i < |dashes| ==> dashes[i] < height
      ensures old(offset) + LineSpacing * (|dashes| as real) >= height
      ensures offset == NextOffset(old(offset), speed)
      ensures cars[..] == UpdatedCars(old(cars[..]), height)
    {
      dashes := DashPositions(offset, height);
      drawn := cars[..];
      offset := NextOffset(offset, speed);
      UpdateCars(cars, height);
    }
  }
}
