/** Values shared by every part of the simulator model: optional values,
    the exceptions the Python code raises, 2-D points, the constant pi and
    the floating-point library functions that the model leaves uninterpreted. */
module Base {

  datatype Option<+T> = None | Some(value: T)

  /** The exceptions the simulator raises, one constructor per Python class. */
  datatype Error =
    | ValueError       // a motor voltage outside [-1, 1] that is not COAST
    | KeyError         // an unknown game name, or a marker id without a size
    | TypeError        // an unexpected keyword argument to an arena constructor
    | AttributeError   // assigning a property that has no setter
    | RuntimeError     // Simulator.run on a simulator that runs in the background
    | AlreadyHolding   // AlreadyHoldingSomethingException
    | RandomExhausted  // the supplied stream of random numbers ran out

  /** A value or the exception raised instead of producing it. */
  datatype Result<+T> = Success(value: T) | Failure(error: Error)

  /** The outcome of an operation that returns nothing but may raise. */
  datatype Outcome = Pass | Fail(error: Error)

  /** A 2-D point or vector in arena coordinates (metres). */
  datatype Vec = Vec(x: real, y: real)

  function Add(a: Vec, b: Vec): Vec { Vec(a.x + b.x, a.y + b.y) }

  function Sub(a: Vec, b: Vec): Vec { Vec(a.x - b.x, a.y - b.y) }

  /** The squared Euclidean distance; used where the source takes `** 0.5`. */
  function SqDist(a: Vec, b: Vec): real {
    (a.x - b.x) * (a.x - b.x) + (a.y - b.y) * (a.y - b.y)
  }

  /** Python's math.pi, as a real number. */
  const PI: real := 3.141592653589793

  /** math.radians and math.degrees. */
  function Radians(deg: real): real { deg * PI / 180.0 }

  function Degrees(rad: real): real { rad * 180.0 / PI }

  /** The floating-point functions of Python's math module that the model
      does not interpret: whatever they return is an input of the model. */
  datatype Trig = Trig(
    sin: real -> real,
    cos: real -> real,
    atan2: (real, real) -> real,
    hypot: (real, real) -> real)

  /** The arenas' rotate helper: pos turned about the origin by ang. */
  function Rotate(pos: Vec, ang: real, trig: Trig): Vec {
    Vec(trig.cos(ang) * pos.x - trig.sin(ang) * pos.y, trig.sin(ang) * pos.x + trig.cos(ang) * pos.y)
  }

  /** With exact values of cos and sin at pi, a half turn negates. */
  lemma RotateHalfTurn(pos: Vec, trig: Trig)
    requires trig.cos(PI) == -1.0 && trig.sin(PI) == 0.0
    ensures Rotate(pos, PI, trig) == Vec(-pos.x, -pos.y)
  {
  }

  function Min(a: int, b: int): int { if a <= b then a else b }
}
