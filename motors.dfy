/** The robot's motor interfaces: the percentage-power MotorChannel, which
    clamps what it is given, and the MotorBoard, whose two outputs accept a
    voltage in [-1, 1] or COAST and reject anything else. */
module Motors {
  import opened Base

  const MAX_MOTOR_SPEED: real := 100.0

  /** min(max(value, -MAX_MOTOR_SPEED), MAX_MOTOR_SPEED) */
  function ClampPower(value: real): (r: real)
    ensures -MAX_MOTOR_SPEED <= r <= MAX_MOTOR_SPEED
    ensures -MAX_MOTOR_SPEED <= value <= MAX_MOTOR_SPEED ==> r == value
    ensures value > MAX_MOTOR_SPEED ==> r == MAX_MOTOR_SPEED
    ensures value < -MAX_MOTOR_SPEED ==> r == -MAX_MOTOR_SPEED
  {
    var lower := if value >= -MAX_MOTOR_SPEED then value else -MAX_MOTOR_SPEED;
    if lower <= MAX_MOTOR_SPEED then lower else MAX_MOTOR_SPEED
  }

  class MotorChannel {
    var power: real

    constructor ()
      ensures power == 0.0
    {
      power := 0.0;
    }

    method SetPower(value: real)
      modifies this
      ensures power == ClampPower(value)
    {
      power := ClampPower(value);
    }
  }

  /** A value written to a motor output: a number, or the COAST sentinel. */
  datatype MotorValue = Coast | Volts(v: real)

  const COAST: MotorValue := Coast
  /** BRAKE is 0, so writing 0 and writing BRAKE are the same thing. */
  const BRAKE: MotorValue := Volts(0.0)

  /** MotorBoard._check_voltage: COAST or a number in [-1, 1] passes. */
  function CheckVoltage(v: MotorValue): (r: Outcome)
    ensures r.Pass? <==> (v == COAST || -1.0 <= v.v <= 1.0)
    ensures r.Fail? ==> r.error == ValueError
  {
    if v != COAST && (v.v > 1.0 || v.v < -1.0) then Fail(ValueError) else Pass
  }

  /** The motor list after writing v to output i: unchanged when the
      check raises, otherwise exactly v at i. */
  function WriteMotor(motors: seq<MotorValue>, i: nat, v: MotorValue): (r: seq<MotorValue>)
    requires i < |motors|
    ensures |r| == |motors|
    ensures CheckVoltage(v).Pass? ==> r[i] == v
    ensures CheckVoltage(v).Fail? ==> r == motors
    ensures forall j :: 0 <= j < |motors| && j != i ==> r[j] == motors[j]
  {
    if CheckVoltage(v).Pass? then motors[i := v] else motors
  }

  class MotorBoard {
    var motors: seq<MotorValue>

    ghost predicate Valid()
      reads this
    {
      |motors| == 2
    }

    constructor ()
      ensures Valid() && motors == [BRAKE, BRAKE]
    {
      motors := [Volts(0.0), Volts(0.0)];
    }

    function M0(): MotorValue
      reads this
      requires Valid()
    {
      motors[0]
    }

    function M1(): MotorValue
      reads this
      requires Valid()
    {
      motors[1]
    }

    method SetM0(v: MotorValue) returns (r: Outcome)
      requires Valid()
      modifies this
      ensures Valid()
      ensures r == CheckVoltage(v)
      ensures motors == WriteMotor(old(motors), 0, v)
    {
      r := CheckVoltage(v);
      if r.Fail? { return; }
      motors := motors[0 := v];
    }

    method SetM1(v: MotorValue) returns (r: Outcome)
      requires Valid()
      modifies this
      ensures Valid()
      ensures r == CheckVoltage(v)
      ensures motors == WriteMotor(old(motors), 1, v)
    {
      r := CheckVoltage(v);
      if r.Fail? { return; }
      motors := motors[1 := v];
    }
  }
}
