/**
 * The speed changer of screen_animator: it captures a scrolling movement's
 * speed when it is built and later moves that speed up or down in linear
 * steps of a tenth of the captured value, floors it at zero, or restores it.
 */
module SpeedChanging {

  /** The four speed change requests. */
  datatype Speed = Maintain | Reset | Faster | Slower

  /**
   * What `change_speed` may be handed: one of the four requests, or any other
   * value (the tests pass the empty string), which the dispatch does not know.
   */
  datatype Request = Known(speed: Speed) | Unrecognised

  /** The bound methods stored in the dispatch table. */
  datatype Operation = NoChange | Restore | Increase | Decrease

  /** The dispatch table built by the constructor. */
  const Dispatch: map<Speed, Operation> :=
    map[Maintain := NoChange, Reset := Restore, Faster := Increase, Slower := Decrease]

  /** `dict.get(request, table[MAINTAIN])`: unknown requests fall back to "maintain". */
  function OperationFor(request: Request): (op: Operation)
    ensures op == Increase <==> request == Known(Faster)
    ensures op == Decrease <==> request == Known(Slower)
    ensures op == Restore <==> request == Known(Reset)
    ensures op == NoChange <==> request == Known(Maintain) || request.Unrecognised?
  {
    match request
    case Known(s) =>
      assert s == Maintain || s == Reset || s == Faster || s == Slower;
      Dispatch[s]
    case Unrecognised => Dispatch[Maintain]
  }

  /**
   * `round(0.1 * original)`: the nearest integer to a tenth of the original
   * speed, halves going to the even neighbour as Python's `round` does.
   */
  function Step(original: int): (step: int)
    ensures -5 <= 10 * step - original <= 5
    ensures (10 * step - original == 5 || 10 * step - original == -5) ==> step % 2 == 0
    ensures original >= 0 ==> step >= 0
  {
    var q, r := original / 10, original % 10;
    if r < 5 then q
    else if r > 5 then q + 1
    else if q % 2 == 0 then q
    else q + 1
  }

  function Max(a: int, b: int): int { if a < b then b else a }

  /** The speed after one change request, given the captured original speed. */
  function Changed(original: int, request: Request, speed: int): (r: int)
    ensures original >= 0 && speed >= 0 ==> r >= 0
  {
    match OperationFor(request)
    case NoChange => speed
    case Restore => original
    case Increase => speed + Step(original)
    case Decrease => Max(0, speed - Step(original))
  }

  /** The speed after a series of change requests, applied in order. */
  function Run(original: int, requests: seq<Request>, speed: int): (r: int)
    ensures original >= 0 && speed >= 0 ==> r >= 0
    decreases |requests|
  {
    if requests == [] then speed
    else Run(original, requests[1..], Changed(original, requests[0], speed))
  }

  /** The same request repeated n times. */
  function Repeat(request: Request, n: nat): (rs: seq<Request>)
    ensures |rs| == n && forall i :: 0 <= i < n ==> rs[i] == request
  {
    seq(n, _ => request)
  }

  /** The dispatch table maps every request to its own operation. */
  lemma DispatchTable(request: Request, speed: int, original: int)
    ensures request == Known(Faster) ==> Changed(original, request, speed) == speed + Step(original)
    ensures request == Known(Slower) ==> Changed(original, request, speed) == Max(0, speed - Step(original))
    ensures request == Known(Reset) ==> Changed(original, request, speed) == original
    ensures request == Known(Maintain) || request.Unrecognised? ==> Changed(original, request, speed) == speed
  {
  }

  /** Running requests one after the other: the second series starts where the first ended. */
  lemma {:induction false} RunAppend(original: int, first: seq<Request>, second: seq<Request>, speed: int)
    ensures Run(original, first + second, speed) == Run(original, second, Run(original, first, speed))
    decreases |first|
  {
    if first != [] {
      assert (first + second)[0] == first[0];
      assert (first + second)[1..] == first[1..] + second;
      RunAppend(original, first[1..], second, Changed(original, first[0], speed));
    } else {
      assert first + second == second;
    }
  }

  /** n increases add n equal steps: the step depends on the original speed only, so nothing compounds. */
  lemma {:induction false} IncreaseIsLinear(original: int, speed: int, n: nat)
    ensures Run(original, Repeat(Known(Faster), n), speed) == speed + n * Step(original)
    decreases n
  {
    if n > 0 {
      assert Repeat(Known(Faster), n)[1..] == Repeat(Known(Faster), n - 1);
      IncreaseIsLinear(original, speed + Step(original), n - 1);
    }
  }

  /** n decreases from a non-negative speed subtract n steps but never go below zero. */
  lemma {:induction false} DecreaseIsFloored(original: int, speed: int, n: nat)
    requires original >= 0 && speed >= 0
    ensures Run(original, Repeat(Known(Slower), n), speed) == Max(0, speed - n * Step(original))
    decreases n
  {
    if n > 0 {
      var step := Step(original);
      var next := Max(0, speed - step);
      DecreaseOnce(original, speed, n);
      DecreaseIsFloored(original, next, n - 1);
      var rest := (n - 1) * step;
      assert rest >= 0 && n * step == rest + step;
      FloorAgain(speed - step, rest);
    }
  }

  /** The first of n decreases floors the speed after one step; the other n - 1 follow from there. */
  lemma DecreaseOnce(original: int, speed: int, n: nat)
    requires n > 0
    ensures Run(original, Repeat(Known(Slower), n), speed)
         == Run(original, Repeat(Known(Slower), n - 1), Max(0, speed - Step(original)))
  {
    var requests := Repeat(Known(Slower), n);
    assert requests[1..] == Repeat(Known(Slower), n - 1);
  }

  /** Flooring at zero and then subtracting more, floored again, is subtracting it all and flooring once. */
  lemma FloorAgain(a: int, m: int)
    requires m >= 0
    ensures Max(0, Max(0, a) - m) == Max(0, a - m)
  {
  }

  /** Whatever came before, a reset puts the captured original speed back. */
  lemma ResetRestoresOriginal(original: int, before: seq<Request>, speed: int)
    ensures Run(original, before + [Known(Reset)], speed) == original
  {
    RunAppend(original, before, [Known(Reset)], speed);
  }

  /** Requests the table does not know leave the speed alone, after any history. */
  lemma UnrecognisedKeepsSpeed(original: int, before: seq<Request>, speed: int)
    ensures Run(original, before + [Unrecognised], speed) == Run(original, before, speed)
  {
    RunAppend(original, before, [Unrecognised], speed);
  }

  /** The scenario of the tests: from 400, three increases give 520 and ten or thirteen decreases give 0. */
  lemma SpeedFourHundred()
    ensures Step(400) == 40
    ensures Run(400, Repeat(Known(Faster), 3), 400) == 520
    ensures Run(400, Repeat(Known(Slower), 8), 400) == 80
    ensures Run(400, Repeat(Known(Slower), 10), 400) == 0
    ensures Run(400, Repeat(Known(Slower), 13), 400) == 0
    ensures Run(400, Repeat(Known(Faster), 10) + [Known(Reset)], 400) == 400
  {
    IncreaseIsLinear(400, 400, 3);
    DecreaseIsFloored(400, 400, 8);
    DecreaseIsFloored(400, 400, 10);
    DecreaseIsFloored(400, 400, 13);
    ResetRestoresOriginal(400, Repeat(Known(Faster), 10), 400);
  }

  /** The movement whose speed is changed: the `Speeder` protocol. */
  class Speeder {
    var speed: int

    constructor (speed: int)
      ensures this.speed == speed
    {
      this.speed := speed;
    }
  }

  class SpeedChanger {
    const speeder: Speeder
    /** The speed captured at construction; nothing assigns it afterwards. */
    const original: int

    constructor (speeder: Speeder)
      ensures this.speeder == speeder && original == speeder.speed
    {
      this.speeder := speeder;
      this.original := speeder.speed;
    }

    /** Look the request up in the dispatch table and run what it names. */
    method ChangeSpeed(request: Request)
      modifies speeder
      ensures speeder.speed == Changed(original, request, old(speeder.speed))
    {
      match OperationFor(request)
      case NoChange =>
      case Restore => Reset();
      case Increase => Increase();
      case Decrease => Decrease();
    }

    method Reset()
      modifies speeder
      ensures speeder.speed == original
    {
      speeder.speed := original;
    }

    method Increase()
      modifies speeder
      ensures speeder.speed == old(speeder.speed) + Step(original)
    {
      speeder.speed := speeder.speed + Step(original);
    }

    method Decrease()
      modifies speeder
      ensures speeder.speed == Max(0, old(speeder.speed) - Step(original))
      ensures speeder.speed >= 0
    {
      speeder.speed := speeder.speed - Step(original);
      speeder.speed := Max(0, speeder.speed);
    }
  }

  /** The listener classes: the base class and its four subclasses differ only in the request they issue. */
  datatype ActionKind = BaseAction | MaintainAction | IncreaseAction | DecreaseAction | ResetAction

  /** The class attribute `_speed_action` of each listener class. */
  function RequestOf(kind: ActionKind): (s: Speed)
    ensures s == Maintain <==> kind == BaseAction || kind == MaintainAction
    ensures s == Faster <==> kind == IncreaseAction
    ensures s == Slower <==> kind == DecreaseAction
    ensures s == Reset <==> kind == ResetAction
  {
    match kind
    case BaseAction => Maintain
    case MaintainAction => Maintain
    case IncreaseAction => Faster
    case DecreaseAction => Slower
    case ResetAction => Reset
  }

  class SpeedAction {
    const kind: ActionKind
    const changer: SpeedChanger

    constructor (kind: ActionKind, changer: SpeedChanger)
      ensures this.kind == kind && this.changer == changer
    {
      this.kind := kind;
      this.changer := changer;
    }

    /** Forward the listener's fixed request to the speed changer. */
    method Notify()
      modifies changer.speeder
      ensures changer.speeder.speed == Changed(changer.original, Known(RequestOf(kind)), old(changer.speeder.speed))
    {
      changer.ChangeSpeed(Known(RequestOf(kind)));
    }
  }
}
