/** The event processors: each one watches fixed raw codes and, for an event it
    owns, writes key presses, key releases or relative motion to the shared
    virtual device and then flushes it. */
module Processors {
  import opened Events
  import opened Sink

  /** The five processor kinds with the configuration each one fixes at
      construction; nothing in a processor changes afterwards. */
  datatype Config =
    | Arrow
    | AnalogStick(delta: int)
    | AnalogStick2(d: int)
    | AnalogButton(delta: int, inputCode: int, outputCode: OutCode)
    | SingleButton(inputCode: int, outputCode: OutCode)

  // Constructors and factory functions, with the constants they bind.

  function ArrowEventProcessor(): Config { Arrow }
  function AnalogStickProcessor(): Config { AnalogStick(20) }
  function AnalogStick2Processor(): Config { AnalogStick2(3) }

  function AnalogButtonProcessor(inputCode: int, outputCode: OutCode): Config
  {
    AnalogButton(20, inputCode, outputCode)
  }

  function LTButtonProcessor(): Config { AnalogButtonProcessor(ABS_GAS, KeyK) }
  function RTButtonProcessor(): Config { AnalogButtonProcessor(ABS_BRAKE, KeyE) }

  function SingleButtonProcessor(inputCode: int, outputCode: OutCode): Config
  {
    SingleButton(inputCode, outputCode)
  }

  function AButtonProcessor(): Config { SingleButtonProcessor(BTN_SOUTH, KeyA) }
  function BButtonProcessor(): Config { SingleButtonProcessor(BTN_EAST, KeyB) }
  function XButtonProcessor(): Config { SingleButtonProcessor(BTN_NORTH, KeyX) }
  function YButtonProcessor(): Config { SingleButtonProcessor(BTN_WEST, KeyY) }
  function LBButtonProcessor(): Config { SingleButtonProcessor(BTN_TL, KeyL) }
  function RBButtonProcessor(): Config { SingleButtonProcessor(BTN_TR, KeyR) }

  // Which raw events a processor reacts to, and what it may write.

  /** The (type, code) pairs of the raw events a processor reacts to. */
  function OwnedPairs(c: Config): set<(int, int)>
  {
    match c
    case Arrow => {(EV_ABS, ABS_HAT0X), (EV_ABS, ABS_HAT0Y)}
    case AnalogStick(_) => {(EV_ABS, ABS_X), (EV_ABS, ABS_Y)}
    case AnalogStick2(_) => {(EV_ABS, ABS_Z), (EV_ABS, ABS_RZ)}
    case AnalogButton(_, i, _) => {(EV_ABS, i)}
    case SingleButton(i, _) => {(EV_KEY, i)}
  }

  predicate Owns(c: Config, ev: RawEvent)
  {
    (ev.etype, ev.code) in OwnedPairs(c)
  }

  /** The (domain, code) pairs a processor can ever write. */
  function Emittable(c: Config): set<(Domain, OutCode)>
  {
    match c
    case Arrow => {(EvKey, KeyLeft), (EvKey, KeyRight), (EvKey, KeyUp), (EvKey, KeyDown)}
    case AnalogStick(_) => {(EvKey, KeyLeft), (EvKey, KeyRight), (EvKey, KeyUp), (EvKey, KeyDown)}
    case AnalogStick2(_) => {(EvRel, RelX), (EvRel, RelY)}
    case AnalogButton(_, _, k) => {(EvKey, k)}
    case SingleButton(_, k) => {(EvKey, k)}
  }

  /** All writes of a log are within a set of (domain, code) pairs. */
  predicate WritesWithin(r: seq<OutputEvent>, allowed: set<(Domain, OutCode)>)
  {
    forall i :: 0 <= i < |r| && r[i].Write? ==> (r[i].domain, r[i].code) in allowed
  }

  // The calls each processor makes for one owned event.

  /** Hat, horizontal: -1 presses LEFT, 1 presses RIGHT, anything else
      releases RIGHT and then LEFT. */
  function ArrowLeftRight(value: int): (r: seq<OutputEvent>)
    ensures IsBatch(r)
  {
    (if value == -1 then [Press(KeyLeft)]
     else if value == 1 then [Press(KeyRight)]
     else [Release(KeyRight), Release(KeyLeft)]) + [Syn]
  }

  /** Hat, vertical: -1 presses UP, 1 presses DOWN, anything else releases UP
      and then DOWN. */
  function ArrowUpDown(value: int): (r: seq<OutputEvent>)
    ensures IsBatch(r)
  {
    (if value == -1 then [Press(KeyUp)]
     else if value == 1 then [Press(KeyDown)]
     else [Release(KeyUp), Release(KeyDown)]) + [Syn]
  }

  /** Left stick, horizontal, with the dead zone 128 - delta .. 128 + delta. */
  function StickLeftRight(delta: int, value: int): (r: seq<OutputEvent>)
    ensures IsBatch(r)
  {
    (if value < 128 - delta then [Press(KeyLeft)]
     else if value > 128 + delta then [Press(KeyRight)]
     else [Release(KeyRight), Release(KeyLeft)]) + [Syn]
  }

  /** Left stick, vertical, with the same dead zone. */
  function StickUpDown(delta: int, value: int): (r: seq<OutputEvent>)
    ensures IsBatch(r)
  {
    (if value < 128 - delta then [Press(KeyUp)]
     else if value > 128 + delta then [Press(KeyDown)]
     else [Release(KeyUp), Release(KeyDown)]) + [Syn]
  }

  /** Right stick: a step of -d or d on one relative axis, nothing at 128;
      the flush happens in every case. */
  function Stick2Motion(axis: OutCode, d: int, value: int): (r: seq<OutputEvent>)
    ensures IsBatch(r)
  {
    (if value < 128 then [Write(EvRel, axis, -d)]
     else if value > 128 then [Write(EvRel, axis, d)]
     else []) + [Syn]
  }

  /** Trigger: above delta presses the key, otherwise releases it. */
  function TriggerOutput(delta: int, k: OutCode, value: int): (r: seq<OutputEvent>)
    ensures IsBatch(r)
  {
    [if value > delta then Press(k) else Release(k), Syn]
  }

  /** Digital button: 1 presses, 0 releases, any other value (autorepeat)
      writes nothing; the flush happens in every case. */
  function ButtonOutput(k: OutCode, value: int): (r: seq<OutputEvent>)
    ensures IsBatch(r)
  {
    (if value == 1 then [Press(k)]
     else if value == 0 then [Release(k)]
     else []) + [Syn]
  }

  /** What `process_event` writes for one raw event. */
  function Output(c: Config, ev: RawEvent): seq<OutputEvent>
  {
    match c
    case Arrow =>
      if ev.etype == EV_ABS then
        if ev.code == ABS_HAT0X then ArrowLeftRight(ev.value)
        else if ev.code == ABS_HAT0Y then ArrowUpDown(ev.value)
        else []
      else []
    case AnalogStick(delta) =>
      if ev.etype == EV_ABS then
        if ev.code == ABS_X then StickLeftRight(delta, ev.value)
        else if ev.code == ABS_Y then StickUpDown(delta, ev.value)
        else []
      else []
    case AnalogStick2(d) =>
      if ev.etype == EV_ABS then
        if ev.code == ABS_Z then Stick2Motion(RelX, d, ev.value)
        else if ev.code == ABS_RZ then Stick2Motion(RelY, d, ev.value)
        else []
      else []
    case AnalogButton(delta, inputCode, outputCode) =>
      if ev.etype == EV_ABS && ev.code == inputCode then TriggerOutput(delta, outputCode, ev.value)
      else []
    case SingleButton(inputCode, outputCode) =>
      if ev.etype == EV_KEY && ev.code == inputCode then ButtonOutput(outputCode, ev.value)
      else []
  }

  /** A processor answers exactly the events it owns, each with one batch
      ending in a single flush, and writes only codes it may emit. */
  lemma OutputShape(c: Config, ev: RawEvent)
    ensures Owns(c, ev) ==> IsBatch(Output(c, ev))
    ensures !Owns(c, ev) ==> Output(c, ev) == []
    ensures WritesWithin(Output(c, ev), Emittable(c))
  {
  }

  // The exact calls, as listed per processor.

  /** The hat writes one key for -1 and 1 and releases both keys of its axis
      otherwise, RIGHT before LEFT and UP before DOWN. */
  lemma ArrowCalls(ev: RawEvent)
    requires ev.etype == EV_ABS
    ensures ev.code == ABS_HAT0X ==> (Output(ArrowEventProcessor(), ev) ==
      if ev.value == -1 then [Press(KeyLeft), Syn]
      else if ev.value == 1 then [Press(KeyRight), Syn]
      else [Release(KeyRight), Release(KeyLeft), Syn])
    ensures ev.code == ABS_HAT0Y ==> (Output(ArrowEventProcessor(), ev) ==
      if ev.value == -1 then [Press(KeyUp), Syn]
      else if ev.value == 1 then [Press(KeyDown), Syn]
      else [Release(KeyUp), Release(KeyDown), Syn])
  {
  }

  /** The left stick presses below 108 and above 148 and releases on 108..148. */
  lemma AnalogStickCalls(ev: RawEvent)
    requires ev.etype == EV_ABS
    ensures ev.code == ABS_X ==> (Output(AnalogStickProcessor(), ev) ==
      if ev.value <= 107 then [Press(KeyLeft), Syn]
      else if ev.value >= 149 then [Press(KeyRight), Syn]
      else [Release(KeyRight), Release(KeyLeft), Syn])
    ensures ev.code == ABS_Y ==> (Output(AnalogStickProcessor(), ev) ==
      if ev.value <= 107 then [Press(KeyUp), Syn]
      else if ev.value >= 149 then [Press(KeyDown), Syn]
      else [Release(KeyUp), Release(KeyDown), Syn])
  {
  }

  /** The right stick writes -3 below 128, +3 above, nothing at 128, and
      always flushes once. */
  lemma AnalogStick2Calls(ev: RawEvent)
    requires ev.etype == EV_ABS && (ev.code == ABS_Z || ev.code == ABS_RZ)
    ensures Output(AnalogStick2Processor(), ev) ==
      var axis := if ev.code == ABS_Z then RelX else RelY;
      if ev.value < 128 then [Write(EvRel, axis, -3), Syn]
      else if ev.value > 128 then [Write(EvRel, axis, 3), Syn]
      else [Syn]
  {
  }

  /** A trigger presses above 20 and releases at 20 and below. */
  lemma AnalogButtonCalls(inputCode: int, k: OutCode, ev: RawEvent)
    requires ev.etype == EV_ABS && ev.code == inputCode
    ensures Output(AnalogButtonProcessor(inputCode, k), ev) ==
      if ev.value >= 21 then [Press(k), Syn] else [Release(k), Syn]
  {
  }

  /** A button writes its value for 0 and 1 and only flushes otherwise. */
  lemma SingleButtonCalls(inputCode: int, k: OutCode, ev: RawEvent)
    requires ev.etype == EV_KEY && ev.code == inputCode
    ensures ev.value == 1 ==> Output(SingleButtonProcessor(inputCode, k), ev) == [Press(k), Syn]
    ensures ev.value == 0 ==> Output(SingleButtonProcessor(inputCode, k), ev) == [Release(k), Syn]
    ensures ev.value != 0 && ev.value != 1 ==> Output(SingleButtonProcessor(inputCode, k), ev) == [Syn]
  {
  }

  // What the calls do to the observed device state.

  /** The direction a digitised axis points in: -1, 0 or 1. */
  function Direction(s: DeviceState, neg: OutCode, pos: OutCode, dir: int): DeviceState
  {
    if dir < 0 then s.(pressed := s.pressed + {neg})
    else if dir > 0 then s.(pressed := s.pressed + {pos})
    else s.(pressed := s.pressed - {neg, pos})
  }

  function Sign(v: int): int
  {
    if v < 0 then -1 else if v > 0 then 1 else 0
  }

  /** The two keys of the axis a hat or left-stick code drives. */
  function NegativeKey(horizontal: bool): OutCode { if horizontal then KeyLeft else KeyUp }
  function PositiveKey(horizontal: bool): OutCode { if horizontal then KeyRight else KeyDown }

  lemma ApplyTwo(s: DeviceState, a: OutputEvent, b: OutputEvent)
    ensures Apply(s, [a, b]) == Step(Step(s, a), b)
  {
    assert [a, b][1..] == [b];
    assert [b][1..] == [];
    assert Apply(Step(s, a), [b]) == Apply(Step(Step(s, a), b), []);
  }

  lemma ApplyThree(s: DeviceState, a: OutputEvent, b: OutputEvent, c: OutputEvent)
    ensures Apply(s, [a, b, c]) == Step(Step(Step(s, a), b), c)
  {
    assert [a, b, c][1..] == [b, c];
    ApplyTwo(Step(s, a), b, c);
  }

  /** The hat drives its axis: -1 holds the negative key, 1 the positive key,
      any other value lets go of both; nothing else changes. */
  lemma ArrowEffect(s: DeviceState, ev: RawEvent)
    requires Owns(ArrowEventProcessor(), ev)
    ensures Apply(s, Output(ArrowEventProcessor(), ev)) ==
      Direction(s, NegativeKey(ev.code == ABS_HAT0X), PositiveKey(ev.code == ABS_HAT0X),
                if ev.value == -1 || ev.value == 1 then ev.value else 0)
  {
    var r := Output(ArrowEventProcessor(), ev);
    if |r| == 2 { ApplyTwo(s, r[0], r[1]); assert r == [r[0], r[1]]; }
    else { ApplyThree(s, r[0], r[1], r[2]); assert r == [r[0], r[1], r[2]]; }
  }

  /** The left stick holds the negative key up to 107, the positive key from
      149, and lets go of both on 108..148; nothing else changes. */
  lemma AnalogStickEffect(s: DeviceState, ev: RawEvent)
    requires Owns(AnalogStickProcessor(), ev)
    ensures Apply(s, Output(AnalogStickProcessor(), ev)) ==
      Direction(s, NegativeKey(ev.code == ABS_X), PositiveKey(ev.code == ABS_X),
                if ev.value <= 107 then -1 else if ev.value >= 149 then 1 else 0)
  {
    var r := Output(AnalogStickProcessor(), ev);
    if |r| == 2 { ApplyTwo(s, r[0], r[1]); assert r == [r[0], r[1]]; }
    else { ApplyThree(s, r[0], r[1], r[2]); assert r == [r[0], r[1], r[2]]; }
  }

  /** The right stick moves the pointer by 3 towards the side of 128 the value
      is on, along X for ABS_Z and Y for ABS_RZ; keys do not change. */
  lemma AnalogStick2Effect(s: DeviceState, ev: RawEvent)
    requires Owns(AnalogStick2Processor(), ev)
    ensures Apply(s, Output(AnalogStick2Processor(), ev)) ==
      if ev.code == ABS_Z then s.(x := s.x + 3 * Sign(ev.value - 128))
      else s.(y := s.y + 3 * Sign(ev.value - 128))
  {
    var r := Output(AnalogStick2Processor(), ev);
    if |r| == 1 { assert r == [Syn]; assert r[1..] == []; }
    else { ApplyTwo(s, r[0], r[1]); assert r == [r[0], r[1]]; }
  }

  /** After a trigger event its key is held exactly when the value exceeds
      the threshold; nothing else changes. */
  lemma AnalogButtonEffect(s: DeviceState, c: Config, ev: RawEvent)
    requires c.AnalogButton? && Owns(c, ev)
    ensures var t := Apply(s, Output(c, ev));
      t.x == s.x && t.y == s.y &&
      (c.outputCode in t.pressed <==> ev.value > c.delta) &&
      t.pressed - {c.outputCode} == s.pressed - {c.outputCode}
  {
    var r := Output(c, ev);
    ApplyTwo(s, r[0], r[1]);
    assert r == [r[0], r[1]];
  }

  /** A button press holds the key, a release lets go of it, and any other
      value leaves the device as it was. */
  lemma SingleButtonEffect(s: DeviceState, c: Config, ev: RawEvent)
    requires c.SingleButton? && Owns(c, ev)
    ensures Apply(s, Output(c, ev)) ==
      if ev.value == 1 then s.(pressed := s.pressed + {c.outputCode})
      else if ev.value == 0 then s.(pressed := s.pressed - {c.outputCode})
      else s
  {
    var r := Output(c, ev);
    if |r| == 1 { assert r == [Syn]; assert r[1..] == []; }
    else { ApplyTwo(s, r[0], r[1]); assert r == [r[0], r[1]]; }
  }

  /** Every pair a processor may write is written for some raw event, so
      Emittable is exact rather than an over-approximation. */
  lemma EmittableReached(c: Config, d: Domain, k: OutCode)
    requires (d, k) in Emittable(c)
    ensures exists ev, v :: Write(d, k, v) in Output(c, ev)
  {
    match c
    case Arrow =>
      var ev := if k == KeyLeft then RawEvent(EV_ABS, ABS_HAT0X, -1)
        else if k == KeyRight then RawEvent(EV_ABS, ABS_HAT0X, 1)
        else if k == KeyUp then RawEvent(EV_ABS, ABS_HAT0Y, -1)
        else RawEvent(EV_ABS, ABS_HAT0Y, 1);
      assert Write(d, k, 1) == Output(c, ev)[0];
    case AnalogStick(delta) =>
      var code := if k == KeyLeft || k == KeyRight then ABS_X else ABS_Y;
      var value := if k == KeyLeft || k == KeyUp then 127 - delta else 129 + (if delta < 0 then -delta else delta);
      var ev := RawEvent(EV_ABS, code, value);
      assert Write(d, k, 1) == Output(c, ev)[0];
    case AnalogStick2(dd) =>
      var ev := RawEvent(EV_ABS, if k == RelX then ABS_Z else ABS_RZ, 0);
      assert Write(d, k, -dd) == Output(c, ev)[0];
    case AnalogButton(delta, i, _) =>
      var ev := RawEvent(EV_ABS, i, delta);
      assert Write(d, k, 0) == Output(c, ev)[0];
    case SingleButton(i, _) =>
      var ev := RawEvent(EV_KEY, i, 1);
      assert Write(d, k, 1) == Output(c, ev)[0];
  }

  /** A constructed processor: its fixed configuration and the shared device
      handle it writes to. Both fields are constants, so processing an event
      can change nothing but the device. */
  class EventProcessor {
    const ui: OutputSink
    const config: Config

    constructor (ui: OutputSink, config: Config)
      ensures this.ui == ui && this.config == config
    {
      this.ui := ui;
      this.config := config;
    }

    /** Every code this processor may write was declared on its device. */
    predicate Wired()
    {
      forall d, k :: (d, k) in Emittable(config) ==> Declared(ui.capabilities, d, k)
    }

    method ProcessEvent(ev: RawEvent)
      requires Wired()
      modifies ui
      ensures ui.log == old(ui.log) + Output(config, ev)
    {
      match config
      case Arrow =>
        if ev.etype == EV_ABS {
          if ev.code == ABS_HAT0X {
            ArrowLeftRightEvent(ev);
          } else if ev.code == ABS_HAT0Y {
            ArrowUpDownEvent(ev);
          }
        }
      case AnalogStick(_) =>
        if ev.etype == EV_ABS {
          if ev.code == ABS_X {
            StickLeftRightEvent(ev);
          } else if ev.code == ABS_Y {
            StickUpDownEvent(ev);
          }
        }
      case AnalogStick2(_) =>
        if ev.etype == EV_ABS {
          if ev.code == ABS_Z {
            Stick2Event(RelX, ev);
          } else if ev.code == ABS_RZ {
            Stick2Event(RelY, ev);
          }
        }
      case AnalogButton(delta, inputCode, outputCode) =>
        assert Declared(ui.capabilities, EvKey, outputCode);
        if ev.etype == EV_ABS {
          if ev.code == inputCode {
            if ev.value > delta {
              ui.Write(EvKey, outputCode, 1);
            } else {
              ui.Write(EvKey, outputCode, 0);
            }
            ui.Syn();
          }
        }
      case SingleButton(inputCode, outputCode) =>
        assert Declared(ui.capabilities, EvKey, outputCode);
        if ev.etype == EV_KEY {
          if ev.code == inputCode {
            if ev.value == 1 {
              ui.Write(EvKey, outputCode, 1);
            } else if ev.value == 0 {
              ui.Write(EvKey, outputCode, 0);
            }
            ui.Syn();
          }
        }
    }

    method ArrowLeftRightEvent(ev: RawEvent)
      requires config.Arrow? && Wired()
      modifies ui
      ensures ui.log == old(ui.log) + ArrowLeftRight(ev.value)
    {
      assert Declared(ui.capabilities, EvKey, KeyLeft) && Declared(ui.capabilities, EvKey, KeyRight);
      if ev.value == -1 {
        ui.Write(EvKey, KeyLeft, 1);
      } else if ev.value == 1 {
        ui.Write(EvKey, KeyRight, 1);
      } else {
        ui.Write(EvKey, KeyRight, 0);
        ui.Write(EvKey, KeyLeft, 0);
      }
      ui.Syn();
    }

    method ArrowUpDownEvent(ev: RawEvent)
      requires config.Arrow? && Wired()
      modifies ui
      ensures ui.log == old(ui.log) + ArrowUpDown(ev.value)
    {
      assert Declared(ui.capabilities, EvKey, KeyUp) && Declared(ui.capabilities, EvKey, KeyDown);
      if ev.value == -1 {
        ui.Write(EvKey, KeyUp, 1);
      } else if ev.value == 1 {
        ui.Write(EvKey, KeyDown, 1);
      } else {
        ui.Write(EvKey, KeyUp, 0);
        ui.Write(EvKey, KeyDown, 0);
      }
      ui.Syn();
    }

    method StickLeftRightEvent(ev: RawEvent)
      requires config.AnalogStick? && Wired()
      modifies ui
      ensures ui.log == old(ui.log) + StickLeftRight(config.delta, ev.value)
    {
      assert Declared(ui.capabilities, EvKey, KeyLeft) && Declared(ui.capabilities, EvKey, KeyRight);
      if ev.value < 128 - config.delta {
        ui.Write(EvKey, KeyLeft, 1);
      } else if ev.value > 128 + config.delta {
        ui.Write(EvKey, KeyRight, 1);
      } else {
        ui.Write(EvKey, KeyRight, 0);
        ui.Write(EvKey, KeyLeft, 0);
      }
      ui.Syn();
    }

    method StickUpDownEvent(ev: RawEvent)
      requires config.AnalogStick? && Wired()
      modifies ui
      ensures ui.log == old(ui.log) + StickUpDown(config.delta, ev.value)
    {
      assert Declared(ui.capabilities, EvKey, KeyUp) && Declared(ui.capabilities, EvKey, KeyDown);
      if ev.value < 128 - config.delta {
        ui.Write(EvKey, KeyUp, 1);
      } else if ev.value > 128 + config.delta {
        ui.Write(EvKey, KeyDown, 1);
      } else {
        ui.Write(EvKey, KeyUp, 0);
        ui.Write(EvKey, KeyDown, 0);
      }
      ui.Syn();
    }

    /** The right stick's `left_right_event` (axis RelX) and `up_down_event`
        (axis RelY), which differ only in the axis written. */
    method Stick2Event(axis: OutCode, ev: RawEvent)
      requires config.AnalogStick2? && Wired() && (axis == RelX || axis == RelY)
      modifies ui
      ensures ui.log == old(ui.log) + Stick2Motion(axis, config.d, ev.value)
    {
      assert Declared(ui.capabilities, EvRel, axis);
      if ev.value < 128 {
        ui.Write(EvRel, axis, -config.d);
      } else if ev.value > 128 {
        ui.Write(EvRel, axis, config.d);
      }
      ui.Syn();
    }

    /** The same event handled twice by one processor: the first call leaves
        the processor's own fields as they were, so the second call makes the
        same calls again. */
    method ProcessTwice(ev: RawEvent)
      requires Wired()
      modifies ui
      ensures ui.log == old(ui.log) + Output(config, ev) + Output(config, ev)
    {
      ProcessEvent(ev);
      ProcessEvent(ev);
    }
  }
}
