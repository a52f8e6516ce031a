/** Raw controller events, the events written to the virtual device, and what
    a flushed batch of written events does to the state a consumer of the
    virtual device observes. */
module Events {

  /** Linux input-event types the processors test for. */
  const EV_KEY: int := 1
  const EV_ABS: int := 3

  /** Linux absolute-axis and button codes the controller reports. */
  const ABS_X: int := 0
  const ABS_Y: int := 1
  const ABS_Z: int := 2
  const ABS_RZ: int := 5
  const ABS_GAS: int := 9
  const ABS_BRAKE: int := 10
  const ABS_HAT0X: int := 16
  const ABS_HAT0Y: int := 17
  const BTN_SOUTH: int := 304
  const BTN_EAST: int := 305
  const BTN_NORTH: int := 307
  const BTN_WEST: int := 308
  const BTN_TL: int := 310
  const BTN_TR: int := 311

  /** One raw event read from the physical controller. */
  datatype RawEvent = RawEvent(etype: int, code: int, value: int)

  /** The event domains written to the virtual device. */
  datatype Domain = EvKey | EvRel

  /** Output key and relative-axis codes, kept symbolic and pairwise distinct. */
  datatype OutCode =
    | KeyA | KeyB | KeyX | KeyY | KeyL | KeyR | KeyK | KeyE
    | KeyUp | KeyDown | KeyLeft | KeyRight
    | RelX | RelY

  /** One call on the virtual device: `write(domain, code, value)` or `syn()`. */
  datatype OutputEvent = Write(domain: Domain, code: OutCode, value: int) | Syn

  function Press(k: OutCode): OutputEvent { Write(EvKey, k, 1) }

  function Release(k: OutCode): OutputEvent { Write(EvKey, k, 0) }

  /** A batch: one or more calls, of which exactly the last is a `syn()`. */
  predicate IsBatch(r: seq<OutputEvent>)
  {
    |r| > 0 && r[|r| - 1] == Syn && forall i :: 0 <= i < |r| - 1 ==> r[i].Write?
  }

  /** Number of `syn()` calls in a log. */
  function SynCount(r: seq<OutputEvent>): nat
  {
    if r == [] then 0 else (if r[0] == Syn then 1 else 0) + SynCount(r[1..])
  }

  lemma {:induction false} SynCountAppend(r1: seq<OutputEvent>, r2: seq<OutputEvent>)
    ensures SynCount(r1 + r2) == SynCount(r1) + SynCount(r2)
  {
    if r1 == [] {
      assert r1 + r2 == r2;
    } else {
      assert (r1 + r2)[1..] == r1[1..] + r2;
      SynCountAppend(r1[1..], r2);
    }
  }

  /** A batch flushes exactly once. */
  lemma {:induction false} BatchHasOneSyn(r: seq<OutputEvent>)
    requires IsBatch(r)
    ensures SynCount(r) == 1
  {
    if |r| == 1 {
      assert r[1..] == [];
    } else {
      assert r[0].Write?;
      assert forall i :: 0 <= i < |r[1..]| - 1 ==> r[1..][i] == r[i + 1];
      BatchHasOneSyn(r[1..]);
    }
  }

  /** What a consumer of the virtual device sees: the keys held down and the
      accumulated pointer motion. */
  datatype DeviceState = DeviceState(pressed: set<OutCode>, x: int, y: int)

  /** The effect of one call: a key write of 1 presses, of 0 releases, a
      relative write moves the pointer along its axis; `syn()` only flushes. */
  function Step(s: DeviceState, o: OutputEvent): DeviceState
  {
    match o
    case Syn => s
    case Write(EvKey, k, v) =>
      if v == 1 then s.(pressed := s.pressed + {k})
      else if v == 0 then s.(pressed := s.pressed - {k})
      else s
    case Write(EvRel, c, v) =>
      if c == RelX then s.(x := s.x + v)
      else if c == RelY then s.(y := s.y + v)
      else s
  }

  /** The state after a whole log has been delivered. */
  function Apply(s: DeviceState, r: seq<OutputEvent>): DeviceState
    decreases |r|
  {
    if r == [] then s else Apply(Step(s, r[0]), r[1..])
  }
}
