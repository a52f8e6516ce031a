# Razer Serval translator: a verified model of the event pipeline

The program reads raw Linux input events from a Razer Serval game controller.
It turns them into keyboard and mouse events on a virtual `uinput` device.
Eleven processor objects share one device handle, `ui`.
Each raw event is offered to every processor in registration order.
A processor that owns the event's type and code calls `ui.write(...)` zero,
one or two times and then `ui.syn()` once.

The model has four modules:

- `Events` (events.dfy): raw events `RawEvent(etype, code, value)`, with the
  Linux type and code numbers the source tests (`EV_KEY` = 1, `EV_ABS` = 3,
  `ABS_HAT0X` = 16, `BTN_SOUTH` = 304, ...). It also has the calls made on the
  virtual device, `Write(domain, code, value)` and `Syn`. Output key and axis
  codes are a symbolic datatype `OutCode`. `DeviceState` and `Apply` say what a
  consumer of the device sees after a log of calls: the keys held down and the
  pointer motion so far.
- `Sink` (sink.dfy): the virtual device as a class `OutputSink`. It has a
  constant capability map and a `log` of calls, which `Write` and `Syn` append
  to. `Write` requires its (domain, code) to be declared. This is a rule of
  the model, not library behaviour: only declared codes are written, and
  `Start` proves this holds at every call.
- `Processors` (processors.dfy): one `Config` variant per processor class.
  Each variant holds the fields fixed in `__init__`: `delta` = 20 for the left
  stick and triggers, `d` = 3 for the right stick, and input/output codes for
  the triggers and buttons. The factory functions bind these fields. `Output(c,
  ev)` is the pure specification of one `process_event` call. The class
  `EventProcessor` holds the shared `ui` and the config as constants, so no
  processor field can change. Its methods make the same `Write`/`Syn` calls as
  the source, branch for branch. Each method is proved to append exactly
  `Output(config, ev)` to the log.
- `Pipeline` (pipeline.dfy): the capability set from `main`, the list of
  registered processors, and dispatch as ordered concatenation
  (`DispatchOutput`, `RunOutput`). It also has the imperative parts of `main`:
  the append loop that builds the processors, the nested dispatch loops, and
  `Start`.

The model follows the code in three places where the behaviour is easy to
misread:

- A digital button flushes on every event for its code. For a value other
  than 0 or 1, such as autorepeat 2, it writes nothing but still calls `syn()`
  (serval.py:143-148).
- The right stick flushes at exactly 128 too, after writing nothing
  (serval.py:87-101).
- Releases go RIGHT then LEFT on the horizontal axis, and UP then DOWN on the
  vertical axis. This holds for the hat and for the left stick.

## Model

| member | source | states |
|---|---|---|
| Processors.ArrowLeftRight | serval.py:17-26 | The hat's horizontal calls form one batch: writes, then exactly one trailing syn |
| Processors.ArrowUpDown | serval.py:28-37 | The hat's vertical calls form one batch ending in a single syn |
| Processors.StickLeftRight | serval.py:52-61 | Left stick, horizontal: one batch ending in a single syn, in every branch including the dead zone |
| Processors.StickUpDown | serval.py:63-72 | Left stick, vertical: one batch ending in a single syn, in every branch |
| Processors.Stick2Motion | serval.py:87-101 | Right stick: one batch ending in a single syn, even at 128 where nothing is written |
| Processors.TriggerOutput | serval.py:111-119 | Trigger: one batch ending in a single syn |
| Processors.ButtonOutput | serval.py:140-148 | Button: one batch ending in a single syn, even for values other than 0 and 1 |
| Processors.ArrowEventProcessor | serval.py:6-8 | The hat processor's constructor; it binds no constant. No contract of its own: what it does is stated by ArrowCalls and ArrowEffect |
| Processors.AnalogStickProcessor | serval.py:40-43 | The left stick's constructor binds delta = 20. No contract of its own: AnalogStickCalls states the 107/149 thresholds that follow |
| Processors.AnalogStick2Processor | serval.py:75-78 | The right stick's constructor binds d = 3. No contract of its own: AnalogStick2Calls states the resulting +3/-3 motion |
| Processors.AnalogButtonProcessor | serval.py:104-109 | A trigger's constructor binds delta = 20 and its input and output codes. No contract of its own: AnalogButtonCalls states the press-from-21 rule |
| Processors.LTButtonProcessor | serval.py:122-124 | The left trigger binds raw axis ABS_GAS (9) to KeyK. No contract of its own: AxisRouting states where code 9 goes |
| Processors.RTButtonProcessor | serval.py:126-128 | The right trigger binds raw axis ABS_BRAKE (10) to KeyE. No contract of its own: AxisRouting states where code 10 goes |
| Processors.SingleButtonProcessor | serval.py:130-134 | A button's constructor binds its input and output codes. No contract of its own: SingleButtonCalls and SingleButtonEffect state its behaviour |
| Processors.AButtonProcessor | serval.py:151-152 | Binds BTN_SOUTH (304) to KeyA. No contract of its own: ButtonOwner and ButtonRouting state the binding through the registered list |
| Processors.BButtonProcessor | serval.py:155-156 | Binds BTN_EAST (305) to KeyB; stated through ButtonOwner and ButtonRouting |
| Processors.XButtonProcessor | serval.py:159-160 | Binds BTN_NORTH (307) to KeyX; stated through ButtonOwner and ButtonRouting |
| Processors.YButtonProcessor | serval.py:163-164 | Binds BTN_WEST (308) to KeyY; stated through ButtonOwner and ButtonRouting |
| Processors.LBButtonProcessor | serval.py:167-168 | Binds BTN_TL (310) to KeyL; stated through ButtonOwner and ButtonRouting |
| Processors.RBButtonProcessor | serval.py:171-172 | Binds BTN_TR (311) to KeyR; stated through ButtonOwner and ButtonRouting |
| Processors.Output | serval.py:10-148 | The `process_event` of all five classes, branch for branch. No contract of its own: its promises are OutputShape, the *Calls lemmas and the *Effect lemmas |
| Processors.OutputShape | serval.py:10-148 | A processor emits nothing for an event whose (type, code) it does not own; for an owned event it emits one batch ending in a single syn; it writes only the (domain, code) pairs in its Emittable set |
| Processors.ArrowCalls | serval.py:10-37 | Hat code 16: -1 gives [press LEFT, syn], 1 gives [press RIGHT, syn], any other value gives [release RIGHT, release LEFT, syn]; code 17 does the same with UP/DOWN and [release UP, release DOWN, syn] |
| Processors.AnalogStickCalls | serval.py:40-72 | Left stick, delta 20: values up to 107 press LEFT/UP, values from 149 press RIGHT/DOWN, 108..148 release both (RIGHT,LEFT or UP,DOWN); each ends with one syn |
| Processors.AnalogStick2Calls | serval.py:75-101 | Code 2 drives REL_X and code 5 drives REL_Y: below 128 writes -3, above 128 writes +3, at 128 writes nothing; exactly one syn follows in all three cases |
| Processors.AnalogButtonCalls | serval.py:104-119 | A trigger built by the factory presses its key from 21 up and releases it at 20 and below, then syncs once |
| Processors.SingleButtonCalls | serval.py:130-148 | On its own key code a button emits [write 1, syn] for 1, [write 0, syn] for 0, and [syn] alone for any other value |
| Processors.ArrowEffect | serval.py:17-37 | After a hat event, the device holds the negative key for -1 and the positive key for 1; for any other value both keys of that axis are up; the other axis and the pointer are unchanged |
| Processors.AnalogStickEffect | serval.py:52-72 | After a left-stick event the negative key is held up to 107, the positive key from 149, and both are released on 108..148; nothing else changes |
| Processors.AnalogStick2Effect | serval.py:87-101 | A right-stick event moves the pointer by 3 * sign(value - 128) along X (code 2) or Y (code 5); keys do not change |
| Processors.AnalogButtonEffect | serval.py:111-119 | After a trigger event its key is held if and only if the value exceeds the threshold; no other key and no pointer axis changes |
| Processors.SingleButtonEffect | serval.py:140-148 | A button value 1 holds the key, 0 releases it, and any other value leaves the device state as it was |
| Processors.EmittableReached | serval.py:10-148 | Every (domain, code) pair in a processor's Emittable set is written for some raw event, so the set is exact |
| Processors.EventProcessor.constructor | serval.py:7-134 | The one class stands for the five `__init__`s (lines 7-8, 41-43, 76-78, 105-109, 131-134): a processor keeps the shared device handle and its configuration, which are constants |
| Processors.EventProcessor.ProcessEvent | serval.py:10-148 | `process_event` appends exactly Output(config, ev) to the shared device log and changes nothing else |
| Processors.EventProcessor.ArrowLeftRightEvent | serval.py:17-26 | The hat's `left_right_event` appends ArrowLeftRight(value) to the log |
| Processors.EventProcessor.ArrowUpDownEvent | serval.py:28-37 | The hat's `up_down_event` appends ArrowUpDown(value) to the log |
| Processors.EventProcessor.StickLeftRightEvent | serval.py:52-61 | The left stick's `left_right_event` appends StickLeftRight(delta, value) to the log |
| Processors.EventProcessor.StickUpDownEvent | serval.py:63-72 | The left stick's `up_down_event` appends StickUpDown(delta, value) to the log |
| Processors.EventProcessor.ProcessTwice | serval.py:10-148 | Handling the same event twice appends Output(config, ev) twice: the first call leaves the processor's own fields unchanged |
| Processors.EventProcessor.Stick2Event | serval.py:87-101 | The right stick's `left_right_event`/`up_down_event` appends Stick2Motion(axis, d, value) to the log |
| Sink.OutputSink.constructor | serval.py:193 | A new virtual device has the given capability set and an empty log |
| Sink.OutputSink.Write | serval.py:19 | `ui.write` appends one write to the log; only declared codes may be written |
| Sink.OutputSink.Syn | serval.py:26 | `ui.syn` appends one flush to the log |
| Pipeline.DeviceCapabilities | serval.py:186-192 | The `cap` dict: the twelve EV_KEY codes and the two EV_REL codes in source order. No contract of its own: CapabilitiesExact and CapabilitiesUsed state that it is exactly what the processors write |
| Pipeline.ProcessorFactories | serval.py:196-198 | The eleven registered classes and factories in source order. No contract of its own: RegisteredDisjoint, RegisteredDispatch and the routing lemmas state what the list does |
| Pipeline.DispatchOutput | serval.py:206-207 | One raw event offered to each processor in turn. No contract of its own: DispatchAppend, DispatchSilent, SingleOwnerDispatch and Dispatch state it |
| Pipeline.RunOutput | serval.py:205-207 | The whole stream, event by event. No contract of its own: RunAppend, RunSyncs, RunDeclared and Run state it |
| Pipeline.DispatchAppend | serval.py:206-207 | Offering an event to a concatenated list of processors gives the concatenation of the two lists' outputs |
| Pipeline.DispatchSilent | serval.py:206-207 | If no processor in the list owns the event, dispatch emits nothing |
| Pipeline.SingleOwnerDispatch | serval.py:206-207 | If only the processor at position k owns the event, dispatch emits exactly that processor's output |
| Pipeline.RegisteredDisjoint | serval.py:196-198 | The (type, code) pairs owned by the 11 registered processors are pairwise disjoint |
| Pipeline.RegisteredDispatch | serval.py:196-207 | For the registered list, dispatch emits exactly the owner's output, or nothing if there is no owner; so each raw event yields nothing or one batch with a single syn |
| Pipeline.ButtonOwner | serval.py:151-172 | For each bound button code the registered list holds, at some position, the button processor for that code and its bound key |
| Pipeline.ButtonRouting | serval.py:151-172 | Through the registered list, button codes 304, 305, 307, 308, 310 and 311 map to A, B, X, Y, L and R; any other EV_KEY code emits nothing |
| Pipeline.AxisRouting | serval.py:196-207 | Through the registered list, absolute codes 9 and 10 go to the K and E triggers, 16/17 to the hat, 0/1 to the left stick and 2/5 to the right stick; any other EV_ABS code emits nothing |
| Pipeline.OtherTypesSilent | serval.py:196-207 | Raw events of any type other than EV_KEY and EV_ABS emit nothing from the registered list |
| Pipeline.RegisteredRouting | serval.py:196-207 | The full routing table of the registered pipeline, by event type and code, with emits-nothing for every unhandled event |
| Pipeline.DeclaredOwner | serval.py:186-198 | Every declared capability may be written by some registered processor: it lies in that processor's Emittable set |
| Pipeline.EmittableDeclared | serval.py:186-198 | Every (domain, code) a registered processor may write is in the declared capability set |
| Pipeline.CapabilitiesExact | serval.py:186-198 | A (domain, code) pair is declared if and only if some registered processor may write it |
| Pipeline.RunDeclared | serval.py:186-207 | Every write in any run of the registered pipeline uses a declared capability |
| Pipeline.CapabilitiesUsed | serval.py:186-198 | Every declared capability is written by the registered pipeline for some raw event |
| Pipeline.RunAppend | serval.py:205-207 | The output for a stream is the in-order concatenation of the outputs for its parts, whatever came before |
| Pipeline.RunSyncs | serval.py:205-207 | A run syncs the device exactly once per handled raw event and never for any other |
| Pipeline.ReplayTwice | serval.py:205-207 | The same event offered twice produces the same output both times; this follows from RunOutput's definition, and the processor-level fact is EventProcessor.ProcessTwice |
| Pipeline.HatLeftThenCentre | serval.py:17-26 | Hat -1 then 0 through the registered pipeline gives [press LEFT, syn, release RIGHT, release LEFT, syn] |
| Pipeline.BuildProcessors | serval.py:199-202 | The append loop yields one processor per factory, in order, all sharing the one device handle |
| Pipeline.Dispatch | serval.py:206-207 | Offering one event to every processor in order appends DispatchOutput of their configurations to the log |
| Pipeline.Run | serval.py:205-207 | The nested loops append RunOutput of the processors' configurations over the whole stream |
| Pipeline.Start | serval.py:185-207 | `main` creates the device with the declared capabilities; with no controller the log stays empty, and otherwise it is RunOutput of the registered processors over the controller's stream |

## Left out

- Device discovery (serval.py:175-182) is operating-system I/O. `Start` takes
  its outcome as a parameter: `None`, or the finite stream of events the
  controller delivers.
- The blocking `dev.read_loop()` (serval.py:205) is replaced by that finite
  sequence. The `__main__` entry point is left out.
- The `UInput` construction (serval.py:193) is a foreign library call. The
  device name and the `AbsInfo` values attached to the REL axes
  (serval.py:189-190) are left out. Only the capability map is kept, with its
  codes in source order.
- `SingleButtonProcessor.instance` (serval.py:136-138) is never called. It only
  rebinds the device handle, which the model keeps constant.
- The numeric values of `e.KEY_*` and `e.REL_*` come from the `ecodes` module,
  which is not part of this model. They are distinct symbolic constants here.
- Buffering inside the device is not modelled. `Apply` gives the state after
  a whole batch, including its trailing syn. Errors raised by the library's
  `write` or `syn` are not modelled either.
