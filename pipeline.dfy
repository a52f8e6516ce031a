/** The program's wiring: the capability set of the virtual device, the
    registered processors in order, and the loop that offers every raw event
    to every processor. */
module Pipeline {
  import opened Events
  import opened Sink
  import opened Processors

  /** The outcome of looking for the controller: absent, or the finite stream
      of events it delivers until it goes away. */
  datatype Option<T> = None | Some(value: T)

  /** The capability set the virtual device is created with. */
  function DeviceCapabilities(): Capabilities
  {
    map[EvKey := [KeyA, KeyB, KeyX, KeyY, KeyL, KeyR, KeyK, KeyE, KeyUp, KeyDown, KeyLeft, KeyRight],
        EvRel := [RelY, RelX]]
  }

  /** The processor classes and factories `main` instantiates, in order. */
  function ProcessorFactories(): seq<Config>
  {
    [ArrowEventProcessor(), AnalogStickProcessor(), AButtonProcessor(), BButtonProcessor(),
     XButtonProcessor(), YButtonProcessor(), LBButtonProcessor(), RBButtonProcessor(),
     LTButtonProcessor(), RTButtonProcessor(), AnalogStick2Processor()]
  }

  /** The raw button codes bound to output keys by the button factories. */
  function ButtonBindings(): map<int, OutCode>
  {
    map[304 := KeyA, 305 := KeyB, 307 := KeyX, 308 := KeyY, 310 := KeyL, 311 := KeyR]
  }

  /** The raw trigger axes bound to output keys by the trigger factories. */
  function TriggerBindings(): map<int, OutCode>
  {
    map[9 := KeyK, 10 := KeyE]
  }

  /** The calls made when one raw event is offered to each processor of the
      list in turn: the concatenation of their outputs. */
  function DispatchOutput(cs: seq<Config>, ev: RawEvent): seq<OutputEvent>
  {
    if cs == [] then [] else Output(cs[0], ev) + DispatchOutput(cs[1..], ev)
  }

  /** The calls made for a whole stream of raw events. */
  function RunOutput(cs: seq<Config>, events: seq<RawEvent>): seq<OutputEvent>
  {
    if events == [] then [] else DispatchOutput(cs, events[0]) + RunOutput(cs, events[1..])
  }

  // Dispatching to a list of processors.

  lemma {:induction false} DispatchAppend(cs1: seq<Config>, cs2: seq<Config>, ev: RawEvent)
    ensures DispatchOutput(cs1 + cs2, ev) == DispatchOutput(cs1, ev) + DispatchOutput(cs2, ev)
  {
    if cs1 == [] {
      assert cs1 + cs2 == cs2;
    } else {
      assert (cs1 + cs2)[1..] == cs1[1..] + cs2;
      DispatchAppend(cs1[1..], cs2, ev);
    }
  }

  /** Processors that do not own an event contribute nothing to it. */
  lemma {:induction false} DispatchSilent(cs: seq<Config>, ev: RawEvent)
    requires forall i :: 0 <= i < |cs| ==> !Owns(cs[i], ev)
    ensures DispatchOutput(cs, ev) == []
  {
    if cs != [] {
      OutputShape(cs[0], ev);
      assert forall i :: 0 <= i < |cs[1..]| ==> cs[1..][i] == cs[i + 1];
      DispatchSilent(cs[1..], ev);
    }
  }

  /** When only the processor at position k owns an event, the dispatcher's
      output is that processor's output alone. */
  lemma SingleOwnerDispatch(cs: seq<Config>, k: int, ev: RawEvent)
    requires 0 <= k < |cs|
    requires forall i :: 0 <= i < |cs| && i != k ==> !Owns(cs[i], ev)
    ensures DispatchOutput(cs, ev) == Output(cs[k], ev)
  {
    var before, after := cs[..k], cs[k + 1..];
    assert cs == before + [cs[k]] + after;
    assert forall i :: 0 <= i < |before| ==> before[i] == cs[i];
    assert forall i :: 0 <= i < |after| ==> after[i] == cs[k + 1 + i];
    DispatchSilent(before, ev);
    DispatchSilent(after, ev);
    DispatchAppend(before + [cs[k]], after, ev);
    DispatchAppend(before, [cs[k]], ev);
    assert [cs[k]][1..] == [];
  }

  // The registered processors.

  /** No two registered processors react to the same (type, code) pair. */
  lemma RegisteredDisjoint()
    ensures forall i, j :: 0 <= i < j < |ProcessorFactories()| ==>
      OwnedPairs(ProcessorFactories()[i]) !! OwnedPairs(ProcessorFactories()[j])
  {
  }

  /** Offered to all registered processors, an event is answered by its owner
      alone, or by nobody. */
  lemma RegisteredDispatch(ev: RawEvent)
    ensures forall k :: 0 <= k < |ProcessorFactories()| && Owns(ProcessorFactories()[k], ev) ==>
      DispatchOutput(ProcessorFactories(), ev) == Output(ProcessorFactories()[k], ev)
    ensures (forall k :: 0 <= k < |ProcessorFactories()| ==> !Owns(ProcessorFactories()[k], ev)) ==>
      DispatchOutput(ProcessorFactories(), ev) == []
    ensures var r := DispatchOutput(ProcessorFactories(), ev); r == [] || IsBatch(r)
  {
    var cs := ProcessorFactories();
    RegisteredDisjoint();
    forall k | 0 <= k < |cs| && Owns(cs[k], ev)
      ensures DispatchOutput(cs, ev) == Output(cs[k], ev)
    {
      assert forall i :: 0 <= i < |cs| && i != k ==> !Owns(cs[i], ev) by {
        forall i | 0 <= i < |cs| && i != k ensures !Owns(cs[i], ev) {
          if i < k {
            assert OwnedPairs(cs[i]) !! OwnedPairs(cs[k]);
          } else {
            assert OwnedPairs(cs[k]) !! OwnedPairs(cs[i]);
          }
        }
      }
      SingleOwnerDispatch(cs, k, ev);
    }
    if forall k :: 0 <= k < |cs| ==> !Owns(cs[k], ev) {
      DispatchSilent(cs, ev);
    }
  }

  /** The registered button processor for a bound button code. */
  lemma ButtonOwner(code: int) returns (k: int)
    requires code in ButtonBindings()
    ensures 0 <= k < |ProcessorFactories()|
    ensures ProcessorFactories()[k] == SingleButton(code, ButtonBindings()[code])
  {
    if code == 304 {
      k := 2;
    } else if code == 305 {
      k := 3;
    } else if code == 307 {
      k := 4;
    } else if code == 308 {
      k := 5;
    } else if code == 310 {
      k := 6;
    } else {
      k := 7;
    }
  }

  /** Button events go to the button bound to their code, or to nobody. */
  lemma ButtonRouting(ev: RawEvent)
    requires ev.etype == EV_KEY
    ensures ev.code in ButtonBindings() ==>
      DispatchOutput(ProcessorFactories(), ev) == ButtonOutput(ButtonBindings()[ev.code], ev.value)
    ensures ev.code !in ButtonBindings() ==> DispatchOutput(ProcessorFactories(), ev) == []
  {
    var cs := ProcessorFactories();
    if ev.code in ButtonBindings() {
      var k := ButtonOwner(ev.code);
      assert Owns(cs[k], ev);
      RegisteredDispatch(ev);
      assert DispatchOutput(cs, ev) == Output(cs[k], ev);
    } else {
      assert forall k :: 0 <= k < |cs| ==> !Owns(cs[k], ev);
      DispatchSilent(cs, ev);
    }
  }

  /** Absolute-axis events go to the trigger, hat or stick processor owning
      their code, or to nobody. */
  lemma AxisRouting(ev: RawEvent)
    requires ev.etype == EV_ABS
    ensures ev.code in TriggerBindings() ==>
      DispatchOutput(ProcessorFactories(), ev) == TriggerOutput(20, TriggerBindings()[ev.code], ev.value)
    ensures (ev.code == 16 || ev.code == 17) ==>
      DispatchOutput(ProcessorFactories(), ev) == Output(ArrowEventProcessor(), ev)
    ensures (ev.code == 0 || ev.code == 1) ==>
      DispatchOutput(ProcessorFactories(), ev) == Output(AnalogStickProcessor(), ev)
    ensures (ev.code == 2 || ev.code == 5) ==>
      DispatchOutput(ProcessorFactories(), ev) == Output(AnalogStick2Processor(), ev)
    ensures ev.code !in {0, 1, 2, 5, 9, 10, 16, 17} ==> DispatchOutput(ProcessorFactories(), ev) == []
  {
    var cs := ProcessorFactories();
    RegisteredDispatch(ev);
    if ev.code == 9 || ev.code == 10 {
      assert Owns(cs[ev.code - 1], ev);
    } else if ev.code == 16 || ev.code == 17 {
      assert Owns(cs[0], ev);
    } else if ev.code == 0 || ev.code == 1 {
      assert Owns(cs[1], ev);
    } else if ev.code == 2 || ev.code == 5 {
      assert Owns(cs[10], ev);
    } else {
      assert forall k :: 0 <= k < |cs| ==> !Owns(cs[k], ev);
    }
  }

  /** Events of any other type reach nobody. */
  lemma OtherTypesSilent(ev: RawEvent)
    requires ev.etype != EV_KEY && ev.etype != EV_ABS
    ensures DispatchOutput(ProcessorFactories(), ev) == []
  {
    var cs := ProcessorFactories();
    assert forall k :: 0 <= k < |cs| ==> !Owns(cs[k], ev);
    DispatchSilent(cs, ev);
  }

  /** The whole registered pipeline routes each raw event by its type and code:
      face and shoulder buttons to their bound keys, triggers to theirs, the
      hat and left stick to the arrow keys, the right stick to pointer motion,
      and everything else to nothing. */
  lemma RegisteredRouting(ev: RawEvent)
    ensures ev.etype == EV_KEY && ev.code in ButtonBindings() ==>
      DispatchOutput(ProcessorFactories(), ev) == ButtonOutput(ButtonBindings()[ev.code], ev.value)
    ensures ev.etype == EV_ABS && ev.code in TriggerBindings() ==>
      DispatchOutput(ProcessorFactories(), ev) == TriggerOutput(20, TriggerBindings()[ev.code], ev.value)
    ensures ev.etype == EV_ABS && (ev.code == 16 || ev.code == 17) ==>
      DispatchOutput(ProcessorFactories(), ev) == Output(ArrowEventProcessor(), ev)
    ensures ev.etype == EV_ABS && (ev.code == 0 || ev.code == 1) ==>
      DispatchOutput(ProcessorFactories(), ev) == Output(AnalogStickProcessor(), ev)
    ensures ev.etype == EV_ABS && (ev.code == 2 || ev.code == 5) ==>
      DispatchOutput(ProcessorFactories(), ev) == Output(AnalogStick2Processor(), ev)
    ensures !Handled(ev) ==> DispatchOutput(ProcessorFactories(), ev) == []
  {
    if ev.etype == EV_KEY {
      ButtonRouting(ev);
    } else if ev.etype == EV_ABS {
      AxisRouting(ev);
    } else {
      OtherTypesSilent(ev);
    }
  }

  // Capabilities.

  /** The pairs a list of processors may write, taken together. */
  function EmittableAll(cs: seq<Config>): set<(Domain, OutCode)>
  {
    if cs == [] then {} else Emittable(cs[0]) + EmittableAll(cs[1..])
  }

  lemma {:induction false} EmittableAllMember(cs: seq<Config>, d: Domain, k: OutCode)
    ensures (d, k) in EmittableAll(cs) <==> exists i :: 0 <= i < |cs| && (d, k) in Emittable(cs[i])
  {
    if cs != [] {
      EmittableAllMember(cs[1..], d, k);
      if (d, k) in EmittableAll(cs[1..]) {
        var i :| 0 <= i < |cs| - 1 && (d, k) in Emittable(cs[1..][i]);
        assert cs[i + 1] == cs[1..][i];
      }
      if exists i :: 0 <= i < |cs| && (d, k) in Emittable(cs[i]) {
        var i :| 0 <= i < |cs| && (d, k) in Emittable(cs[i]);
        if i > 0 {
          assert cs[1..][i - 1] == cs[i];
        }
      }
    }
  }

  lemma WritesWithinAppend(r1: seq<OutputEvent>, r2: seq<OutputEvent>, allowed: set<(Domain, OutCode)>)
    requires WritesWithin(r1, allowed) && WritesWithin(r2, allowed)
    ensures WritesWithin(r1 + r2, allowed)
  {
    forall i | 0 <= i < |r1 + r2| && (r1 + r2)[i].Write?
      ensures ((r1 + r2)[i].domain, (r1 + r2)[i].code) in allowed
    {
      if i >= |r1| {
        assert (r1 + r2)[i] == r2[i - |r1|];
      }
    }
  }

  lemma {:induction false} DispatchWithin(cs: seq<Config>, ev: RawEvent)
    ensures WritesWithin(DispatchOutput(cs, ev), EmittableAll(cs))
  {
    if cs != [] {
      var allowed := EmittableAll(cs);
      DispatchWithin(cs[1..], ev);
      OutputShape(cs[0], ev);
      assert WritesWithin(DispatchOutput(cs[1..], ev), allowed);
      assert WritesWithin(Output(cs[0], ev), allowed);
      WritesWithinAppend(Output(cs[0], ev), DispatchOutput(cs[1..], ev), allowed);
    }
  }

  lemma {:induction false} RunWithin(cs: seq<Config>, events: seq<RawEvent>)
    ensures WritesWithin(RunOutput(cs, events), EmittableAll(cs))
  {
    if events != [] {
      RunWithin(cs, events[1..]);
      DispatchWithin(cs, events[0]);
      WritesWithinAppend(DispatchOutput(cs, events[0]), RunOutput(cs, events[1..]), EmittableAll(cs));
    }
  }

  /** Each declared capability is written by some registered processor. */
  lemma DeclaredOwner(d: Domain, k: OutCode) returns (i: nat)
    requires Declared(DeviceCapabilities(), d, k)
    ensures i < |ProcessorFactories()| && (d, k) in Emittable(ProcessorFactories()[i])
  {
    if d == EvRel {
      i := 10;
    } else if k == KeyA {
      i := 2;
    } else if k == KeyB {
      i := 3;
    } else if k == KeyX {
      i := 4;
    } else if k == KeyY {
      i := 5;
    } else if k == KeyL {
      i := 6;
    } else if k == KeyR {
      i := 7;
    } else if k == KeyK {
      i := 8;
    } else if k == KeyE {
      i := 9;
    } else {
      i := 0;
    }
  }

  /** Every code a registered processor may write is declared. */
  lemma EmittableDeclared(i: int, d: Domain, k: OutCode)
    requires 0 <= i < |ProcessorFactories()| && (d, k) in Emittable(ProcessorFactories()[i])
    ensures Declared(DeviceCapabilities(), d, k)
  {
  }

  /** The declared capability set is exactly what the registered processors
      may write: nothing they write is missing from it, and nothing in it is
      beyond them. */
  lemma CapabilitiesExact(d: Domain, k: OutCode)
    ensures Declared(DeviceCapabilities(), d, k) <==> (d, k) in EmittableAll(ProcessorFactories())
  {
    var cs := ProcessorFactories();
    EmittableAllMember(cs, d, k);
    if Declared(DeviceCapabilities(), d, k) {
      var i := DeclaredOwner(d, k);
    }
    if (d, k) in EmittableAll(cs) {
      var i :| 0 <= i < |cs| && (d, k) in Emittable(cs[i]);
      EmittableDeclared(i, d, k);
    }
  }

  /** Every write in any run of the registered pipeline is a declared
      capability of the virtual device. */
  lemma RunDeclared(events: seq<RawEvent>)
    ensures forall i :: 0 <= i < |RunOutput(ProcessorFactories(), events)| ==>
      var o := RunOutput(ProcessorFactories(), events)[i];
      o.Write? ==> Declared(DeviceCapabilities(), o.domain, o.code)
  {
    var r := RunOutput(ProcessorFactories(), events);
    RunWithin(ProcessorFactories(), events);
    forall i | 0 <= i < |r| && r[i].Write?
      ensures Declared(DeviceCapabilities(), r[i].domain, r[i].code)
    {
      CapabilitiesExact(r[i].domain, r[i].code);
    }
  }

  /** Every declared capability is written by the registered pipeline for
      some raw event. */
  lemma CapabilitiesUsed(d: Domain, k: OutCode)
    requires Declared(DeviceCapabilities(), d, k)
    ensures exists ev, v :: Write(d, k, v) in DispatchOutput(ProcessorFactories(), ev)
  {
    var cs := ProcessorFactories();
    var i := DeclaredOwner(d, k);
    var c := cs[i];
    EmittableReached(c, d, k);
    var ev, v :| Write(d, k, v) in Output(c, ev);
    OutputShape(c, ev);
    assert Owns(c, ev);
    RegisteredDispatch(ev);
    assert DispatchOutput(cs, ev) == Output(c, ev);
  }

  // Streams of events.

  /** The calls for a stream are those for each event, in order, independent
      of what came before. */
  lemma {:induction false} RunAppend(cs: seq<Config>, e1: seq<RawEvent>, e2: seq<RawEvent>)
    ensures RunOutput(cs, e1 + e2) == RunOutput(cs, e1) + RunOutput(cs, e2)
  {
    if e1 == [] {
      assert e1 + e2 == e2;
    } else {
      assert (e1 + e2)[1..] == e1[1..] + e2;
      RunAppend(cs, e1[1..], e2);
    }
  }

  /** Raw events some registered processor reacts to. */
  predicate Handled(ev: RawEvent)
  {
    (ev.etype, ev.code) in EmittingPairs()
  }

  function EmittingPairs(): set<(int, int)>
  {
    (set c | c in ButtonBindings() :: (EV_KEY, c)) +
    (set c | c in {0, 1, 2, 5, 9, 10, 16, 17} :: (EV_ABS, c))
  }

  function HandledCount(events: seq<RawEvent>): nat
  {
    if events == [] then 0 else (if Handled(events[0]) then 1 else 0) + HandledCount(events[1..])
  }

  /** The virtual device is flushed exactly once per handled raw event and
      never for any other. */
  lemma {:induction false} RunSyncs(events: seq<RawEvent>)
    ensures SynCount(RunOutput(ProcessorFactories(), events)) == HandledCount(events)
  {
    if events != [] {
      var ev := events[0];
      RunSyncs(events[1..]);
      SynCountAppend(DispatchOutput(ProcessorFactories(), ev), RunOutput(ProcessorFactories(), events[1..]));
      RegisteredRouting(ev);
      RegisteredDispatch(ev);
      if Handled(ev) {
        var r := DispatchOutput(ProcessorFactories(), ev);
        assert IsBatch(r);
        BatchHasOneSyn(r);
      }
    }
  }

  /** An event offered twice yields the same calls twice. This follows from
      the definition of RunOutput alone; that the processors themselves are
      unchanged by an event is EventProcessor.ProcessTwice. */
  lemma ReplayTwice(cs: seq<Config>, ev: RawEvent)
    ensures RunOutput(cs, [ev, ev]) == DispatchOutput(cs, ev) + DispatchOutput(cs, ev)
  {
    assert [ev, ev][1..] == [ev];
    assert [ev][1..] == [];
    assert RunOutput(cs, [ev]) == DispatchOutput(cs, ev) + RunOutput(cs, []);
  }

  /** Hat left, then hat centred: LEFT pressed and flushed, then RIGHT and
      LEFT released and flushed. */
  lemma HatLeftThenCentre()
    ensures RunOutput(ProcessorFactories(), [RawEvent(3, 16, -1), RawEvent(3, 16, 0)]) ==
      [Press(KeyLeft), Syn, Release(KeyRight), Release(KeyLeft), Syn]
  {
    var cs, e1, e2 := ProcessorFactories(), RawEvent(3, 16, -1), RawEvent(3, 16, 0);
    AxisRouting(e1);
    AxisRouting(e2);
    ArrowCalls(e1);
    ArrowCalls(e2);
    assert [e1, e2][1..] == [e2];
    assert [e2][1..] == [];
    assert RunOutput(cs, [e2]) == DispatchOutput(cs, e2) + RunOutput(cs, []);
    assert RunOutput(cs, [e1, e2]) == DispatchOutput(cs, e1) + RunOutput(cs, [e2]);
  }

  // The imperative wiring of `main`.

  lemma Associative(a: seq<OutputEvent>, b: seq<OutputEvent>, c: seq<OutputEvent>)
    ensures a + b + c == a + (b + c)
  {
  }

  lemma DispatchSnoc(cs: seq<Config>, i: int, ev: RawEvent)
    requires 0 <= i < |cs|
    ensures DispatchOutput(cs[..i + 1], ev) == DispatchOutput(cs[..i], ev) + Output(cs[i], ev)
  {
    assert cs[..i + 1] == cs[..i] + [cs[i]];
    DispatchAppend(cs[..i], [cs[i]], ev);
    assert [cs[i]][1..] == [];
  }

  lemma RunSnoc(cs: seq<Config>, events: seq<RawEvent>, j: int)
    requires 0 <= j < |events|
    ensures RunOutput(cs, events[..j + 1]) == RunOutput(cs, events[..j]) + DispatchOutput(cs, events[j])
  {
    assert events[..j + 1] == events[..j] + [events[j]];
    RunAppend(cs, events[..j], [events[j]]);
    assert [events[j]][1..] == [];
  }

  function Configs(ps: seq<EventProcessor>): (cs: seq<Config>)
    ensures |cs| == |ps| && forall i :: 0 <= i < |ps| ==> cs[i] == ps[i].config
  {
    seq(|ps|, i requires 0 <= i < |ps| => ps[i].config)
  }

  /** All processors write to `ui`, and only codes it was declared with. */
  predicate Connected(ps: seq<EventProcessor>, ui: OutputSink)
  {
    forall i :: 0 <= i < |ps| ==> ps[i].ui == ui && ps[i].Wired()
  }

  /** Instantiates each processor class or factory with the shared device, in
      order, appending to the processor list. */
  method BuildProcessors(ui: OutputSink, factories: seq<Config>) returns (ps: seq<EventProcessor>)
    ensures |ps| == |factories|
    ensures forall i :: 0 <= i < |ps| ==> ps[i].ui == ui && ps[i].config == factories[i]
  {
    ps := [];
    for i := 0 to |factories|
      invariant |ps| == i
      invariant forall j :: 0 <= j < i ==> ps[j].ui == ui && ps[j].config == factories[j]
    {
      var p := new EventProcessor(ui, factories[i]);
      ps := ps + [p];
    }
  }

  /** Offers one raw event to every processor, in list order, without
      short-circuiting. */
  method Dispatch(ps: seq<EventProcessor>, ui: OutputSink, ev: RawEvent)
    requires Connected(ps, ui)
    modifies ui
    ensures ui.log == old(ui.log) + DispatchOutput(Configs(ps), ev)
  {
    ghost var cs := Configs(ps);
    for i := 0 to |ps|
      invariant ui.log == old(ui.log) + DispatchOutput(cs[..i], ev)
    {
      ghost var done := DispatchOutput(cs[..i], ev);
      ps[i].ProcessEvent(ev);
      DispatchSnoc(cs, i, ev);
      Associative(old(ui.log), done, Output(cs[i], ev));
    }
    assert cs[..|ps|] == cs;
  }

  /** Feeds every raw event of the stream through the dispatcher. */
  method Run(ps: seq<EventProcessor>, ui: OutputSink, events: seq<RawEvent>)
    requires Connected(ps, ui)
    modifies ui
    ensures ui.log == old(ui.log) + RunOutput(Configs(ps), events)
  {
    ghost var cs := Configs(ps);
    for j := 0 to |events|
      invariant ui.log == old(ui.log) + RunOutput(cs, events[..j])
    {
      ghost var done := RunOutput(cs, events[..j]);
      Dispatch(ps, ui, events[j]);
      assert ui.log == old(ui.log) + done + DispatchOutput(cs, events[j]);
      RunSnoc(cs, events, j);
      Associative(old(ui.log), done, DispatchOutput(cs, events[j]));
    }
    assert events[..|events|] == events;
  }

  /** `main`: creates the virtual device with its capability set, builds the
      registered processors around it and, if the controller was found,
      translates its whole event stream. */
  method Start(device: Option<seq<RawEvent>>) returns (ui: OutputSink)
    ensures ui.capabilities == DeviceCapabilities()
    ensures device.None? ==> ui.log == []
    ensures device.Some? ==> ui.log == RunOutput(ProcessorFactories(), device.value)
  {
    ui := new OutputSink(DeviceCapabilities());
    var ps := BuildProcessors(ui, ProcessorFactories());
    forall i, d, k | 0 <= i < |ps| && (d, k) in Emittable(ps[i].config)
      ensures Declared(ui.capabilities, d, k)
    {
      EmittableAllMember(ProcessorFactories(), d, k);
      CapabilitiesExact(d, k);
    }
    assert Configs(ps) == ProcessorFactories();
    if device.Some? {
      Run(ps, ui, device.value);
    }
  }
}
