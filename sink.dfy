/** The virtual output device shared by every processor (the `ui` handle). */
module Sink {
  import opened Events

  /** The capability set declared when the virtual device is created: for each
      domain, the codes that may be written in it. */
  type Capabilities = map<Domain, seq<OutCode>>

  predicate Declared(cap: Capabilities, d: Domain, c: OutCode)
  {
    d in cap && c in cap[d]
  }

  /** The virtual device, seen as the log of the calls made on it. */
  class OutputSink {
    const capabilities: Capabilities
    var log: seq<OutputEvent>

    constructor (capabilities: Capabilities)
      ensures this.capabilities == capabilities && log == []
    {
      this.capabilities := capabilities;
      log := [];
    }

    /** Buffers one event. The model only lets declared codes be written:
        every caller must show that the code is in the device's capabilities. */
    method Write(domain: Domain, code: OutCode, value: int)
      requires Declared(capabilities, domain, code)
      modifies this
      ensures log == old(log) + [OutputEvent.Write(domain, code, value)]
    {
      log := log + [OutputEvent.Write(domain, code, value)];
    }

    /** Flushes the buffered events to the consumers of the device. */
    method Syn()
      modifies this
      ensures log == old(log) + [OutputEvent.Syn]
    {
      log := log + [OutputEvent.Syn];
    }
  }
}
