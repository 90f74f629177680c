/** The collaborators the wrapper drives. Their own logic lies outside the
    wrapper, so each is reduced to what the wrapper can see of it: the core
    to the pins the wrapper reads or writes, the bus agents and the waveform
    writer to the calls they receive, recorded in one shared log. */
module Environment {
  import opened Signals

  /** The Verilated core (`Vfrv_core`), reduced to the clock, reset and
      retirement pins. */
  class Core {
    var gClk: Byte
    var gResetn: Byte
    var trsValid: Byte
    var trsPc: U64
    var trsInstr: U32

    constructor ()
      ensures gClk == 0 && gResetn == 0 && Outs() == Outputs(0, 0, 0)
    {
      gClk, gResetn := 0, 0;
      trsValid, trsPc, trsInstr := 0, 0, 0;
    }

    /** The current values of the retirement outputs. */
    function Outs(): Outputs
      reads this
    {
      Outputs(trsValid, trsPc, trsInstr)
    }

    /** `eval()`: the model settles its outputs to `o`, which the caller
        supplies; the inputs the wrapper drives are left as they are. */
    method Eval(o: Outputs)
      modifies this
      ensures Outs() == o
      ensures gClk == old(gClk) && gResetn == old(gResetn)
    {
      trsValid, trsPc, trsInstr := o.trsValid, o.trsPc, o.trsInstr;
    }
  }

  /** The backing memory shared by both agents; its contents are not modelled. */
  class MemoryBus {
    constructor ()
    {
    }
  }

  /** The order in which the wrapper calls out to its collaborators. */
  class EventLog {
    var events: seq<Event>

    constructor ()
      ensures events == []
    {
      events := [];
    }

    method Record(e: Event)
      modifies this
      ensures events == old(events) + [e]
    {
      events := events + [e];
    }
  }

  /** An `sram_agent`: bound to one memory port of `core` and to the shared
      memory `mem`; every call it receives is appended to `log`. */
  class SramAgent {
    const mem: MemoryBus
    const core: Core
    const port: Port
    const log: EventLog

    constructor (mem: MemoryBus, core: Core, port: Port, log: EventLog)
      ensures this.mem == mem && this.core == core && this.port == port && this.log == log
    {
      this.mem, this.core, this.port, this.log := mem, core, port, log;
    }

    method SetReset()
      modifies log
      ensures log.events == old(log.events) + [Agent(port, AgentCall.SetReset)]
    {
      log.Record(Agent(port, AgentCall.SetReset));
    }

    method ClearReset()
      modifies log
      ensures log.events == old(log.events) + [Agent(port, AgentCall.ClearReset)]
    {
      log.Record(Agent(port, AgentCall.ClearReset));
    }

    method DriveSignals()
      modifies log
      ensures log.events == old(log.events) + [Agent(port, AgentCall.DriveSignals)]
    {
      log.Record(Agent(port, AgentCall.DriveSignals));
    }

    method PosedgeClk()
      modifies log
      ensures log.events == old(log.events) + [Agent(port, AgentCall.PosedgeClk)]
    {
      log.Record(Agent(port, AgentCall.PosedgeClk));
    }
  }

  /** The VCD writer (`VerilatedVcdC`), attached to the core and opened on `path`. */
  class VcdSink {
    const path: string
    const log: EventLog

    constructor Open(path: string, log: EventLog)
      modifies log
      ensures this.path == path && this.log == log
      ensures log.events == old(log.events) + [WaveOpen(path)]
    {
      this.path, this.log := path, log;
      new;
      log.Record(WaveOpen(path));
    }

    method Dump(time: int)
      modifies log
      ensures log.events == old(log.events) + [WaveDump(time)]
    {
      log.Record(WaveDump(time));
    }
  }

  /** A byte that a `vluint8_t *` points at. */
  class ByteCell {
    var value: Byte

    constructor (v: Byte)
      ensures value == v
    {
      value := v;
    }
  }
}
