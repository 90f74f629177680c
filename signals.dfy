/** Value types shared by the harness model: the widths of the Verilated
    core's pins, the retired-instruction record, and the calls the harness
    makes into code that lies outside the wrapper (bus agents, the waveform
    writer, Verilator's global switches). */
module Signals {

  /** An 8-bit Verilator signal (`vluint8_t`, used for every 1-bit pin). */
  type Byte = x: int | 0 <= x < 0x100

  type U32 = x: int | 0 <= x < 0x1_0000_0000

  type U64 = x: int | 0 <= x < 0x1_0000_0000_0000_0000

  /** A C `int` on the host (32-bit two's complement). */
  type Int32 = x: int | -0x8000_0000 <= x < 0x8000_0000

  /** C's logical negation `!v` stored back into a byte: 1 when `v` is 0, else 0. */
  function Not(v: Byte): Byte
  {
    if v == 0 then 1 else 0
  }

  /** The core outputs that one `eval()` of the Verilated model settles. */
  datatype Outputs = Outputs(trsValid: Byte, trsPc: U64, trsInstr: U32)

  /** One entry of `dut_trace`: the retired instruction's pc and encoding. */
  datatype TraceItem = TraceItem(pc: U64, instr: U32)

  /** The two memory ports, each served by its own `sram_agent`. */
  datatype Port = Imem | Dmem

  /** The four `sram_agent` entry points the wrapper calls. */
  datatype AgentCall = SetReset | ClearReset | DriveSignals | PosedgeClk

  /** An observable call out of the wrapper, in the order it is made. */
  datatype Event =
    | Agent(port: Port, call: AgentCall)  // a call on the agent bound to `port`
    | TraceEverOn(on: bool)               // Verilated::traceEverOn(on)
    | WaveOpen(path: string)              // the VCD writer attached and opened on `path`
    | WaveDump(time: int)                 // the VCD writer's dump(time)
}
