# dut_wrapper: the Verilator harness of the vanilla-riscv core

This project models `dut_wrapper`, the C++ object that drives the
Verilated `frv_core` in simulation, and proves properties of that model.
`dut_wrapper` does the following:

- owns the Verilated core and a simulation-time counter `sim_time`;
- binds one `sram_agent` to the instruction port and one to the data port, both over the same `memory_bus`;
- optionally opens a VCD waveform writer;
- puts the core and agents into reset and takes them out again;
- steps the clock in `evals_per_clock` micro-steps;
- on each rising edge, notifies both agents and records retired instructions `{trs_pc, trs_instr}` in the queue `dut_trace`.

Files:

- `signals.dfy` (module `Signals`): pin widths (`Byte`, `U32`, `U64`, the host `int` as `Int32`), C's `!` on a byte (`Not`), the trace record `TraceItem`, and the calls the wrapper makes out of itself (`Event`).
- `environment.dfy` (module `Environment`): the collaborators, reduced to what the wrapper sees of them.
  - `Core`: the Verilated core's clock, reset and retirement pins. `Eval(o)` settles the outputs to a caller-supplied value `o` and leaves `g_clk` and `g_resetn` as they are.
  - `SramAgent`: appends each call it receives to a shared `EventLog`.
  - `VcdSink`: logs its opening and each `dump(t)`.
  - `MemoryBus`: has no contents.
  - `ByteCell`: stands for the `vluint8_t *` that `rand_set_uint8` writes through.
- `step_spec.dfy` (module `StepSpec`): the wrapper's operations as functions on an abstract `State` (time, clock, reset, outputs, trace, call log), and the lemmas about one call of `dut_step_clk` and about many.
- `dut_wrapper.dfy` (module `Harness`): the class `DutWrapper`.
  - Every method is proved to move the object's abstract state `Abs()` exactly as the matching `StepSpec` function says.
  - Every method also keeps the call order `CallOrder` in the log: the instruction agent is reset and driven before the data agent, and on a rising edge the data agent is notified before the instruction agent.
  - `rand_chance` and `rand_set_uint8` take the value drawn from `rand()` as a parameter.

The clock follows the code. `dut_step_clk` (flow/verilator/dut_wrapper.cpp:81-116) is documented as simulating one clock cycle. In fact it toggles `g_clk` once, at iteration `evals_per_clock / 2`. So a call has a rising edge exactly when it starts with `g_clk == 0`, which is every other call. `n` calls have `ceil(n/2)` rising edges when the clock starts low and `floor(n/2)` when it starts high (`EdgesIn`). `dut_set_reset` drives the clock low, so the first call after it always has a rising edge.

The rising edge reads `trs_valid`, `trs_pc` and `trs_instr` right after the toggle, before that iteration's `eval()`. So it records what the last `eval()` of the previous iteration left, or the outputs on entry when the midpoint is iteration 0 (`Sampled`).

## Model

| member | source | states |
|---|---|---|
| Harness.DutWrapper.constructor | flow/verilator/dut_wrapper.cpp:8-55 | `sim_time` is 0 and the trace is empty. Both agents are bound to the same shared memory, to this core and to their own port. `traceEverOn(dump_waves)` is called, then the VCD writer is opened on the given path exactly when waves are dumped. |
| Harness.DutWrapper.DutSetReset | flow/verilator/dut_wrapper.cpp:58-67 | The new state is `AfterSetReset` of the old one: `g_resetn` = 0 and `g_clk` = 0, `set_reset` on the instruction agent then the data agent, nothing else changed. The call order is kept. |
| Harness.DutWrapper.DutClearReset | flow/verilator/dut_wrapper.cpp:70-77 | The new state is `AfterClearReset` of the old one: `g_resetn` = 1, `clear_reset` on the instruction agent then the data agent, nothing else changed. The call order is kept. |
| Harness.DutWrapper.DutStepClk | flow/verilator/dut_wrapper.cpp:81-116 | The loop of `evals_per_clock` micro-steps leaves the state at `AfterStepClk` of the entry state. The call order is kept. |
| Harness.DutWrapper.MicroStep | flow/verilator/dut_wrapper.cpp:87-113 | One loop iteration runs in this order: the toggle at the midpoint, the edge handler when the clock is now 1, `eval`, `drive_signals` on the instruction agent then the data agent, `eval`, `sim_time++`, then a dump at the new time when dumping is on. |
| Harness.DutWrapper.PosedgeGclk | flow/verilator/dut_wrapper.cpp:119-133 | The data agent's `posedge_clk` runs, then the instruction agent's. `{trs_pc, trs_instr}` is pushed onto the trace iff `trs_valid` is non-zero. |
| Harness.DutWrapper.RandChance | flow/verilator/dut_wrapper.cpp:136-138 | For a draw `r` and `y > 0`, the result is true iff `r % y < x`. For `y < 0` it uses the C remainder by `-y`. It is always true when `0 < y <= x` and never true when `x <= 0`. |
| Harness.DutWrapper.RandSetUint8 | flow/verilator/dut_wrapper.cpp:141-149 | It returns `rand_chance(x, y)` for the same draw and stores 1 into `*d` exactly when it returns true, 0 otherwise. |
| Harness.HitsBelowPeriod | flow/verilator/dut_wrapper.cpp:136-138 | Among the draws `0 .. y-1`, exactly `min(max(x, 0), y)` make `rand_chance(x, y)` true. So for a draw uniform modulo `y` the chance is `min(max(x, 0), y) / y`. |
| Environment.Core.Eval | flow/verilator/dut_wrapper.cpp:100-106 | `eval()` may change the retirement outputs, here to the supplied values. It never changes `g_clk` or `g_resetn`. |
| StepSpec.ResetCalls | flow/verilator/dut_wrapper.cpp:58-77 | `dut_set_reset` leaves reset and clock at 0 and makes exactly one `set_reset` per agent. `dut_clear_reset` leaves reset at 1, keeps the clock and makes exactly one `clear_reset` per agent. Neither changes `sim_time`, the trace or the count of any other call. |
| StepSpec.PosedgeRecords | flow/verilator/dut_wrapper.cpp:119-133 | A rising edge notifies each agent exactly once. It keeps every earlier trace record. It grows the trace by one record `{trs_pc, trs_instr}` iff `trs_valid` is set, and otherwise leaves it unchanged. |
| StepSpec.MicroStepFacts | flow/verilator/dut_wrapper.cpp:85-113 | One iteration adds 1 to time, keeps reset and toggles the clock only at the midpoint. It appends to the trace only at a midpoint that starts with the clock low. It appends exactly that iteration's calls. |
| StepSpec.StepsPins | flow/verilator/dut_wrapper.cpp:85-108 | After `k` iterations, time has grown by `k` and reset is unchanged. The clock is toggled iff `k` is past the midpoint. The outputs are the last `eval`'s. |
| StepSpec.StepsTrace | flow/verilator/dut_wrapper.cpp:85-96 | After `k` iterations, the trace has the sampled record appended iff `k` is past the midpoint, the clock was low on entry and `trs_valid` was set. |
| StepSpec.StepClkPins | flow/verilator/dut_wrapper.cpp:85-108 | One call adds exactly `evals_per_clock` to `sim_time` and keeps `g_resetn`. With `evals_per_clock >= 1`, `g_clk` after the call is `!g_clk` before it. |
| StepSpec.StepClkCalls | flow/verilator/dut_wrapper.cpp:89-104 | One call keeps every earlier call. It calls `posedge_clk` on each agent once if it starts with the clock low (and `evals_per_clock >= 1`), else never. It calls `drive_signals` on each agent exactly `evals_per_clock` times and makes no reset calls. |
| StepSpec.StepClkTrace | flow/verilator/dut_wrapper.cpp:89-96 | One call appends the sampled `{trs_pc, trs_instr}` to the end of the trace iff it has a rising edge and `trs_valid` was set then. Otherwise the trace is unchanged. |
| StepSpec.StepClkDumps | flow/verilator/dut_wrapper.cpp:108-112 | With dumping on, one call dumps at exactly the times `t+1, ..., t+evals_per_clock`, which strictly increase (`t` is `sim_time` on entry). With dumping off it dumps nothing. Earlier dumps are kept. |
| StepSpec.StepClkKeepsCallOrder | flow/verilator/dut_wrapper.cpp:81-116 | One call keeps the call order. Every data-agent `drive_signals` directly follows an instruction-agent one. Every instruction-agent `posedge_clk` directly follows a data-agent one. |
| StepSpec.ResetsKeepCallOrder | flow/verilator/dut_wrapper.cpp:58-77 | Both reset operations keep the call order. Each data-agent reset call directly follows the instruction agent's. |
| StepSpec.PosedgeKeepsCallOrder | flow/verilator/dut_wrapper.cpp:119-122 | The rising-edge handler keeps the call order, with the data agent notified first. |
| StepSpec.ConsecutiveCallsOneEdge | flow/verilator/dut_wrapper.cpp:89-96 | With `evals_per_clock >= 1`, exactly one of two consecutive calls has a rising edge. Together they notify each agent of exactly one rising edge. |
| StepSpec.FirstStepAfterReset | flow/verilator/dut_wrapper.cpp:58-96 | The first call after `dut_set_reset` has a rising edge and records the sampled retirement. This holds with or without a `dut_clear_reset` in between, and reset stays as those left it. |
| StepSpec.StepClksTime | flow/verilator/dut_wrapper.cpp:81-116 | `n` calls add exactly `n * evals_per_clock` to `sim_time`. |
| StepSpec.StepClksEdges | flow/verilator/dut_wrapper.cpp:81-116 | `n` calls notify each agent of `ceil(n/2)` rising edges when the clock starts low and `floor(n/2)` when it starts high. They notify none when `evals_per_clock` is 0. |
| StepSpec.StepClksTrace | flow/verilator/dut_wrapper.cpp:81-133 | Over `n` calls the trace only grows at its end (earlier records unchanged), by at most one record per rising edge. |

## Left out

- `sram_agent`: its protocol (request/grant/ack timing, fault injection, memory reads and writes) is not part of this model. The agents are call logs, and the wrapper's pin bindings (flow/verilator/dut_wrapper.cpp:22-43) are the agent's link to the core, its port and the memory.
- `memory_bus`: its contents are not part of this model. Only its identity is kept, to state that both agents share it.
- The Verilated core's `eval()`: the core's logic is external. What each `eval()` settles to is supplied by the caller (the `settle` sequence, two values per micro-step).
- `Verilated::traceEverOn`, the VCD writer's `trace`/`open` and the dump encoding are external library code and file I/O. They appear only as logged events: the opening, and each dump with its time.
- The core's pins other than clock, reset and retirement (the memory-port pins) are not modelled: the wrapper only passes their addresses to the agents.
- The header `dut_wrapper.hpp` is not part of this model. So `evals_per_clock` is a constructor parameter (a `uint32_t`, as the loop index shows), and `sim_time` is an unbounded natural. The model does not capture wrap-around of its C++ type.
- The Verilated core's pins start at 0 after construction, which is Verilator's default zero initialisation.
- The unused local `prev_clk` (flow/verilator/dut_wrapper.cpp:83, 87) is not modelled.
- Teardown (closing the waveform file, deleting the core and agents) is not in the modelled file.
- Harness.DutWrapper.RandChance: requires `y != 0`, because `rand() % 0` is undefined behaviour in C. It takes the `rand()` draw as a parameter in `0 .. RAND_MAX`, with glibc's `RAND_MAX` of `2^31 - 1`. The C library's generator state is not modelled.
- Harness.DutWrapper.RandSetUint8: requires `y != 0` for the same reason as `RandChance`.
- The bare-metal programs `flow/embench/main.c`, `verif/unit/counters/test_counters.c` and `verif/unit/mtime-read/test_mtime_read.c` are not part of this model. They read counters and timers implemented in the core's RTL, which this model does not cover and have no logic of their own to verify.
