/** The Verilator harness: the `dut_wrapper` object that owns the core,
    binds the two bus agents to its memory ports, sequences reset, steps
    the clock and records retired instructions. */
module Harness {
  import opened Signals
  import opened Environment
  import opened StepSpec

  /** The largest value `rand()` returns (glibc's RAND_MAX). */
  const RandMax: int := 0x7fff_ffff

  /** C99's `%`: the quotient is truncated toward zero, so the remainder
      takes the sign of `a`. */
  function CRem(a: int, b: int): int
    requires b != 0
  {
    var m := if b < 0 then -b else b;
    if a >= 0 then a % m else -((-a) % m)
  }

  class DutWrapper {
    const core: Core
    const mem: MemoryBus
    const imemAgent: SramAgent
    const dmemAgent: SramAgent
    const dumpWaves: bool
    const vcdWavefilePath: string
    const traceFh: VcdSink?
    /** Micro-steps per clock period. */
    const evalsPerClock: U32
    /** The order of every call the wrapper makes to its collaborators. */
    const log: EventLog

    var simTime: nat
    var dutTrace: seq<TraceItem>

    /** The agents are bound to the right ports of this core, to the one
        shared memory and to the one log; the VCD writer exists exactly when
        waves are dumped. */
    ghost predicate Wired()
    {
      && imemAgent.core == core && imemAgent.port == Imem && imemAgent.mem == mem && imemAgent.log == log
      && dmemAgent.core == core && dmemAgent.port == Dmem && dmemAgent.mem == mem && dmemAgent.log == log
      && (traceFh != null <==> dumpWaves)
      && (traceFh != null ==> traceFh.log == log && traceFh.path == vcdWavefilePath)
    }

    ghost predicate Valid()
      reads log
    {
      Wired() && CallOrder(log.events)
    }

    function Cfg(): Config
    {
      Config(evalsPerClock, dumpWaves)
    }

    /** The abstract state the operations are specified on. */
    ghost function Abs(): State
      reads this, core, log
    {
      State(simTime, core.gClk, core.gResetn, core.Outs(), dutTrace, log.events)
    }

    constructor (mem: MemoryBus, dumpWaves: bool, wavefile: string, evalsPerClock: U32)
      ensures Valid() && fresh(core) && fresh(log)
      ensures this.mem == mem && imemAgent.mem == mem && dmemAgent.mem == mem
      ensures this.dumpWaves == dumpWaves && vcdWavefilePath == wavefile && this.evalsPerClock == evalsPerClock
      ensures simTime == 0 && dutTrace == []
      ensures log.events == [TraceEverOn(dumpWaves)] + (if dumpWaves then [WaveOpen(wavefile)] else [])
    {
      var c := new Core();
      var l := new EventLog();
      core := c;
      this.dumpWaves := dumpWaves;
      vcdWavefilePath := wavefile;
      this.mem := mem;
      imemAgent := new SramAgent(mem, c, Imem, l);
      dmemAgent := new SramAgent(mem, c, Dmem, l);
      l.Record(TraceEverOn(dumpWaves));
      if dumpWaves {
        traceFh := new VcdSink.Open(wavefile, l);
      } else {
        traceFh := null;
      }
      log := l;
      simTime := 0;
      this.evalsPerClock := evalsPerClock;
      dutTrace := [];
      new;
      assert Precedes(log.events, Agent(Imem, SetReset), Agent(Dmem, SetReset));
    }

    /** `dut_set_reset`: put the core and both agents in reset. */
    method DutSetReset()
      requires Valid()
      modifies core, log
      ensures Valid()
      ensures Abs() == AfterSetReset(old(Abs()))
    {
      ghost var s0 := Abs();
      core.gResetn := 0;
      core.gClk := 0;
      imemAgent.SetReset();
      dmemAgent.SetReset();
      assert log.events == AfterSetReset(s0).events;
      ResetsKeepCallOrder(s0);
    }

    /** `dut_clear_reset`: take the core and both agents out of reset. */
    method DutClearReset()
      requires Valid()
      modifies core, log
      ensures Valid()
      ensures Abs() == AfterClearReset(old(Abs()))
    {
      ghost var s0 := Abs();
      core.gResetn := 1;
      imemAgent.ClearReset();
      dmemAgent.ClearReset();
      assert log.events == AfterClearReset(s0).events;
      ResetsKeepCallOrder(s0);
    }

    /** `dut_step_clk`: `evalsPerClock` micro-steps with one clock toggle
        at the midpoint iteration;
        `settle` holds, in call order, what each `eval()` settles to. */
    method DutStepClk(settle: seq<Outputs>)
      requires Valid()
      requires Settles(Cfg(), settle)
      modifies this, core, log
      ensures Valid()
      ensures Abs() == AfterStepClk(Cfg(), old(Abs()), settle)
    {
      ghost var s0 := Abs();
      StepClkKeepsCallOrder(Cfg(), s0, settle);
      var i := 0;
      while i < evalsPerClock
        invariant 0 <= i <= evalsPerClock
        invariant Abs() == AfterSteps(Cfg(), s0, i, settle)
      {
        MicroStep(i, settle);
        i := i + 1;
      }
    }

    /** The body of the loop in `dut_step_clk`, for iteration `i`. */
    method MicroStep(i: nat, settle: seq<Outputs>)
      requires Wired()
      requires 2 * i + 1 < |settle|
      modifies this, core, log
      ensures Abs() == AfterMicroStep(Cfg(), old(Abs()), i, settle)
    {
      ghost var pre := Abs();
      if i == evalsPerClock / 2 {
        core.gClk := Not(core.gClk);
        if core.gClk == 1 {
          PosedgeGclk();
        }
      }
      ghost var mid := Abs();
      assert mid == AfterClockPhase(Cfg(), pre, i);
      core.Eval(settle[2 * i]);
      imemAgent.DriveSignals();
      dmemAgent.DriveSignals();
      core.Eval(settle[2 * i + 1]);
      simTime := simTime + 1;
      if dumpWaves {
        traceFh.Dump(simTime);
      }
    }

    /** `posedge_gclk`: advance both agents, data port first, then record
        the retiring instruction if there is one. */
    method PosedgeGclk()
      requires Wired()
      modifies this`dutTrace, log
      ensures Abs() == AfterPosedge(old(Abs()))
    {
      dmemAgent.PosedgeClk();
      imemAgent.PosedgeClk();
      if core.trsValid != 0 {
        dutTrace := dutTrace + [TraceItem(core.trsPc, core.trsInstr)];
      }
    }

    /** `rand_chance(x, y)` for the draw `draw` of `rand()`: true with
        chance min(max(x, 0), |y|) / |y| for a draw uniform modulo |y|. */
    static function RandChance(x: Int32, y: Int32, draw: int): (b: bool)
      requires y != 0
      requires 0 <= draw <= RandMax
      ensures y > 0 ==> (b <==> draw % y < x)
      ensures y < 0 ==> (b <==> draw % (-(y as int)) < x)
      ensures 0 < y <= x ==> b
      ensures x <= 0 ==> !b
    {
      CRem(draw, y) < x
    }

    /** `rand_set_uint8(x, y, d)`: store the outcome of `rand_chance` into `*d`. */
    static method RandSetUint8(x: Int32, y: Int32, d: ByteCell, draw: int) returns (b: bool)
      requires y != 0
      requires 0 <= draw <= RandMax
      modifies d
      ensures b == RandChance(x, y, draw)
      ensures d.value == (if b then 1 else 0)
    {
      if RandChance(x, y, draw) {
        d.value := 1;
        return true;
      } else {
        d.value := 0;
        return false;
      }
    }
  }

  /** How many of the draws 0, 1, ..., n-1 make `rand_chance(x, y)` true. */
  function Hits(x: Int32, y: Int32, n: nat): nat
    requires y != 0 && n <= RandMax + 1
  {
    if n == 0 then 0 else Hits(x, y, n - 1) + (if DutWrapper.RandChance(x, y, n - 1) then 1 else 0)
  }

  /** A draw below `y` is its own residue. */
  lemma RandChanceBelowPeriod(x: Int32, y: Int32, draw: nat)
    requires 0 <= draw < y
    ensures DutWrapper.RandChance(x, y, draw) == (draw < x)
  {
    ModBelow(draw, y);
    assert CRem(draw, y) == draw;
  }

  lemma ModBelow(a: int, m: int)
    requires 0 <= a < m
    ensures a % m == a
  {
  }

  /** Over the first `n <= y` draws, exactly min(max(x, 0), n) are hits; so
      of the `y` residues of a uniform draw, exactly min(max(x, 0), y) give true. */
  lemma {:induction false} HitsBelowPeriod(x: Int32, y: Int32, n: nat)
    requires 0 < y && n <= y
    ensures Hits(x, y, n) == if x <= 0 then 0 else if x < n then x else n
  {
    if n > 0 {
      HitsBelowPeriod(x, y, n - 1);
      RandChanceBelowPeriod(x, y, n - 1);
    }
  }
}
