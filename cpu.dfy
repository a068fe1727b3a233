/**
 * The CPU core of bofsim.h / bofsim.cpp: the architectural registers, the
 * single-step state machine `ExecuteOneStep` and the driver `Execute`.
 *
 * The step is first given as a function `Next` on register values and store
 * contents, together with its properties; the class `BfCpu` holds the same
 * registers as fields and its `Step` and `Execute` are proved against `Next`
 * and `Run`.
 */
module Cpu {
  import opened Bytes
  import opened StatusRegister
  import opened Store
  import opened Config

  const LeftOp: Byte := '<' as int
  const RightOp: Byte := '>' as int

  /** `steps_cycles_t`: instructions executed and cycles spent. */
  datatype StepsCycles = StepsCycles(steps: nat, cycles: nat)

  function Add(a: StepsCycles, b: StepsCycles): (sum: StepsCycles)
  {
    StepsCycles(a.steps + b.steps, a.cycles + b.cycles)
  }

  /** The architectural registers of `BfCpu`; the mode lives in `sr.mode`. */
  datatype ArchState = ArchState(
    pc: nat, inactivePc: nat, tp: nat, sp: nat, inactiveSp: nat, sr: Sr, sk: nat)

  /** What a step reads besides the registers: the tape length and the three stores. */
  datatype Machine = Machine(tl: nat, tape: seq<Byte>, app: seq<Byte>, sup: seq<Byte>)

  /** A step either completes or hits the "Unsupported processor mode" error. */
  datatype StepOutcome = Stepped(state: ArchState, cost: StepsCycles) | UnsupportedMode

  /**
   * The register values after construction (bofsim.h:137-143); `sr(0)` is the
   * default status register (`ZeroIsDefault`).
   */
  function Reset(): (s: ArchState)
    ensures s.pc == 0 && s.inactivePc == 0 && s.tp == 0 && s.sp == 0 && s.inactiveSp == 0 && s.sk == 0
    ensures s.sr.opcode == 0 && s.sr.tape == 0 && s.sr.mode == Application
  {
    ArchState(0, 0, 0, 0, 0, Default(), 0)
  }

  /** The tape pointer is on the last cell of a bounded tape. */
  predicate AtLastCell(s: ArchState, m: Machine)
  {
    m.tl != Sentinel && s.tp + 1 == m.tl
  }

  /** The opcode at `pc` in the store that belongs to the current mode. */
  function Fetch(s: ArchState, m: Machine): (op: Byte)
    requires s.sr.mode == Application || s.sr.mode == Supervisor
    ensures s.sr.mode == Application ==> op == CellAt(m.app, s.pc)
    ensures s.sr.mode == Supervisor ==> op == CellAt(m.sup, s.pc)
    ensures s.sr.mode == Application && s.pc >= |m.app| ==> op == 0
    ensures s.sr.mode == Supervisor && s.pc >= |m.sup| ==> op == 0
  {
    if s.sr.mode == Application then CellAt(m.app, s.pc) else CellAt(m.sup, s.pc)
  }

  /** The current tape cell, as the trap records it. */
  function Cell(s: ArchState, m: Machine): (v: Byte)
  {
    CellAt(m.tape, s.tp)
  }

  /**
   * A privilege violation. From Application mode: save `pc` and `sp` into the
   * shadow registers, restart at address 0 of the supervisor store with an
   * empty call stack, and record the fault in `sr`. From any other mode it is
   * a double fault and the processor halts.
   */
  function Trap(s: ArchState, opcode: Byte, cell: Byte): (t: ArchState)
    ensures t.tp == s.tp && t.sk == s.sk
    ensures s.sr.mode == Application ==>
      && t.pc == 0 && t.sp == 0 && t.inactivePc == s.pc && t.inactiveSp == s.sp
      && t.sr.mode == Supervisor && Val(t.sr) == opcode + cell * 0x100 + 0x1_0000
    ensures s.sr.mode != Application ==> t.sr.mode == Halt
  {
    if s.sr.mode == Application then
      s.(pc := 0, inactivePc := s.pc, sp := 0, inactiveSp := s.sp, sr := Sr(opcode, cell, Supervisor))
    else
      s.(sr := s.sr.(mode := Halt))
  }

  /** The opcode faults: '<' on the first cell or '>' on the last one. */
  predicate Faults(s: ArchState, m: Machine, opcode: Byte)
  {
    (opcode == LeftOp && s.tp == 0) || (opcode == RightOp && AtLastCell(s, m))
  }

  /** Decode and execute one opcode. */
  function Effect(s: ArchState, m: Machine, opcode: Byte): (t: ArchState)
    ensures t.sk == s.sk
    ensures Faults(s, m, opcode) ==> t == Trap(s, opcode, Cell(s, m))
    ensures !Faults(s, m, opcode) ==>
      && t.pc == s.pc + 1 && t.sr == s.sr && t.sp == s.sp
      && t.inactivePc == s.inactivePc && t.inactiveSp == s.inactiveSp
      && t.tp == (if opcode == LeftOp then s.tp - 1 else if opcode == RightOp then s.tp + 1 else s.tp)
  {
    if Faults(s, m, opcode) then Trap(s, opcode, Cell(s, m))
    else if opcode == LeftOp then s.(tp := s.tp - 1, pc := s.pc + 1)
    else if opcode == RightOp then s.(tp := s.tp + 1, pc := s.pc + 1)
    else s.(pc := s.pc + 1)
  }

  /** `ExecuteOneStep`: the halt check, the mode-selected fetch, decode and execute. */
  function Next(s: ArchState, m: Machine): (o: StepOutcome)
    ensures o.UnsupportedMode? <==> !s.sr.mode.IsNamed()
  {
    match s.sr.mode
    case Halt => Stepped(s, StepsCycles(0, 1))
    case Unnamed(_) => UnsupportedMode
    case _ => Stepped(Effect(s, m, Fetch(s, m)), StepsCycles(1, 1))
  }

  /**
   * `n` steps in a row, with the totals they report: every completed run
   * spends exactly `n` cycles on at most `n` instructions.
   */
  function Run(s: ArchState, m: Machine, n: nat): (o: StepOutcome)
    ensures o.Stepped? ==> o.cost.cycles == n && o.cost.steps <= n
  {
    if n == 0 then Stepped(s, StepsCycles(0, 0))
    else
      match Run(s, m, n - 1)
      case UnsupportedMode => UnsupportedMode
      case Stepped(t, total) =>
        match Next(t, m)
        case UnsupportedMode => UnsupportedMode
        case Stepped(u, cost) => Stepped(u, Add(total, cost))
  }

  /**
   * The register invariant: the mode is one of the three named members, the
   * tape pointer lies on a bounded tape, and the stack pointers stay within
   * the configured depth.
   */
  predicate Consistent(s: ArchState, tl: nat, sd: nat)
  {
    && s.sr.mode.IsNamed()
    && (tl != Sentinel ==> s.tp < tl)
    && s.sp <= sd
    && s.inactiveSp <= sd
  }

  /** In Halt mode a step reports (0 steps, 1 cycle) and changes nothing. */
  lemma HaltStepIsInert(s: ArchState, m: Machine)
    requires s.sr.mode == Halt
    ensures Next(s, m) == Stepped(s, StepsCycles(0, 1))
  {
  }

  /** In Application mode the supervisor store is never consulted, and vice versa. */
  lemma StepReadsOnlyItsModeStore(s: ArchState, m: Machine, other: seq<Byte>)
    ensures s.sr.mode == Application ==> Next(s, m) == Next(s, m.(sup := other))
    ensures s.sr.mode == Supervisor ==> Next(s, m) == Next(s, m.(app := other))
  {
  }

  /** The opcode is the one at `pc` of the mode's own store. */
  lemma StepFetchesFromModeStore(s: ArchState, m: Machine)
    requires s.sr.mode == Application || s.sr.mode == Supervisor
    ensures Next(s, m) == Stepped(Effect(s, m, if s.sr.mode == Application then CellAt(m.app, s.pc) else CellAt(m.sup, s.pc)), StepsCycles(1, 1))
  {
  }

  /**
   * A step that neither faults nor halts executes one instruction in one
   * cycle, advances `pc` by exactly 1, keeps the mode, the status register,
   * the shadow registers and the stack pointer, and moves `tp` by at most one.
   */
  lemma RegularStepAdvancesPc(s: ArchState, m: Machine)
    requires s.sr.mode == Application || s.sr.mode == Supervisor
    requires !Faults(s, m, Fetch(s, m))
    ensures Next(s, m).Stepped? && Next(s, m).cost == StepsCycles(1, 1)
    ensures var t := Next(s, m).state;
      && t.pc == s.pc + 1 && t.sr == s.sr && t.sp == s.sp && t.sk == s.sk
      && t.inactivePc == s.inactivePc && t.inactiveSp == s.inactiveSp
      && (t.tp == s.tp || t.tp == s.tp + 1 || t.tp + 1 == s.tp)
  {
  }

  /** '<' away from the first cell moves the tape pointer down by one. */
  lemma LeftMovesTapeDown(s: ArchState, m: Machine)
    requires s.sr.mode == Application || s.sr.mode == Supervisor
    requires Fetch(s, m) == LeftOp && s.tp > 0
    ensures Next(s, m) == Stepped(s.(tp := s.tp - 1, pc := s.pc + 1), StepsCycles(1, 1))
  {
  }

  /** '>' away from the last cell moves the tape pointer up by one. */
  lemma RightMovesTapeUp(s: ArchState, m: Machine)
    requires s.sr.mode == Application || s.sr.mode == Supervisor
    requires Fetch(s, m) == RightOp && !AtLastCell(s, m)
    ensures Next(s, m) == Stepped(s.(tp := s.tp + 1, pc := s.pc + 1), StepsCycles(1, 1))
  {
  }

  /**
   * A fault in Application mode traps into Supervisor mode: `tp` is kept,
   * `pc` restarts at 0, the old `pc` and `sp` go to the shadow registers and
   * `sr` packs the opcode, the current cell and Supervisor mode.
   */
  lemma FaultTrapsToSupervisor(s: ArchState, m: Machine)
    requires s.sr.mode == Application
    requires Faults(s, m, Fetch(s, m))
    ensures Next(s, m).Stepped? && Next(s, m).cost == StepsCycles(1, 1)
    ensures var t := Next(s, m).state;
      && t.tp == s.tp && t.pc == 0 && t.sp == 0 && t.sk == s.sk
      && t.inactivePc == s.pc && t.inactiveSp == s.sp
      && t.sr.mode == Supervisor
      && Val(t.sr) == CellAt(m.app, s.pc) + CellAt(m.tape, s.tp) * 0x100 + 0x1_0000
  {
  }

  /** A fault in Supervisor mode is a double fault: only the mode changes, to Halt. */
  lemma DoubleFaultHalts(s: ArchState, m: Machine)
    requires s.sr.mode == Supervisor
    requires Faults(s, m, Fetch(s, m))
    ensures Next(s, m) == Stepped(s.(sr := s.sr.(mode := Halt)), StepsCycles(1, 1))
  {
  }

  /** A step keeps the register invariant; in particular it never reaches the unsupported-mode error. */
  lemma NextPreservesConsistent(s: ArchState, m: Machine, sd: nat)
    requires Consistent(s, m.tl, sd)
    ensures Next(s, m).Stepped?
    ensures Consistent(Next(s, m).state, m.tl, sd)
    ensures Next(s, m).cost.cycles == 1 && Next(s, m).cost.steps <= 1
  {
  }

  /** A step never moves the mode back: Application, then Supervisor, then Halt. */
  lemma NextModeNeverDecreases(s: ArchState, m: Machine)
    requires s.sr.mode.IsNamed()
    ensures Next(s, m).Stepped?
    ensures ModeCode(s.sr.mode) <= ModeCode(Next(s, m).state.sr.mode)
  {
  }

  /**
   * From a consistent state every run of `n` steps completes, keeps the
   * invariant, spends exactly `n` cycles and executes at most `n` instructions.
   */
  lemma {:induction false} RunPreservesConsistent(s: ArchState, m: Machine, sd: nat, n: nat)
    requires Consistent(s, m.tl, sd)
    ensures Run(s, m, n).Stepped?
    ensures Consistent(Run(s, m, n).state, m.tl, sd)
    ensures Run(s, m, n).cost.cycles == n && Run(s, m, n).cost.steps <= n
  {
    if n > 0 {
      RunPreservesConsistent(s, m, sd, n - 1);
      NextPreservesConsistent(Run(s, m, n - 1).state, m, sd);
    }
  }

  /**
   * A halted processor stays halted: `n` steps change nothing and account for
   * 0 instructions and `n` cycles, whereas `Execute(n)` reports (n, n).
   */
  lemma {:induction false} RunFromHalt(s: ArchState, m: Machine, n: nat)
    requires s.sr.mode == Halt
    ensures Run(s, m, n) == Stepped(s, StepsCycles(0, n))
  {
    if n > 0 {
      RunFromHalt(s, m, n - 1);
    }
  }

  /** Once out of Application mode the processor never returns to it. */
  lemma {:induction false} RunNeverReturnsToApplication(s: ArchState, m: Machine, n: nat)
    requires s.sr.mode == Supervisor || s.sr.mode == Halt
    ensures Run(s, m, n).Stepped?
    ensures Run(s, m, n).state.sr.mode == Supervisor || Run(s, m, n).state.sr.mode == Halt
  {
    if n > 0 {
      RunNeverReturnsToApplication(s, m, n - 1);
      NextModeNeverDecreases(Run(s, m, n - 1).state, m);
    }
  }

  /**
   * test-cpu-left-01.cpp: with `tp = 10`, Application mode and '<' in the
   * application store, one step leaves `tp = 9` and `pc = 1`.
   */
  lemma LeftTestScenario()
    ensures var m := Machine(TapeLength(TestConfig().tl), [], seq(4096, _ => LeftOp), []);
      var o := Next(Reset().(tp := 10), m);
      o.Stepped? && o.state.tp == 9 && o.state.pc == 1 && o.cost == StepsCycles(1, 1)
  {
    TestTapeLength();
  }

  /**
   * test-cpu-right-02.cpp: with a 2^10-cell tape holding 'a' in cell 1023,
   * `tp = 1023` and '>' in the application store, one step keeps `tp`, resets
   * `pc` to 0, enters Supervisor mode and leaves `sr == 0x1613E`.
   */
  lemma RightTestScenario()
    ensures var m := Machine(TapeLength(TestConfig().tl), RightTestBuffer()[..1024], seq(4096, _ => RightOp), []);
      var o := Next(Reset().(tp := 1023), m);
      o.Stepped? && o.state.tp == 1023 && o.state.pc == 0
      && o.state.sr.mode == Supervisor && Val(o.state.sr) == 0x1613E
  {
    TestTapeLength();
    LoadRawAsWrittenLosesCell();
    RightTrapFixture();
  }

  /**
   * From the reset registers, `k` steps over '>' opcodes that stay below the
   * last cell walk the tape pointer and `pc` up to `k`.
   */
  lemma {:induction false} RunRightFromReset(m: Machine, k: nat)
    requires m.tl == Sentinel || k < m.tl
    requires forall i :: 0 <= i < k ==> CellAt(m.app, i) == RightOp
    ensures Run(Reset(), m, k) == Stepped(Reset().(tp := k, pc := k), StepsCycles(k, k))
  {
    if k > 0 {
      RunRightFromReset(m, k - 1);
      var t := Reset().(tp := k - 1, pc := k - 1);
      assert Fetch(t, m) == RightOp;
      RightMovesTapeUp(t, m);
    }
  }

  /**
   * test-cpu-right-02.cpp on the objects it builds: three stores, the
   * application store loaded with 4096 '>' and the tape with the test buffer,
   * a CPU constructed from the test configuration. The test places `tp` on
   * cell 1023 directly; here 1023 '>' steps (`Execute`) bring it there. The
   * next `Step` keeps `tp`, resets `pc`, enters Supervisor and sets `sr` to 0x1613E.
   */
  method RightTestOnCpu() returns (cpu: BfCpu)
    ensures cpu.tp == 1023 && cpu.pc == 0 && cpu.inactivePc == 1023
    ensures cpu.sr.mode == Supervisor && Val(cpu.sr) == 0x1613E
  {
    var tape := new Memory();
    var app := new Memory();
    var sup := new Memory();
    var code := seq(4096, _ => RightOp);
    app.LoadRaw(code, 4096);
    tape.LoadRaw(RightTestBuffer(), 1024);
    TestConfigsAccepted();
    TestTapeLength();
    cpu := new BfCpu(TestConfig(), tape, app, sup);
    assert cpu.Env() == Machine(1024, RightTestBuffer()[..1024], code, []);
    RunRightFromReset(cpu.Env(), 1023);
    var _ := cpu.Execute(1023);
    assert cpu.State() == Reset().(tp := 1023, pc := 1023);
    LoadRawAsWrittenLosesCell();
    var _ := cpu.Step();
    RightTrapFixture();
  }

  /** `BfCpu`: the register file, the configuration and the call stack. */
  class BfCpu {
    const tapeMem: Memory
    const appMem: Memory
    const supMem: Memory

    var pc: nat
    var inactivePc: nat
    var tp: nat
    var sp: nat
    var inactiveSp: nat
    var sr: Sr
    var sk: nat

    /** Tape length (2^tl for a literal `tl`, or the sentinel), cell width, modes, stack depth, code capacity. */
    const tl: nat
    const tw: nat
    const nm: nat
    const sd: nat
    const il: nat

    var callStack: seq<nat>

    function State(): (s: ArchState)
      reads this
    {
      ArchState(pc, inactivePc, tp, sp, inactiveSp, sr, sk)
    }

    function Env(): (m: Machine)
      reads this, tapeMem, appMem, supMem
    {
      Machine(tl, tapeMem.data, appMem.data, supMem.data)
    }

    ghost predicate Valid()
      reads this
    {
      Consistent(State(), tl, sd) && |callStack| == sd && sd > 0
    }

    /**
     * Construction from a valid configuration (bofsim.h:127-163): every
     * register zeroed, Application mode, the tape length derived from `tl`
     * and a call stack of `sd` entries.
     */
    constructor (cfg: ArchConfig, tape: Memory, app: Memory, sup: Memory)
      requires ValidConfig(cfg)
      ensures Valid()
      ensures tapeMem == tape && appMem == app && supMem == sup
      ensures pc == 0 && inactivePc == 0 && tp == 0 && sp == 0 && inactiveSp == 0 && sk == 0
      ensures sr == Default() && sr.mode == Application
      ensures tl == TapeLength(cfg.tl)
      ensures tw == cfg.tw && nm == cfg.nm && sd == cfg.sd && il == cfg.il
      ensures callStack == seq(cfg.sd, _ => 0)
      ensures State() == Reset()
    {
      tapeMem, appMem, supMem := tape, app, sup;
      pc, inactivePc, tp, sp, inactiveSp := 0, 0, 0, 0, 0;
      sr := Default();  // `sr(0)`: ZeroIsDefault proves `Unpack(0) == Default()`
      sk := 0;
      var length := cfg.tl;
      if length != Sentinel {
        length := Pow2(length);
      }
      tl := length;
      tw, nm, sd, il := cfg.tw, cfg.nm, cfg.sd, cfg.il;
      callStack := seq(cfg.sd, _ => 0);
    }

    /** Enter the trap handler (or halt on a double fault). */
    method RaiseTrap(opcode: Byte, cell: Byte)
      modifies this
      ensures State() == Trap(old(State()), opcode, cell)
      ensures callStack == old(callStack)
    {
      if sr.mode == Application {
        inactivePc, inactiveSp := pc, sp;
        pc, sp := 0, 0;
        sr := Sr(opcode, cell, Supervisor);
      } else {
        sr := sr.(mode := Halt);
      }
    }

    /** `ExecuteOneStep` (bofsim.cpp:38-73), with '<' and '>' as the tests fix them. */
    method Step() returns (cost: StepsCycles)
      requires Valid()
      modifies this
      ensures Valid()
      ensures Next(old(State()), Env()) == Stepped(State(), cost)
      ensures old(sr.mode) == Halt ==> cost == StepsCycles(0, 1) && State() == old(State())
      ensures old(sr.mode) != Halt ==> cost == StepsCycles(1, 1)
      ensures callStack == old(callStack)
    {
      if sr.mode == Halt {
        return StepsCycles(0, 1);
      }
      var opcode: Byte := 0;
      match sr.mode {
        case Application =>
          opcode := appMem.Read(pc);
        case Supervisor =>
          opcode := supMem.Read(pc);
        case _ =>
          assert false;
      }
      if opcode == LeftOp {
        if tp == 0 {
          var cell := tapeMem.Read(tp);
          RaiseTrap(opcode, cell);
        } else {
          tp, pc := tp - 1, pc + 1;
        }
      } else if opcode == RightOp {
        if tl != Sentinel && tp + 1 == tl {
          var cell := tapeMem.Read(tp);
          RaiseTrap(opcode, cell);
        } else {
          tp, pc := tp + 1, pc + 1;
        }
      } else {
        pc := pc + 1;
      }
      cost := StepsCycles(1, 1);
    }

    /** `Execute(n)` (bofsim.cpp:31-36): exactly `n` steps, reported as (n, n). */
    method Execute(n: nat) returns (cost: StepsCycles)
      requires Valid()
      modifies this
      ensures Valid()
      ensures cost == StepsCycles(n, n)
      ensures Run(old(State()), Env(), n).Stepped? && Run(old(State()), Env(), n).state == State()
      ensures callStack == old(callStack)
    {
      ghost var s0 := State();
      var i := 0;
      while i < n
        invariant 0 <= i <= n
        invariant Valid()
        invariant Run(s0, Env(), i).Stepped? && Run(s0, Env(), i).state == State()
        invariant callStack == old(callStack)
      {
        var _ := Step();
        i := i + 1;
      }
      cost := StepsCycles(n, n);
    }
  }
}
