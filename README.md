# bofsim CPU core, modelled in Dafny

bofsim emulates a small Brainfuck-style processor. It has three privilege levels: Application, Supervisor and a terminal Halt. There is one byte tape plus two instruction stores, one per running mode. This project models its architectural core:

- **The status register** `status_register_t` (module `StatusRegister`, `status_register.dfy`). It packs the faulting opcode, the faulting tape cell and the mode into 24 bits, and unpacks them again. Both directions are proved to be inverses. The mode enumeration `processor_mode_t` gets a fourth constructor, `Unnamed`, for the codes 3..255, so that the model's unpacking is total. In C++ the cast at bofsim.h:97 is defined only for codes 0..3; codes 4..255 are undefined.
- **The byte store** `Memory` (module `Store`, `memory.dfy`). It is a class whose `data: seq<Byte>` buffer is reassigned in place by `Write` and `LoadRaw`. Unwritten cells read 0, reads never fail, and a write stores the low byte of its value. A write past the end grows the buffer to just hold the address.
- **The configuration** (module `Config`, `config.dfy`). It covers validation of `tl`, `tw`, `nm`, `sd`, `il` in the constructor's order, and the tape length: `2^tl` for a literal, while the sentinel 9999 is kept as the length. The model reads a 9999 length as an unbounded tape, on which `>` never traps (see "## Left out").
- **The CPU** (module `Cpu`, `cpu.dfy`). `Next` is the single step as a function on register values and store contents, and `Run` iterates it; their properties are lemmas. The class `BfCpu` holds the registers, the configuration and the call stack as fields. Its constructor resets the registers to `Reset()`. `Step` and `Execute` are proved against `Next` and `Run`. `RightTestOnCpu` replays test-cpu-right-02.cpp on the class and its methods.

The step (bofsim.cpp:38-73) behaves as follows:

- In Halt mode it reports (0 steps, 1 cycle) and changes nothing.
- Otherwise it fetches the opcode at `pc` from the store of the current mode.
- `<` and `>` move the tape pointer.
- `<` on cell 0 and `>` on the last cell of a bounded tape trap. From Application mode a trap saves `pc` and `sp` in `inactive_pc` and `inactive_sp`, and resets both to 0. It sets `sr` to (opcode, cell, Supervisor) and keeps `tp`.
- A trap from Supervisor mode halts (this model's choice, see "## Left out").
- Every other byte only advances `pc`, as bofsim.cpp:62-68 does.
- A non-halted step reports (1, 1).

bofsim.cpp implements only the halt check, the fetch and the `pc` increment; its decode switch does nothing for any opcode. The `<` and `>` behaviour the model gives comes from the CPU tests:

- test/test-cpu-left-01.cpp:39-50 fixes `<` with `tp = 10`.
- test/test-cpu-right-02.cpp:39-55 fixes what a `>` on the last cell leaves in `tp`, `pc` and `sr` (lines 53-55).
- test/test-cpu-right.cpp:1 is a test "to check '>' instruction" that steps `>` from `tp = 0`, but its check is commented out.

The `<`-on-cell-0 trap, `>` moving up, the shadow save of `pc` and `sp` into `inactive_pc` and `inactive_sp` with `sp` reset to 0, the untrapped `>` on a 9999-length tape and the Supervisor-mode fault are this model's completion of the step; "## Left out" names each.

The only inputs other than arguments are the three stores, which are passed in as `Memory` objects. Logging, I/O and exceptions are not modelled (see below).

Two behaviours follow the code as written:

- NUL does not halt: the `'\0'` case at bofsim.cpp:63-64 only breaks, so `pc` advances.
- `Execute(n)` performs exactly `n` steps and reports `(n, n)` (bofsim.cpp:35) even when halted steps took 0 instructions. `RunFromHalt` shows the true totals, (0, n).

## Model

| member | source | states |
|---|---|---|
| StatusRegister.ModeCode | bofsim.h:76-80 | the enumerator values 0, 1, 2; a mode is named exactly when its code is below 3 |
| StatusRegister.ModeOf | bofsim.h:97 | the enum cast of a byte gives a mode whose code is that byte |
| StatusRegister.ModeOfCode | bofsim.h:76-80 | casting a mode's code back gives the same mode |
| StatusRegister.Default | bofsim.h:93 | the default register has opcode 0, tape 0 and Application mode |
| StatusRegister.Val | bofsim.h:87-91 | the packed value is below 2^24, with the opcode in bits 0-7, the tape byte in bits 8-15 and the mode code in bits 16-23 |
| StatusRegister.Unpack | bofsim.h:94-97 | repacking the unpacked fields gives the low 24 bits of the value |
| StatusRegister.UnpackVal | bofsim.h:87-97 | unpacking a packed register gives back the same opcode, tape byte and mode |
| StatusRegister.ValUnpack | bofsim.h:87-97 | every value below 2^24 survives unpack-then-pack |
| StatusRegister.ZeroIsDefault | bofsim.h:93-97 | `status_register_t(0)` equals the default register (opcode 0, tape 0, Application) and both pack to 0 |
| StatusRegister.RightTrapFixture | test/test-cpu-right-02.cpp:55 | ('>', 'a', Supervisor) packs to 0x1613E |
| Bytes.Truncate | memory.h:46 | storing a wide value into a byte cell keeps it modulo 256, unchanged below 256 |
| Store.CellAt | memory.h:50-53 | a read returns the stored cell inside the buffer and 0 beyond it |
| Store.Stored | memory.h:55-57 | after a write the buffer covers the address, the address reads the value, and every other address reads as before |
| Store.StoredOnlyGrows | test/test-mem.cpp:30-32 | a write never shrinks the buffer; a far write keeps the old cells as a prefix |
| Store.AssignRepeated | memory.h:60 | the as-written load: `len` cells, each a copy of `buf[0]` |
| Store.Memory.constructor | memory.h:48 | a new store is empty |
| Store.Memory.Read | memory.h:50-53 | returns the cell, 0 for any never-written address, with no precondition |
| Store.Memory.Write | memory.h:55-57 | the new buffer is `Stored` of the old one and the value's low byte; other cells are unchanged |
| Store.Memory.LoadRaw | memory.h:59-61 | the buffer becomes the first `len` bytes of `buf`; cell `i < len` reads `buf[i]` and cells beyond read 0 |
| Store.LoadedReadsBack | memory.h:59-61 | a loaded buffer reads `buf[i]` below `len` and 0 from `len` on |
| Store.MemoryTestSequence | test/test-mem.cpp:11-34 | fresh reads at 0, 100, 100000 are 0; the three writes read back 0xff, 0xbb, 0x01 and the far write grows the buffer to 100001 cells |
| Store.RightTestBuffer | test/test-cpu-right-02.cpp:34-39 | the 4096-byte test buffer holds 'a' at 1023 and '>' everywhere else |
| Store.LoadRawAsWrittenLosesCell | memory.h:60 | loading the test's tape buffer as written leaves '>' in cell 1023; the intended load leaves 'a' |
| Config.FirstConfigError | bofsim.h:145-161 | construction fails exactly when some parameter is out of range, and it reports the first one in the order tl, tw, nm, sd, il |
| Config.ValidConfig | bofsim.h:145-161 | a configuration is accepted exactly when all five parameter checks pass |
| Config.TlOk | bofsim.h:146 | `tl` is the sentinel 9999 or an exponent in 10..127 (the intended check) |
| Config.TwOk | bofsim.h:151 | `tw` is a multiple of 8 in 8..128 |
| Config.NmOk | bofsim.h:154 | `nm` is 2 or 3 (the intended check) |
| Config.SdOk | bofsim.h:157 | `sd` is not 0 |
| Config.IlOk | bofsim.h:160 | `il` is at least 32 |
| Config.AsWrittenChecksRejectEverything | bofsim.h:146-155 | the `tl` and `nm` conditions as written are true for every value |
| Config.TestConfig | test/test-cpu-right-02.cpp:19-24 | the tests' configuration has tl = 10, nm = 3, sd = 1 |
| Config.TestConfigsAccepted | test/test-cpu-right-02.cpp:19-31 | the tests' and main.cpp's configurations are valid; the as-written checks reject them |
| Config.Pow2 | bofsim.h:149 | `1 << k` unbounded: positive, and even for k >= 1 |
| Config.TapeLength | bofsim.h:145-149 | the sentinel is kept; a literal `tl` gives `2^tl`, and for a valid `tl` that is at least 1024 and never the sentinel |
| Config.TestTapeLength | test/test-cpu-right-02.cpp:19 | `tl = 10` gives 1024 cells |
| Config.TapeLengthAsWritten | bofsim.h:149 | the as-written length, a 64-bit shift narrowed to a 32-bit `int` |
| Config.TapeLengthAsWrittenOverflows | bofsim.h:118 | accepted `tl` = 31 and 32 give a negative length and 0 as written |
| Cpu.Reset | bofsim.h:137-143 | after construction every register is 0 and the mode is Application |
| Cpu.Next | bofsim.cpp:38-73 | a step hits the "Unsupported processor mode" error exactly when the mode is unnamed |
| Cpu.Fetch | bofsim.cpp:47-53 | the opcode is the cell at `pc` of the application store in Application mode and of the supervisor store in Supervisor mode; past the loaded code it is 0 |
| Cpu.Trap | test/test-cpu-right-02.cpp:53-55 | a trap keeps `tp` and `sk`. From Application mode it sets `pc = 0` and `sp = 0`, saves the old `pc` and `sp`, and makes `sr` Supervisor with packed value opcode + cell·2^8 + 2^16. From other modes it halts |
| Cpu.Effect | bofsim.cpp:62-68 | a faulting opcode traps. Otherwise `pc` advances by 1, `sr`, `sp` and the shadow registers are kept, `<` lowers `tp`, `>` raises it and every other opcode keeps it |
| Cpu.Run | bofsim.cpp:31-36 | a completed run of `n` steps spends exactly `n` cycles on at most `n` instructions |
| Cpu.HaltStepIsInert | bofsim.cpp:40-43 | in Halt mode a step returns (0, 1) and changes no register |
| Cpu.StepReadsOnlyItsModeStore | bofsim.cpp:47-53 | in Application mode the supervisor store does not affect the step, and vice versa |
| Cpu.StepFetchesFromModeStore | bofsim.cpp:45-53 | the opcode executed is the cell at `pc` of the mode's own store, and the step reports (1, 1) |
| Cpu.RegularStepAdvancesPc | bofsim.cpp:68-72 | a non-faulting, non-halted step advances `pc` by exactly 1 and returns (1, 1); `sr`, `sp` and the shadow registers are unchanged and `tp` moves by at most one |
| Cpu.LeftMovesTapeDown | test/test-cpu-left-01.cpp:39-50 | '<' with `tp > 0` decrements `tp`, increments `pc` and changes nothing else |
| Cpu.RightMovesTapeUp | test/test-cpu-right.cpp:33-42 | '>' away from the last cell increments `tp` and `pc` and changes nothing else |
| Cpu.FaultTrapsToSupervisor | test/test-cpu-right-02.cpp:43-55 | a fault in Application mode keeps `tp` and sets `pc = 0` and `sp = 0`. Old `pc` and `sp` go to the shadow registers. The mode becomes Supervisor and `sr` packs opcode + cell·2^8 + 1·2^16 |
| Cpu.NextPreservesConsistent | bofsim.cpp:54-56 | from registers with a named mode, `tp` on the tape and `sp` within depth, a step never reaches the unsupported-mode error, keeps all three facts and costs 1 cycle |
| Cpu.NextModeNeverDecreases | bofsim.cpp:38-73 | a step never moves the mode to a lower code |
| Cpu.RunPreservesConsistent | bofsim.cpp:31-36 | `n` steps from a consistent state all complete, stay consistent, cost exactly `n` cycles and at most `n` instructions |
| Cpu.RunFromHalt | bofsim.cpp:31-43 | from Halt, `n` steps change nothing and really account for (0, n) |
| Cpu.RunNeverReturnsToApplication | bofsim.cpp:38-73 | once in Supervisor or Halt mode the processor never returns to Application |
| Cpu.LeftTestScenario | test/test-cpu-left-01.cpp:17-50 | the left test: with `tp = 10`, one '<' step leaves `tp = 9`, `pc = 1` and reports (1, 1) |
| Cpu.RightTestScenario | test/test-cpu-right-02.cpp:17-55 | the right test: with `tp = 1023` on a 1024-cell tape holding 'a' at 1023, one '>' step keeps `tp`, sets `pc = 0`, enters Supervisor and makes `sr == 0x1613E` |
| Cpu.RunRightFromReset | test/test-cpu-right.cpp:33-42 | from the reset registers, `k` steps over '>' below the last cell leave `tp = pc = k` and total (k, k) |
| Cpu.RightTestOnCpu | test/test-cpu-right-02.cpp:27-55 | on three new stores loaded as the test loads them and a CPU built from the test configuration, 1023 '>' steps and then one `Step` leave `tp = 1023`, `pc = 0`, Supervisor mode and `sr == 0x1613E` |
| Cpu.BfCpu.constructor | bofsim.h:127-163 | from a valid configuration the registers are `Reset()` (all zero), `sr` is the default register, `tl` becomes the tape length, the other parameters are kept and the call stack has `sd` zero entries |
| Cpu.BfCpu.RaiseTrap | test/test-cpu-right-02.cpp:53-55 | the registers become `Trap` of the old ones; the call stack is untouched |
| Cpu.BfCpu.Step | bofsim.cpp:38-73 | the new registers and the reported cost are exactly `Next` of the old registers and the stores. Halt gives (0, 1) with no change, any other mode (1, 1). The invariant is kept |
| Cpu.BfCpu.Execute | bofsim.cpp:31-36 | performs `n` steps, whose result is `Run` of the old registers, and reports (n, n) |

## Findings

| source | as written | input that shows it | evidently intended | confidence | as-written member | corrected member |
|---|---|---|---|---|---|---|
| bofsim.h:146 | `tl != 9999 \|\| tl < 10 \|\| tl > 127` rejects | `tl = 10`, the tests' value (also 9999) | reject unless `tl == 9999` or `10 <= tl <= 127` | high; not executed | Config.AsWrittenChecksRejectEverything | Config.FirstConfigError |
| bofsim.h:154 | `nm != 2 \|\| nm != 3` rejects | `nm = 3`, the tests' value | reject unless `nm` is 2 or 3 | high; not executed | Config.AsWrittenChecksRejectEverything | Config.FirstConfigError |
| memory.h:60 | `data.assign(len, *buf)` fills with `buf[0]` | the tape buffer of test-cpu-right-02.cpp with `len = 1024`: cell 1023 reads '>' | copy the first `len` bytes of `buf` | high; not executed | Store.LoadRawAsWrittenLosesCell | Store.Memory.LoadRaw |
| bofsim.h:149 | `(uint64_t)1 << tl` stored into `int tl` (bofsim.h:118) | `tl = 32` gives length 0; `tl = 31` a negative length | an unbounded tape length `2^tl` | medium (the narrowing is implementation-defined before C++20); not executed | Config.TapeLengthAsWrittenOverflows | Config.TapeLength |

## Left out

- Cpu.Effect: bofsim.cpp:62-68 as written only advances `pc` for every opcode, `<` and `>` included. The moves of `<` and `>` and their traps are taken from test/test-cpu-left-01.cpp:39-50 and test/test-cpu-right-02.cpp:39-55. The trap of `<` on cell 0 has no test and is this model's completion, symmetric to `>` on the last cell.
- Cpu.RightMovesTapeUp: at bofsim.cpp:62-68 `>` leaves `tp` unchanged. test/test-cpu-right.cpp:1 names the test "to check '>' instruction", and steps one `>` from `tp = 0` at line 42, but it asserts nothing (its only check, line 46, is commented out). The upward move is therefore this model's completion.
- Cpu.Trap: test/test-cpu-right-02.cpp:53-55 checks only `tp`, `pc` and `sr` after a trap. Copying `pc` and `sp` into `inactive_pc` and `inactive_sp` and resetting `sp` to 0 are this model's completion, inferred from the register names. Those registers are declared at bofsim.h:108 and bofsim.h:111, and nothing in the source uses them.
- Config.TapeLength: bofsim.h:148-149 keep 9999 as the tape length, and the step at bofsim.cpp:38-73 never reads `tl`. No test uses 9999. Reading it as an unbounded tape, on which `>` never traps (`AtLastCell` is false), is this model's choice.
- Cpu.DoubleFaultHalts / Cpu.Trap: a fault in Supervisor mode halts. No file of the source says what such a fault does, so this is this model's choice.
- StatusRegister.ModeOf: maps codes 3..255 to `Unnamed(code)`, so unpacking is total. In C++ only codes 0..3 fit `processor_mode_t`; the cast at bofsim.h:97 of codes 4..255 is undefined behaviour under C++17 and gives an unspecified value under C++14.
- Store.Memory.Read: memory.h:50-53 returns 0 for every address (a stub). The read-back of the stored cell is taken from test/test-mem.cpp:22-32, which reads it as an unsigned byte.
- Store.Memory.Write: memory.h:55-57 is a stub that stores nothing; the write is taken from test/test-mem.cpp. Growing the buffer to exactly `addr + 1` cells, zero-filled, is this model's choice.
- Cpu.BfCpu.constructor: installs the default register for `sr(0)` directly. `ZeroIsDefault` proves the two equal.
- Config.FirstConfigError: configuration values are taken as unbounded naturals. The narrowing of the 64-bit configuration values into `int tl`, `tw` and `nm` is not modelled, and neither is the exception a missing key raises (`cfg.at`).
- Cpu.BfCpu.Step: `pc`, `tp` and `sp` are unbounded naturals; the 64-bit wrap-around of `address_t` is not modelled.
- Loops `[` / `]`, the skip counter and the call stack: the decode switch at bofsim.cpp:62-67 implements none of them. No test fixes them, so `sk` and `callStack` are held but never changed.
- `+` / `-`, the cell mask derived from `tw`, and `.` / `,` with the I/O device (iodev.h): bofsim.cpp:38-73 does not implement them. I/O is blocking console traffic.
- The NUL-halt opcode and returning from Supervisor to Application mode: not implemented in the source. The step at bofsim.cpp:38-73 never changes the mode as written; `NextModeNeverDecreases` and `RunNeverReturnsToApplication` state what the model's traps add to that. NUL is treated like any other byte.
- A shadow skip counter: the source has no `inactive_sk` register, so a trap leaves `sk` alone.
- The `SetRegister` / `GetRegs` access the tests use: bofsim.h's `BfCpu` has neither. The test scenarios are therefore stated on register values (`LeftTestScenario`, `RightTestScenario`). `RightTestOnCpu` reaches `tp = 1023` on the class by `Execute(1023)` over a store of '>' instead of setting the register.
- The `dynamic_cast<MemoryIface&>` dispatch and the drift between files (`acode` / `application_mem`, `steps_cycles_t` / `cycle_t`, the extra I/O constructor argument). The stores are held directly as `Memory` objects, and one consistent set of names is modelled.
- `Log`, `SimObject` and object names (object.h), and exceptions as fatal errors: construction failure is the constructor's precondition `ValidConfig`, with `FirstConfigError` naming the failing parameter.
- main.cpp (command-line parsing, wiring), common.hpp (interfaces that do not compile) and the test harness test/expect.h.
- The bit-level form of `val()` and the unpacking constructor: shifts and masks are stated arithmetically, as products and quotients by powers of two with remainders modulo 256. The fields occupy disjoint bits, so `|` is `+`.
