/** The `syscall`/`sysret` path of the nano core: the dispatcher that maps a syscall number and
    its arguments to a result, the per-CPU scratch record `UserTaskGsData`, the trampoline
    `syscall_handler`, and `enable_syscall_sysret`, which programs the model-specific registers.

    A user task invokes a syscall with the number in rax and the arguments in rdi, rsi, rdx,
    r10, r8 and r9; the result comes back in rax.

    Line numbers in comments refer to kernel/nano_core/src/syscall/mod.rs. */
module Syscall {
  import opened Machine

  // ------------------------------------------------------------------------------------------
  // The dispatcher

  /** What `syscall_dispatcher` returns for every number it does not receive a value for. */
  const SENTINEL: U64 := 0xDEAD_BEEF_0123_4567

  /** The inter-task message operation a syscall performs, with the arguments it is given. */
  datatype Ipc = NoIpc | Send(arg1: U64, arg2: U64, arg3: U64) | Receive(arg1: U64)

  /** The result returned to the user task and the message operation performed. */
  datatype Outcome = Outcome(result: U64, ipc: Ipc)

  /** `syscall_dispatcher`: number 1 sends `arg1`, `arg2`, `arg3`; number 2 receives on
      `arg1`, and `receive` gives the value the receive produces; any other number does
      nothing. Only a receive changes the result from the sentinel. */
  function Dispatch(number: U64, arg1: U64, arg2: U64, arg3: U64, arg4: U64, arg5: U64, arg6: U64,
                    receive: U64 -> U64): (o: Outcome)
    ensures number == 1 <==> o.ipc == Send(arg1, arg2, arg3)
    ensures number == 2 <==> o.ipc == Receive(arg1)
    ensures number != 1 && number != 2 <==> o.ipc == NoIpc
    ensures number == 2 ==> o.result == receive(arg1)
    ensures number != 2 ==> o.result == SENTINEL
  {
    match number
    case 1 => Outcome(SENTINEL, Send(arg1, arg2, arg3))
    case 2 => Outcome(receive(arg1), Receive(arg1))
    case _ => Outcome(SENTINEL, NoIpc)
  }

  /** The fourth to sixth arguments never influence the outcome. */
  lemma ExtraArgumentsIgnored(number: U64, arg1: U64, arg2: U64, arg3: U64,
                              arg4: U64, arg5: U64, arg6: U64,
                              other4: U64, other5: U64, other6: U64, receive: U64 -> U64)
    ensures Dispatch(number, arg1, arg2, arg3, arg4, arg5, arg6, receive)
         == Dispatch(number, arg1, arg2, arg3, other4, other5, other6, receive)
  {
  }

  // ------------------------------------------------------------------------------------------
  // The scratch record `UserTaskGsData`

  /** `UserTaskGsData`: the kernel stack for syscall handling, and the user task's stack
      pointer, resume address and flags while a syscall runs. */
  datatype GsData = GsData(kernelStack: U64, userStack: U64, userIp: U64, userFlags: U64)

  /** Byte offsets of the fields: four `u64` in declaration order (`#[repr(C)]`). */
  const KERNEL_STACK_OFFSET: int := 0x0
  const USER_STACK_OFFSET: int := 0x8
  const USER_IP_OFFSET: int := 0x10
  const USER_FLAGS_OFFSET: int := 0x18

  /** The record stored at address `base`. */
  function RecordAt(m: Memory, base: int): GsData {
    GsData(Read(m, base + KERNEL_STACK_OFFSET), Read(m, base + USER_STACK_OFFSET),
           Read(m, base + USER_IP_OFFSET), Read(m, base + USER_FLAGS_OFFSET))
  }

  /** Memory `m` with record `g` written at `base`: reading it back gives `g`, and no word
      outside the record changes. */
  function WriteRecord(m: Memory, base: int, g: GsData): (r: Memory)
    ensures RecordAt(r, base) == g
    ensures forall a :: a != base && a != base + 8 && a != base + 16 && a != base + 24 ==>
              Read(r, a) == Read(m, a)
  {
    m[base + KERNEL_STACK_OFFSET := g.kernelStack][base + USER_STACK_OFFSET := g.userStack]
     [base + USER_IP_OFFSET := g.userIp][base + USER_FLAGS_OFFSET := g.userFlags]
  }

  // ------------------------------------------------------------------------------------------
  // The trampoline `syscall_handler`

  /** The caller-saved registers as the call to the dispatcher leaves them: the System V
      calling convention lets the callee change rcx, rdx, rsi, rdi, r8 to r11 and all the
      vector registers, so their values are a parameter. */
  datatype Scratch = Scratch(rcx: U64, rdx: U64, rsi: U64, rdi: U64,
                             r8: U64, r9: U64, r10: U64, r11: U64, xmm: seq<Vec128>)

  /** The machine on return to the user task from handler entry state `h`: the record holds
      the user's stack pointer, resume address and flags; rax holds the result; execution
      continues at the address `syscall` left in rcx, with the flags it left in r11. The user's
      rsp, rcx and r11 are back, the GS bases are as they were, and nothing else changes. */
  function Resumed(h: State, o: Outcome): State
  {
    var g := h.kernelGsBase;
    h.(mem := h.mem[g + USER_STACK_OFFSET := h.rsp][g + USER_IP_OFFSET := h.rcx]
                   [g + USER_FLAGS_OFFSET := h.r11],
       rax := o.result, rip := h.rcx, rflags := h.r11)
  }

  /** On the way back to the user task the record holds the user's stack pointer, resume
      address and flags, and its kernel stack is unchanged; rsp, rcx, r11 and both GS bases
      are the user's again. */
  lemma ResumedRecord(h: State, o: Outcome)
    ensures var t := Resumed(h, o);
            RecordAt(t.mem, h.kernelGsBase) ==
              RecordAt(h.mem, h.kernelGsBase).(userStack := h.rsp, userIp := h.rcx, userFlags := h.r11) &&
            t.rsp == h.rsp && t.rcx == h.rcx && t.r11 == h.r11 &&
            t.gsBase == h.gsBase && t.kernelGsBase == h.kernelGsBase &&
            t.rax == o.result && t.rip == h.rcx && t.rflags == h.r11
  {
  }

  /** `t` is the machine after `syscall_handler` as written ran from `h`, with outcome `o`:
      the dispatcher got rax, rdi, rsi, rdx, r10, r8, r9 in that order, and the argument
      registers and the vector registers are whatever the call left in them. */
  ghost predicate HandledAsWritten(h: State, t: State, o: Outcome, receive: U64 -> U64,
                                   after: Scratch)
  {
    o == Dispatch(h.rax, h.rdi, h.rsi, h.rdx, h.r10, h.r8, h.r9, receive) &&
    t == Resumed(h, o).(rdi := after.rdi, rsi := after.rsi, rdx := after.rdx,
                        r8 := after.r8, r9 := after.r9, r10 := after.r10, xmm := after.xmm)
  }

  /** `t` is the machine after the corrected handler ran from `h`: as above, with the user's
      argument registers and vector registers back. */
  ghost predicate HandledRestoring(h: State, t: State, o: Outcome, receive: U64 -> U64) {
    o == Dispatch(h.rax, h.rdi, h.rsi, h.rdx, h.r10, h.r8, h.r9, receive) &&
    t == Resumed(h, o)
  }

  /** A processor whose every register and memory agree with `t` is in state `t`. */
  lemma SnapshotIs(cpu: Cpu, t: State)
    requires cpu.rax == t.rax && cpu.rbx == t.rbx && cpu.rcx == t.rcx && cpu.rdx == t.rdx
    requires cpu.rsi == t.rsi && cpu.rdi == t.rdi && cpu.rbp == t.rbp && cpu.rsp == t.rsp
    requires cpu.r8 == t.r8 && cpu.r9 == t.r9 && cpu.r10 == t.r10 && cpu.r11 == t.r11
    requires cpu.r12 == t.r12 && cpu.r13 == t.r13 && cpu.r14 == t.r14 && cpu.r15 == t.r15
    requires cpu.rip == t.rip && cpu.rflags == t.rflags && cpu.xmm == t.xmm
    requires cpu.gsBase == t.gsBase && cpu.kernelGsBase == t.kernelGsBase
    requires cpu.msr == t.msr && cpu.mem == t.mem
    ensures cpu.Snapshot() == t
  {
  }

  /** Lines 83-87: `swapgs`, save the user's rsp, rcx and r11 in the record, and switch to the
      kernel stack kept in the record. */
  method SyscallEntry(cpu: Cpu)
    modifies cpu`gsBase, cpu`kernelGsBase, cpu`mem, cpu`rsp
    ensures cpu.gsBase == old(cpu.kernelGsBase) && cpu.kernelGsBase == old(cpu.gsBase)
    ensures cpu.mem == old(cpu.mem)[cpu.gsBase + USER_STACK_OFFSET := old(cpu.rsp)]
                                   [cpu.gsBase + USER_IP_OFFSET := cpu.rcx]
                                   [cpu.gsBase + USER_FLAGS_OFFSET := cpu.r11]
    ensures cpu.rsp == RecordAt(old(cpu.mem), cpu.gsBase).kernelStack
  {
    cpu.SwapGs();
    cpu.StoreGs(0x8, cpu.rsp);
    cpu.StoreGs(0x10, cpu.rcx);
    cpu.StoreGs(0x18, cpu.r11);
    cpu.rsp := Read(cpu.mem, cpu.gsBase + 0x0);
  }

  /** Line 112: call the dispatcher. The call leaves the caller-saved registers as `after`
      says, and the callee-saved ones as they were. */
  method CallDispatcher(cpu: Cpu, number: U64, arg1: U64, arg2: U64, arg3: U64, arg4: U64,
                        arg5: U64, arg6: U64, receive: U64 -> U64, after: Scratch)
    returns (o: Outcome)
    modifies cpu`rcx, cpu`rdx, cpu`rsi, cpu`rdi, cpu`r8, cpu`r9, cpu`r10, cpu`r11, cpu`xmm
    ensures o == Dispatch(number, arg1, arg2, arg3, arg4, arg5, arg6, receive)
    ensures cpu.rcx == after.rcx && cpu.rdx == after.rdx && cpu.rsi == after.rsi
    ensures cpu.rdi == after.rdi && cpu.r8 == after.r8 && cpu.r9 == after.r9
    ensures cpu.r10 == after.r10 && cpu.r11 == after.r11 && cpu.xmm == after.xmm
  {
    o := Dispatch(number, arg1, arg2, arg3, arg4, arg5, arg6, receive);
    cpu.rcx, cpu.rdx, cpu.rsi, cpu.rdi := after.rcx, after.rdx, after.rsi, after.rdi;
    cpu.r8, cpu.r9, cpu.r10, cpu.r11 := after.r8, after.r9, after.r10, after.r11;
    cpu.xmm := after.xmm;
  }

  /** Lines 119-132: put the result in rax, take the user's rsp, rcx and r11 back from the
      record, `swapgs` and `sysretq`. */
  method SyscallExit(cpu: Cpu, result: U64)
    modifies cpu`rax, cpu`rsp, cpu`rcx, cpu`r11, cpu`gsBase, cpu`kernelGsBase, cpu`rip, cpu`rflags
    ensures cpu.rax == result
    ensures cpu.rsp == Read(cpu.mem, old(cpu.gsBase) + USER_STACK_OFFSET)
    ensures cpu.rcx == Read(cpu.mem, old(cpu.gsBase) + USER_IP_OFFSET)
    ensures cpu.r11 == Read(cpu.mem, old(cpu.gsBase) + USER_FLAGS_OFFSET)
    ensures cpu.gsBase == old(cpu.kernelGsBase) && cpu.kernelGsBase == old(cpu.gsBase)
    ensures cpu.rip == cpu.rcx && cpu.rflags == cpu.r11
  {
    cpu.rax := result;
    cpu.rsp := Read(cpu.mem, cpu.gsBase + 0x8);
    cpu.rcx := Read(cpu.mem, cpu.gsBase + 0x10);
    cpu.r11 := Read(cpu.mem, cpu.gsBase + 0x18);
    cpu.SwapGs();
    cpu.Sysret();
  }

  /** Lines 83-112: entry, capture of rax, rdi, rsi, rdx, r10, r8 and r9 (line 98), and the
      dispatcher call; the captured argument registers are returned as well. */
  method EnterAndDispatch(cpu: Cpu, receive: U64 -> U64, after: Scratch)
    returns (o: Outcome, rdi: U64, rsi: U64, rdx: U64, r10: U64, r8: U64, r9: U64)
    modifies cpu`gsBase, cpu`kernelGsBase, cpu`mem, cpu`rsp
    modifies cpu`rcx, cpu`rdx, cpu`rsi, cpu`rdi, cpu`r8, cpu`r9, cpu`r10, cpu`r11, cpu`xmm
    ensures o == Dispatch(old(cpu.rax), old(cpu.rdi), old(cpu.rsi), old(cpu.rdx),
                          old(cpu.r10), old(cpu.r8), old(cpu.r9), receive)
    ensures rdi == old(cpu.rdi) && rsi == old(cpu.rsi) && rdx == old(cpu.rdx)
    ensures r10 == old(cpu.r10) && r8 == old(cpu.r8) && r9 == old(cpu.r9)
    ensures cpu.gsBase == old(cpu.kernelGsBase) && cpu.kernelGsBase == old(cpu.gsBase)
    ensures cpu.mem == old(cpu.mem)[cpu.gsBase + USER_STACK_OFFSET := old(cpu.rsp)]
                                   [cpu.gsBase + USER_IP_OFFSET := old(cpu.rcx)]
                                   [cpu.gsBase + USER_FLAGS_OFFSET := old(cpu.r11)]
    ensures cpu.rsp == RecordAt(old(cpu.mem), cpu.gsBase).kernelStack
    ensures cpu.rcx == after.rcx && cpu.rdx == after.rdx && cpu.rsi == after.rsi
    ensures cpu.rdi == after.rdi && cpu.r8 == after.r8 && cpu.r9 == after.r9
    ensures cpu.r10 == after.r10 && cpu.r11 == after.r11 && cpu.xmm == after.xmm
  {
    SyscallEntry(cpu);
    var rax;
    rax, rdi, rsi, rdx, r10, r8, r9 := cpu.rax, cpu.rdi, cpu.rsi, cpu.rdx, cpu.r10, cpu.r8, cpu.r9;
    o := CallDispatcher(cpu, rax, rdi, rsi, rdx, r10, r8, r9, receive, after);
  }

  /** `syscall_handler` as written (lines 76-134): entry and dispatch, then exit. The argument
      registers are not restored. */
  method SyscallHandler(cpu: Cpu, receive: U64 -> U64, after: Scratch) returns (o: Outcome)
    modifies cpu
    ensures HandledAsWritten(old(cpu.Snapshot()), cpu.Snapshot(), o, receive, after)
  {
    var rdi, rsi, rdx, r10, r8, r9;
    ghost var h := cpu.Snapshot();
    o, rdi, rsi, rdx, r10, r8, r9 := EnterAndDispatch(cpu, receive, after);
    SyscallExit(cpu, o.result);
    SnapshotIs(cpu, Resumed(h, o).(rdi := after.rdi, rsi := after.rsi, rdx := after.rdx,
                                   r8 := after.r8, r9 := after.r9, r10 := after.r10,
                                   xmm := after.xmm));
  }

  /** `syscall_handler` with the registers captured at line 98, and the vector registers,
      put back after the call. */
  method SyscallHandlerRestoring(cpu: Cpu, receive: U64 -> U64, after: Scratch)
    returns (o: Outcome)
    modifies cpu
    ensures HandledRestoring(old(cpu.Snapshot()), cpu.Snapshot(), o, receive)
  {
    ghost var h := cpu.Snapshot();
    var xmm := cpu.xmm;
    var rdi, rsi, rdx, r10, r8, r9;
    o, rdi, rsi, rdx, r10, r8, r9 := EnterAndDispatch(cpu, receive, after);
    RestoreAndExit(cpu, o.result, rdi, rsi, rdx, r10, r8, r9, xmm);
    SnapshotIs(cpu, Resumed(h, o));
  }

  /** Put the argument registers captured at line 98 and the vector registers back, then
      leave as lines 119-132 do. */
  method RestoreAndExit(cpu: Cpu, result: U64,
                        rdi: U64, rsi: U64, rdx: U64, r10: U64, r8: U64, r9: U64,
                        xmm: seq<Vec128>)
    modifies cpu`rdi, cpu`rsi, cpu`rdx, cpu`r10, cpu`r8, cpu`r9, cpu`xmm
    modifies cpu`rax, cpu`rsp, cpu`rcx, cpu`r11, cpu`gsBase, cpu`kernelGsBase, cpu`rip, cpu`rflags
    ensures cpu.rdi == rdi && cpu.rsi == rsi && cpu.rdx == rdx
    ensures cpu.r10 == r10 && cpu.r8 == r8 && cpu.r9 == r9 && cpu.xmm == xmm
    ensures cpu.rax == result
    ensures cpu.rsp == Read(cpu.mem, old(cpu.gsBase) + USER_STACK_OFFSET)
    ensures cpu.rcx == Read(cpu.mem, old(cpu.gsBase) + USER_IP_OFFSET)
    ensures cpu.r11 == Read(cpu.mem, old(cpu.gsBase) + USER_FLAGS_OFFSET)
    ensures cpu.gsBase == old(cpu.kernelGsBase) && cpu.kernelGsBase == old(cpu.gsBase)
    ensures cpu.rip == cpu.rcx && cpu.rflags == cpu.r11
  {
    cpu.rdi, cpu.rsi, cpu.rdx, cpu.r10, cpu.r8, cpu.r9 := rdi, rsi, rdx, r10, r8, r9;
    cpu.xmm := xmm;
    SyscallExit(cpu, result);
  }

  // ------------------------------------------------------------------------------------------
  // What a user task observes

  /** Every register a syscall is documented to leave alone (all but rax, rcx, r11, rip and
      rflags) is as it was; memory aside. */
  predicate UserRegistersKept(s: State, t: State) {
    t == s.(rax := t.rax, rcx := t.rcx, r11 := t.r11, rip := t.rip, rflags := t.rflags,
            mem := t.mem)
  }

  /** A user task at `s` executes `syscall` and the corrected handler runs: the dispatcher
      gets the number and arguments from the documented registers, rax holds its result,
      the task resumes after the `syscall` instruction with its flags, rcx and r11 hold the
      resume address and the flags as `syscall` defines, every other register is kept, and
      the record's kernel stack is untouched. */
  lemma SyscallReturnsToUser(s: State, t: State, o: Outcome, receive: U64 -> U64)
    requires HandledRestoring(SyscallStep(s), t, o, receive)
    ensures o == Dispatch(s.rax, s.rdi, s.rsi, s.rdx, s.r10, s.r8, s.r9, receive)
    ensures t.rax == o.result
    ensures t.rip == AddWrap(s.rip, SYSCALL_LENGTH) && t.rflags == s.rflags
    ensures t.rcx == t.rip && t.r11 == s.rflags
    ensures UserRegistersKept(s, t)
    ensures RecordAt(t.mem, s.kernelGsBase) ==
            RecordAt(s.mem, s.kernelGsBase).(userStack := s.rsp, userIp := t.rip, userFlags := s.rflags)
  {
    ResumedRecord(SyscallStep(s), o);
  }

  /** The handler as written keeps the user's registers only when the dispatcher call happens
      to leave the user's own values in rdi, rsi, rdx, r8, r9, r10 and the vector registers.
      The call passes the
      syscall number in rdi (line 110), so unless the callee puts them back the user sees them
      changed. */
  lemma ArgumentRegistersClobbered(s: State, t: State, o: Outcome, receive: U64 -> U64,
                                   after: Scratch)
    requires HandledAsWritten(SyscallStep(s), t, o, receive, after)
    ensures UserRegistersKept(s, t) <==>
            after.rdi == s.rdi && after.rsi == s.rsi && after.rdx == s.rdx &&
            after.r8 == s.r8 && after.r9 == s.r9 && after.r10 == s.r10 && after.xmm == s.xmm
  {
  }

  // ------------------------------------------------------------------------------------------
  // `enable_syscall_sysret`

  /** The low 32 bits of IA32_STAR's upper half: user selector base in bits 31:16, kernel
      code selector in bits 15:0 (line 165). */
  function StarValue(userCs: bv16, kernelCs: bv16): (v: bv32)
    ensures (v >> 16) as bv16 == userCs
    ensures (v & 0xFFFF) as bv16 == kernelCs
  {
    ((userCs as bv32) << 16) | (kernelCs as bv32)
  }

  /** IA32_STAR as written at line 166: `star_val` in bits 63:32, zero below. */
  function StarMsr(starVal: bv32): (v: bv64)
    ensures (v >> 32) as bv32 == starVal
    ensures v & 0xFFFF_FFFF == 0
  {
    (starVal as bv64) << 32
  }

  /** The IA32_STAR layout: bits 63:48 hold the user selector base, bits 47:32 the kernel
      code selector, bits 31:0 are zero. */
  lemma StarFields(userCs: bv16, kernelCs: bv16)
    ensures var v := StarMsr(StarValue(userCs, kernelCs));
            (v >> 48) as bv16 == userCs && ((v >> 32) & 0xFFFF) as bv16 == kernelCs &&
            v & 0xFFFF_FFFF == 0
  {
  }

  /** Every 32-bit value is the packing of its two halves. */
  lemma StarValueUnpack(v: bv32)
    ensures StarValue((v >> 16) as bv16, (v & 0xFFFF) as bv16) == v
  {
  }

  /** Subtracting 3 from a selector clears its requested-privilege-level bits exactly when
      they were both set, and then agrees with masking them off. */
  lemma SubtractClearsRpl(sel: bv16)
    requires 3 <= sel
    ensures (sel - 3) & 3 == 0 <==> sel & 3 == 3
    ensures sel & 3 == 3 ==> sel - 3 == sel & !3
  {
  }

  /** `enable_syscall_sysret`: store a fresh record at `recordAddr` (the allocation of line 152)
      with the kernel stack `privilegeStackTop` and zero user fields, point both GS bases at
      it, enter `handlerAddr` on `syscall`, program the selectors into IA32_STAR from the user
      and kernel code selectors, and mask the interrupt flag on entry. */
  method EnableSyscallSysret(cpu: Cpu, privilegeStackTop: U64, recordAddr: U64,
                             handlerAddr: U64, userCode32: bv16, kernelCode: bv16)
    requires 3 <= userCode32
    modifies cpu`mem, cpu`gsBase, cpu`kernelGsBase, cpu`msr
    ensures cpu.mem == WriteRecord(old(cpu.mem), recordAddr, GsData(privilegeStackTop, 0, 0, 0))
    ensures cpu.gsBase == recordAddr && cpu.kernelGsBase == recordAddr
    ensures cpu.msr == old(cpu.msr)[IA32_LSTAR := handlerAddr]
                         [IA32_STAR := ToWord(StarMsr(StarValue(userCode32 - 3, kernelCode)))]
                         [IA32_FMASK := RFLAGS_IF]
  {
    var gsData := GsData(privilegeStackTop, 0, 0, 0);
    cpu.mem := WriteRecord(cpu.mem, recordAddr, gsData);
    cpu.WriteMsr(IA32_KERNEL_GS_BASE, recordAddr);
    cpu.WriteMsr(IA32_GS_BASE, recordAddr);
    cpu.WriteMsr(IA32_LSTAR, handlerAddr);
    var userCs := userCode32 - 3;
    var kernelCs := kernelCode;
    var starVal := StarValue(userCs, kernelCs);
    cpu.WriteMsr(IA32_STAR, ToWord(StarMsr(starVal)));
    cpu.WriteMsr(IA32_FMASK, RFLAGS_IF);
  }

  /** Once `enable_syscall_sysret` has run (its post-state, from any earlier memory and model-
      specific registers), a `syscall` enters the handler with interrupts off, and the record
      the handler switches GS to names the kernel stack it was given, with zero user fields. */
  lemma InitEntersHandlerMasked(s: State, earlierMem: Memory, earlierMsr: map<int, U64>,
                                privilegeStackTop: U64, recordAddr: U64, handlerAddr: U64,
                                star: U64)
    requires s.mem == WriteRecord(earlierMem, recordAddr, GsData(privilegeStackTop, 0, 0, 0))
    requires s.gsBase == recordAddr && s.kernelGsBase == recordAddr
    requires s.msr == earlierMsr[IA32_LSTAR := handlerAddr][IA32_STAR := star]
                                [IA32_FMASK := RFLAGS_IF]
    ensures ToBits(SyscallStep(s).rflags) & ToBits(RFLAGS_IF) == 0
    ensures SyscallStep(s).rip == handlerAddr
    ensures RecordAt(SyscallStep(s).mem, SyscallStep(s).kernelGsBase) ==
            GsData(privilegeStackTop, 0, 0, 0)
  {
    assert MsrValue(s.msr, IA32_FMASK) == RFLAGS_IF;
    assert MsrValue(s.msr, IA32_LSTAR) == handlerAddr;
    MaskedEntry(s);
  }

  /** With IA32_FMASK holding the interrupt flag, `syscall` clears it. */
  lemma MaskedEntry(s: State)
    requires MsrValue(s.msr, IA32_FMASK) == RFLAGS_IF
    ensures ToBits(SyscallStep(s).rflags) & ToBits(RFLAGS_IF) == 0
  {
    var flags := ClearMasked(ToBits(s.rflags), ToBits(RFLAGS_IF));
    BitsOfWord(flags);
  }
}
