# Theseus: SSE context switch and the syscall/sysret path

This project models two low-level pieces of the Theseus kernel on an abstract x86-64 processor,
and proves what they do.

- **`context_switch` with SSE** (`kernel/context_switch_sse/src/lib.rs`). The outgoing task's
  rbx, rbp, r12–r15 and all sixteen xmm registers are saved on its own stack. Its new stack top
  is published through `rdi`, the stack moves to `rsi`, and the incoming task's registers are
  reloaded from the `Context` record there. The routine then returns into the incoming task.
  `Context::new(rip)` builds the record of a task that has never run.
- **The syscall path of the nano core** (`kernel/nano_core/src/syscall/mod.rs`):
  - `syscall_dispatcher` maps a syscall number and six arguments to a result and a message
    operation (send or receive);
  - `UserTaskGsData` is the scratch record that GS points to while a syscall runs;
  - the naked trampoline `syscall_handler` saves the user's rsp, rcx and r11 in that record,
    calls the dispatcher on the kernel stack and leaves with `sysretq`;
  - `enable_syscall_sysret` allocates the record, points both GS bases at it, and programs
    IA32_LSTAR, IA32_STAR and IA32_FMASK.

The model has three modules:

- `Machine` (machine.dfy) is the processor. It is a `Cpu` class whose fields are the
  registers, the two GS bases, the model-specific registers and memory. Each instruction with
  a stack, memory, GS or MSR effect is a method whose frame names exactly the registers it
  writes; plain register moves (`mov rsp, rsi`, `lea rsp, …`, the `mov`s from `gs:`) are
  assignments to the fields. `State` is the
  whole machine as a value, and `Cpu.Snapshot()` takes it. Memory is a map from byte addresses
  of 8-byte words to words. Every access in the modelled code is a whole aligned word (a
  16-byte `movdqu` is two words), so words at different keys never overlap.
- `ContextSwitchSse` (context_switch_sse.dfy) covers two things:
  - the record layout: `Encode`/`Decode` for the 39 words the switch uses, and `Image` for the
    packed layout of any field order;
  - the switch itself, as methods over `Cpu`. Each is proved against a specification on
    `State` (`Switched`), and the properties that matter to tasks are proved about that
    specification.
- `Syscall` (syscall.dfy) holds the dispatcher, the scratch record, the handler (as written,
  and corrected) and the MSR set-up.

Registers are unbounded integers restricted to 0 ≤ x < 2^64. Flags and the STAR packing are
computed on `bv16`/`bv32`/`bv64`, as the source computes them. The return address after
`syscall` wraps explicitly (`AddWrap`).

## Model

| member | source | states |
|---|---|---|
| Machine.Cpu.Push | kernel/context_switch_sse/src/lib.rs:94-99 | `push` lowers rsp by 8 and stores the value at the new top; no other word changes |
| Machine.Cpu.Pop | kernel/context_switch_sse/src/lib.rs:145-150 | `pop` yields the word at the top of the stack and raises rsp by 8 |
| Machine.Cpu.Ret | kernel/context_switch_sse/src/lib.rs:152-154 | `ret` continues at the word on top of the stack and raises rsp by 8 |
| Machine.Cpu.StoreXmm | kernel/context_switch_sse/src/lib.rs:104-119 | `movdqu [rsp+off], xmm k` writes the low quadword at rsp+off and the high one 8 bytes above |
| Machine.Cpu.LoadXmm | kernel/context_switch_sse/src/lib.rs:126-141 | `movdqu xmm k, [rsp+off]` sets only xmm k, from those two words |
| Machine.Cpu.StoreGs | kernel/nano_core/src/syscall/mod.rs:84-86 | `mov gs:[off], v` writes one word relative to the active GS base and nothing else |
| Machine.Cpu.SwapGs | kernel/nano_core/src/syscall/mod.rs:83 | `swapgs` exchanges the active and the kernel GS base |
| Machine.Cpu.WriteMsr | kernel/nano_core/src/syscall/mod.rs:153-154 | `wrmsr` to GS_BASE or KERNEL_GS_BASE sets that base; any other index records the value in the MSR map |
| Machine.ClearMasked | kernel/nano_core/src/syscall/mod.rs:169-171 | the flags `syscall` leaves have every mask bit clear and every other bit as before |
| Machine.Cpu.Syscall | kernel/nano_core/src/syscall/mod.rs:5-10 | `syscall` puts the next instruction's address (wrapping) in rcx and rflags in r11, clears the FMASK bits in rflags, and jumps to LSTAR |
| Machine.Cpu.Sysret | kernel/nano_core/src/syscall/mod.rs:132 | `sysretq` resumes at rcx with the flags in r11 |
| ContextSwitchSse.New | kernel/context_switch_sse/src/lib.rs:40-67 | a fresh record has all sixteen vector registers; see NewImage for its contents |
| ContextSwitchSse.NewImage | kernel/context_switch_sse/src/lib.rs:40-67 | a fresh record is all zero except the resume address in its last word, and it reads the same in the declared and the switch order |
| ContextSwitchSse.RecordOffsets | kernel/context_switch_sse/src/lib.rs:9-37 | in a packed record of 16 vector and 7 word fields, field i sits at 16·i bytes (vectors) or 256 + 8·(i−16) bytes (words), and the record is 312 bytes |
| ContextSwitchSse.DeclaredLayout | kernel/context_switch_sse/src/lib.rs:9-37 | the declared struct is 312 bytes, and r15 … rbx and rip sit exactly where the switch pops them |
| ContextSwitchSse.DeclaredVectorsMisplaced | kernel/context_switch_sse/src/lib.rs:11-28 | as declared, field i is xmm(15−i) but lies where the switch keeps xmm i, so no vector field is where it is reloaded from |
| ContextSwitchSse.SwitchOrderLayout | kernel/context_switch_sse/src/lib.rs:104-150 | with xmm0 declared first, every field sits at the offset the switch stores and reloads it at, and the record is still 312 bytes |
| ContextSwitchSse.Image | kernel/context_switch_sse/src/lib.rs:9-37 | the packed image of a record is exactly as long as the sum of its field widths |
| ContextSwitchSse.ImageAt | kernel/context_switch_sse/src/lib.rs:9-37 | each field's words sit in the packed image at the field's packed offset |
| ContextSwitchSse.EncodeIsSwitchImage | kernel/context_switch_sse/src/lib.rs:104-150 | the 39 words the switch uses are the record packed in switch order (xmm0 lowest) |
| ContextSwitchSse.Decode | kernel/context_switch_sse/src/lib.rs:126-154 | a record read back from 39 words has sixteen vector registers |
| ContextSwitchSse.DecodeEncode | kernel/context_switch_sse/src/lib.rs:104-141 | decoding the words a record was encoded to gives back every register |
| ContextSwitchSse.EncodeDecode | kernel/context_switch_sse/src/lib.rs:126-150 | every 39-word stack top is the image of the record it decodes to |
| ContextSwitchSse.DeclaredImageSwapsVectors | kernel/context_switch_sse/src/lib.rs:13-28 | a record with 1 in xmm15, packed as declared, reloads with that value in xmm0 |
| ContextSwitchSse.Saved | kernel/context_switch_sse/src/lib.rs:89-99 | the record of the calling task has sixteen vector registers |
| ContextSwitchSse.ContextAt | kernel/context_switch_sse/src/lib.rs:125-154 | the record stored at a stack top has sixteen vector registers |
| ContextSwitchSse.ContextAtSlots | kernel/context_switch_sse/src/lib.rs:125-154 | in the record at a stack top, xmm k comes from the words at top+16k and top+16k+8, and r15 … rbx and rip from the seven words at top+256 … top+304 |
| ContextSwitchSse.SlotsHoldImage | kernel/context_switch_sse/src/lib.rs:94-119 | words stored as the save phase stores them are the first 38 words of the record's image |
| ContextSwitchSse.SlotsLoadRecord | kernel/context_switch_sse/src/lib.rs:125-150 | registers loaded as the restore phase loads them are the record at the stack top |
| ContextSwitchSse.SaveThenPublish | kernel/context_switch_sse/src/lib.rs:122 | the save phase followed by `mov [rdi], rsp` leaves the outgoing task saved, with the slot at rdi holding its stack top |
| ContextSwitchSse.ContextSwitch | kernel/context_switch_sse/src/lib.rs:89-157 | the whole switch: the outgoing task is saved, rsp is 312 bytes above rsi, rbx, rbp, r12–r15, xmm and rip come from the record at rsi, and every other register is unchanged |
| ContextSwitchSse.SaveAndSwitchStacks | kernel/context_switch_sse/src/lib.rs:94-123 | after saving and `mov [rdi], rsp; mov rsp, rsi`, the outgoing task is saved and rsp is rsi |
| ContextSwitchSse.SaveRegisters | kernel/context_switch_sse/src/lib.rs:94-119 | rsp drops by 304; xmm k is at rsp+16k, and r15 … rbx are at rsp+256 … rsp+296; no word outside the 304 bytes changes |
| ContextSwitchSse.PushRegisters | kernel/context_switch_sse/src/lib.rs:94-99 | the six pushes put rbx highest and r15 at the new top, 48 bytes lower |
| ContextSwitchSse.SaveVectors | kernel/context_switch_sse/src/lib.rs:104-119 | each xmm k goes to rsp+16k; nothing outside the 256 bytes changes |
| ContextSwitchSse.RestoreRegisters | kernel/context_switch_sse/src/lib.rs:125-154 | the loaded registers and resume address are the record at the old rsp, and rsp rises by 312 |
| ContextSwitchSse.PopRegisters | kernel/context_switch_sse/src/lib.rs:145-154 | r15, r14, r13, r12, rbp, rbx and the return address come from seven consecutive words; rsp rises by 56 |
| ContextSwitchSse.LoadVectors | kernel/context_switch_sse/src/lib.rs:126-141 | after the sixteen loads, in the source's order (xmm15 down to xmm7, then xmm5, xmm6, then xmm4 down to xmm0), every xmm k holds the two words at rsp+16k |
| ContextSwitchSse.SavedRecord | kernel/context_switch_sse/src/lib.rs:94-122 | once the outgoing task is saved, its full record, with its return address as resume address, sits at the stack top it published |
| ContextSwitchSse.SwitchSavesCaller | kernel/context_switch_sse/src/lib.rs:76-78 | after a switch the slot at rdi holds the outgoing stack top, and the outgoing task's record is stored there |
| ContextSwitchSse.SwitchLoadsIncoming | kernel/context_switch_sse/src/lib.rs:121-154 | the incoming task resumes with the record at rsi as it was before the switch, and rsp is just above it |
| ContextSwitchSse.SwitchBackRestores | kernel/context_switch_sse/src/lib.rs:89-157 | a task switched away and later switched back to from its published stack top gets its callee-saved and vector registers back, continues at its return address, and has rsp as after a plain return |
| ContextSwitchSse.FreshTaskStartsAtEntry | kernel/context_switch_sse/src/lib.rs:152-154 | switching to a stack whose top holds `Context::new(entry)` starts the task at entry with every restored register zero |
| Syscall.Dispatch | kernel/nano_core/src/syscall/mod.rs:20-44 | number 1 sends (arg1, arg2, arg3) and number 2 receives on arg1, each if and only if; the result is the received value for 2 and 0xDEADBEEF01234567 otherwise |
| Syscall.ExtraArgumentsIgnored | kernel/nano_core/src/syscall/mod.rs:25-29 | arguments 4 to 6 never influence the outcome |
| Syscall.WriteRecord | kernel/nano_core/src/syscall/mod.rs:53-67 | a record written at a base reads back field by field at offsets 0x0/0x8/0x10/0x18, and no word outside its 32 bytes changes |
| Syscall.ResumedRecord | kernel/nano_core/src/syscall/mod.rs:119-132 | on return the record holds the user's rsp, rcx and r11 and an unchanged kernel stack; rsp, rcx, r11 and both GS bases are the user's; rax is the result; rip and rflags come from rcx and r11 |
| Syscall.SyscallEntry | kernel/nano_core/src/syscall/mod.rs:83-87 | the GS bases are swapped, the user's rsp, rcx and r11 are stored at gs:0x8/0x10/0x18, and rsp is the kernel stack from gs:0x0 |
| Syscall.CallDispatcher | kernel/nano_core/src/syscall/mod.rs:110-112 | the outcome is the dispatcher's on the given arguments; the caller-saved registers (rcx, rdx, rsi, rdi, r8–r11 and every xmm register) are as the callee leaves them |
| Syscall.SyscallExit | kernel/nano_core/src/syscall/mod.rs:119-132 | rax is the result; rsp, rcx and r11 are reloaded from the record; the GS bases are swapped back; execution resumes at rcx with the flags in r11 |
| Syscall.EnterAndDispatch | kernel/nano_core/src/syscall/mod.rs:83-112 | the dispatcher receives rax, rdi, rsi, rdx, r10, r8 and r9 in that order, captured after entry |
| Syscall.SyscallHandler | kernel/nano_core/src/syscall/mod.rs:76-134 | the handler as written: the machine ends as `Resumed`, except that rdi, rsi, rdx, r8, r9, r10 and the xmm registers are whatever the dispatcher call left |
| Syscall.SyscallHandlerRestoring | kernel/nano_core/src/syscall/mod.rs:97-132 | the corrected handler, which also saves and restores the argument and xmm registers: the machine ends exactly as `Resumed` (record updated, rax the result, resumed at rcx/r11, everything else as on entry) |
| Syscall.RestoreAndExit | kernel/nano_core/src/syscall/mod.rs:119-132 | the captured argument registers and xmm registers are put back, and then the exit sequence runs |
| Syscall.SyscallReturnsToUser | kernel/nano_core/src/syscall/mod.rs:5-10 | with the corrected handler, a user `syscall` gets the dispatcher's result in rax; it resumes after the instruction with its flags; rcx and r11 hold the resume address and flags; every other register is kept |
| Syscall.ArgumentRegistersClobbered | kernel/nano_core/src/syscall/mod.rs:97-132 | with the handler as written, the user's registers are kept if and only if the dispatcher call leaves the user's own rdi, rsi, rdx, r8, r9, r10 and xmm registers in place |
| Syscall.StarValue | kernel/nano_core/src/syscall/mod.rs:165 | the user selector base unpacks from bits 31:16 and the kernel code selector from bits 15:0 |
| Syscall.StarMsr | kernel/nano_core/src/syscall/mod.rs:166 | `star_val` lies in bits 63:32 of IA32_STAR and bits 31:0 are zero |
| Syscall.StarFields | kernel/nano_core/src/syscall/mod.rs:160-166 | IA32_STAR holds the user selector base in 63:48, the kernel code selector in 47:32 and zero below |
| Syscall.StarValueUnpack | kernel/nano_core/src/syscall/mod.rs:165 | every 32-bit STAR value is the packing of its two halves |
| Syscall.SubtractClearsRpl | kernel/nano_core/src/syscall/mod.rs:163 | subtracting 3 clears the selector's privilege bits exactly when both were set, and then equals masking them off |
| Syscall.EnableSyscallSysret | kernel/nano_core/src/syscall/mod.rs:138-172 | the record (kernel stack, then zeros) is written at the allocated address; both GS bases point at it; LSTAR is the handler; STAR packs selector − 3 and the kernel selector; FMASK is 0x200 |
| Syscall.InitEntersHandlerMasked | kernel/nano_core/src/syscall/mod.rs:145-171 | from the state `enable_syscall_sysret` leaves (record written, both GS bases at it, LSTAR, STAR and FMASK set), `syscall` enters the handler with IF clear, and the record GS switches to holds the kernel stack and zero user fields |
| Syscall.MaskedEntry | kernel/nano_core/src/syscall/mod.rs:169-171 | with IA32_FMASK holding 0x200, `syscall` clears the interrupt flag |

## Left out

- Logging (`trace!`, `debug!`) and the current-task lookup at mod.rs:105-107. They do not
  affect any modelled state.
- `syssend!`/`sysrecv!` and the `format!` marshalling of their arguments. The message system is
  not part of this model. A send is recorded as `Ipc.Send`, and the value a receive produces is
  a parameter (`receive`).
- `get_segment_selector`: the GDT is not part of this model, so the user and kernel code
  selectors are parameters of `EnableSyscallSysret`.
- `Box::new`/`Box::into_raw` (mod.rs:152): the heap allocator is not part of this model. The
  record's address is a parameter.
- Syscall.CallDispatcher: the dispatcher's own use of the kernel stack and memory is not
  modelled. The seventh argument goes on the stack per the comment at mod.rs:110-111, and that
  is left out too. Its effect on the caller-saved registers, the xmm registers included, is a
  parameter (`after`). rbx, rbp and r12–r15 are assumed kept: the calling convention makes the
  callee keep them, and the compiled Rust code of the naked handler body (mod.rs:97-119, which
  has no prologue to save them) is assumed not to change them either; that code is not
  modelled instruction by instruction.
- The segment registers: `syscall`/`sysretq` load CS and SS from IA32_STAR, and that is not
  modelled. Only the STAR value written is modelled, not its later use.
- Interrupts, other processors and `compiler_fence`. The model runs each routine to completion
  without interference.
- Code that is commented out (mod.rs:31-42, 90-96, 103, 118) is not modelled.
- ContextSwitchSse.ContextSwitch: stack-pointer arithmetic is not wrapped modulo 2^64. The
  precondition `SwitchPre` requires a stack with room for the record. Wrap-around there would
  be undefined behaviour in the kernel anyway.
- Syscall.EnableSyscallSysret: requires the user code selector to be at least 3. In the source
  the `u16` subtraction at mod.rs:163 would panic or wrap below that; a real selector with
  privilege level 3 always satisfies it.
- Machine.Cpu.Syscall: the CPL change and the other checks the hardware does are left out.
  Only the register effects the handler depends on are modelled.
- Memory is modelled as aligned 8-byte words, so byte-level aliasing of overlapping accesses is
  not captured. No access in this code is unaligned or partial.
- `context_switch` reloads xmm5 before xmm6 (lib.rs:135-136). `LoadVectors` performs the
  loads in exactly that order, and its contract shows that the order does not matter.

## Findings

| source | as written | input that shows it | evidently intended | confidence | as-written member | corrected member |
|---|---|---|---|---|---|---|
| kernel/context_switch_sse/src/lib.rs:13-28 | `Context` declares xmm15 first, but `context_switch` stores and reloads xmm0 at offset 0 (lib.rs:104, 141) | a record with xmm15 = 1 and the other vector fields zero, packed as declared, reloads with xmm0 = 1 | fields declared in the order the switch uses, xmm0 first (the comment at lib.rs:11-12 says they must match) | not executed; not observable through `Context::new`, which zeroes every vector field | ContextSwitchSse.DeclaredImageSwapsVectors | ContextSwitchSse.SwitchOrderLayout |
| kernel/nano_core/src/syscall/mod.rs:97-132 | `syscall_handler` captures rdi, rsi, rdx, r10, r8, r9 but never restores them (nor the xmm registers) after calling the dispatcher, which receives its arguments in those registers (mod.rs:110-112) and may change every caller-saved register | any syscall after which the callee leaves e.g. rdi ≠ the user's rdi: the user sees rdi changed | only rax (the result), rcx and r11 change across a syscall (mod.rs:5-10) | not executed; depends on what the compiled dispatcher leaves in caller-saved registers | Syscall.ArgumentRegistersClobbered | Syscall.SyscallReturnsToUser |
