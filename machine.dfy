/** An abstract x86-64 processor, as far as the context switch and the syscall path use it:
    the general-purpose registers, rip and rflags, the sixteen xmm registers, the two GS base
    registers, the model-specific registers the syscall path programs, and memory.

    Memory is modelled at the granularity of 8-byte words: a key is the byte address of a word.
    Every access in the modelled code is a whole, 8-byte aligned word (a 16-byte `movdqu` is two
    of them), so words stored at different keys never overlap. */
module Machine {

  const TWO_64: int := 0x1_0000_0000_0000_0000

  /** A 64-bit register or memory word (`u64`, `usize`). */
  type U64 = x: int | 0 <= x < TWO_64

  /** A 128-bit vector register (`u128`) as its two quadwords; `movdqu` stores `lo` at the
      lower address (x86 is little-endian). */
  datatype Vec128 = Vec128(lo: U64, hi: U64)

  /** `a + n` in 64-bit arithmetic, wrapping around past the top of the address space. */
  function AddWrap(a: U64, n: nat): (r: U64)
    requires n < TWO_64
    ensures r % TWO_64 == (a + n) % TWO_64
  {
    if a + n < TWO_64 then a + n else a + n - TWO_64
  }

  /** The bits of a word. */
  function ToBits(w: U64): bv64 { w as bv64 }

  /** The word with the given bits. */
  function ToWord(b: bv64): U64 { b as int }

  /** Converting a bit pattern to a word and back gives the same bits. */
  lemma BitsOfWord(b: bv64)
    ensures ToBits(ToWord(b)) == b
  {
  }

  type Memory = map<int, U64>

  /** The word at byte address `a`; a word never written reads as zero. */
  function Read(m: Memory, a: int): U64 {
    if a in m then m[a] else 0
  }

  /** `n` consecutive words starting at byte address `base`. */
  function Words(m: Memory, base: int, n: nat): (ws: seq<U64>)
    ensures |ws| == n
    ensures forall i :: 0 <= i < n ==> ws[i] == Read(m, base + 8 * i)
  {
    seq(n, i => Read(m, base + 8 * i))
  }

  /** Model-specific register numbers (Intel 64 and IA-32 Architectures Software Developer's
      Manual, Volume 4, "Model-Specific Registers"). */
  const IA32_STAR: int := 0xC000_0081
  const IA32_LSTAR: int := 0xC000_0082
  const IA32_FMASK: int := 0xC000_0084
  const IA32_GS_BASE: int := 0xC000_0101
  const IA32_KERNEL_GS_BASE: int := 0xC000_0102

  /** The interrupt-enable flag IF, bit 9 of rflags. */
  const RFLAGS_IF: int := 0x200

  /** Length in bytes of the `syscall` instruction (0F 05). */
  const SYSCALL_LENGTH: int := 2

  /** The whole machine as a value: what a `Cpu` holds at one instant. The GS bases are kept
      apart from `msr`, which records the values written to every other model-specific
      register. */
  datatype State = State(
    rax: U64, rbx: U64, rcx: U64, rdx: U64, rsi: U64, rdi: U64, rbp: U64, rsp: U64,
    r8: U64, r9: U64, r10: U64, r11: U64, r12: U64, r13: U64, r14: U64, r15: U64,
    rip: U64, rflags: U64,
    xmm: seq<Vec128>,
    gsBase: U64, kernelGsBase: U64,
    msr: map<int, U64>,
    mem: Memory)

  /** The value last written to model-specific register `index`, zero if none was. */
  function MsrValue(msr: map<int, U64>, index: int): U64 {
    if index in msr then msr[index] else 0
  }

  /** rflags as the `syscall` instruction leaves it: every bit set in the mask cleared, every
      other bit kept. */
  function ClearMasked(flags: bv64, mask: bv64): (r: bv64)
    ensures r & mask == 0
    ensures r | mask == flags | mask
  {
    flags & !mask
  }

  /** The `syscall` instruction executed in user mode: the address of the next instruction goes
      to rcx and rflags to r11, the bits of IA32_FMASK are cleared in rflags, and execution
      continues at IA32_LSTAR. */
  function SyscallStep(s: State): State
  {
    s.(rcx := AddWrap(s.rip, SYSCALL_LENGTH), r11 := s.rflags,
       rflags := ToWord(ClearMasked(ToBits(s.rflags), ToBits(MsrValue(s.msr, IA32_FMASK)))),
       rip := MsrValue(s.msr, IA32_LSTAR))
  }

  /** The processor. Each method is one instruction (or the architectural effect of one),
      and its frame names exactly the registers that instruction writes. */
  class Cpu {
    var rax: U64
    var rbx: U64
    var rcx: U64
    var rdx: U64
    var rsi: U64
    var rdi: U64
    var rbp: U64
    var rsp: U64
    var r8: U64
    var r9: U64
    var r10: U64
    var r11: U64
    var r12: U64
    var r13: U64
    var r14: U64
    var r15: U64
    var rip: U64
    var rflags: U64
    var xmm: seq<Vec128>
    var gsBase: U64
    var kernelGsBase: U64
    var msr: map<int, U64>
    var mem: Memory

    /** There are sixteen vector registers. */
    ghost predicate Valid()
      reads this
    {
      |xmm| == 16
    }

    ghost function Snapshot(): (s: State)
      reads this
      ensures Valid() ==> |s.xmm| == 16
    {
      State(rax, rbx, rcx, rdx, rsi, rdi, rbp, rsp, r8, r9, r10, r11, r12, r13, r14, r15,
            rip, rflags, xmm, gsBase, kernelGsBase, msr, mem)
    }

    /** `push v` */
    method Push(v: U64)
      requires 8 <= rsp
      modifies this`rsp, this`mem
      ensures rsp == old(rsp) - 8
      ensures mem == old(mem)[rsp := v]
    {
      rsp := rsp - 8;
      mem := mem[rsp := v];
    }

    /** `pop`: the caller assigns the returned word to the destination register. */
    method Pop() returns (v: U64)
      requires rsp + 8 < TWO_64
      modifies this`rsp
      ensures v == Read(mem, old(rsp))
      ensures rsp == old(rsp) + 8
    {
      v := Read(mem, rsp);
      rsp := rsp + 8;
    }

    /** `movdqu [rsp + offset], xmm k` */
    method StoreXmm(offset: int, k: nat)
      requires Valid() && k < 16
      modifies this`mem
      ensures mem == old(mem)[rsp + offset := xmm[k].lo][rsp + offset + 8 := xmm[k].hi]
    {
      mem := mem[rsp + offset := xmm[k].lo];
      mem := mem[rsp + offset + 8 := xmm[k].hi];
    }

    /** `movdqu xmm k, [rsp + offset]` */
    method LoadXmm(k: nat, offset: int)
      requires Valid() && k < 16
      modifies this`xmm
      ensures Valid()
      ensures xmm == old(xmm)[k := Vec128(Read(mem, rsp + offset), Read(mem, rsp + offset + 8))]
    {
      xmm := xmm[k := Vec128(Read(mem, rsp + offset), Read(mem, rsp + offset + 8))];
    }

    /** `mov gs:[offset], v`: store a word relative to the active GS base. */
    method StoreGs(offset: int, v: U64)
      modifies this`mem
      ensures mem == old(mem)[gsBase + offset := v]
    {
      mem := mem[gsBase + offset := v];
    }

    /** `ret`: pop the return address into rip. */
    method Ret()
      requires rsp + 8 < TWO_64
      modifies this`rip, this`rsp
      ensures rip == Read(mem, old(rsp))
      ensures rsp == old(rsp) + 8
    {
      rip := Read(mem, rsp);
      rsp := rsp + 8;
    }

    /** `swapgs`: exchange the active GS base with IA32_KERNEL_GS_BASE. */
    method SwapGs()
      modifies this`gsBase, this`kernelGsBase
      ensures gsBase == old(kernelGsBase)
      ensures kernelGsBase == old(gsBase)
    {
      gsBase, kernelGsBase := kernelGsBase, gsBase;
    }

    /** `wrmsr`: writing IA32_GS_BASE or IA32_KERNEL_GS_BASE sets that base register; any
        other register's new value is recorded in `msr`. */
    method WriteMsr(index: int, v: U64)
      modifies this`gsBase, this`kernelGsBase, this`msr
      ensures gsBase == if index == IA32_GS_BASE then v else old(gsBase)
      ensures kernelGsBase == if index == IA32_KERNEL_GS_BASE then v else old(kernelGsBase)
      ensures msr == if index == IA32_GS_BASE || index == IA32_KERNEL_GS_BASE
                     then old(msr) else old(msr)[index := v]
    {
      if index == IA32_GS_BASE {
        gsBase := v;
      } else if index == IA32_KERNEL_GS_BASE {
        kernelGsBase := v;
      } else {
        msr := msr[index := v];
      }
    }

    /** `syscall` as executed in user mode. */
    method Syscall()
      modifies this`rcx, this`r11, this`rflags, this`rip
      ensures var t := SyscallStep(old(Snapshot()));
              rcx == t.rcx && r11 == t.r11 && rflags == t.rflags && rip == t.rip
    {
      rcx := AddWrap(rip, SYSCALL_LENGTH);
      r11 := rflags;
      rflags := ToWord(ClearMasked(ToBits(rflags), ToBits(MsrValue(msr, IA32_FMASK))));
      rip := MsrValue(msr, IA32_LSTAR);
    }

    /** `sysretq`: resume user mode at rcx with the flags saved in r11. */
    method Sysret()
      modifies this`rip, this`rflags
      ensures rip == rcx
      ensures rflags == r11
    {
      rip := rcx;
      rflags := r11;
    }
  }
}
