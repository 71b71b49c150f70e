/** The saved-register record `Context` and the task switch routine `context_switch` of the
    SSE-enabled build: a save/restore pair over the stacks of two tasks.

    Line numbers in comments refer to kernel/context_switch_sse/src/lib.rs. */
module ContextSwitchSse {
  import opened Machine

  /** `Context`: the registers a suspended task keeps on its stack. `xmm[k]` is register
      xmm k; `rip` is where the task resumes. */
  datatype Context = Context(
    xmm: seq<Vec128>, r15: U64, r14: U64, r13: U64, r12: U64, rbp: U64, rbx: U64, rip: U64)
  {
    predicate Valid() { |xmm| == 16 }
  }

  /** `Context::new(rip)`: the record of a task that has never run. */
  function New(rip: U64): (c: Context)
    ensures c.Valid()
  {
    Context(seq(16, k => Vec128(0, 0)), 0, 0, 0, 0, 0, 0, rip)
  }

  // ------------------------------------------------------------------------------------------
  // Layout of the record

  /** A field of `Context`. */
  datatype Field = Xmm(k: nat) | R15 | R14 | R13 | R12 | Rbp | Rbx | Rip

  /** Size in bytes: `u128` for a vector register, `usize` otherwise. */
  function Width(f: Field): nat {
    if f.Xmm? then 16 else 8
  }

  const GPR_FIELDS: seq<Field> := [R15, R14, R13, R12, Rbp, Rbx, Rip]

  /** The fields in the order the struct declares them: xmm15 first, down to xmm0. */
  const DECLARED: seq<Field> := seq(16, i requires 0 <= i < 16 => Xmm(15 - i)) + GPR_FIELDS

  /** The fields in the order `context_switch` places them in memory: xmm0 lowest. */
  const SWITCH_ORDER: seq<Field> := seq(16, i requires 0 <= i < 16 => Xmm(i)) + GPR_FIELDS

  /** Bytes saved by one switch: six general-purpose registers and sixteen vector registers. */
  const SAVED_BYTES: int := 6 * 8 + 16 * 16

  /** Bytes of a whole record: the saved registers and the resume address. */
  const CONTEXT_BYTES: int := SAVED_BYTES + 8

  /** Byte offset of `fields[i]` in a packed record (`#[repr(C, packed)]`): the sum of the
      widths of the fields before it, with no padding. */
  function PackedOffset(fields: seq<Field>, i: nat): nat
    requires i <= |fields|
  {
    if i == 0 then 0 else Width(fields[0]) + PackedOffset(fields[1..], i - 1)
  }

  /** Byte offset, from the stack pointer the switch saves or loads, at which `context_switch`
      stores and reloads each field: `[rsp + 16*k]` for xmm k, then the six pops after
      `lea rsp, [rsp + 16*16]`, then the return address that `ret` pops. */
  function SwitchOffset(f: Field): nat {
    match f
    case Xmm(k) => 16 * k
    case R15 => 256
    case R14 => 264
    case R13 => 272
    case R12 => 280
    case Rbp => 288
    case Rbx => 296
    case Rip => 304
  }

  /** Sixteen vector fields followed by the seven word fields. */
  ghost predicate RecordShape(fields: seq<Field>) {
    |fields| == 23 &&
    (forall i :: 0 <= i < 16 ==> fields[i].Xmm?) &&
    (forall i :: 16 <= i < 23 ==> fields[i] == GPR_FIELDS[i - 16])
  }

  lemma {:induction false} ShapeOffset(fields: seq<Field>, v: nat, i: nat)
    requires v <= |fields| && i <= |fields|
    requires forall j :: 0 <= j < |fields| ==> (fields[j].Xmm? <==> j < v)
    ensures PackedOffset(fields, i) == if i <= v then 16 * i else 16 * v + 8 * (i - v)
  {
    if i > 0 {
      ShapeOffset(fields[1..], if v > 0 then v - 1 else 0, i - 1);
    }
  }

  /** In a record of that shape, a field sits at 16 bytes per vector field before it plus
      8 bytes per word field before it, and the record is 312 bytes long. */
  lemma RecordOffsets(fields: seq<Field>)
    requires RecordShape(fields)
    ensures forall i :: 0 <= i <= 23 ==>
              PackedOffset(fields, i) == if i <= 16 then 16 * i else 256 + 8 * (i - 16)
    ensures PackedOffset(fields, 23) == CONTEXT_BYTES
  {
    forall i | 0 <= i <= 23
      ensures PackedOffset(fields, i) == if i <= 16 then 16 * i else 256 + 8 * (i - 16)
    {
      ShapeOffset(fields, 16, i);
    }
  }

  /** The record as declared is packed into 16*16 + 7*8 = 312 bytes, and its word fields
      (r15 ... rbx, rip) sit exactly where `context_switch` pops them. */
  lemma DeclaredLayout()
    ensures PackedOffset(DECLARED, |DECLARED|) == CONTEXT_BYTES == 312
    ensures forall i :: 16 <= i < 23 ==> PackedOffset(DECLARED, i) == SwitchOffset(DECLARED[i])
  {
    RecordOffsets(DECLARED);
  }

  /** As declared, the i-th field is xmm(15 - i) but sits where `context_switch` keeps xmm i,
      so no vector field is where the switch reloads it from. */
  lemma DeclaredVectorsMisplaced()
    ensures forall i :: 0 <= i < 16 ==>
              DECLARED[i] == Xmm(15 - i) &&
              PackedOffset(DECLARED, i) == SwitchOffset(Xmm(i)) &&
              PackedOffset(DECLARED, i) != SwitchOffset(DECLARED[i])
  {
    RecordOffsets(DECLARED);
  }

  /** With xmm0 declared first, every field sits where `context_switch` stores and reloads it,
      and the record is still 312 bytes. */
  lemma SwitchOrderLayout()
    ensures PackedOffset(SWITCH_ORDER, |SWITCH_ORDER|) == CONTEXT_BYTES
    ensures forall i :: 0 <= i < 23 ==> PackedOffset(SWITCH_ORDER, i) == SwitchOffset(SWITCH_ORDER[i])
  {
    RecordOffsets(SWITCH_ORDER);
  }

  // ------------------------------------------------------------------------------------------
  // The record as words in memory

  ghost predicate FieldsInRange(fields: seq<Field>) {
    forall i :: 0 <= i < |fields| ==> (fields[i].Xmm? ==> fields[i].k < 16)
  }

  /** The 8-byte words of field `f` of `c`, lower address first. */
  function FieldWords(c: Context, f: Field): (ws: seq<U64>)
    requires c.Valid() && (f.Xmm? ==> f.k < 16)
    ensures 8 * |ws| == Width(f)
  {
    match f
    case Xmm(k) => [c.xmm[k].lo, c.xmm[k].hi]
    case R15 => [c.r15]
    case R14 => [c.r14]
    case R13 => [c.r13]
    case R12 => [c.r12]
    case Rbp => [c.rbp]
    case Rbx => [c.rbx]
    case Rip => [c.rip]
  }

  /** The words of `c` when its fields are packed in the order `fields`. */
  function Image(c: Context, fields: seq<Field>): (ws: seq<U64>)
    requires c.Valid() && FieldsInRange(fields)
    ensures 8 * |ws| == PackedOffset(fields, |fields|)
  {
    if fields == [] then [] else FieldWords(c, fields[0]) + Image(c, fields[1..])
  }

  /** Each field of a packed image sits at its packed offset. */
  lemma {:induction false} ImageAt(c: Context, fields: seq<Field>, i: nat, j: nat)
    requires c.Valid() && FieldsInRange(fields)
    requires i < |fields| && 8 * j < Width(fields[i])
    ensures PackedOffset(fields, i) % 8 == 0
    ensures PackedOffset(fields, i) / 8 + j < |Image(c, fields)|
    ensures Image(c, fields)[PackedOffset(fields, i) / 8 + j] == FieldWords(c, fields[i])[j]
  {
    if i > 0 {
      ImageAt(c, fields[1..], i - 1, j);
    }
  }

  /** The 39 words `context_switch` reads a record from: xmm k's quadwords at words 2k and
      2k+1, then r15, r14, r13, r12, rbp, rbx and the resume address. */
  function Encode(c: Context): (ws: seq<U64>)
    requires c.Valid()
  {
    seq(32, w requires 0 <= w < 32 => if w % 2 == 0 then c.xmm[w / 2].lo else c.xmm[w / 2].hi)
    + [c.r15, c.r14, c.r13, c.r12, c.rbp, c.rbx, c.rip]
  }

  /** The record read back from the 39 words at a stack top, as lines 126-154 reload it. */
  function Decode(ws: seq<U64>): (c: Context)
    requires |ws| == 39
    ensures c.Valid()
  {
    Context(seq(16, k requires 0 <= k < 16 => Vec128(ws[2 * k], ws[2 * k + 1])),
            ws[32], ws[33], ws[34], ws[35], ws[36], ws[37], ws[38])
  }

  /** `Encode` is the record packed in the switch's own order. */
  lemma EncodeIsSwitchImage(c: Context)
    requires c.Valid()
    ensures Encode(c) == Image(c, SWITCH_ORDER)
  {
    SwitchOrderLayout();
    RecordOffsets(SWITCH_ORDER);
    var ws := Image(c, SWITCH_ORDER);
    forall w | 0 <= w < 39 ensures Encode(c)[w] == ws[w] {
      if w < 32 {
        ImageAt(c, SWITCH_ORDER, w / 2, w % 2);
      } else {
        ImageAt(c, SWITCH_ORDER, w - 16, 0);
      }
    }
  }

  /** Reloading a record from where it was saved gives back every register: each xmm k
      comes back from the slot it was stored to, whatever order the loads run in. */
  lemma DecodeEncode(c: Context)
    requires c.Valid()
    ensures Decode(Encode(c)) == c
  {
  }

  /** Every 39-word stack top is the image of the record it decodes to. */
  lemma EncodeDecode(ws: seq<U64>)
    requires |ws| == 39
    ensures Encode(Decode(ws)) == ws
  {
  }

  /** The record as the struct declares it is laid out with the vector registers reversed:
      the record holding 1 in xmm15 and zero elsewhere reads back with 1 in xmm0. */
  lemma DeclaredImageSwapsVectors()
    ensures var c := New(0).(xmm := New(0).xmm[15 := Vec128(1, 0)]);
            |Image(c, DECLARED)| == 39 && Decode(Image(c, DECLARED)).xmm[0] == Vec128(1, 0) != c.xmm[0]
  {
    var c := New(0).(xmm := New(0).xmm[15 := Vec128(1, 0)]);
    RecordOffsets(DECLARED);
    ImageAt(c, DECLARED, 0, 0);
    ImageAt(c, DECLARED, 0, 1);
  }

  /** A fresh record reads the same in either field order, because `Context::new` zeroes
      every vector field: its image is zero except for the resume address in the last word. */
  lemma NewImage(rip: U64)
    ensures Image(New(rip), DECLARED) == Encode(New(rip))
    ensures forall w :: 0 <= w < 39 ==> Encode(New(rip))[w] == if w == 38 then rip else 0
  {
    var c := New(rip);
    RecordOffsets(DECLARED);
    var ws := Image(c, DECLARED);
    forall w | 0 <= w < 32 ensures ws[w] == 0 {
      ImageAt(c, DECLARED, w / 2, w % 2);
    }
    forall w | 32 <= w < 39 ensures ws[w] == Encode(c)[w] {
      ImageAt(c, DECLARED, w - 16, 0);
    }
  }

  // ------------------------------------------------------------------------------------------
  // The switch

  /** The record of the task that calls `context_switch`: its registers, and as resume
      address the return address its `call` left on top of its stack. */
  function Saved(s: State): (c: Context)
    requires |s.xmm| == 16
    ensures c.Valid()
  {
    Context(s.xmm, s.r15, s.r14, s.r13, s.r12, s.rbp, s.rbx, Read(s.mem, s.rsp))
  }

  /** The record stored in memory at stack top `top`. */
  function ContextAt(m: Memory, top: int): (c: Context)
    ensures c.Valid()
  {
    Decode(Words(m, top, 39))
  }

  /** Where each register of the record at `top` comes from: xmm k from the two words at
      `top + 16*k`, then r15 ... rbx and the resume address from the seven words above them. */
  lemma ContextAtSlots(m: Memory, top: int)
    ensures forall k :: 0 <= k < 16 ==>
              ContextAt(m, top).xmm[k] == Vec128(Read(m, top + 16 * k), Read(m, top + 16 * k + 8))
    ensures ContextAt(m, top).r15 == Read(m, top + 256)
    ensures ContextAt(m, top).r14 == Read(m, top + 264)
    ensures ContextAt(m, top).r13 == Read(m, top + 272)
    ensures ContextAt(m, top).r12 == Read(m, top + 280)
    ensures ContextAt(m, top).rbp == Read(m, top + 288)
    ensures ContextAt(m, top).rbx == Read(m, top + 296)
    ensures ContextAt(m, top).rip == Read(m, top + 304)
  {
  }

  /** Words laid out as `SaveRegisters` leaves them are the first 38 words of the record's
      image: everything but the resume address. */
  lemma SlotsHoldImage(m: Memory, top: int, c: Context)
    requires c.Valid()
    requires forall k :: 0 <= k < 16 ==>
               Read(m, top + 16 * k) == c.xmm[k].lo && Read(m, top + 16 * k + 8) == c.xmm[k].hi
    requires Read(m, top + 256) == c.r15 && Read(m, top + 264) == c.r14
    requires Read(m, top + 272) == c.r13 && Read(m, top + 280) == c.r12
    requires Read(m, top + 288) == c.rbp && Read(m, top + 296) == c.rbx
    ensures forall i :: 0 <= i < 38 ==> Read(m, top + 8 * i) == Encode(c)[i]
  {
  }

  /** Registers loaded as `RestoreRegisters` loads them are the record stored at `top`. */
  lemma SlotsLoadRecord(m: Memory, top: int, c: Context)
    requires c.Valid()
    requires forall k :: 0 <= k < 16 ==>
               c.xmm[k] == Vec128(Read(m, top + 16 * k), Read(m, top + 16 * k + 8))
    requires c.r15 == Read(m, top + 256) && c.r14 == Read(m, top + 264)
    requires c.r13 == Read(m, top + 272) && c.r12 == Read(m, top + 280)
    requires c.rbp == Read(m, top + 288) && c.rbx == Read(m, top + 296)
    requires c.rip == Read(m, top + 304)
    ensures c == ContextAt(m, top)
  {
  }

  /** What the caller of `context_switch` guarantees: `rdi` points to a word, `rsi` is a stack
      top holding a whole record, and the current stack has room for the saved registers
      (stack pointers and the slot are 8-byte aligned). */
  predicate SwitchPre(s: State) {
    |s.xmm| == 16 &&
    s.rsp % 8 == 0 && SAVED_BYTES <= s.rsp &&
    s.rsi % 8 == 0 && s.rsi + CONTEXT_BYTES < TWO_64 &&
    s.rdi % 8 == 0
  }

  /** Memory `m` after the outgoing task of `s` was saved: its registers fill the 38 words
      below the return address, except where the slot `rdi` overlaps them; the slot holds the
      new top of the outgoing stack; no other word changes. */
  ghost predicate OutgoingSaved(s: State, m: Memory)
    requires SwitchPre(s)
  {
    var top := s.rsp - SAVED_BYTES;
    var saved := Encode(Saved(s));
    (forall i :: 0 <= i < 38 && top + 8 * i != s.rdi ==> Read(m, top + 8 * i) == saved[i]) &&
    Read(m, s.rdi) == top &&
    (forall a :: a != s.rdi && (a < top || s.rsp <= a || a % 8 != 0) ==> Read(m, a) == Read(s.mem, a))
  }

  /** `t` is the machine after `context_switch` ran from `s`: the outgoing task is saved in
      memory, the registers are the record at `rsi` (read after those writes), `rsp` is just
      above it, and nothing else changes. */
  ghost predicate Switched(s: State, t: State)
    requires SwitchPre(s)
  {
    var next := ContextAt(t.mem, s.rsi);
    OutgoingSaved(s, t.mem) &&
    t == s.(mem := t.mem, rsp := s.rsi + CONTEXT_BYTES, rip := next.rip,
            rbx := next.rbx, rbp := next.rbp, r12 := next.r12, r13 := next.r13,
            r14 := next.r14, r15 := next.r15, xmm := next.xmm)
  }

  /** The save phase followed by `mov [rdi], rsp` leaves the outgoing task saved. */
  lemma SaveThenPublish(s: State, pushed: Memory)
    requires SwitchPre(s)
    requires forall i :: 0 <= i < 38 ==>
               Read(pushed, s.rsp - SAVED_BYTES + 8 * i) == Encode(Saved(s))[i]
    requires forall a :: (a < s.rsp - SAVED_BYTES || s.rsp <= a || a % 8 != 0) ==>
               Read(pushed, a) == Read(s.mem, a)
    ensures OutgoingSaved(s, pushed[s.rdi := s.rsp - SAVED_BYTES])
  {
  }

  /** `context_switch`: save the outgoing task's registers on its stack, publish its stack top
      through `rdi`, take `rsi` as the stack, reload the registers saved there and return into
      the incoming task. */
  method ContextSwitch(cpu: Cpu)
    requires cpu.Valid() && SwitchPre(cpu.Snapshot())
    modifies cpu
    ensures cpu.Valid()
    ensures Switched(old(cpu.Snapshot()), cpu.Snapshot())
  {
    SaveAndSwitchStacks(cpu);
    RestoreRegisters(cpu);
  }

  /** Lines 94-123: save the outgoing task, publish its stack top through `rdi` and take `rsi`
      as the stack pointer. */
  method SaveAndSwitchStacks(cpu: Cpu)
    requires cpu.Valid() && SwitchPre(cpu.Snapshot())
    modifies cpu`rsp, cpu`mem
    ensures cpu.rsp == cpu.rsi
    ensures OutgoingSaved(old(cpu.Snapshot()), cpu.mem)
  {
    ghost var s := cpu.Snapshot();
    SaveRegisters(cpu);
    assert Saved(s).xmm == cpu.xmm;
    SlotsHoldImage(cpu.mem, cpu.rsp, Saved(s));
    SaveThenPublish(s, cpu.mem);
    cpu.mem := cpu.mem[cpu.rdi := cpu.rsp];
    cpu.rsp := cpu.rsi;
  }

  // ------------------------------------------------------------------------------------------
  // Properties of the switch

  /** The caller guarantees that the incoming record and the slot `rdi` lie outside the area
      the switch saves into, and the slot outside the incoming record. */
  predicate Separate(s: State) {
    var top := s.rsp - SAVED_BYTES;
    (s.rsi + CONTEXT_BYTES <= top || s.rsp <= s.rsi) &&
    !(top <= s.rdi <= s.rsp) &&
    !(s.rsi <= s.rdi < s.rsi + CONTEXT_BYTES)
  }

  /** Once the outgoing task is saved, its whole record, with its return address as resume
      address, sits at the stack top it published. */
  lemma {:induction false} SavedRecord(s: State, m: Memory)
    requires SwitchPre(s) && Separate(s) && OutgoingSaved(s, m)
    ensures ContextAt(m, s.rsp - SAVED_BYTES) == Saved(s)
  {
    var top := s.rsp - SAVED_BYTES;
    var ws := Words(m, top, 39);
    var saved := Encode(Saved(s));
    forall i | 0 <= i < 38 ensures ws[i] == saved[i] {
      assert top + 8 * i != s.rdi;
    }
    assert ws[38] == Read(m, s.rsp) == saved[38];
    assert ws == saved;
    DecodeEncode(Saved(s));
  }

  /** After a switch the outgoing task's whole record, with its return address as resume
      address, sits at the stack top published through `rdi`. */
  lemma SwitchSavesCaller(s: State, t: State)
    requires SwitchPre(s) && Separate(s) && Switched(s, t)
    ensures Read(t.mem, s.rdi) == s.rsp - SAVED_BYTES
    ensures ContextAt(t.mem, s.rsp - SAVED_BYTES) == Saved(s)
  {
    SavedRecord(s, t.mem);
  }

  /** A switch resumes the incoming task with the record that was at `rsi` before it ran:
      the registers it restores, its resume address and the stack pointer just above it. */
  lemma SwitchLoadsIncoming(s: State, t: State)
    requires SwitchPre(s) && Separate(s) && Switched(s, t)
    ensures ContextAt(t.mem, s.rsi) == ContextAt(s.mem, s.rsi)
    ensures t.rsp == s.rsi + CONTEXT_BYTES
    ensures var next := ContextAt(s.mem, s.rsi);
            t.xmm == next.xmm && t.rip == next.rip && t.rbx == next.rbx && t.rbp == next.rbp &&
            t.r12 == next.r12 && t.r13 == next.r13 && t.r14 == next.r14 && t.r15 == next.r15
  {
  }

  /** A task that switches away and is later switched back to, from the stack top it
      published, resumes exactly where it called `context_switch`: the registers the switch
      saves are as they were, execution continues at the return address and the stack pointer
      is as after a plain return. This holds as long as nothing wrote its record meanwhile. */
  lemma SwitchBackRestores(s: State, t: State, u: State, v: State)
    requires SwitchPre(s) && Separate(s) && Switched(s, t)
    requires SwitchPre(u) && Separate(u) && Switched(u, v)
    requires u.rsi == Read(t.mem, s.rdi)
    requires Words(u.mem, u.rsi, 39) == Words(t.mem, u.rsi, 39)
    ensures v.xmm == s.xmm && v.rbx == s.rbx && v.rbp == s.rbp &&
            v.r12 == s.r12 && v.r13 == s.r13 && v.r14 == s.r14 && v.r15 == s.r15
    ensures v.rip == Read(s.mem, s.rsp) && v.rsp == s.rsp + 8
  {
    SwitchSavesCaller(s, t);
    SwitchLoadsIncoming(u, v);
  }

  /** Switching to a task whose stack top holds `Context::new(entry)` starts it at `entry`
      with every restored register zero. */
  lemma FreshTaskStartsAtEntry(s: State, t: State, entry: U64)
    requires SwitchPre(s) && Separate(s) && Switched(s, t)
    requires Words(s.mem, s.rsi, 39) == Encode(New(entry))
    ensures t.rip == entry && t.rsp == s.rsi + CONTEXT_BYTES
    ensures t.rbx == 0 && t.rbp == 0 && t.r12 == 0 && t.r13 == 0 && t.r14 == 0 && t.r15 == 0
    ensures forall k :: 0 <= k < 16 ==> t.xmm[k] == Vec128(0, 0)
  {
    SwitchLoadsIncoming(s, t);
    DecodeEncode(New(entry));
  }

  /** Lines 94-119: push the six general-purpose registers, then store the sixteen vector
      registers below them: xmm k at `[rsp + 16*k]`, then r15, r14, r13, r12, rbp and rbx. */
  method SaveRegisters(cpu: Cpu)
    requires cpu.Valid() && cpu.rsp % 8 == 0 && SAVED_BYTES <= cpu.rsp
    modifies cpu`rsp, cpu`mem
    ensures cpu.rsp == old(cpu.rsp) - SAVED_BYTES
    ensures forall k :: 0 <= k < 16 ==>
              Read(cpu.mem, cpu.rsp + 16 * k) == cpu.xmm[k].lo &&
              Read(cpu.mem, cpu.rsp + 16 * k + 8) == cpu.xmm[k].hi
    ensures Read(cpu.mem, cpu.rsp + 256) == cpu.r15 && Read(cpu.mem, cpu.rsp + 264) == cpu.r14
    ensures Read(cpu.mem, cpu.rsp + 272) == cpu.r13 && Read(cpu.mem, cpu.rsp + 280) == cpu.r12
    ensures Read(cpu.mem, cpu.rsp + 288) == cpu.rbp && Read(cpu.mem, cpu.rsp + 296) == cpu.rbx
    ensures forall a :: (a < cpu.rsp || old(cpu.rsp) <= a || a % 8 != 0) ==>
              Read(cpu.mem, a) == Read(old(cpu.mem), a)
  {
    PushRegisters(cpu);
    cpu.rsp := cpu.rsp - 16 * 16;
    SaveVectors(cpu);
  }

  /** Lines 94-99: push rbx, rbp, r12, r13, r14 and r15. */
  method PushRegisters(cpu: Cpu)
    requires 48 <= cpu.rsp
    modifies cpu`rsp, cpu`mem
    ensures cpu.rsp == old(cpu.rsp) - 48
    ensures cpu.mem == old(cpu.mem)[cpu.rsp + 40 := cpu.rbx][cpu.rsp + 32 := cpu.rbp]
                         [cpu.rsp + 24 := cpu.r12][cpu.rsp + 16 := cpu.r13]
                         [cpu.rsp + 8 := cpu.r14][cpu.rsp := cpu.r15]
  {
    cpu.Push(cpu.rbx);
    cpu.Push(cpu.rbp);
    cpu.Push(cpu.r12);
    cpu.Push(cpu.r13);
    cpu.Push(cpu.r14);
    cpu.Push(cpu.r15);
  }

  /** Lines 104-119: `movdqu [rsp + 16*k], xmm k` for k = 0 to 15. */
  method SaveVectors(cpu: Cpu)
    requires cpu.Valid() && cpu.rsp % 8 == 0
    modifies cpu`mem
    ensures forall k :: 0 <= k < 16 ==>
              Read(cpu.mem, cpu.rsp + 16 * k) == cpu.xmm[k].lo &&
              Read(cpu.mem, cpu.rsp + 16 * k + 8) == cpu.xmm[k].hi
    ensures forall a :: (a < cpu.rsp || cpu.rsp + 256 <= a || a % 8 != 0) ==>
              Read(cpu.mem, a) == Read(old(cpu.mem), a)
  {
    for k := 0 to 16
      invariant forall j :: 0 <= j < k ==>
                  Read(cpu.mem, cpu.rsp + 16 * j) == cpu.xmm[j].lo &&
                  Read(cpu.mem, cpu.rsp + 16 * j + 8) == cpu.xmm[j].hi
      invariant forall a :: (a < cpu.rsp || cpu.rsp + 16 * k <= a || a % 8 != 0) ==>
                  Read(cpu.mem, a) == Read(old(cpu.mem), a)
    {
      cpu.StoreXmm(16 * k, k);
    }
  }

  /** Lines 126-154: reload the sixteen vector registers from `[rsp + 16*k]`, pop r15, r14,
      r13, r12, rbp and rbx from the words above them, and return to the address above those. */
  method RestoreRegisters(cpu: Cpu)
    requires cpu.Valid() && cpu.rsp + CONTEXT_BYTES < TWO_64
    modifies cpu`rsp, cpu`xmm, cpu`r15, cpu`r14, cpu`r13, cpu`r12, cpu`rbp, cpu`rbx, cpu`rip
    ensures cpu.Valid()
    ensures Context(cpu.xmm, cpu.r15, cpu.r14, cpu.r13, cpu.r12, cpu.rbp, cpu.rbx, cpu.rip)
            == ContextAt(cpu.mem, old(cpu.rsp))
    ensures cpu.rsp == old(cpu.rsp) + CONTEXT_BYTES
  {
    ghost var top := cpu.rsp;
    LoadVectors(cpu);
    cpu.rsp := cpu.rsp + 16 * 16;
    PopRegisters(cpu);
    SlotsLoadRecord(cpu.mem, top,
      Context(cpu.xmm, cpu.r15, cpu.r14, cpu.r13, cpu.r12, cpu.rbp, cpu.rbx, cpu.rip));
  }

  /** Lines 145-154: pop r15, r14, r13, r12, rbp and rbx, then `ret` to the word above them. */
  method PopRegisters(cpu: Cpu)
    requires cpu.rsp + 56 < TWO_64
    modifies cpu`rsp, cpu`r15, cpu`r14, cpu`r13, cpu`r12, cpu`rbp, cpu`rbx, cpu`rip
    ensures cpu.r15 == Read(cpu.mem, old(cpu.rsp)) && cpu.r14 == Read(cpu.mem, old(cpu.rsp) + 8)
    ensures cpu.r13 == Read(cpu.mem, old(cpu.rsp) + 16) && cpu.r12 == Read(cpu.mem, old(cpu.rsp) + 24)
    ensures cpu.rbp == Read(cpu.mem, old(cpu.rsp) + 32) && cpu.rbx == Read(cpu.mem, old(cpu.rsp) + 40)
    ensures cpu.rip == Read(cpu.mem, old(cpu.rsp) + 48)
    ensures cpu.rsp == old(cpu.rsp) + 56
  {
    cpu.r15 := cpu.Pop();
    cpu.r14 := cpu.Pop();
    cpu.r13 := cpu.Pop();
    cpu.r12 := cpu.Pop();
    cpu.rbp := cpu.Pop();
    cpu.rbx := cpu.Pop();
    cpu.Ret();
  }

  /** Lines 126-141: `movdqu xmm k, [rsp + 16*k]` for xmm15 down to xmm7, then xmm5, xmm6,
      then xmm4 down to xmm0. */
  method LoadVectors(cpu: Cpu)
    requires cpu.Valid()
    modifies cpu`xmm
    ensures cpu.Valid()
    ensures forall k :: 0 <= k < 16 ==>
              cpu.xmm[k] == Vec128(Read(cpu.mem, cpu.rsp + 16 * k), Read(cpu.mem, cpu.rsp + 16 * k + 8))
  {
    var k := 16;
    while k > 7
      invariant 7 <= k <= 16 && cpu.Valid()
      invariant forall j :: k <= j < 16 ==>
                  cpu.xmm[j] == Vec128(Read(cpu.mem, cpu.rsp + 16 * j), Read(cpu.mem, cpu.rsp + 16 * j + 8))
    {
      k := k - 1;
      cpu.LoadXmm(k, 16 * k);
    }
    cpu.LoadXmm(5, 16 * 5);
    cpu.LoadXmm(6, 16 * 6);
    k := 5;
    while k > 0
      invariant 0 <= k <= 5 && cpu.Valid()
      invariant forall j :: k <= j < 16 ==>
                  cpu.xmm[j] == Vec128(Read(cpu.mem, cpu.rsp + 16 * j), Read(cpu.mem, cpu.rsp + 16 * j + 8))
    {
      k := k - 1;
      cpu.LoadXmm(k, 16 * k);
    }
  }
}
