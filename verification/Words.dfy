/**
 The instruction word and the opcode table (crates/v12-bytecode/src/opcode.rs,
 opspec.rs and wide.rs).

 A word is four bytes: opcode, then the operand slots a, b, c.  Payload words of
 wide operations are words like any other; only their position says that they are
 data.  That is deliberate: a pass that looks at every word sees a payload whose
 top byte happens to be an opcode exactly as it would see an instruction.
 */
module Words {
  datatype Option<+T> = None | Some(value: T)

  type Byte = x: int | 0 <= x < 256

  // The assigned discriminants are the two runs 1..4 and 10..86.
  type Opcode = x: int | 1 <= x <= 4 || 10 <= x <= 86 witness 1

  const MOVE: Opcode := 1
  const LOAD_CONST: Opcode := 2
  const LOAD_INT: Opcode := 3
  const WIDE: Opcode := 4
  const ADD: Opcode := 10
  const SUB: Opcode := 11
  const MUL: Opcode := 12
  const EQ: Opcode := 24
  const NE: Opcode := 25
  const STRICT_EQ: Opcode := 30
  const STRICT_NE: Opcode := 31
  const NOT: Opcode := 32
  const JUMP: Opcode := 34
  const JUMP_IF_FALSE: Opcode := 35
  const JUMP_IF_TRUE: Opcode := 36
  const LOOP_HEADER: Opcode := 37
  const CALL: Opcode := 38
  const RETURN: Opcode := 39
  const THROW: Opcode := 40
  const GET_PROPERTY: Opcode := 41
  const NEW_ARRAY: Opcode := 45
  const CLOSURE: Opcode := 46
  const NEW_ENVIRONMENT: Opcode := 47
  const GET_ENV_SLOT: Opcode := 48
  const SET_ENV_SLOT: Opcode := 49
  const COPY_ARRAY_REST: Opcode := 55
  const COPY_OBJECT_REST: Opcode := 58
  const ARRAY_APPEND: Opcode := 59
  const CONSTRUCT: Opcode := 62
  const MERGE_OBJECT: Opcode := 65
  const DEFINE_ACCESSOR: Opcode := 66
  const JUMP_IF_NULLISH: Opcode := 67
  const GET_ITERATOR: Opcode := 69
  const ITERATOR_NEXT: Opcode := 70
  const ITERATOR_CLOSE: Opcode := 71
  const GEN_RESUME_MODE: Opcode := 74
  const POP_ENVIRONMENT: Opcode := 78
  const DEFINE_ACCESSOR_ENUMERABLE: Opcode := 79

  predicate Assigned(byte: int) {
    1 <= byte <= 4 || 10 <= byte <= 86
  }

  predicate IsCondJump(op: int) {
    op == JUMP_IF_FALSE || op == JUMP_IF_TRUE || op == JUMP_IF_NULLISH
  }

  predicate IsBranch(op: int) {
    op == JUMP || IsCondJump(op)
  }

  predicate IsFoldable(op: int) {
    op == ADD || op == SUB || op == MUL
  }

  // Two digits in base 256, as a sum, which keeps proofs about whole words out of
  // integer arithmetic.
  function Join(hi: nat, lo: nat): nat { if hi == 0 then lo else 256 + Join(hi - 1, lo) }

  lemma {:induction false} JoinSum(hi: nat, lo: nat)
    ensures Join(hi, lo) == hi * 256 + lo
  {
    if hi > 0 { JoinSum(hi - 1, lo); }
  }

  datatype Instr = Instr(op: Byte, a: Byte, b: Byte, c: Byte) {
    function Imm16(): (v: nat)
      ensures v < 0x1_0000
    {
      JoinSum(b, c);
      Join(b, c)
    }

    function Imm24(): (v: nat)
      ensures v < 0x100_0000
    {
      JoinSum(a, b);
      JoinSum(Join(a, b), c);
      Join(Join(a, b), c)
    }

    // The setters keep the bits outside the immediate and drop the value's high bits.
    function SetImm16(v: nat): (w: Instr)
      ensures w.op == op && w.a == a && w.Imm16() == v % 0x1_0000
    {
      var t := v % 0x1_0000;
      JoinSum(t / 256, t % 256);
      Instr(op, a, t / 256, t % 256)
    }

    function SetImm24(v: nat): (w: Instr)
      ensures w.op == op && w.Imm24() == v % 0x100_0000
    {
      var t := v % 0x100_0000;
      JoinSum(t / 65536, t / 256 % 256);
      JoinSum(Join(t / 65536, t / 256 % 256), t % 256);
      Instr(op, t / 65536, t / 256 % 256, t % 256)
    }

    function Hi(): nat { Join(op, a) }

    function Lo(): nat { Join(b, c) }

    function Raw(): nat { Hi() * 0x1_0000 + Lo() }
  }

  function OfHiLo(hi: nat, lo: nat): (w: Instr)
    requires hi < 0x1_0000 && lo < 0x1_0000
    ensures w.Hi() == hi && w.Lo() == lo
  {
    JoinSum(hi / 256, hi % 256);
    JoinSum(lo / 256, lo % 256);
    Instr(hi / 256, hi % 256, lo / 256, lo % 256)
  }

  // The word whose 32 bits are v.
  function OfRaw(v: nat): (w: Instr)
    requires v < 0x1_0000_0000
    ensures w.Raw() == v
  {
    OfHiLo(v / 0x1_0000, v % 0x1_0000)
  }

  // Sign extension of an 8-bit immediate.
  function Sign8(c: Byte): int {
    if c < 128 then c else c - 256
  }

  // ---------------------------------------------------------------------
  // Operand roles.  The register-reading roles of the source that differ only
  // in name (src, condition, object, key, value, argument array, excluded key)
  // are one role here; the roles that reach past their base keep their own name.
  // ---------------------------------------------------------------------

  datatype Role =
    | Unused
    | Dst
    | Src
    | InOut
    | Callee
    | ElemBase
    | Pair
    | Count
    | Depth
    | Slot
    | Flag
    | Imm

  datatype Roles = Roles(a: Role, b: Role, c: Role)

  predicate IsRegister(r: Role) {
    r.Dst? || r.Src? || r.InOut? || r.Callee? || r.ElemBase? || r.Pair?
  }

  predicate IsImmediate(r: Role) {
    r.Count? || r.Depth? || r.Slot? || r.Flag? || r.Imm?
  }

  function RolesOf(op: Opcode): Roles {
    if op == 1 then Roles(Dst, Src, Unused)                                  // Move
    else if op == 2 then Roles(Dst, Imm, Imm)                                // LoadConst
    else if op == 3 then Roles(Dst, Unused, Imm)                             // LoadInt
    else if op == 4 then Roles(Imm, Unused, Imm)                             // Wide
    else if op == 16 || op == 23 || op == 32 || op == 33 then
      Roles(Dst, Src, Unused)                                                // Neg BitNot Not TypeOf
    else if 10 <= op <= 31 then Roles(Dst, Src, Src)                         // binary operators
    else if op == 34 then Roles(Imm, Imm, Imm)                               // Jump
    else if op == 35 || op == 36 || op == 67 then Roles(Src, Imm, Imm)       // conditional jumps
    else if op == 37 || op == 78 then Roles(Unused, Unused, Unused)          // LoopHeader PopEnvironment
    else if op == 38 || op == 62 || op == 80 then Roles(Dst, Callee, Count)  // Call Construct SuperConstruct
    else if op == 57 || op == 81 then Roles(Dst, Callee, Src)                // CallApply SuperConstructApply
    else if op == 39 || op == 40 || op == 56 || op == 82 || op == 83 then
      Roles(Src, Unused, Unused)                                             // Return Throw CheckIsArray CheckThis*
    else if op == 41 || op == 43 || op == 53 || op == 54 || op == 84 then
      Roles(Dst, Src,
            Src)                                                   // Get/DeleteProperty In InstanceOf DerivedResult
    else if op == 42 || op == 72 || op == 86 then Roles(Src, Src, Src)       // SetProperty DefineMethod DefineField
    else if op == 66 || op == 79 then Roles(Src, Src, Pair)                  // DefineAccessor*
    else if op == 68 then Roles(Unused, Src, Src)                            // SetPrototype
    else if op == 44 || op == 63 then Roles(Dst, Unused, Unused)             // NewObject GetNewTarget
    else if op == 45 then Roles(Dst, ElemBase, Count)                        // NewArray
    else if op == 46 || op == 50 then Roles(Dst, Imm, Unused)                // Closure CreateGenerator
    else if op == 47 then Roles(Unused, Slot, Unused)                        // NewEnvironment
    else if op == 48 then Roles(Dst, Depth, Slot)                            // GetEnvSlot
    else if op == 49 then Roles(Depth, Slot, Src)                            // SetEnvSlot
    else if op == 51 then Roles(InOut, Unused, Unused)                       // SuspendYield
    else if op == 52 then Roles(Dst, Src, Flag)                              // Await
    else if op == 55 then Roles(Dst, Src, Imm)                               // CopyArrayRest
    else if op == 58 then Roles(Dst, Src, Src)                               // CopyObjectRest
    else if op == 60 || op == 73 then Roles(Dst, Imm, Imm)                   // GetGlobal*
    else if op == 61 then Roles(Src, Imm, Imm)                               // SetGlobal
    else if op == 65 then Roles(Unused, Dst, Src)                            // MergeObject
    else if op == 71 then Roles(Src, Flag, Unused)                           // IteratorClose
    else if op == 74 then Roles(Dst, InOut, Unused)                          // GenResumeMode
    else Roles(Dst, Src, Unused)   // ArrayAppend ToNumber GetIterator IteratorNext ToPropertyKey
                                   // GetAsyncIterator GetPrototype CheckHeritage
  }

  // ---------------------------------------------------------------------
  // Wide operations.
  // ---------------------------------------------------------------------

  const LOAD_CONST_W: Byte := 0
  const LOAD_INT_W: Byte := 1
  const CALL_W: Byte := 4
  const REG_EXT: Byte := 7
  const MAX_DISC: Byte := 16

  // Words a wide operation with discriminant disc occupies, header included.
  function WideWidth(disc: Byte): nat
    requires disc <= MAX_DISC
  {
    if disc == LOAD_INT_W then 4
    else if disc == REG_EXT || disc == 8 || disc == 9 then 2
    else 3
  }

  // Width of the sequence that starts at code[pc]: a wide header that does not
  // decode (unknown or truncated) counts as one word, like everything narrow.
  function WordWidth(code: seq<Instr>, pc: nat): (w: nat)
    requires pc < |code|
    ensures 1 <= w && pc + w <= |code|
  {
    var h := code[pc];
    if h.op == WIDE && h.c <= MAX_DISC && pc + WideWidth(h.c) <= |code| then WideWidth(h.c) else 1
  }

  predicate MaskHas(mask: Byte, slot: nat)
    requires slot < 3
  {
    if slot == 0 then mask % 2 == 1
    else if slot == 1 then mask / 2 % 2 == 1
    else mask / 4 % 2 == 1
  }

  function Merge(mask: Byte, slot: nat, hi: Byte, lo: Byte): nat
    requires slot < 3
  {
    if MaskHas(mask, slot) then hi * 256 + lo else lo
  }
}
