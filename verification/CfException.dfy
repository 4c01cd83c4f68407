/** ColdFire exception entry and RTE over flat memory: the four-word frame, the swap of
    the two stack pointers, and what nesting them restores. */
module CfException {

  const SR_S: bv32 := 0x2000
  const SR_T: bv32 := 0x8000

  const VEC_ACCESS_ERROR := 2
  const VEC_PRIVILEGE := 8
  const VEC_FORMAT_ERROR := 14

  const SPACE := 0x1_0000_0000
  type Address = x: int | 0 <= x < SPACE
  type Vector = x: int | 0 <= x < 0x100

  /** The part of the processor that exceptions touch. Unmapped memory reads as zero
      and ignores writes. */
  datatype Core = Core(sr: bv32, pc: bv32, a7: Address, otherA7: Address, vbr: Address,
                       mem: seq<bv8>, faultStatus: bv32, halted: bool, fault: bool, inException: bool)

  predicate Supervisor(sr: bv32) { sr & SR_S != 0 }

  /** Address arithmetic modulo 2^32, for small n. */
  function Down(a: Address, n: nat): Address
    requires n < SPACE
  {
    if a >= n then a - n else (a as int) + SPACE - n
  }

  function Up(a: Address, n: nat): Address
    requires n < SPACE
  {
    if (a as int) + n < SPACE then (a as int) + n else (a as int) + n - SPACE
  }

  function Low16(v: bv32): bv32 { v & 0xffff }
  predicate Is16(v: bv32) { v & 0xffff0000 == 0 }

  // ----- memory -----

  function Read8(m: seq<bv8>, a: int): bv8 { if 0 <= a < |m| then m[a] else 0 }

  function Write8(m: seq<bv8>, a: int, v: bv8): (m': seq<bv8>)
    ensures |m'| == |m|
    ensures forall k :: 0 <= k < |m| ==> m'[k] == if k == a then v else m[k]
  {
    if 0 <= a < |m| then m[a := v] else m
  }

  function Word(hi: bv8, lo: bv8): bv32 { Paired(hi as bv32, lo as bv32) }

  function Paired(hi: bv32, lo: bv32): bv32 { (hi << 8) | lo }

  function Join(hi: bv32, lo: bv32): bv32 { (hi << 16) | lo }

  function Read16(m: seq<bv8>, a: Address): bv32 {
    Word(Read8(m, a), Read8(m, Up(a, 1)))
  }

  function Read32(m: seq<bv8>, a: Address): bv32 {
    Join(Read16(m, a), Read16(m, Up(a, 2)))
  }

  function Write16(m: seq<bv8>, a: Address, v: bv32): (m': seq<bv8>)
    ensures |m'| == |m|
  {
    Write8(Write8(m, a, ((v >> 8) & 0xff) as bv8), Up(a, 1), (v & 0xff) as bv8)
  }

  function Write32(m: seq<bv8>, a: Address, v: bv32): (m': seq<bv8>)
    ensures |m'| == |m|
  {
    Write16(Write16(m, a, v >> 16), Up(a, 2), Low16(v))
  }

  // ----- exception entry and RTE -----

  /** update_sp: swap the stack pointers when the mode changes. */
  function UpdateSp(c: Core, newSr: bv32): Core {
    if Supervisor(c.sr) != Supervisor(newSr) then c.(a7 := c.otherA7, otherA7 := c.a7) else c
  }

  /** The format word: format 4, the vector, and the fault status of an access error. */
  function FormatWord(vector: Vector, faultStatus: bv32): bv32 {
    Format4(vector as bv32, if vector == VEC_ACCESS_ERROR then faultStatus else 0)
  }

  function Format4(vector: bv32, faultStatus: bv32): bv32 {
    (4 << 12) | ((vector & 0xff) << 2) | ((faultStatus & 3) << 10)
  }

  function EntrySr(sr: bv32): bv32 { (sr | SR_S) & !SR_T }

  /** cf_exception. */
  function Exception(c: Core, vector: Vector): (r: Core)
    ensures |r.mem| == |c.mem|
  {
    if c.inException then c.(fault := true, halted := true, inException := false)
    else
      var s := UpdateSp(c, EntrySr(c.sr));
      var m1 := Write32(s.mem, Down(s.a7, 4), c.pc);
      var m2 := Write16(m1, Down(s.a7, 6), Low16(c.sr));
      var m3 := Write16(m2, Down(s.a7, 8), FormatWord(vector, c.faultStatus));
      s.(sr := EntrySr(c.sr), a7 := Down(s.a7, 8), mem := m3, halted := false,
         pc := Read32(m3, Up(c.vbr, 4 * vector as int)))
  }

  function Nibble3(w: bv32): bv32 { (w >> 12) & 0xf }

  function FrameFormat(c: Core): bv32 { Nibble3(Read16(c.mem, c.a7)) }

  /** RTE. */
  function Rte(c: Core): (r: Core)
    ensures |r.mem| == |c.mem|
  {
    if !Supervisor(c.sr) then Exception(c, VEC_PRIVILEGE)
    else if FrameFormat(c) != 4 then Exception(c, VEC_FORMAT_ERROR)
    else
      var newSr := Read16(c.mem, Up(c.a7, 2));
      var newPc := Read32(c.mem, Up(c.a7, 4));
      UpdateSp(c.(a7 := Up(c.a7, 8)), newSr).(sr := newSr, pc := newPc)
  }

  // ----- memory round trips -----

  lemma SplitWord(v: bv32)
    requires Is16(v)
    ensures Word(((v >> 8) & 0xff) as bv8, (v & 0xff) as bv8) == v
  {}

  lemma ReadWritten16(m: seq<bv8>, a: Address, v: bv32)
    requires a + 2 <= |m| <= SPACE && Is16(v)
    ensures Read16(Write16(m, a, v), a) == v
    ensures forall k :: 0 <= k < |m| && !(a <= k < a + 2) ==> Write16(m, a, v)[k] == m[k]
  {
    hide Word;
    SplitWord(v);
  }

  lemma Halves(v: bv32)
    ensures Join(v >> 16, Low16(v)) == v && Is16(v >> 16) && Is16(Low16(v))
  {}

  lemma SameBytes16(m: seq<bv8>, m': seq<bv8>, a: Address)
    requires a + 2 <= |m| == |m'| <= SPACE && m[a] == m'[a] && m[a + 1] == m'[a + 1]
    ensures Read16(m, a) == Read16(m', a)
  {
    hide Word;
    assert Up(a, 1) == a + 1;
  }

  lemma ReadWritten32(m: seq<bv8>, a: Address, v: bv32)
    requires a + 4 <= |m| <= SPACE
    ensures Read32(Write32(m, a, v), a) == v
    ensures forall k :: 0 <= k < |m| && !(a <= k < a + 4) ==> Write32(m, a, v)[k] == m[k]
  {
    hide Read16, Write16, Join, Low16, Is16;
    Halves(v);
    var m1 := Write16(m, a, v >> 16);
    var m2 := Write16(m1, a + 2, Low16(v));
    ReadWritten16(m, a, v >> 16);
    ReadWritten16(m1, a + 2, Low16(v));
    SameBytes16(m1, m2, a);
  }

  lemma SameBytes32(m: seq<bv8>, m': seq<bv8>, a: Address)
    requires a + 4 <= |m| == |m'| <= SPACE && forall k :: a <= k < a + 4 ==> m[k] == m'[k]
    ensures Read32(m, a) == Read32(m', a)
  {
    hide Read16, Join;
    assert Up(a, 2) == a + 2;
    SameBytes16(m, m', a);
    SameBytes16(m, m', a + 2);
  }

  // ----- nesting -----

  /** Work done between an exception and its RTE: handlers run code of their own (any PC,
      any status bits but the mode, any stack pointer, a store), and take further
      exceptions. */
  datatype Task =
    | Work(pc: bv32, sr: bv32, a7: Address, addr: int, val: bv8)
    | Trap(vector: Vector, body: seq<Task>)

  function Ssp(c: Core): Address { if Supervisor(c.sr) then c.a7 else c.otherA7 }

  function WorkSr(was: bv32, sr: bv32): bv32 { (sr & 0xffff & !SR_S) | (was & SR_S) }

  function DoWork(c: Core, t: Task): (r: Core)
    requires t.Work?
    ensures |r.mem| == |c.mem|
  {
    c.(pc := t.pc, sr := WorkSr(c.sr, t.sr), a7 := t.a7, mem := Write8(c.mem, t.addr, t.val))
  }

  function Exec(c: Core, t: Task): (r: Core)
    ensures |r.mem| == |c.mem|
    decreases t, 1
  {
    match t
    case Work(_, _, _, _, _) => DoWork(c, t)
    case Trap(vector, body) => Rte(ExecAll(Exception(c, vector), body))
  }

  function ExecAll(c: Core, ts: seq<Task>): (r: Core)
    ensures |r.mem| == |c.mem|
    decreases ts, 0
  {
    if ts == [] then c else Exec(ExecAll(c, ts[..|ts| - 1]), ts[|ts| - 1])
  }

  /** The stack is used properly: no store hits the part in use, [low, top); every frame is
      pushed below it and inside memory; and a handler has its stack pointer back at its
      frame when it returns. */
  predicate Fits(c: Core, t: Task, low: int, top: int)
    decreases t, 1
  {
    match t
    case Work(_, _, _, addr, _) => !(low <= addr < top)
    case Trap(vector, body) =>
      && 8 <= Ssp(c) <= low && low <= top <= |c.mem|
      && FitsAll(Exception(c, vector), body, Ssp(c) - 8, top)
      && ExecAll(Exception(c, vector), body).a7 == Exception(c, vector).a7
  }

  predicate FitsAll(c: Core, ts: seq<Task>, low: int, top: int)
    decreases ts, 0
  {
    ts == [] || (FitsAll(c, ts[..|ts| - 1], low, top) && Fits(ExecAll(c, ts[..|ts| - 1]), ts[|ts| - 1], low, top))
  }

  /** Every RTE in the tree finds format 4. */
  predicate FormatsGood(c: Core, t: Task)
    decreases t, 1
  {
    match t
    case Work(_, _, _, _, _) => true
    case Trap(vector, body) =>
      FormatsAllGood(Exception(c, vector), body) && FrameFormat(ExecAll(Exception(c, vector), body)) == 4
  }

  predicate FormatsAllGood(c: Core, ts: seq<Task>)
    decreases ts, 0
  {
    ts == [] || (FormatsAllGood(c, ts[..|ts| - 1]) && FormatsGood(ExecAll(c, ts[..|ts| - 1]), ts[|ts| - 1]))
  }

  /** Same mode, same shadow stack pointer, and the used part of the stack as it was. */
  predicate Preserved(c: Core, c': Core, low: int, top: int) {
    && Supervisor(c'.sr) == Supervisor(c.sr)
    && c'.otherA7 == c.otherA7 && c'.vbr == c.vbr
    && !c'.inException && |c'.mem| == |c.mem|
    && forall k :: low <= k < top && 0 <= k < |c.mem| ==> c'.mem[k] == c.mem[k]
  }

  lemma Format4IsFour(vector: bv32, faultStatus: bv32)
    ensures var f := Format4(vector, faultStatus); Is16(f) && Nibble3(f) == 4
  {}

  /** No vector and no fault status disturbs the format field. */
  lemma FormatIsFour(vector: Vector, faultStatus: bv32)
    ensures var f := FormatWord(vector, faultStatus); Is16(f) && Nibble3(f) == 4
  {
    hide Format4;
    Format4IsFour(vector as bv32, if vector == VEC_ACCESS_ERROR then faultStatus else 0);
  }

  lemma EntryBits(sr: bv32)
    ensures Supervisor(EntrySr(sr)) && Is16(Low16(sr))
    ensures Supervisor(Low16(sr)) == Supervisor(sr)
  {}

  /** The frame that exception entry leaves on the supervisor stack. */
  predicate FrameAt(m: seq<bv8>, a: Address, vector: Vector, faultStatus: bv32, sr: bv32, pc: bv32) {
    && Read16(m, a) == FormatWord(vector, faultStatus)
    && Read16(m, Up(a, 2)) == Low16(sr)
    && Read32(m, Up(a, 4)) == pc
  }

  /** Four bytes, most significant first. */
  function BigEndian(b0: bv8, b1: bv8, b2: bv8, b3: bv8): bv32 {
    Placed(b0 as bv32, b1 as bv32, b2 as bv32, b3 as bv32)
  }

  function Placed(b0: bv32, b1: bv32, b2: bv32, b3: bv32): bv32 { (b0 << 24) | (b1 << 16) | (b2 << 8) | b3 }

  lemma JoinedBytes(b0: bv8, b1: bv8, b2: bv8, b3: bv8)
    ensures Join(Word(b0, b1), Word(b2, b3)) == BigEndian(b0, b1, b2, b3)
  {
    Shifted(b0 as bv32, b1 as bv32, b2 as bv32, b3 as bv32);
    hide Join, Paired, Placed;
  }

  lemma Shifted(b0: bv32, b1: bv32, b2: bv32, b3: bv32)
    ensures Join(Paired(b0, b1), Paired(b2, b3)) == Placed(b0, b1, b2, b3)
  {
    ShiftedRaw(b0, b1, b2, b3);
  }

  lemma ShiftedRaw(b0: bv32, b1: bv32, b2: bv32, b3: bv32)
    ensures (((b0 << 8) | b1) << 16) | ((b2 << 8) | b3) == (b0 << 24) | (b1 << 16) | (b2 << 8) | b3
  {}

  /** A long word is read most significant byte first, at addresses modulo 2^32. */
  lemma ReadsBigEndian(m: seq<bv8>, a: Address)
    ensures var n := a as int;
      Read32(m, a)
        == BigEndian(Read8(m, n), Read8(m, (n + 1) % SPACE), Read8(m, (n + 2) % SPACE), Read8(m, (n + 3) % SPACE))
  {
    hide Join, Word, BigEndian, Read8;
    var n := a as int;
    assert Up(a, 1) == (n + 1) % SPACE && Up(a, 2) == (n + 2) % SPACE && Up(Up(a, 2), 1) == (n + 3) % SPACE;
    JoinedBytes(Read8(m, n), Read8(m, (n + 1) % SPACE), Read8(m, (n + 2) % SPACE), Read8(m, (n + 3) % SPACE));
  }

  /** The format word: 4 in the top four bits, the fault status of an access error in bits 11
      and 10, the vector in bits 9 to 2. */
  lemma FormatFields(vector: Vector, faultStatus: bv32)
    ensures var f := FormatWord(vector, faultStatus);
      && f >> 12 == 4 && f & 3 == 0 && (f >> 2) & 0xff == vector as bv32
      && (f >> 10) & 3 == if vector == VEC_ACCESS_ERROR then faultStatus & 3 else 0
  {
    SmallVector(vector);
    FieldsOf(vector as bv32, if vector == VEC_ACCESS_ERROR then faultStatus else 0);
    hide Format4;
  }

  lemma SmallVector(vector: Vector)
    ensures vector as bv32 <= 0xff
  {}

  lemma FieldsOf(vector: bv32, status: bv32)
    requires vector <= 0xff
    ensures var f := Format4(vector, status);
      f >> 12 == 4 && f & 3 == 0 && (f >> 2) & 0xff == vector && (f >> 10) & 3 == status & 3
  {}

  /** Entry sets S, clears T and leaves every other status bit. */
  lemma EntryStatus(sr: bv32)
    ensures EntrySr(sr) & 0x2000 == 0x2000 && EntrySr(sr) & 0x8000 == 0 && EntrySr(sr) & !0xa000 == sr & !0xa000
  {}

  /** Where the handler starts: the long word at VBR + 4 * vector, as memory has it after the
      frame is pushed; as it was before, when the frame does not lie over it. */
  lemma EntryHandler(c: Core, vector: Vector)
    requires !c.inException && 8 <= Ssp(c) <= |c.mem| <= SPACE
    ensures var e := Exception(c, vector);
            var n := (c.vbr + 4 * vector) % SPACE;
      && e.pc == BigEndian(Read8(e.mem, n), Read8(e.mem, (n + 1) % SPACE), Read8(e.mem, (n + 2) % SPACE),
                           Read8(e.mem, (n + 3) % SPACE))
      && (n + 4 <= |c.mem| && (n + 4 <= Ssp(c) - 8 || Ssp(c) <= n) ==>
            e.pc == BigEndian(c.mem[n], c.mem[n + 1], c.mem[n + 2], c.mem[n + 3]))
      && !e.halted && e.fault == c.fault
  {
    hide Exception, Read32, FrameAt, EntrySr, BigEndian, Supervisor;
    EntryFrame(c, vector);
    EntryFetches(c, vector);
    var e := Exception(c, vector);
    var n := (c.vbr + 4 * vector) % SPACE;
    assert Up(c.vbr, 4 * vector as int) == n;
    ReadsBigEndian(e.mem, n);
  }

  lemma EntryFetches(c: Core, vector: Vector)
    requires !c.inException
    ensures var e := Exception(c, vector);
      e.pc == Read32(e.mem, Up(c.vbr, 4 * vector as int)) && !e.halted && e.fault == c.fault
  {
    hide Read32, Write16, Write32, FormatWord, EntrySr, Supervisor, Low16;
  }

  lemma EntryFrame(c: Core, vector: Vector)
    requires !c.inException && 8 <= Ssp(c) <= |c.mem| <= SPACE
    ensures var e := Exception(c, vector);
            && e.a7 == Ssp(c) - 8 && e.sr == EntrySr(c.sr) && !e.inException && e.vbr == c.vbr
            && e.otherA7 == (if Supervisor(c.sr) then c.otherA7 else c.a7)
            && FrameAt(e.mem, e.a7, vector, c.faultStatus, c.sr, c.pc)
            && forall k :: 0 <= k < |c.mem| && !(e.a7 <= k < e.a7 + 8) ==> e.mem[k] == c.mem[k]
  {
    hide Read16, Write16, Read32, Write32, FormatWord, Supervisor, EntrySr, Low16, Is16, Nibble3;
    EntryBits(c.sr);
    FormatIsFour(vector, c.faultStatus);
    var a := Ssp(c) - 8;
    var f := FormatWord(vector, c.faultStatus);
    var m1 := Write32(c.mem, a + 4, c.pc);
    var m2 := Write16(m1, a + 2, Low16(c.sr));
    var m3 := Write16(m2, a, f);
    ReadWritten32(c.mem, a + 4, c.pc);
    ReadWritten16(m1, a + 2, Low16(c.sr));
    ReadWritten16(m2, a, f);
    SameBytes32(m1, m3, a + 4);
    SameBytes16(m2, m3, a + 2);
    var s := UpdateSp(c, EntrySr(c.sr));
    assert s.a7 == a + 8;
    assert Down(s.a7, 4) == a + 4 && Down(s.a7, 6) == a + 2 && Down(s.a7, 8) == a;
    assert Up(a, 2) == a + 2 && Up(a, 4) == a + 4;
    assert s.mem == c.mem;
    assert Write32(s.mem, Down(s.a7, 4), c.pc) == m1;
    assert Write16(m1, Down(s.a7, 6), Low16(c.sr)) == m2;
    assert Write16(m2, Down(s.a7, 8), f) == m3;
    assert Exception(c, vector).mem == m3;
    assert FrameAt(m3, a, vector, c.faultStatus, c.sr, c.pc);
  }

  /** An exception during exception entry stops the processor, and touches nothing else. */
  lemma DoubleFault(c: Core, vector: Vector)
    requires c.inException
    ensures var e := Exception(c, vector);
      && e.fault && e.halted && !e.inException
      && e.mem == c.mem && e.sr == c.sr && e.pc == c.pc && e.a7 == c.a7 && e.otherA7 == c.otherA7
  {}

  /** RTE in user mode traps as a privilege violation, vector 8, and on a frame of another
      format as a format error, vector 14; the frame tells where from. */
  lemma RteRefused(c: Core)
    requires !c.inException && 8 <= Ssp(c) <= |c.mem| <= SPACE && (Supervisor(c.sr) ==> FrameFormat(c) != 4)
    ensures var r := Rte(c);
      && r.a7 == Ssp(c) - 8 && r.sr == EntrySr(c.sr)
      && FrameAt(r.mem, r.a7, if Supervisor(c.sr) then 14 else 8, c.faultStatus, c.sr, c.pc)
  {
    hide Exception, FrameAt, EntrySr, FrameFormat, Supervisor;
    EntryFrame(c, if Supervisor(c.sr) then 14 else 8);
  }

  lemma FrameStays(m: seq<bv8>, m': seq<bv8>, a: Address, vector: Vector, faultStatus: bv32, sr: bv32, pc: bv32)
    requires FrameAt(m, a, vector, faultStatus, sr, pc) && a + 8 <= |m| == |m'| <= SPACE
    requires forall k :: a <= k < a + 8 ==> m'[k] == m[k]
    ensures FrameAt(m', a, vector, faultStatus, sr, pc)
  {
    hide Read16, Read32, FormatWord, Low16;
    assert Up(a, 2) == a + 2 && Up(a, 4) == a + 4;
    SameBytes16(m, m', a);
    SameBytes16(m, m', a + 2);
    SameBytes32(m, m', a + 4);
  }

  /** RTE on an intact frame, in supervisor mode. */
  lemma RteReturns(c: Core, vector: Vector, faultStatus: bv32, sr: bv32, pc: bv32)
    requires Supervisor(c.sr) && c.a7 + 8 < SPACE && FrameAt(c.mem, c.a7, vector, faultStatus, sr, pc)
    ensures FrameFormat(c) == 4
    ensures var r := Rte(c);
            && r.sr == Low16(sr) && r.pc == pc && r.mem == c.mem && r.vbr == c.vbr && r.inException == c.inException
            && r.a7 == (if Supervisor(sr) then c.a7 + 8 else c.otherA7)
            && r.otherA7 == (if Supervisor(sr) then c.otherA7 else c.a7 + 8)
  {
    hide Read16, Read32, FormatWord, Supervisor, Low16, Nibble3, Is16;
    FormatIsFour(vector, faultStatus);
    EntryBits(sr);
    assert Up(c.a7, 8) == c.a7 + 8;
  }

  /** One exception, whatever its handler does outside the frames in use, and the RTE. */
  lemma {:induction false} ExecPreserves(c: Core, t: Task, low: int, top: int)
    requires !c.inException && |c.mem| < SPACE && low <= top <= |c.mem| && Fits(c, t, low, top)
    ensures Preserved(c, Exec(c, t), low, top) && FormatsGood(c, t)
    ensures t.Trap? ==> Exec(c, t).pc == c.pc && Exec(c, t).sr == Low16(c.sr) && Exec(c, t).a7 == c.a7
    decreases t, 1
  {
    hide Read16, Read32, Write16, Write32, FormatWord, Exception, Rte, FrameFormat, FrameAt, Low16, Supervisor,
         EntrySr, WorkSr;
    match t
    case Work(_, _, _, _, _) =>
      ModeKept(t.sr, c.sr);
    case Trap(vector, body) =>
      var e := Exception(c, vector);
      EntryFrame(c, vector);
      EntryBits(c.sr);
      ExecAllPreserves(e, body, e.a7, top);
      var b := ExecAll(e, body);
      FrameStays(e.mem, b.mem, e.a7, vector, c.faultStatus, c.sr, c.pc);
      RteReturns(b, vector, c.faultStatus, c.sr, c.pc);
  }

  lemma ModeKept(w: bv32, sr: bv32)
    ensures Supervisor(WorkSr(sr, w)) == Supervisor(sr) && Is16(WorkSr(sr, w))
  {}

  lemma {:induction false} ExecAllPreserves(c: Core, ts: seq<Task>, low: int, top: int)
    requires !c.inException && |c.mem| < SPACE && low <= top <= |c.mem| && FitsAll(c, ts, low, top)
    ensures Preserved(c, ExecAll(c, ts), low, top) && FormatsAllGood(c, ts)
    decreases ts, 0
  {
    hide Exec, Fits, Supervisor, FormatsGood;
    if ts != [] {
      ExecAllPreserves(c, ts[..|ts| - 1], low, top);
      ExecPreserves(ExecAll(c, ts[..|ts| - 1]), ts[|ts| - 1], low, top);
    }
  }

  // ----- the status register has 16 bits -----

  /** cf_reset. */
  const RESET_SR: bv32 := SR_S | 0x0700

  lemma ResetIs16()
    ensures Is16(RESET_SR)
  {}

  lemma EntryIs16(sr: bv32)
    ensures Is16(sr) ==> Is16(EntrySr(sr))
  {}

  lemma WordIs16(hi: bv8, lo: bv8)
    ensures Is16(Word(hi, lo))
  {}

  lemma ExceptionIs16(c: Core, vector: Vector)
    requires Is16(c.sr)
    ensures Is16(Exception(c, vector).sr)
  {
    hide Is16, EntrySr, Write16, Write32, Read32, FormatWord, Supervisor, Low16;
    EntryIs16(c.sr);
  }

  lemma RteIs16(c: Core)
    requires Is16(c.sr)
    ensures Is16(Rte(c).sr)
  {
    hide Is16, Exception, Word, Supervisor, Nibble3, Read32, FrameFormat;
    ExceptionIs16(c, VEC_PRIVILEGE);
    ExceptionIs16(c, VEC_FORMAT_ERROR);
    var a := Up(c.a7, 2);
    WordIs16(Read8(c.mem, a), Read8(c.mem, Up(a, 1)));
  }

  /** Nothing ever sets a bit above 15. */
  lemma {:induction false} ExecIs16(c: Core, t: Task)
    requires Is16(c.sr)
    ensures Is16(Exec(c, t).sr)
    decreases t, 1
  {
    hide Is16, Exception, Rte, WorkSr;
    match t
    case Work(_, _, _, _, _) => ModeKept(t.sr, c.sr);
    case Trap(vector, body) =>
      ExceptionIs16(c, vector);
      ExecAllIs16(Exception(c, vector), body);
      RteIs16(ExecAll(Exception(c, vector), body));
  }

  lemma {:induction false} ExecAllIs16(c: Core, ts: seq<Task>)
    requires Is16(c.sr)
    ensures Is16(ExecAll(c, ts).sr)
    decreases ts, 0
  {
    hide Is16, Exec;
    if ts != [] {
      ExecAllIs16(c, ts[..|ts| - 1]);
      ExecIs16(ExecAll(c, ts[..|ts| - 1]), ts[|ts| - 1]);
    }
  }

  lemma LowIsAll(sr: bv32)
    requires Is16(sr)
    ensures Low16(sr) == sr
  {}

  /** At any time after reset: a properly nested run of exceptions and RTEs that fits the
      stack returns to exactly the same SR, PC and stack pointers, and no RTE in it meets
      a format error. */
  lemma NestingRestores(c0: Core, before: seq<Task>, vector: Vector, body: seq<Task>)
    requires c0.sr == RESET_SR
    requires var c := ExecAll(c0, before);
      !c.inException && |c.mem| < SPACE && Ssp(c) <= |c.mem| && Fits(c, Trap(vector, body), Ssp(c), Ssp(c))
    ensures var c := ExecAll(c0, before);
            var r := Exec(c, Trap(vector, body));
      && r.sr == c.sr && r.pc == c.pc && r.a7 == c.a7 && r.otherA7 == c.otherA7
      && FormatsGood(c, Trap(vector, body))
  {
    hide Exec, Fits, FrameFormat, Exception, Low16, Is16, Supervisor, FormatsGood;
    ResetIs16();
    ExecAllIs16(c0, before);
    var c := ExecAll(c0, before);
    ExecPreserves(c, Trap(vector, body), Ssp(c), Ssp(c));
    LowIsAll(c.sr);
  }

  // ----- in place -----

  class Cpu {
    var sr: bv32
    var pc: bv32
    var a7: Address
    var otherA7: Address
    var vbr: Address
    const mem: array<bv8>
    var faultStatus: bv32
    var halted: bool
    var fault: bool
    var inException: bool

    constructor (size: nat)
      ensures mem.Length == size && !inException
    {
      sr, pc, a7, otherA7, vbr := SR_S, 0, 0, 0, 0;
      mem := new bv8[size](_ => 0);
      faultStatus, halted, fault, inException := 0, false, false, false;
    }

    ghost function View(): Core
      reads this, mem
    {
      Core(sr, pc, a7, otherA7, vbr, mem[..], faultStatus, halted, fault, inException)
    }

    method Store8(a: int, v: bv8)
      modifies mem
      ensures mem[..] == Write8(old(mem[..]), a, v)
    {
      if 0 <= a < mem.Length {
        mem[a] := v;
      }
    }

    method Store16(a: Address, v: bv32)
      modifies mem
      ensures mem[..] == Write16(old(mem[..]), a, v)
    {
      Store8(a, ((v >> 8) & 0xff) as bv8);
      Store8(Up(a, 1), (v & 0xff) as bv8);
    }

    method Store32(a: Address, v: bv32)
      modifies mem
      ensures mem[..] == Write32(old(mem[..]), a, v)
    {
      Store16(a, v >> 16);
      Store16(Up(a, 2), Low16(v));
    }

    method SwapStacks(newSr: bv32)
      modifies this`a7, this`otherA7
      ensures View() == UpdateSp(old(View()), newSr)
    {
      if Supervisor(sr) != Supervisor(newSr) {
        a7, otherA7 := otherA7, a7;
      }
    }

    method Raise(vector: Vector)
      modifies this, mem
      ensures View() == Exception(old(View()), vector)
    {
      hide Write16, Write32, Read32, FormatWord, Supervisor, Low16, EntrySr;
      if inException {
        fault, halted, inException := true, true, false;
        return;
      }
      inException := true;
      var oldSr := sr;
      var newSr := EntrySr(oldSr);
      SwapStacks(newSr);
      sr := newSr;
      ghost var s := a7;
      DownTwice(s);
      a7 := Down(a7, 4);
      Store32(a7, pc);
      a7 := Down(a7, 2);
      Store16(a7, Low16(oldSr));
      a7 := Down(a7, 2);
      Store16(a7, FormatWord(vector, faultStatus));
      pc := Read32(mem[..], Up(vbr, 4 * vector as int));
      halted := false;
      inException := false;
    }

    method ReturnFromException()
      modifies this, mem
      ensures View() == Rte(old(View()))
    {
      hide Read16, Read32, Exception, Supervisor, Nibble3;
      if !Supervisor(sr) {
        Raise(VEC_PRIVILEGE);
        return;
      }
      if FrameFormat(View0(sr, a7, mem[..])) != 4 {
        Raise(VEC_FORMAT_ERROR);
        return;
      }
      UpTwice(a7);
      a7 := Up(a7, 2);
      var newSr := Read16(mem[..], a7);
      a7 := Up(a7, 2);
      var newPc := Read32(mem[..], a7);
      a7 := Up(a7, 4);
      SwapStacks(newSr);
      sr, pc := newSr, newPc;
    }
  }

  /** Enough of a state to look at the frame. */
  function View0(sr: bv32, a7: Address, mem: seq<bv8>): Core {
    Core(sr, 0, a7, 0, 0, mem, 0, false, false, false)
  }

  lemma DownTwice(a: Address)
    ensures Down(Down(a, 4), 2) == Down(a, 6) && Down(Down(a, 6), 2) == Down(a, 8)
  {}

  lemma UpTwice(a: Address)
    ensures Up(Up(a, 2), 2) == Up(a, 4) && Up(Up(a, 4), 4) == Up(a, 8)
  {}
}
