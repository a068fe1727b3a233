/** The processor modes and the packed status register of bofsim.h. */
module StatusRegister {
  import opened Bytes

  /** A byte value of the mode enumeration that names none of its members. */
  type UnnamedCode = x: int | 3 <= x < 256 witness 3

  /**
   * `processor_mode_t`. The three named members, plus any other byte that the
   * unpacking constructor's enum cast can produce.
   */
  datatype Mode = Application | Supervisor | Halt | Unnamed(code: UnnamedCode) {
    predicate IsNamed() { !Unnamed? }
  }

  /** The enumerator values: Application = 0, Supervisor = 1, Halt = 2. */
  function ModeCode(m: Mode): (b: Byte)
    ensures m.IsNamed() <==> b < 3
  {
    match m
    case Application => 0
    case Supervisor => 1
    case Halt => 2
    case Unnamed(c) => c
  }

  /** The cast `processor_mode_t(b)` of a byte to the enumeration. */
  function ModeOf(b: Byte): (m: Mode)
    ensures ModeCode(m) == b
  {
    if b == 0 then Application
    else if b == 1 then Supervisor
    else if b == 2 then Halt
    else Unnamed(b)
  }

  lemma ModeOfCode(m: Mode)
    ensures ModeOf(ModeCode(m)) == m
  {
  }

  /** `status_register_t`: the faulting opcode, the faulting tape cell and the mode. */
  datatype Sr = Sr(opcode: Byte, tape: Byte, mode: Mode)

  /** The default constructor: everything zero, Application mode. */
  function Default(): (s: Sr)
    ensures s.mode == Application && s.opcode == 0 && s.tape == 0
  {
    Sr(0, 0, Application)
  }

  /**
   * `val()`: opcode in bits 0-7, tape in bits 8-15, mode in bits 16-23.
   * The three fields occupy disjoint bit ranges, so the source's `|` of the
   * shifted fields is their sum and each shift by k is a product with 2^k.
   */
  function Val(s: Sr): (r: nat)
    ensures r < 0x100_0000
    ensures r % 0x100 == s.opcode
    ensures r / 0x100 % 0x100 == s.tape
    ensures r / 0x1_0000 == ModeCode(s.mode)
  {
    s.opcode + s.tape * 0x100 + ModeCode(s.mode) * 0x1_0000
  }

  /**
   * The unpacking constructor `status_register_t(uint64_t)`: every field is
   * the byte `(value >> k) & 0xff`; bits 24 and up are dropped.
   */
  function Unpack(value: nat): (s: Sr)
    ensures Val(s) == value % 0x100_0000
  {
    var s := Sr(value % 0x100, value / 0x100 % 0x100, ModeOf(value / 0x1_0000 % 0x100));
    UnpackPacksBack(value, s);
    s
  }

  /** Reassembling the three extracted bytes gives the low 24 bits back. */
  lemma UnpackPacksBack(value: nat, s: Sr)
    requires s.opcode == value % 0x100
    requires s.tape == value / 0x100 % 0x100
    requires ModeCode(s.mode) == value / 0x1_0000 % 0x100
    ensures Val(s) == value % 0x100_0000
  {
    var a, v1 := value % 0x100, value / 0x100;
    var b, v2 := v1 % 0x100, v1 / 0x100;
    var c, v3 := v2 % 0x100, v2 / 0x100;
    assert value == a + 0x100 * v1;
    assert v1 == b + 0x100 * v2;
    assert v2 == value / 0x1_0000;
    assert v2 == c + 0x100 * v3;
    assert value == (a + 0x100 * b + 0x1_0000 * c) + 0x100_0000 * v3;
  }

  /** Unpacking a packed register gives back the same three fields. */
  lemma UnpackVal(s: Sr)
    ensures Unpack(Val(s)) == s
  {
    ModeOfCode(s.mode);
  }

  /** Packing an unpacked value gives back every value that fits in 24 bits. */
  lemma ValUnpack(value: nat)
    requires value < 0x100_0000
    ensures Val(Unpack(value)) == value
  {
  }

  /** `status_register_t(0)` is the default register, and both pack to 0. */
  lemma ZeroIsDefault()
    ensures Unpack(0) == Default()
    ensures Val(Default()) == 0
  {
  }

  /** A trap on '>' over a cell holding 'a' in Supervisor mode packs to 0x1613E. */
  lemma RightTrapFixture()
    ensures Val(Sr('>' as int, 'a' as int, Supervisor)) == 0x1613E
  {
  }
}
