/** The opcode table of the Dalvik bytecode reader: a constant map from an
    opcode byte to its instruction format, mnemonic and the kinds of pool
    reference its operands carry. */
module OpcodeTable {
  import opened Wrappers
  import opened Bytes

  /** The kinds of pool reference an instruction operand can carry. */
  datatype RefKind =
    | StringRef | TypeRef | MethodRef | FieldRef | OffsetRef | KindRef | ProtoRef
    | CallSiteRef | MethodHandleRef | CallMethodRef | CallProtoRef
  {
    /** The numeric INSTRUCT_TYPE_* constant of the writer. */
    function Code(): (c: nat)
      ensures c <= 10
    {
      match this
      case StringRef => 0
      case TypeRef => 1
      case MethodRef => 2
      case FieldRef => 3
      case OffsetRef => 4
      case KindRef => 5
      case ProtoRef => 6
      case CallSiteRef => 7
      case MethodHandleRef => 8
      case CallMethodRef => 9
      case CallProtoRef => 10
    }
  }

  lemma RefKindCodeInjective(k1: RefKind, k2: RefKind)
    ensures k1.Code() == k2.Code() <==> k1 == k2
  {
  }

  /** Instruction formats; the first digit of a format's name is its width in
      16-bit code units. */
  datatype Format =
    | F10x | F10t | F11n | F11x | F12x
    | F20t | F21c | F21h | F21s | F21t | F22b | F22c | F22s | F22t | F22x | F23x
    | F30t | F31c | F31i | F31t | F32x | F35c | F35ms | F3rc | F3rms
    | F51l
  {
    function Width(): (w: nat)
      ensures 1 <= w <= 5
    {
      match this
      case F10x | F10t | F11n | F11x | F12x => 1
      case F20t | F21c | F21h | F21s | F21t | F22b | F22c | F22s | F22t | F22x | F23x => 2
      case F30t | F31c | F31i | F31t | F32x | F35c | F35ms | F3rc | F3rms => 3
      case F51l => 5
    }
  }

  datatype OpcodeInfo = OpcodeInfo(format: Format, mnemonic: string, refs: seq<RefKind>)

  /** OPCODE_TABLE: the entry of an opcode, or None for a byte the table has
      no key for. The table's literal is split by high nibble into rows. */
  function Lookup(op: byte): (r: Option<OpcodeInfo>)
    ensures r.Some? <==> op <= 0xe2 || 0xfa <= op
    ensures r.Some? ==> |r.value.refs| <= 2
  {
    if op < 0x10 then Row0(op)
    else if op < 0x20 then Row1(op)
    else if op < 0x30 then Row2(op)
    else if op < 0x40 then Row3(op)
    else if op < 0x50 then Row4(op)
    else if op < 0x60 then Row5(op)
    else if op < 0x70 then Row6(op)
    else if op < 0x80 then Row7(op)
    else if op < 0x90 then Row8(op)
    else if op < 0xA0 then Row9(op)
    else if op < 0xB0 then RowA(op)
    else if op < 0xC0 then RowB(op)
    else if op < 0xD0 then RowC(op)
    else if op < 0xE0 then RowD(op)
    else if op < 0xF0 then RowE(op)
    else RowF(op)
  }

  function Row0(op: byte): Option<OpcodeInfo>
  {
    match op
    case 0x00 => Some(OpcodeInfo(F10x, "nop", []))
    case 0x01 => Some(OpcodeInfo(F12x, "move", []))
    case 0x02 => Some(OpcodeInfo(F22x, "move/from16", []))
    case 0x03 => Some(OpcodeInfo(F32x, "move/16", []))
    case 0x04 => Some(OpcodeInfo(F12x, "move-wide", []))
    case 0x05 => Some(OpcodeInfo(F22x, "move-wide/from16", []))
    case 0x06 => Some(OpcodeInfo(F32x, "move-wide/16", []))
    case 0x07 => Some(OpcodeInfo(F12x, "move-object", []))
    case 0x08 => Some(OpcodeInfo(F22x, "move-object/from16", []))
    case 0x09 => Some(OpcodeInfo(F32x, "move-object/16", []))
    case 0x0A => Some(OpcodeInfo(F11x, "move-result", []))
    case 0x0B => Some(OpcodeInfo(F11x, "move-result-wide", []))
    case 0x0C => Some(OpcodeInfo(F11x, "move-result-object", []))
    case 0x0D => Some(OpcodeInfo(F11x, "move-exception", []))
    case 0x0E => Some(OpcodeInfo(F10x, "return-void", []))
    case 0x0F => Some(OpcodeInfo(F11x, "return", []))
    case _ => None
  }

  function Row1(op: byte): Option<OpcodeInfo>
  {
    match op
    case 0x10 => Some(OpcodeInfo(F11x, "return-wide", []))
    case 0x11 => Some(OpcodeInfo(F11x, "return-object", []))
    case 0x12 => Some(OpcodeInfo(F11n, "const/4", []))
    case 0x13 => Some(OpcodeInfo(F21s, "const/16", []))
    case 0x14 => Some(OpcodeInfo(F31i, "const", []))
    case 0x15 => Some(OpcodeInfo(F21h, "const/high16", []))
    case 0x16 => Some(OpcodeInfo(F21s, "const-wide/16", []))
    case 0x17 => Some(OpcodeInfo(F31i, "const-wide/32", []))
    case 0x18 => Some(OpcodeInfo(F51l, "const-wide", []))
    case 0x19 => Some(OpcodeInfo(F21h, "const-wide/high16", []))
    case 0x1A => Some(OpcodeInfo(F21c, "const-string", [StringRef]))
    case 0x1B => Some(OpcodeInfo(F31c, "const-string/jumbo", [StringRef]))
    case 0x1C => Some(OpcodeInfo(F21c, "const-class", [TypeRef]))
    case 0x1D => Some(OpcodeInfo(F11x, "monitor-enter", []))
    case 0x1E => Some(OpcodeInfo(F11x, "monitor-exit", []))
    case 0x1F => Some(OpcodeInfo(F21c, "check-cast", [TypeRef]))
    case _ => None
  }

  function Row2(op: byte): Option<OpcodeInfo>
  {
    match op
    case 0x20 => Some(OpcodeInfo(F22c, "instance-of", [TypeRef]))
    case 0x21 => Some(OpcodeInfo(F12x, "array-length", []))
    case 0x22 => Some(OpcodeInfo(F21c, "new-instance", [TypeRef]))
    case 0x23 => Some(OpcodeInfo(F22c, "new-array", [TypeRef]))
    case 0x24 => Some(OpcodeInfo(F35c, "filled-new-array", [TypeRef]))
    case 0x25 => Some(OpcodeInfo(F3rc, "filled-new-array/range", [TypeRef]))
    case 0x26 => Some(OpcodeInfo(F31t, "fill-array-data", []))
    case 0x27 => Some(OpcodeInfo(F11x, "throw", []))
    case 0x28 => Some(OpcodeInfo(F10t, "goto", []))
    case 0x29 => Some(OpcodeInfo(F20t, "goto/16", []))
    case 0x2A => Some(OpcodeInfo(F30t, "goto/32", []))
    case 0x2B => Some(OpcodeInfo(F31t, "packed-switch", []))
    case 0x2C => Some(OpcodeInfo(F31t, "sparse-switch", []))
    case 0x2D => Some(OpcodeInfo(F23x, "cmpl-float", []))
    case 0x2E => Some(OpcodeInfo(F23x, "cmpg-float", []))
    case 0x2F => Some(OpcodeInfo(F23x, "cmpl-double", []))
    case _ => None
  }

  function Row3(op: byte): Option<OpcodeInfo>
  {
    match op
    case 0x30 => Some(OpcodeInfo(F23x, "cmpg-double", []))
    case 0x31 => Some(OpcodeInfo(F23x, "cmp-long", []))
    case 0x32 => Some(OpcodeInfo(F22t, "if-eq", []))
    case 0x33 => Some(OpcodeInfo(F22t, "if-ne", []))
    case 0x34 => Some(OpcodeInfo(F22t, "if-lt", []))
    case 0x35 => Some(OpcodeInfo(F22t, "if-ge", []))
    case 0x36 => Some(OpcodeInfo(F22t, "if-gt", []))
    case 0x37 => Some(OpcodeInfo(F22t, "if-le", []))
    case 0x38 => Some(OpcodeInfo(F21t, "if-eqz", []))
    case 0x39 => Some(OpcodeInfo(F21t, "if-nez", []))
    case 0x3A => Some(OpcodeInfo(F21t, "if-ltz", []))
    case 0x3B => Some(OpcodeInfo(F21t, "if-gez", []))
    case 0x3C => Some(OpcodeInfo(F21t, "if-gtz", []))
    case 0x3D => Some(OpcodeInfo(F21t, "if-lez", []))
    case 0x3E => Some(OpcodeInfo(F10x, "nop", []))
    case 0x3F => Some(OpcodeInfo(F10x, "nop", []))
    case _ => None
  }

  function Row4(op: byte): Option<OpcodeInfo>
  {
    match op
    case 0x40 => Some(OpcodeInfo(F10x, "nop", []))
    case 0x41 => Some(OpcodeInfo(F10x, "nop", []))
    case 0x42 => Some(OpcodeInfo(F10x, "nop", []))
    case 0x43 => Some(OpcodeInfo(F10x, "nop", []))
    case 0x44 => Some(OpcodeInfo(F23x, "aget", []))
    case 0x45 => Some(OpcodeInfo(F23x, "aget-wide", []))
    case 0x46 => Some(OpcodeInfo(F23x, "aget-object", []))
    case 0x47 => Some(OpcodeInfo(F23x, "aget-boolean", []))
    case 0x48 => Some(OpcodeInfo(F23x, "aget-byte", []))
    case 0x49 => Some(OpcodeInfo(F23x, "aget-char", []))
    case 0x4A => Some(OpcodeInfo(F23x, "aget-short", []))
    case 0x4B => Some(OpcodeInfo(F23x, "aput", []))
    case 0x4C => Some(OpcodeInfo(F23x, "aput-wide", []))
    case 0x4D => Some(OpcodeInfo(F23x, "aput-object", []))
    case 0x4E => Some(OpcodeInfo(F23x, "aput-boolean", []))
    case 0x4F => Some(OpcodeInfo(F23x, "aput-byte", []))
    case _ => None
  }

  function Row5(op: byte): Option<OpcodeInfo>
  {
    match op
    case 0x50 => Some(OpcodeInfo(F23x, "aput-char", []))
    case 0x51 => Some(OpcodeInfo(F23x, "aput-short", []))
    case 0x52 => Some(OpcodeInfo(F22c, "iget", [FieldRef]))
    case 0x53 => Some(OpcodeInfo(F22c, "iget-wide", [FieldRef]))
    case 0x54 => Some(OpcodeInfo(F22c, "iget-object", [FieldRef]))
    case 0x55 => Some(OpcodeInfo(F22c, "iget-boolean", [FieldRef]))
    case 0x56 => Some(OpcodeInfo(F22c, "iget-byte", [FieldRef]))
    case 0x57 => Some(OpcodeInfo(F22c, "iget-char", [FieldRef]))
    case 0x58 => Some(OpcodeInfo(F22c, "iget-short", [FieldRef]))
    case 0x59 => Some(OpcodeInfo(F22c, "iput", [FieldRef]))
    case 0x5A => Some(OpcodeInfo(F22c, "iput-wide", [FieldRef]))
    case 0x5B => Some(OpcodeInfo(F22c, "iput-object", [FieldRef]))
    case 0x5C => Some(OpcodeInfo(F22c, "iput-boolean", [FieldRef]))
    case 0x5D => Some(OpcodeInfo(F22c, "iput-byte", [FieldRef]))
    case 0x5E => Some(OpcodeInfo(F22c, "iput-char", [FieldRef]))
    case 0x5F => Some(OpcodeInfo(F22c, "iput-short", [FieldRef]))
    case _ => None
  }

  function Row6(op: byte): Option<OpcodeInfo>
  {
    match op
    case 0x60 => Some(OpcodeInfo(F21c, "sget", [FieldRef]))
    case 0x61 => Some(OpcodeInfo(F21c, "sget-wide", [FieldRef]))
    case 0x62 => Some(OpcodeInfo(F21c, "sget-object", [FieldRef]))
    case 0x63 => Some(OpcodeInfo(F21c, "sget-boolean", [FieldRef]))
    case 0x64 => Some(OpcodeInfo(F21c, "sget-byte", [FieldRef]))
    case 0x65 => Some(OpcodeInfo(F21c, "sget-char", [FieldRef]))
    case 0x66 => Some(OpcodeInfo(F21c, "sget-short", [FieldRef]))
    case 0x67 => Some(OpcodeInfo(F21c, "sput", [FieldRef]))
    case 0x68 => Some(OpcodeInfo(F21c, "sput-wide", [FieldRef]))
    case 0x69 => Some(OpcodeInfo(F21c, "sput-object", [FieldRef]))
    case 0x6A => Some(OpcodeInfo(F21c, "sput-boolean", [FieldRef]))
    case 0x6B => Some(OpcodeInfo(F21c, "sput-byte", [FieldRef]))
    case 0x6C => Some(OpcodeInfo(F21c, "sput-char", [FieldRef]))
    case 0x6D => Some(OpcodeInfo(F21c, "sput-short", [FieldRef]))
    case 0x6E => Some(OpcodeInfo(F35c, "invoke-virtual", [MethodRef]))
    case 0x6F => Some(OpcodeInfo(F35c, "invoke-super", [MethodRef]))
    case _ => None
  }

  function Row7(op: byte): Option<OpcodeInfo>
  {
    match op
    case 0x70 => Some(OpcodeInfo(F35c, "invoke-direct", [MethodRef]))
    case 0x71 => Some(OpcodeInfo(F35c, "invoke-static", [MethodRef]))
    case 0x72 => Some(OpcodeInfo(F35c, "invoke-interface", [MethodRef]))
    case 0x73 => Some(OpcodeInfo(F10x, "nop", []))
    case 0x74 => Some(OpcodeInfo(F3rc, "invoke-virtual/range", [MethodRef]))
    case 0x75 => Some(OpcodeInfo(F3rc, "invoke-super/range", [MethodRef]))
    case 0x76 => Some(OpcodeInfo(F3rc, "invoke-direct/range", [MethodRef]))
    case 0x77 => Some(OpcodeInfo(F3rc, "invoke-static/range", [MethodRef]))
    case 0x78 => Some(OpcodeInfo(F3rc, "invoke-interface/range", [MethodRef]))
    case 0x79 => Some(OpcodeInfo(F10x, "nop", []))
    case 0x7A => Some(OpcodeInfo(F10x, "nop", []))
    case 0x7B => Some(OpcodeInfo(F12x, "neg-int", []))
    case 0x7C => Some(OpcodeInfo(F12x, "not-int", []))
    case 0x7D => Some(OpcodeInfo(F12x, "neg-long", []))
    case 0x7E => Some(OpcodeInfo(F12x, "not-long", []))
    case 0x7F => Some(OpcodeInfo(F12x, "neg-float", []))
    case _ => None
  }

  function Row8(op: byte): Option<OpcodeInfo>
  {
    match op
    case 0x80 => Some(OpcodeInfo(F12x, "neg-double", []))
    case 0x81 => Some(OpcodeInfo(F12x, "int-to-long", []))
    case 0x82 => Some(OpcodeInfo(F12x, "int-to-float", []))
    case 0x83 => Some(OpcodeInfo(F12x, "int-to-double", []))
    case 0x84 => Some(OpcodeInfo(F12x, "long-to-int", []))
    case 0x85 => Some(OpcodeInfo(F12x, "long-to-float", []))
    case 0x86 => Some(OpcodeInfo(F12x, "long-to-double", []))
    case 0x87 => Some(OpcodeInfo(F12x, "float-to-int", []))
    case 0x88 => Some(OpcodeInfo(F12x, "float-to-long", []))
    case 0x89 => Some(OpcodeInfo(F12x, "float-to-double", []))
    case 0x8A => Some(OpcodeInfo(F12x, "double-to-int", []))
    case 0x8B => Some(OpcodeInfo(F12x, "double-to-long", []))
    case 0x8C => Some(OpcodeInfo(F12x, "double-to-float", []))
    case 0x8D => Some(OpcodeInfo(F12x, "int-to-byte", []))
    case 0x8E => Some(OpcodeInfo(F12x, "int-to-char", []))
    case 0x8F => Some(OpcodeInfo(F12x, "int-to-short", []))
    case _ => None
  }

  function Row9(op: byte): Option<OpcodeInfo>
  {
    match op
    case 0x90 => Some(OpcodeInfo(F23x, "add-int", []))
    case 0x91 => Some(OpcodeInfo(F23x, "sub-int", []))
    case 0x92 => Some(OpcodeInfo(F23x, "mul-int", []))
    case 0x93 => Some(OpcodeInfo(F23x, "div-int", []))
    case 0x94 => Some(OpcodeInfo(F23x, "rem-int", []))
    case 0x95 => Some(OpcodeInfo(F23x, "and-int", []))
    case 0x96 => Some(OpcodeInfo(F23x, "or-int", []))
    case 0x97 => Some(OpcodeInfo(F23x, "xor-int", []))
    case 0x98 => Some(OpcodeInfo(F23x, "shl-int", []))
    case 0x99 => Some(OpcodeInfo(F23x, "shr-int", []))
    case 0x9A => Some(OpcodeInfo(F23x, "ushr-int", []))
    case 0x9B => Some(OpcodeInfo(F23x, "add-long", []))
    case 0x9C => Some(OpcodeInfo(F23x, "sub-long", []))
    case 0x9D => Some(OpcodeInfo(F23x, "mul-long", []))
    case 0x9E => Some(OpcodeInfo(F23x, "div-long", []))
    case 0x9F => Some(OpcodeInfo(F23x, "rem-long", []))
    case _ => None
  }

  function RowA(op: byte): Option<OpcodeInfo>
  {
    match op
    case 0xA0 => Some(OpcodeInfo(F23x, "and-long", []))
    case 0xA1 => Some(OpcodeInfo(F23x, "or-long", []))
    case 0xA2 => Some(OpcodeInfo(F23x, "xor-long", []))
    case 0xA3 => Some(OpcodeInfo(F23x, "shl-long", []))
    case 0xA4 => Some(OpcodeInfo(F23x, "shr-long", []))
    case 0xA5 => Some(OpcodeInfo(F23x, "ushr-long", []))
    case 0xA6 => Some(OpcodeInfo(F23x, "add-float", []))
    case 0xA7 => Some(OpcodeInfo(F23x, "sub-float", []))
    case 0xA8 => Some(OpcodeInfo(F23x, "mul-float", []))
    case 0xA9 => Some(OpcodeInfo(F23x, "div-float", []))
    case 0xAA => Some(OpcodeInfo(F23x, "rem-float", []))
    case 0xAB => Some(OpcodeInfo(F23x, "add-double", []))
    case 0xAC => Some(OpcodeInfo(F23x, "sub-double", []))
    case 0xAD => Some(OpcodeInfo(F23x, "mul-double", []))
    case 0xAE => Some(OpcodeInfo(F23x, "div-double", []))
    case 0xAF => Some(OpcodeInfo(F23x, "rem-double", []))
    case _ => None
  }

  function RowB(op: byte): Option<OpcodeInfo>
  {
    match op
    case 0xB0 => Some(OpcodeInfo(F12x, "add-int/2addr", []))
    case 0xB1 => Some(OpcodeInfo(F12x, "sub-int/2addr", []))
    case 0xB2 => Some(OpcodeInfo(F12x, "mul-int/2addr", []))
    case 0xB3 => Some(OpcodeInfo(F12x, "div-int/2addr", []))
    case 0xB4 => Some(OpcodeInfo(F12x, "rem-int/2addr", []))
    case 0xB5 => Some(OpcodeInfo(F12x, "and-int/2addr", []))
    case 0xB6 => Some(OpcodeInfo(F12x, "or-int/2addr", []))
    case 0xB7 => Some(OpcodeInfo(F12x, "xor-int/2addr", []))
    case 0xB8 => Some(OpcodeInfo(F12x, "shl-int/2addr", []))
    case 0xB9 => Some(OpcodeInfo(F12x, "shr-int/2addr", []))
    case 0xBA => Some(OpcodeInfo(F12x, "ushr-int/2addr", []))
    case 0xBB => Some(OpcodeInfo(F12x, "add-long/2addr", []))
    case 0xBC => Some(OpcodeInfo(F12x, "sub-long/2addr", []))
    case 0xBD => Some(OpcodeInfo(F12x, "mul-long/2addr", []))
    case 0xBE => Some(OpcodeInfo(F12x, "div-long/2addr", []))
    case 0xBF => Some(OpcodeInfo(F12x, "rem-long/2addr", []))
    case _ => None
  }

  function RowC(op: byte): Option<OpcodeInfo>
  {
    match op
    case 0xC0 => Some(OpcodeInfo(F12x, "and-long/2addr", []))
    case 0xC1 => Some(OpcodeInfo(F12x, "or-long/2addr", []))
    case 0xC2 => Some(OpcodeInfo(F12x, "xor-long/2addr", []))
    case 0xC3 => Some(OpcodeInfo(F12x, "shl-long/2addr", []))
    case 0xC4 => Some(OpcodeInfo(F12x, "shr-long/2addr", []))
    case 0xC5 => Some(OpcodeInfo(F12x, "ushr-long/2addr", []))
    case 0xC6 => Some(OpcodeInfo(F12x, "add-float/2addr", []))
    case 0xC7 => Some(OpcodeInfo(F12x, "sub-float/2addr", []))
    case 0xC8 => Some(OpcodeInfo(F12x, "mul-float/2addr", []))
    case 0xC9 => Some(OpcodeInfo(F12x, "div-float/2addr", []))
    case 0xCA => Some(OpcodeInfo(F12x, "rem-float/2addr", []))
    case 0xCB => Some(OpcodeInfo(F12x, "add-double/2addr", []))
    case 0xCC => Some(OpcodeInfo(F12x, "sub-double/2addr", []))
    case 0xCD => Some(OpcodeInfo(F12x, "mul-double/2addr", []))
    case 0xCE => Some(OpcodeInfo(F12x, "div-double/2addr", []))
    case 0xCF => Some(OpcodeInfo(F12x, "rem-double/2addr", []))
    case _ => None
  }

  function RowD(op: byte): Option<OpcodeInfo>
  {
    match op
    case 0xD0 => Some(OpcodeInfo(F22s, "add-int/lit16", []))
    case 0xD1 => Some(OpcodeInfo(F22s, "rsub-int", []))
    case 0xD2 => Some(OpcodeInfo(F22s, "mul-int/lit16", []))
    case 0xD3 => Some(OpcodeInfo(F22s, "div-int/lit16", []))
    case 0xD4 => Some(OpcodeInfo(F22s, "rem-int/lit16", []))
    case 0xD5 => Some(OpcodeInfo(F22s, "and-int/lit16", []))
    case 0xD6 => Some(OpcodeInfo(F22s, "or-int/lit16", []))
    case 0xD7 => Some(OpcodeInfo(F22s, "xor-int/lit16", []))
    case 0xD8 => Some(OpcodeInfo(F22b, "add-int/lit8", []))
    case 0xD9 => Some(OpcodeInfo(F22b, "rsub-int/lit8", []))
    case 0xDA => Some(OpcodeInfo(F22b, "mul-int/lit8", []))
    case 0xDB => Some(OpcodeInfo(F22b, "div-int/lit8", []))
    case 0xDC => Some(OpcodeInfo(F22b, "rem-int/lit8", []))
    case 0xDD => Some(OpcodeInfo(F22b, "and-int/lit8", []))
    case 0xDE => Some(OpcodeInfo(F22b, "or-int/lit8", []))
    case 0xDF => Some(OpcodeInfo(F22b, "xor-int/lit8", []))
    case _ => None
  }

  function RowE(op: byte): Option<OpcodeInfo>
  {
    match op
    case 0xE0 => Some(OpcodeInfo(F22b, "shl-int/lit8", []))
    case 0xE1 => Some(OpcodeInfo(F22b, "shr-int/lit8", []))
    case 0xE2 => Some(OpcodeInfo(F22b, "ushr-int/lit8", []))
    case _ => None
  }

  function RowF(op: byte): Option<OpcodeInfo>
  {
    match op
    case 0xFA => Some(OpcodeInfo(F35ms, "invoke-polymorphic", [CallMethodRef, CallProtoRef]))
    case 0xFB => Some(OpcodeInfo(F3rms, "invoke-custom", [CallMethodRef, CallProtoRef]))
    case 0xFC => Some(OpcodeInfo(F22c, "invoke-polymorphic/range", [CallSiteRef]))
    case 0xFD => Some(OpcodeInfo(F21c, "invoke-custom/range", [CallSiteRef]))
    case 0xFE => Some(OpcodeInfo(F21c, "const-method-handle", [MethodHandleRef]))
    case 0xFF => Some(OpcodeInfo(F21c, "const-method-type", [ProtoRef]))
    case _ => None
  }

  /** The invoke-static opcodes (plain and range form). The writer's
      InstructionUtil is not part of this model; InvokeStaticOpcodes ties
      the two opcodes to the table's mnemonics. */
  predicate IsInvokeStatic(op: byte)
  {
    op == 0x71 || op == 0x77
  }

  /** The invoke-polymorphic opcodes, tied to the table by
      InvokePolymorphicOpcodes. */
  predicate IsInvokePolymorphic(op: byte)
  {
    op == 0xfa || op == 0xfc
  }

  lemma UnusedSlotsAreNops(op: byte)
    requires 0x3e <= op <= 0x43 || op == 0x73 || op == 0x79 || op == 0x7a
    ensures Lookup(op) == Some(OpcodeInfo(F10x, "nop", []))
  {
  }

  lemma StringAndTypeReferences(op: byte)
    ensures op == 0x1a ==> Lookup(op) == Some(OpcodeInfo(F21c, "const-string", [StringRef]))
    ensures op == 0x1b ==> Lookup(op) == Some(OpcodeInfo(F31c, "const-string/jumbo", [StringRef]))
    ensures op in {0x1c, 0x1f, 0x20, 0x22, 0x23, 0x24, 0x25} ==>
      Lookup(op).Some? && Lookup(op).value.refs == [TypeRef]
  {
  }

  lemma FieldReferences(op: byte)
    ensures 0x52 <= op <= 0x5f ==> Lookup(op).Some? && Lookup(op).value.format == F22c && Lookup(op).value.refs == [FieldRef]
    ensures 0x60 <= op <= 0x6d ==> Lookup(op).Some? && Lookup(op).value.format == F21c && Lookup(op).value.refs == [FieldRef]
  {
  }

  lemma MethodReferences(op: byte)
    ensures 0x6e <= op <= 0x72 ==> Lookup(op).Some? && Lookup(op).value.format == F35c && Lookup(op).value.refs == [MethodRef]
    ensures 0x74 <= op <= 0x78 ==> Lookup(op).Some? && Lookup(op).value.format == F3rc && Lookup(op).value.refs == [MethodRef]
  {
  }

  lemma OdexReferences()
    ensures Lookup(0xfa).Some? && Lookup(0xfa).value.refs == [CallMethodRef, CallProtoRef]
    ensures Lookup(0xfb).Some? && Lookup(0xfb).value.refs == [CallMethodRef, CallProtoRef]
    ensures Lookup(0xfe).Some? && Lookup(0xfe).value.refs == [MethodHandleRef]
    ensures Lookup(0xff).Some? && Lookup(0xff).value.refs == [ProtoRef]
  {
  }

  lemma ArithmeticHasNoReferences(op: byte)
    requires 0x7b <= op <= 0xe2
    ensures Lookup(op).Some? && Lookup(op).value.refs == []
  {
  }

  /** Exactly the ten invoke opcodes of 0x6e-0x78 carry a method reference. */
  lemma MethodReferenceOpcodes(op: byte)
    ensures (Lookup(op).Some? && MethodRef in Lookup(op).value.refs) <==> (0x6e <= op <= 0x78 && op != 0x73)
  {
  }

  /** The table names exactly the invoke-static opcodes invoke-static and
      invoke-static/range. */
  lemma InvokeStaticOpcodes(op: byte)
    ensures (Lookup(op).Some? && Lookup(op).value.mnemonic in {"invoke-static", "invoke-static/range"}) <==> IsInvokeStatic(op)
  {
  }

  /** The table names exactly the invoke-polymorphic opcodes
      invoke-polymorphic and invoke-polymorphic/range. */
  lemma InvokePolymorphicOpcodes(op: byte)
    ensures (Lookup(op).Some? && Lookup(op).value.mnemonic in {"invoke-polymorphic", "invoke-polymorphic/range"}) <==> IsInvokePolymorphic(op)
  {
  }
}
