/**
 * The GFXPIPE command dword of the Intel Xe driver
 * (drivers/gpu/drm/xe/instructions/xe_gfxpipe_commands.h): the instruction
 * type in bits 31:29, the pipeline in 28:27, the opcode in 26:24 and the
 * subopcode in 23:16. The parser recognises a command by these four fields,
 * the union of which is GFXPIPE_MATCH_MASK (bits 31:16); the low half holds
 * command-specific data such as a dword length.
 */
module XeGfxpipe {
  import opened Bits
  import opened Order

  datatype Pipeline = Common | SingleDw | Compute | ThreeD

  /** PIPELINE_COMMON, _SINGLE_DW, _COMPUTE and _3D are the pipeline field values 0 to 3. */
  function PipelineValue(p: Pipeline): (r: nat)
    ensures r < 4
  {
    match p
    case Common => 0
    case SingleDw => 1
    case Compute => 2
    case ThreeD => 3
  }

  lemma PipelineValueInjective(p: Pipeline, q: Pipeline)
    ensures PipelineValue(p) == PipelineValue(q) <==> p == q
  {
  }

  /** The instruction-type value of XE_INSTR_GFXPIPE (defined in xe_instr_defs.h). */
  const GfxpipeType: nat := 3

  const CmdTypeField := Field(29, 3)
  /** GFXPIPE_PIPELINE, GENMASK(28, 27). */
  const PipelineField := Field(27, 2)
  /** GFXPIPE_OPCODE, GENMASK(26, 24). */
  const OpcodeField := Field(24, 3)
  /** GFXPIPE_SUBOPCODE, GENMASK(23, 16). */
  const SubopcodeField := Field(16, 8)
  /** CMD_3DSTATE_SO_DECL_LIST_DW_LEN, GENMASK(8, 0). */
  const SoDeclListDwLenField := Field(0, 9)

  const U32: nat := 0x1_0000_0000

  /**
   * GFXPIPE_COMMON_CMD, _SINGLE_DW_CMD, _3D_CMD and _COMPUTE_CMD: the GFXPIPE
   * type with the pipeline, opcode and subopcode fields. REG_FIELD_PREP
   * masks each value to its field, and the fields do not overlap, so their
   * OR is the sum written here.
   */
  function Cmd(p: Pipeline, opcode: nat, subopcode: nat): nat
  {
    (((GfxpipeType * 4 + PipelineValue(p)) * 8 + opcode % 8) * 0x100 + subopcode % 0x100) * 0x1_0000
  }

  /** The command is the sum of the four REG_FIELD_PREP values of the macro. */
  lemma CmdFieldPrep(p: Pipeline, opcode: nat, subopcode: nat)
    ensures Cmd(p, opcode, subopcode) ==
            Encode(GfxpipeType, CmdTypeField) + Encode(PipelineValue(p), PipelineField) +
            Encode(opcode, OpcodeField) + Encode(subopcode, SubopcodeField)
  {
    Pow2Small();
    assert Pow2(2) == 4 && Pow2(3) == 8;
    Pow2Add(16, 8);
    Pow2Add(24, 3);
    Pow2Add(27, 2);
  }

  /**
   * The macros' value itself: the GFXPIPE type OR'd with the three
   * REG_FIELD_PREP values, left to right, on 32 bits, is `Cmd`.
   */
  lemma CmdIsOr(p: Pipeline, opcode: nat, subopcode: nat)
    ensures Cmd(p, opcode, subopcode) ==
            Or(Or(Or(Encode(GfxpipeType, CmdTypeField), Encode(PipelineValue(p), PipelineField), 32),
                  Encode(opcode, OpcodeField), 32),
               Encode(subopcode, SubopcodeField), 32)
  {
    FieldValues(PipelineValue(p), opcode, subopcode);
    OrSteps(PipelineValue(p), opcode % 8, subopcode % 0x100, 32);
  }

  /** The four REG_FIELD_PREP values as plain multiples. */
  lemma FieldValues(pv: nat, opcode: nat, subopcode: nat)
    requires pv < 4
    ensures Encode(GfxpipeType, CmdTypeField) == 0x6000_0000
    ensures Encode(pv, PipelineField) == pv * 0x800_0000
    ensures Encode(opcode, OpcodeField) == (opcode % 8) * 0x100_0000
    ensures Encode(subopcode, SubopcodeField) == (subopcode % 0x100) * 0x1_0000
  {
    Pow2Small();
    assert Pow2(2) == 4 && Pow2(3) == 8;
    Pow2Add(16, 8);
    Pow2Add(24, 3);
    Pow2Add(27, 2);
  }

  /** The three ORs of disjoint fields are sums. */
  lemma OrSteps(pv: nat, o: nat, s: nat, n: nat)
    requires pv < 4 && o < 8 && s < 0x100 && n == 32
    ensures Or(Or(Or(0x6000_0000, pv * 0x800_0000, n), o * 0x100_0000, n), s * 0x1_0000, n) ==
            0x6000_0000 + pv * 0x800_0000 + o * 0x100_0000 + s * 0x1_0000
  {
    Pow2Small();
    assert Pow2(2) == 4 && Pow2(3) == 8;
    Pow2Add(16, 8);
    Pow2Add(24, 3);
    Pow2Add(27, 2);
    Pow2Add(29, 3);
    assert Pow2(29) == 0x2000_0000 && Pow2(27) == 0x800_0000 && Pow2(24) == 0x100_0000 && Pow2(32) == 0x1_0000_0000;
    var x0, x1, x2 := 0x6000_0000, 0x6000_0000 + pv * 0x800_0000, 0x6000_0000 + pv * 0x800_0000 + o * 0x100_0000;
    assert x0 == 3 * Pow2(29) && x1 == (12 + pv) * Pow2(27) && x2 == (96 + 8 * pv + o) * Pow2(24);
    OrDisjoint(3, pv * 0x800_0000, 29, n);
    OrDisjoint(12 + pv, o * 0x100_0000, 27, n);
    OrDisjoint(96 + 8 * pv + o, s * 0x1_0000, 24, n);
  }

  // The four fields of a dword, as FIELD_GET would read them.
  function TypeOf(x: nat): nat { (x / 0x2000_0000) % 8 }
  function PipelineOf(x: nat): nat { (x / 0x800_0000) % 4 }
  function OpcodeOf(x: nat): nat { (x / 0x100_0000) % 8 }
  function SubopcodeOf(x: nat): nat { (x / 0x1_0000) % 0x100 }

  /** The extractors read the fields the macros fill. */
  lemma ExtractorsAreGet(x: nat)
    ensures TypeOf(x) == Get(x, CmdTypeField) && PipelineOf(x) == Get(x, PipelineField)
    ensures OpcodeOf(x) == Get(x, OpcodeField) && SubopcodeOf(x) == Get(x, SubopcodeField)
  {
    Pow2Small();
    assert Pow2(2) == 4 && Pow2(3) == 8;
    Pow2Add(16, 8);
    Pow2Add(24, 3);
    Pow2Add(27, 2);
  }

  /** `x & GFXPIPE_MATCH_MASK` for a dword: the mask is bits 31:16. */
  function Masked(x: nat): (r: nat)
    requires x < U32
    ensures r < U32 && r % 0x1_0000 == 0
  {
    DivAdd(x / 0x1_0000, 0x1_0000, 0);
    (x / 0x1_0000) * 0x1_0000
  }

  /** Reading the fields of a macro-built command returns its arguments, and its low half is clear. */
  lemma CmdFields(p: Pipeline, opcode: nat, subopcode: nat)
    requires opcode < 8 && subopcode < 0x100
    ensures Cmd(p, opcode, subopcode) < U32 && Cmd(p, opcode, subopcode) % 0x1_0000 == 0
    ensures TypeOf(Cmd(p, opcode, subopcode)) == GfxpipeType
    ensures PipelineOf(Cmd(p, opcode, subopcode)) == PipelineValue(p)
    ensures OpcodeOf(Cmd(p, opcode, subopcode)) == opcode
    ensures SubopcodeOf(Cmd(p, opcode, subopcode)) == subopcode
  {
    var pv := PipelineValue(p);
    var top := GfxpipeType * 4 + pv;
    var h := (top * 8 + opcode) * 0x100 + subopcode;
    HeaderFields(top, opcode, subopcode);
    DwordOfHeader(h);
    assert Cmd(p, opcode, subopcode) == h * 0x1_0000;
    DivAdd(GfxpipeType, 4, pv);
    DivAdd(0, 4, pv);
  }

  /** The fields of a 16-bit header `top:opcode:subopcode` with 5, 3 and 8 bits. */
  lemma HeaderFields(top: nat, opcode: nat, subopcode: nat)
    requires top < 0x20 && opcode < 8 && subopcode < 0x100
    ensures var h := (top * 8 + opcode) * 0x100 + subopcode;
            h < 0x1_0000 && h % 0x100 == subopcode && (h / 0x100) % 8 == opcode &&
            h / 0x800 == top && h / 0x2000 == top / 4
  {
    var mid := top * 8 + opcode;
    var h := mid * 0x100 + subopcode;
    DivAdd(mid, 0x100, subopcode);
    DivAdd(top, 8, opcode);
    DivAdd(0, 8, opcode);
    DivDiv(h, 0x100, 8);
    DivDiv(h, 0x800, 4);
  }

  /** A header in the upper half of a dword: shifting the dword is shifting the header. */
  lemma DwordOfHeader(h: nat)
    requires h < 0x1_0000
    ensures h * 0x1_0000 < U32 && (h * 0x1_0000) % 0x1_0000 == 0
    ensures (h * 0x1_0000) / 0x1_0000 == h && (h * 0x1_0000) / 0x100_0000 == h / 0x100
    ensures (h * 0x1_0000) / 0x800_0000 == h / 0x800 && (h * 0x1_0000) / 0x2000_0000 == h / 0x2000
  {
    var x := h * 0x1_0000;
    DivAdd(h, 0x1_0000, 0);
    DivDiv(x, 0x1_0000, 0x100);
    DivDiv(x, 0x1_0000, 0x800);
    DivDiv(x, 0x1_0000, 0x2000);
  }

  /**
   * Data below bit 16, such as the SO_DECL_LIST dword length, does not
   * change what the command matches.
   */
  lemma MatchIgnoresLowBits(p: Pipeline, opcode: nat, subopcode: nat, low: nat)
    requires opcode < 8 && subopcode < 0x100 && low < 0x1_0000
    ensures Cmd(p, opcode, subopcode) + low < U32
    ensures Masked(Cmd(p, opcode, subopcode) + low) == Cmd(p, opcode, subopcode)
  {
    CmdFields(p, opcode, subopcode);
    var c := Cmd(p, opcode, subopcode);
    DivAdd(c / 0x1_0000, 0x1_0000, low);
  }

  /** The dword-length field lies outside the match mask. */
  lemma DwLenOutsideMask(len: int)
    ensures Encode(len, SoDeclListDwLenField) < 0x1_0000
  {
    Pow2Small();
    Pow2Monotone(9, 16);
  }

  /** Two macro-built commands agree under the match mask exactly when all three arguments agree. */
  lemma MatchIff(p1: Pipeline, op1: nat, sub1: nat, p2: Pipeline, op2: nat, sub2: nat)
    requires op1 < 8 && sub1 < 0x100 && op2 < 8 && sub2 < 0x100
    ensures Cmd(p1, op1, sub1) < U32 && Cmd(p2, op2, sub2) < U32
    ensures Masked(Cmd(p1, op1, sub1)) == Masked(Cmd(p2, op2, sub2)) <==> p1 == p2 && op1 == op2 && sub1 == sub2
  {
    MatchIgnoresLowBits(p1, op1, sub1, 0);
    MatchIgnoresLowBits(p2, op2, sub2, 0);
    CmdFields(p1, op1, sub1);
    CmdFields(p2, op2, sub2);
    PipelineValueInjective(p1, p2);
  }

  // ---------------------------------------------------------------- named commands

  /** A named command constant: its pipeline macro and its two arguments. */
  datatype Named = Named(pipeline: Pipeline, opcode: nat, subopcode: nat)

  predicate InRange(n: Named)
  {
    n.opcode < 8 && n.subopcode < 0x100
  }

  /** An order on commands: pipeline, then opcode, then subopcode. */
  function Key(n: Named): int
  {
    PipelineValue(n.pipeline) * 0x800 + n.opcode * 0x100 + n.subopcode
  }

  function Keys(s: seq<Named>): (r: seq<int>)
    ensures |r| == |s| && forall i :: 0 <= i < |s| ==> r[i] == Key(s[i])
  {
    seq(|s|, i requires 0 <= i < |s| => Key(s[i]))
  }

  predicate WellOrdered(s: seq<Named>)
  {
    (forall i :: 0 <= i < |s| ==> InRange(s[i])) && Increasing(Keys(s))
  }

  /** Lines 45-55. */
  const Named0: seq<Named> := [
    Named(Common, 0x1, 0x1),  // STATE_BASE_ADDRESS
    Named(Common, 0x1, 0x2),  // STATE_SIP
    Named(Common, 0x1, 0x4),  // GPGPU_CSR_BASE_ADDRESS
    Named(Common, 0x1, 0x5),  // STATE_COMPUTE_MODE
    Named(Common, 0x1, 0x6),  // CMD_3DSTATE_BTD
    Named(Common, 0x1, 0x9),  // STATE_SYSTEM_MEM_FENCE_ADDRESS
    Named(Common, 0x1, 0xB),  // STATE_CONTEXT_DATA_BASE_ADDRESS
    Named(SingleDw, 0x0, 0xB),  // CMD_3DSTATE_VF_STATISTICS
    Named(SingleDw, 0x1, 0x4)  // PIPELINE_SELECT
  ]

  /** Lines 57-77. */
  const Named1: seq<Named> := [
    Named(ThreeD, 0x0, 0x0),  // CMD_3DSTATE_DRAWING_RECTANGLE_FAST
    Named(ThreeD, 0x0, 0x4),  // CMD_3DSTATE_CLEAR_PARAMS
    Named(ThreeD, 0x0, 0x5),  // CMD_3DSTATE_DEPTH_BUFFER
    Named(ThreeD, 0x0, 0x6),  // CMD_3DSTATE_STENCIL_BUFFER
    Named(ThreeD, 0x0, 0x7),  // CMD_3DSTATE_HIER_DEPTH_BUFFER
    Named(ThreeD, 0x0, 0x8),  // CMD_3DSTATE_VERTEX_BUFFERS
    Named(ThreeD, 0x0, 0x9),  // CMD_3DSTATE_VERTEX_ELEMENTS
    Named(ThreeD, 0x0, 0xA),  // CMD_3DSTATE_INDEX_BUFFER
    Named(ThreeD, 0x0, 0xC),  // CMD_3DSTATE_VF
    Named(ThreeD, 0x0, 0xD),  // CMD_3DSTATE_MULTISAMPLE
    Named(ThreeD, 0x0, 0xE),  // CMD_3DSTATE_CC_STATE_POINTERS
    Named(ThreeD, 0x0, 0xF),  // CMD_3DSTATE_SCISSOR_STATE_POINTERS
    Named(ThreeD, 0x0, 0x10),  // CMD_3DSTATE_VS
    Named(ThreeD, 0x0, 0x11),  // CMD_3DSTATE_GS
    Named(ThreeD, 0x0, 0x12),  // CMD_3DSTATE_CLIP
    Named(ThreeD, 0x0, 0x13),  // CMD_3DSTATE_SF
    Named(ThreeD, 0x0, 0x14),  // CMD_3DSTATE_WM
    Named(ThreeD, 0x0, 0x15),  // CMD_3DSTATE_CONSTANT_VS
    Named(ThreeD, 0x0, 0x16),  // CMD_3DSTATE_CONSTANT_GS
    Named(ThreeD, 0x0, 0x17),  // CMD_3DSTATE_CONSTANT_PS
    Named(ThreeD, 0x0, 0x18)  // CMD_3DSTATE_SAMPLE_MASK
  ]

  /** Lines 78-98. */
  const Named2: seq<Named> := [
    Named(ThreeD, 0x0, 0x19),  // CMD_3DSTATE_CONSTANT_HS
    Named(ThreeD, 0x0, 0x1A),  // CMD_3DSTATE_CONSTANT_DS
    Named(ThreeD, 0x0, 0x1B),  // CMD_3DSTATE_HS
    Named(ThreeD, 0x0, 0x1C),  // CMD_3DSTATE_TE
    Named(ThreeD, 0x0, 0x1D),  // CMD_3DSTATE_DS
    Named(ThreeD, 0x0, 0x1E),  // CMD_3DSTATE_STREAMOUT
    Named(ThreeD, 0x0, 0x1F),  // CMD_3DSTATE_SBE
    Named(ThreeD, 0x0, 0x20),  // CMD_3DSTATE_PS
    Named(ThreeD, 0x0, 0x21),  // CMD_3DSTATE_VIEWPORT_STATE_POINTERS_SF_CLIP
    Named(ThreeD, 0x0, 0x22),  // CMD_3DSTATE_CPS_POINTERS
    Named(ThreeD, 0x0, 0x23),  // CMD_3DSTATE_VIEWPORT_STATE_POINTERS_CC
    Named(ThreeD, 0x0, 0x24),  // CMD_3DSTATE_BLEND_STATE_POINTERS
    Named(ThreeD, 0x0, 0x26),  // CMD_3DSTATE_BINDING_TABLE_POINTERS_VS
    Named(ThreeD, 0x0, 0x27),  // CMD_3DSTATE_BINDING_TABLE_POINTERS_HS
    Named(ThreeD, 0x0, 0x28),  // CMD_3DSTATE_BINDING_TABLE_POINTERS_DS
    Named(ThreeD, 0x0, 0x29),  // CMD_3DSTATE_BINDING_TABLE_POINTERS_GS
    Named(ThreeD, 0x0, 0x2A),  // CMD_3DSTATE_BINDING_TABLE_POINTERS_PS
    Named(ThreeD, 0x0, 0x2B),  // CMD_3DSTATE_SAMPLER_STATE_POINTERS_VS
    Named(ThreeD, 0x0, 0x2C),  // CMD_3DSTATE_SAMPLER_STATE_POINTERS_HS
    Named(ThreeD, 0x0, 0x2D),  // CMD_3DSTATE_SAMPLER_STATE_POINTERS_DS
    Named(ThreeD, 0x0, 0x2E)  // CMD_3DSTATE_SAMPLER_STATE_POINTERS_GS
  ]

  /** Lines 99-119. */
  const Named3: seq<Named> := [
    Named(ThreeD, 0x0, 0x2F),  // CMD_3DSTATE_SAMPLER_STATE_POINTERS_PS
    Named(ThreeD, 0x0, 0x49),  // CMD_3DSTATE_VF_INSTANCING
    Named(ThreeD, 0x0, 0x4A),  // CMD_3DSTATE_VF_SGVS
    Named(ThreeD, 0x0, 0x4B),  // CMD_3DSTATE_VF_TOPOLOGY
    Named(ThreeD, 0x0, 0x4C),  // CMD_3DSTATE_WM_CHROMAKEY
    Named(ThreeD, 0x0, 0x4D),  // CMD_3DSTATE_PS_BLEND
    Named(ThreeD, 0x0, 0x4E),  // CMD_3DSTATE_WM_DEPTH_STENCIL
    Named(ThreeD, 0x0, 0x4F),  // CMD_3DSTATE_PS_EXTRA
    Named(ThreeD, 0x0, 0x50),  // CMD_3DSTATE_RASTER
    Named(ThreeD, 0x0, 0x51),  // CMD_3DSTATE_SBE_SWIZ
    Named(ThreeD, 0x0, 0x52),  // CMD_3DSTATE_WM_HZ_OP
    Named(ThreeD, 0x0, 0x55),  // CMD_3DSTATE_VF_COMPONENT_PACKING
    Named(ThreeD, 0x0, 0x56),  // CMD_3DSTATE_VF_SGVS_2
    Named(ThreeD, 0x0, 0x57),  // CMD_3DSTATE_VFG
    Named(ThreeD, 0x0, 0x58),  // CMD_3DSTATE_URB_ALLOC_VS
    Named(ThreeD, 0x0, 0x59),  // CMD_3DSTATE_URB_ALLOC_HS
    Named(ThreeD, 0x0, 0x5A),  // CMD_3DSTATE_URB_ALLOC_DS
    Named(ThreeD, 0x0, 0x5B),  // CMD_3DSTATE_URB_ALLOC_GS
    Named(ThreeD, 0x0, 0x60),  // CMD_3DSTATE_SO_BUFFER_INDEX_0
    Named(ThreeD, 0x0, 0x61),  // CMD_3DSTATE_SO_BUFFER_INDEX_1
    Named(ThreeD, 0x0, 0x62)  // CMD_3DSTATE_SO_BUFFER_INDEX_2
  ]

  /** Lines 120-139. */
  const Named4: seq<Named> := [
    Named(ThreeD, 0x0, 0x63),  // CMD_3DSTATE_SO_BUFFER_INDEX_3
    Named(ThreeD, 0x0, 0x6C),  // CMD_3DSTATE_PRIMITIVE_REPLICATION
    Named(ThreeD, 0x0, 0x6E),  // CMD_3DSTATE_TBIMR_TILE_PASS_INFO
    Named(ThreeD, 0x0, 0x6F),  // CMD_3DSTATE_AMFS
    Named(ThreeD, 0x0, 0x71),  // CMD_3DSTATE_DEPTH_BOUNDS
    Named(ThreeD, 0x0, 0x72),  // CMD_3DSTATE_AMFS_TEXTURE_POINTERS
    Named(ThreeD, 0x0, 0x73),  // CMD_3DSTATE_CONSTANT_TS_POINTER
    Named(ThreeD, 0x0, 0x77),  // CMD_3DSTATE_MESH_CONTROL
    Named(ThreeD, 0x0, 0x78),  // CMD_3DSTATE_MESH_DISTRIB
    Named(ThreeD, 0x0, 0x79),  // CMD_3DSTATE_TASK_REDISTRIB
    Named(ThreeD, 0x0, 0x7A),  // CMD_3DSTATE_MESH_SHADER
    Named(ThreeD, 0x0, 0x7B),  // CMD_3DSTATE_MESH_SHADER_DATA
    Named(ThreeD, 0x0, 0x7C),  // CMD_3DSTATE_TASK_CONTROL
    Named(ThreeD, 0x0, 0x7D),  // CMD_3DSTATE_TASK_SHADER
    Named(ThreeD, 0x0, 0x7E),  // CMD_3DSTATE_TASK_SHADER_DATA
    Named(ThreeD, 0x0, 0x7F),  // CMD_3DSTATE_URB_ALLOC_MESH
    Named(ThreeD, 0x0, 0x80),  // CMD_3DSTATE_URB_ALLOC_TASK
    Named(ThreeD, 0x0, 0x81),  // CMD_3DSTATE_CLIP_MESH
    Named(ThreeD, 0x0, 0x82),  // CMD_3DSTATE_SBE_MESH
    Named(ThreeD, 0x0, 0x83)  // CMD_3DSTATE_CPSIZE_CONTROL_BUFFER
  ]

  /** Lines 141-161. */
  const Named5: seq<Named> := [
    Named(ThreeD, 0x1, 0x0),  // CMD_3DSTATE_DRAWING_RECTANGLE
    Named(ThreeD, 0x1, 0x4),  // CMD_3DSTATE_CHROMA_KEY
    Named(ThreeD, 0x1, 0x6),  // CMD_3DSTATE_POLY_STIPPLE_OFFSET
    Named(ThreeD, 0x1, 0x7),  // CMD_3DSTATE_POLY_STIPPLE_PATTERN
    Named(ThreeD, 0x1, 0x8),  // CMD_3DSTATE_LINE_STIPPLE
    Named(ThreeD, 0x1, 0xA),  // CMD_3DSTATE_AA_LINE_PARAMETERS
    Named(ThreeD, 0x1, 0x11),  // CMD_3DSTATE_MONOFILTER_SIZE
    Named(ThreeD, 0x1, 0x12),  // CMD_3DSTATE_PUSH_CONSTANT_ALLOC_VS
    Named(ThreeD, 0x1, 0x13),  // CMD_3DSTATE_PUSH_CONSTANT_ALLOC_HS
    Named(ThreeD, 0x1, 0x14),  // CMD_3DSTATE_PUSH_CONSTANT_ALLOC_DS
    Named(ThreeD, 0x1, 0x15),  // CMD_3DSTATE_PUSH_CONSTANT_ALLOC_GS
    Named(ThreeD, 0x1, 0x16),  // CMD_3DSTATE_PUSH_CONSTANT_ALLOC_PS
    Named(ThreeD, 0x1, 0x17),  // CMD_3DSTATE_SO_DECL_LIST
    Named(ThreeD, 0x1, 0x18),  // CMD_3DSTATE_SO_BUFFER
    Named(ThreeD, 0x1, 0x19),  // CMD_3DSTATE_BINDING_TABLE_POOL_ALLOC
    Named(ThreeD, 0x1, 0x1C),  // CMD_3DSTATE_SAMPLE_PATTERN
    Named(ThreeD, 0x1, 0x1E),  // CMD_3DSTATE_3D_MODE
    Named(ThreeD, 0x1, 0x1F),  // CMD_3DSTATE_SUBSLICE_HASH_TABLE
    Named(ThreeD, 0x1, 0x20),  // CMD_3DSTATE_SLICE_TABLE_STATE_POINTERS
    Named(ThreeD, 0x1, 0x22)  // CMD_3DSTATE_PTBR_TILE_PASS_INFO
  ]
  /** The named command constants in the order they are defined. */
  const NamedCommands: seq<Named> := Named0 + Named1 + Named2 + Named3 + Named4 + Named5

  lemma KeysAppend(a: seq<Named>, b: seq<Named>)
    ensures Keys(a + b) == Keys(a) + Keys(b)
  {
    assert forall i :: 0 <= i < |a| ==> (a + b)[i] == a[i];
    assert forall i :: |a| <= i < |a + b| ==> (a + b)[i] == b[i - |a|];
  }

  /** Joining two well-ordered runs where the first ends below the second. */
  lemma WellOrderedAppend(a: seq<Named>, b: seq<Named>)
    requires WellOrdered(a) && WellOrdered(b) && |a| > 0 && |b| > 0
    requires Key(a[|a| - 1]) < Key(b[0])
    ensures WellOrdered(a + b)
  {
    KeysAppend(a, b);
    IncreasingAppend(Keys(a), Keys(b));
  }

  // Each run of constants is ordered on its own.
  lemma Named0Ordered() ensures WellOrdered(Named0) { }
  lemma Named1Ordered() ensures WellOrdered(Named1) { }
  lemma Named2Ordered() ensures WellOrdered(Named2) { }
  lemma Named3Ordered() ensures WellOrdered(Named3) { }
  lemma Named4Ordered() ensures WellOrdered(Named4) { }
  lemma Named5Ordered() ensures WellOrdered(Named5) { }

  lemma NamedCommandsOrdered()
    ensures WellOrdered(NamedCommands)
  {
    Named0Ordered();
    Named1Ordered();
    Named2Ordered();
    Named3Ordered();
    Named4Ordered();
    Named5Ordered();
    WellOrderedAppend(Named0, Named1);
    WellOrderedAppend(Named0 + Named1, Named2);
    WellOrderedAppend(Named0 + Named1 + Named2, Named3);
    WellOrderedAppend(Named0 + Named1 + Named2 + Named3, Named4);
    WellOrderedAppend(Named0 + Named1 + Named2 + Named3 + Named4, Named5);
  }

  /** No two named commands match the same dword under GFXPIPE_MATCH_MASK. */
  lemma NamedCommandsDistinct(i: int, j: int)
    requires 0 <= i < |NamedCommands| && 0 <= j < |NamedCommands| && i != j
    ensures InRange(NamedCommands[i]) && InRange(NamedCommands[j])
    ensures var a, b := NamedCommands[i], NamedCommands[j];
            Cmd(a.pipeline, a.opcode, a.subopcode) < U32 && Cmd(b.pipeline, b.opcode, b.subopcode) < U32 &&
            Masked(Cmd(a.pipeline, a.opcode, a.subopcode)) != Masked(Cmd(b.pipeline, b.opcode, b.subopcode))
  {
    NamedCommandsOrdered();
    IncreasingDistinct(Keys(NamedCommands));
    var a, b := NamedCommands[i], NamedCommands[j];
    assert Key(a) != Key(b);
    MatchIff(a.pipeline, a.opcode, a.subopcode, b.pipeline, b.opcode, b.subopcode);
  }
}
