/** Bit-field helpers of the no-OS utilities (find_first_set_bit,
    field_prep, field_get) on 16-bit register values, and the
    read-modify-write merge of _ad3552r_update_reg_field. */
module Fields {

  /** find_first_set_bit on a non-zero mask: the position of its lowest
      set bit. */
  function LowestSetBit(m: bv16): (k: nat)
    requires m != 0
    ensures k < 16
  {
    if m & 0x1 != 0 then 0 else if m & 0x2 != 0 then 1
    else if m & 0x4 != 0 then 2 else if m & 0x8 != 0 then 3
    else if m & 0x10 != 0 then 4 else if m & 0x20 != 0 then 5
    else if m & 0x40 != 0 then 6 else if m & 0x80 != 0 then 7
    else if m & 0x100 != 0 then 8 else if m & 0x200 != 0 then 9
    else if m & 0x400 != 0 then 10 else if m & 0x800 != 0 then 11
    else if m & 0x1000 != 0 then 12 else if m & 0x2000 != 0 then 13
    else if m & 0x4000 != 0 then 14 else 15
  }

  /** `v << k` and `v >> k` for a shift amount below 16, spelled out with
      constant shifts. */
  function Shl(v: bv16, k: nat): bv16
    requires k < 16
  {
    if k == 0 then v << 0
    else if k == 1 then v << 1
    else if k == 2 then v << 2
    else if k == 3 then v << 3
    else if k == 4 then v << 4
    else if k == 5 then v << 5
    else if k == 6 then v << 6
    else if k == 7 then v << 7
    else if k == 8 then v << 8
    else if k == 9 then v << 9
    else if k == 10 then v << 10
    else if k == 11 then v << 11
    else if k == 12 then v << 12
    else if k == 13 then v << 13
    else if k == 14 then v << 14
    else v << 15
  }

  function Shr(v: bv16, k: nat): bv16
    requires k < 16
  {
    if k == 0 then v >> 0
    else if k == 1 then v >> 1
    else if k == 2 then v >> 2
    else if k == 3 then v >> 3
    else if k == 4 then v >> 4
    else if k == 5 then v >> 5
    else if k == 6 then v >> 6
    else if k == 7 then v >> 7
    else if k == 8 then v >> 8
    else if k == 9 then v >> 9
    else if k == 10 then v >> 10
    else if k == 11 then v >> 11
    else if k == 12 then v >> 12
    else if k == 13 then v >> 13
    else if k == 14 then v >> 14
    else v >> 15
  }

  /** field_prep(mask, val): `val` shifted into the field `mask`. */
  function FieldPrep(mask: bv16, val: bv16): bv16
    requires mask != 0
  {
    Shl(val, LowestSetBit(mask)) & mask
  }

  /** field_get(mask, reg): the field `mask` of `reg`, shifted down. */
  function FieldGet(mask: bv16, reg: bv16): bv16
    requires mask != 0
  {
    Shr(reg & mask, LowestSetBit(mask))
  }

  /** `(reg & ~mask) | field_prep(mask, val)`: the read-modify-write merge. */
  function MergeField(reg: bv16, mask: bv16, val: bv16): bv16
    requires mask != 0
  {
    (reg & !mask) | FieldPrep(mask, val)
  }

  /** The merge keeps every bit outside `mask` and puts the prepared value in
      the field. */
  lemma MergeFieldKeepsOutside(reg: bv16, mask: bv16, val: bv16)
    requires mask != 0
    ensures MergeField(reg, mask, val) & !mask == reg & !mask
    ensures MergeField(reg, mask, val) & mask == FieldPrep(mask, val)
  {
  }

  /** Two values that agree outside `m` agree on any mask disjoint from it. */
  lemma DisjointMaskedEqual(x: bv16, y: bv16, m: bv16, m': bv16)
    requires m & m' == 0 && x & !m == y & !m
    ensures x & m' == y & m'
  {
  }

  /** The masks of the driver's attribute tables and gain fields. */
  predicate IsDriverMask(mask: bv16)
  {
    mask in {0x01, 0x02, 0x03, 0x04, 0x0C, 0x0F, 0x10, 0x18, 0x20, 0x60, 0x80, 0xC3, 0xF0, 0xFF}
  }

  /** For every mask the driver uses, reading a field back after merging
      returns the value written, cut to the field's width. (The case split
      hands the solver one constant shift at a time.) */
  lemma FieldRoundTrip(reg: bv16, mask: bv16, val: bv16)
    requires IsDriverMask(mask)
    ensures FieldGet(mask, MergeField(reg, mask, val)) == val & Shr(mask, LowestSetBit(mask))
  {
    if mask == 0x01 {
    } else if mask == 0x02 {
    } else if mask == 0x03 {
    } else if mask == 0x04 {
    } else if mask == 0x0C {
    } else if mask == 0x0F {
    } else if mask == 0x10 {
    } else if mask == 0x18 {
    } else if mask == 0x20 {
    } else if mask == 0x60 {
    } else if mask == 0x80 {
    } else if mask == 0xC3 {
    } else if mask == 0xF0 {
    } else if mask == 0xFF {
    }
  }
}
