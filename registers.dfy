/**
 * Memory-mapped peripheral registers, seen bit by bit.
 *
 * The SPI and GPIO drivers only ever set, clear, flip or test single bits of
 * a register (`reg |= 1 << k`, `reg &= ~(1 << k)`, `reg ^= 1 << k`,
 * `reg & (1 << k)`), so a register is modelled as the sequence of its bits,
 * bit 0 first. What an operation does to a register is described by an
 * Assignment: the bits it writes and the value each one gets.
 */
module Registers {

  type Bits = seq<bool>

  /** The value of a C enumeration (all of them fit in 8 bits). */
  type Code = bv8

  /** Bit `k` written with `b`. */
  function Put(w: Bits, k: nat, b: bool): (r: Bits)
    requires k < |w|
    ensures |r| == |w|
  {
    w[k := b]
  }

  /** `reg |= (1 << k)` */
  function SetBit(w: Bits, k: nat): (r: Bits)
    requires k < |w|
    ensures |r| == |w|
  {
    Put(w, k, true)
  }

  /** `reg &= ~(1 << k)` */
  function ClearBit(w: Bits, k: nat): (r: Bits)
    requires k < |w|
    ensures |r| == |w|
  {
    Put(w, k, false)
  }

  /** `reg ^= (1 << k)` */
  function FlipBit(w: Bits, k: nat): (r: Bits)
    requires k < |w|
    ensures |r| == |w|
  {
    Put(w, k, !w[k])
  }

  /** Bit `j` of the code `v`. */
  function Bit(v: Code, j: nat): bool
    requires j < 8
  {
    (v >> j) & 1 == 1
  }

  /** The bits an operation writes, each with the value it gets. */
  type Assignment = map<int, bool>

  /** The register after the assignment `a`; bits `a` does not name keep their value. */
  function Apply(w: Bits, a: Assignment): (r: Bits)
    ensures |r| == |w|
  {
    seq(|w|, i requires 0 <= i < |w| => if i in a then a[i] else w[i])
  }

  /** The field of `width` bits starting at bit `pos` receives the code `v`, low bit first. */
  function FieldAssign(pos: nat, width: nat, v: Code): (a: Assignment)
    requires width <= 8
    ensures forall i :: i in a <==> pos <= i < pos + width
    decreases width
  {
    if width == 0 then map[] else FieldAssign(pos + 1, width - 1, v >> 1)[pos := Bit(v, 0)]
  }

  /** The code held in the field of `width` bits starting at bit `pos`. */
  function FieldValue(w: Bits, pos: nat, width: nat): Code
    requires pos + width <= |w| && width <= 8
    decreases width
  {
    if width == 0 then 0
    else (if w[pos] then 1 else 0) | (FieldValue(w, pos + 1, width - 1) << 1)
  }

  /** Assigning nothing leaves the register as it is. */
  lemma ApplyNothing(w: Bits)
    ensures Apply(w, map[]) == w
  {
  }

  /** Two assignments in a row are one assignment in which the later one wins. */
  lemma ApplyThen(w: Bits, a: Assignment, b: Assignment)
    ensures Apply(Apply(w, a), b) == Apply(w, a + b)
  {
  }

  /** Assigning one more bit is one more single-bit write. */
  lemma ApplyPut(w: Bits, a: Assignment, k: nat, b: bool)
    requires k < |w|
    ensures Apply(w, a[k := b]) == Put(Apply(w, a), k, b)
  {
  }

  /** Repeating an assignment changes nothing more. */
  lemma ApplyIdempotent(w: Bits, a: Assignment)
    ensures Apply(Apply(w, a), a) == Apply(w, a)
  {
  }

  /** The field value depends only on the bits of the field. */
  lemma {:induction false} FieldValueLocal(w: Bits, u: Bits, pos: nat, width: nat)
    requires pos + width <= |w| && pos + width <= |u| && width <= 8
    requires forall i :: pos <= i < pos + width ==> w[i] == u[i]
    ensures FieldValue(w, pos, width) == FieldValue(u, pos, width)
    decreases width
  {
    if width > 0 {
      FieldValueLocal(w, u, pos + 1, width - 1);
    }
  }

  /** The first code that needs more than `width` bits. */
  function Limit(width: nat): Code
    requires width < 8
  {
    if width == 0 then 1 else 2 * Limit(width - 1)
  }

  lemma HalfFits(v: Code, width: nat)
    requires 0 < width < 8 && v < Limit(width)
    ensures v >> 1 < Limit(width - 1)
  {
  }

  lemma Recompose(v: Code)
    ensures (if Bit(v, 0) then 1 else 0) | ((v >> 1) << 1) == v
  {
  }

  /** Assigning a field writes its low bit at `pos` and the rest of the code above it. */
  lemma FieldAssignHead(w: Bits, pos: nat, width: nat, v: Code)
    requires pos + width <= |w| && 0 < width <= 8
    ensures Apply(w, FieldAssign(pos, width, v))[pos] == Bit(v, 0)
    ensures forall i | pos < i < pos + width ::
      Apply(w, FieldAssign(pos, width, v))[i] == Apply(w, FieldAssign(pos + 1, width - 1, v >> 1))[i]
  {
  }

  /** Reading a field back gives the code that was assigned to it. */
  lemma {:induction false} FieldReadBack(w: Bits, pos: nat, width: nat, v: Code)
    requires pos + width <= |w| && width < 8 && v < Limit(width)
    ensures FieldValue(Apply(w, FieldAssign(pos, width, v)), pos, width) == v
    decreases width
  {
    if width > 0 {
      var r := Apply(w, FieldAssign(pos, width, v));
      var rest := Apply(w, FieldAssign(pos + 1, width - 1, v >> 1));
      FieldAssignHead(w, pos, width, v);
      FieldValueLocal(r, rest, pos + 1, width - 1);
      HalfFits(v, width);
      FieldReadBack(w, pos + 1, width - 1, v >> 1);
      Recompose(v);
    }
  }

  /** A field no bit of which is assigned keeps its code. */
  lemma FieldUntouched(w: Bits, a: Assignment, pos: nat, width: nat)
    requires pos + width <= |w| && width <= 8
    requires forall i :: pos <= i < pos + width ==> i !in a
    ensures FieldValue(Apply(w, a), pos, width) == FieldValue(w, pos, width)
  {
    FieldValueLocal(Apply(w, a), w, pos, width);
  }

  /** Assigning a field leaves every field that does not overlap it as it was. */
  lemma FieldApart(w: Bits, pos: nat, width: nat, v: Code, at: nat)
    requires width <= 8 && at + width <= |w| && (pos + width <= at || at + width <= pos)
    ensures FieldValue(Apply(w, FieldAssign(pos, width, v)), at, width) == FieldValue(w, at, width)
  {
    FieldUntouched(w, FieldAssign(pos, width, v), at, width);
  }

  /** A one-bit field is `v == 1` at bit `pos`. */
  lemma Field1Put(w: Bits, pos: nat, v: Code)
    requires pos < |w|
    ensures Apply(w, FieldAssign(pos, 1, v)) == Put(w, pos, Bit(v, 0))
  {
  }

  /** A two-bit field is two single-bit writes, low bit first. */
  lemma Field2Put(w: Bits, pos: nat, v: Code)
    requires pos + 2 <= |w|
    ensures Apply(w, FieldAssign(pos, 2, v)) == Put(Put(w, pos, Bit(v, 0)), pos + 1, Bit(v, 1))
  {
  }

  /** A four-bit field is four single-bit writes, low bit first. */
  lemma Field4Put(w: Bits, pos: nat, v: Code)
    requires pos + 4 <= |w|
    ensures Apply(w, FieldAssign(pos, 4, v))
         == Put(Put(Put(Put(w, pos, Bit(v, 0)), pos + 1, Bit(v, 1)), pos + 2, Bit(v, 2)), pos + 3, Bit(v, 3))
  {
  }
}
