/**
 * Byte layout of C-style records: sizes, alignments and field offsets of
 * fixed-width scalars, fixed-length arrays and nested structs, under the two
 * layout rules the telemetry headers rely on.
 *
 *  - Packed:  `#pragma pack(1)` in C, `[StructLayout(Sequential, Pack = 1)]`
 *             in C#; every field starts where the previous one ended.
 *  - Natural: no pack pragma, as a Windows (MSVC) compiler lays a struct out;
 *             a field starts at the next multiple of its own alignment and
 *             the total is rounded up to the struct's alignment.
 *
 * Field names are a type parameter `N`: each header names its fields with
 * its own enumeration of identifiers.
 */
module Layout {

  datatype Rule = Packed | Natural

  /** The types a record field can have. Floats are opaque bit patterns. */
  datatype Ty<N> =
    | I32
    | F32
    | F64
    | Arr(elem: Ty<N>, count: nat)
    | Struct(fields: seq<Field<N>>)

  /**
   * A field of a struct. `Padding` marks the filler fields the headers keep
   * only to reproduce a legacy alignment; they carry no telemetry.
   */
  datatype Field<N> =
    | Data(name: N, ty: Ty<N>)
    | Padding(name: N, ty: Ty<N>)

  /**
   * Every alignment that arises here: 1 for a packed layout, otherwise the
   * alignment of a 4-byte or an 8-byte scalar.
   */
  type Alignment = a: nat | a == 1 || a == 4 || a == 8 witness 1

  function Max(a: Alignment, b: Alignment): (m: Alignment) { if a < b then b else a }

  /** The least multiple of `a` that is at least `x`. */
  function RoundUp(x: nat, a: Alignment): (r: nat)
    ensures r % a == 0 && x <= r < x + a
  {
    if a == 1 then x
    else if a == 4 then var q := (x + 3) / 4; assert (4 * q) % 4 == 0; 4 * q
    else var q := (x + 7) / 8; assert (8 * q) % 8 == 0; 8 * q
  }

  /** Alignment of a type: 1 everywhere when packed, the largest scalar alignment otherwise. */
  function Align<N>(rule: Rule, t: Ty<N>): (a: Alignment)
    ensures rule == Packed ==> a == 1
    decreases t, 2, 0, 0
  {
    if rule == Packed then 1
    else match t
      case I32 => 4
      case F32 => 4
      case F64 => 8
      case Arr(e, _) => Align(rule, e)
      case Struct(fs) => MaxAlign(rule, fs, |fs|)
  }

  /** The largest alignment among the first `k` fields (1 when there are none). */
  function MaxAlign<N>(rule: Rule, fs: seq<Field<N>>, k: nat): (a: Alignment)
    requires k <= |fs|
    ensures rule == Packed ==> a == 1
    decreases Struct(fs), 1, k, 0
  {
    if k == 0 then 1
    else
      assert fs[k - 1] in fs;
      Max(MaxAlign(rule, fs, k - 1), Align(rule, fs[k - 1].ty))
  }

  /** Number of bytes a value of type `t` occupies, trailing padding included. */
  function Size<N>(rule: Rule, t: Ty<N>): (s: nat)
    decreases t, 2, 0, 0
  {
    match t
    case I32 => 4
    case F32 => 4
    case F64 => 8
    case Arr(e, n) => n * Size(rule, e)
    case Struct(fs) => RoundUp(EndAt(rule, fs, |fs|), Align(rule, t))
  }

  /** The byte just past the first `k` fields. */
  function EndAt<N>(rule: Rule, fs: seq<Field<N>>, k: nat): (e: nat)
    requires k <= |fs|
    decreases Struct(fs), 1, k, 0
  {
    if k == 0 then 0
    else
      assert fs[k - 1] in fs;
      OffsetAt(rule, fs, k - 1) + Size(rule, fs[k - 1].ty)
  }

  /** Offset of field `k`: the end of the fields before it, rounded up to its alignment. */
  function OffsetAt<N>(rule: Rule, fs: seq<Field<N>>, k: nat): (o: nat)
    requires k < |fs|
    decreases Struct(fs), 1, k, 1
  {
    RoundUp(EndAt(rule, fs, k), Align(rule, fs[k].ty))
  }

  // ---------------------------------------------------------------------
  // Packed layout: offsets are prefix sums of the field sizes.
  // ---------------------------------------------------------------------

  function Sum(s: seq<nat>): (total: nat)
  {
    if s == [] then 0 else s[0] + Sum(s[1..])
  }

  /** The sizes of the fields of `fs`, in declaration order. */
  function Sizes<N>(rule: Rule, fs: seq<Field<N>>): (r: seq<nat>)
    ensures |r| == |fs|
    ensures forall i :: 0 <= i < |fs| ==> r[i] == Size(rule, fs[i].ty)
  {
    seq(|fs|, i requires 0 <= i < |fs| => Size(rule, fs[i].ty))
  }

  lemma {:induction false} SumSnoc(s: seq<nat>, x: nat)
    ensures Sum(s + [x]) == Sum(s) + x
  {
    if s != [] {
      assert (s + [x])[1..] == s[1..] + [x];
      SumSnoc(s[1..], x);
    } else {
      assert s + [x] == [x];
    }
  }

  /** Under packing, the first `k` fields end at the sum of their sizes. */
  lemma {:induction false} PackedEndIsPrefixSum<N>(fs: seq<Field<N>>, k: nat)
    requires k <= |fs|
    ensures EndAt(Packed, fs, k) == Sum(Sizes(Packed, fs)[..k])
  {
    var sizes := Sizes(Packed, fs);
    if k == 0 {
      assert sizes[..0] == [];
    } else {
      PackedEndIsPrefixSum(fs, k - 1);
      assert sizes[..k] == sizes[..k - 1] + [sizes[k - 1]];
      SumSnoc(sizes[..k - 1], sizes[k - 1]);
    }
  }

  /**
   * With 1-byte packing there is no hidden padding: every field starts at
   * the sum of the sizes of the fields before it.
   */
  lemma PackedOffsetIsPrefixSum<N>(fs: seq<Field<N>>, k: nat)
    requires k < |fs|
    ensures OffsetAt(Packed, fs, k) == Sum(Sizes(Packed, fs)[..k])
  {
    PackedEndIsPrefixSum(fs, k);
  }

  /** ... and the whole struct is exactly the sum of its field sizes. */
  lemma PackedSizeIsSum<N>(fs: seq<Field<N>>)
    ensures Size(Packed, Struct(fs)) == Sum(Sizes(Packed, fs))
  {
    PackedEndIsPrefixSum(fs, |fs|);
    assert Sizes(Packed, fs)[..|fs|] == Sizes(Packed, fs);
  }

  /** Packed fields that all have width `w` start at multiples of `w`. */
  lemma {:induction false} PackedUniformEnd<N>(fs: seq<Field<N>>, w: nat, k: nat)
    requires k <= |fs|
    requires forall i :: 0 <= i < |fs| ==> Size(Packed, fs[i].ty) == w
    ensures EndAt(Packed, fs, k) == w * k
  {
    if k > 0 {
      PackedUniformEnd(fs, w, k - 1);
      assert OffsetAt(Packed, fs, k - 1) == EndAt(Packed, fs, k - 1) == w * (k - 1);
      assert Size(Packed, fs[k - 1].ty) == w;
      assert w * k == w * (k - 1) + w;
    }
  }

  // ---------------------------------------------------------------------
  // Both rules: fields are ordered, disjoint and inside the struct.
  // ---------------------------------------------------------------------

  lemma {:induction false} EndMonotone<N>(rule: Rule, fs: seq<Field<N>>, i: nat, j: nat)
    requires i <= j <= |fs|
    ensures EndAt(rule, fs, i) <= EndAt(rule, fs, j)
    decreases j - i
  {
    if i < j {
      EndMonotone(rule, fs, i, j - 1);
    }
  }

  /** A field that comes earlier ends before a later field begins. */
  lemma FieldsDisjoint<N>(rule: Rule, fs: seq<Field<N>>, i: nat, j: nat)
    requires i < j < |fs|
    ensures OffsetAt(rule, fs, i) + Size(rule, fs[i].ty) <= OffsetAt(rule, fs, j)
  {
    EndMonotone(rule, fs, i + 1, j);
  }

  /** Every field lies entirely inside its struct. */
  lemma FieldInStruct<N>(rule: Rule, fs: seq<Field<N>>, k: nat)
    requires k < |fs|
    ensures OffsetAt(rule, fs, k) + Size(rule, fs[k].ty) <= Size(rule, Struct(fs))
  {
    EndMonotone(rule, fs, k + 1, |fs|);
  }

  /** A struct is aligned at least as strictly as each of its fields. */
  lemma {:induction false} MaxAlignAtLeast<N>(rule: Rule, fs: seq<Field<N>>, k: nat, i: nat)
    requires i < k <= |fs|
    ensures Align(rule, fs[i].ty) <= MaxAlign(rule, fs, k)
    decreases k
  {
    if i < k - 1 {
      MaxAlignAtLeast(rule, fs, k - 1, i);
    }
  }

  /** The alignment of a struct is attained: it is 1 or the alignment of one of its fields. */
  lemma {:induction false} MaxAlignAttained<N>(rule: Rule, fs: seq<Field<N>>, k: nat)
    requires k <= |fs|
    ensures MaxAlign(rule, fs, k) == 1 || exists i | 0 <= i < k :: MaxAlign(rule, fs, k) == Align(rule, fs[i].ty)
    decreases k
  {
    if k > 0 {
      MaxAlignAttained(rule, fs, k - 1);
      if MaxAlign(rule, fs, k) == Align(rule, fs[k - 1].ty) {
        assert 0 <= k - 1 < k;
      } else {
        assert MaxAlign(rule, fs, k) == MaxAlign(rule, fs, k - 1);
      }
    }
  }

  // ---------------------------------------------------------------------
  // Natural layout: every field is aligned and every size is a multiple of
  // its alignment.
  // ---------------------------------------------------------------------

  lemma NaturalOffsetAligned<N>(fs: seq<Field<N>>, k: nat)
    requires k < |fs|
    ensures OffsetAt(Natural, fs, k) % Align(Natural, fs[k].ty) == 0
  {
  }

  lemma MultipleOfMultiple(s: nat, n: nat, a: Alignment)
    requires s % a == 0
    ensures (n * s) % a == 0
  {
    if a == 4 {
      assert s == 4 * (s / 4);
      assert n * s == 4 * (n * (s / 4));
    } else if a == 8 {
      assert s == 8 * (s / 8);
      assert n * s == 8 * (n * (s / 8));
    }
  }

  /** Under natural alignment the size of a type is a multiple of its alignment. */
  lemma {:induction false} NaturalSizeIsMultiple<N>(t: Ty<N>)
    ensures Size(Natural, t) % Align(Natural, t) == 0
  {
    match t
    case I32 =>
    case F32 =>
    case F64 =>
    case Arr(e, n) =>
      NaturalSizeIsMultiple(e);
      MultipleOfMultiple(Size(Natural, e), n, Align(Natural, e));
    case Struct(fs) =>
  }

  // ---------------------------------------------------------------------
  // Arrays: element `i` lies at `i` times the element size.
  // ---------------------------------------------------------------------

  lemma {:induction false} MulLe(a: nat, b: nat, c: nat)
    requires a <= b
    ensures a * c <= b * c
    decreases b - a
  {
    if a < b {
      MulLe(a, b - 1, c);
      assert b * c == (b - 1) * c + c;
    }
  }

  /** Element `i` of an array lies entirely inside the array. */
  lemma ElementInArray<N>(rule: Rule, e: Ty<N>, n: nat, i: nat)
    requires i < n
    ensures i * Size(rule, e) + Size(rule, e) <= Size(rule, Arr(e, n))
  {
    var s := Size(rule, e);
    assert i * s + s == (i + 1) * s;
    MulLe(i + 1, n, s);
  }

  // ---------------------------------------------------------------------
  // Slots: where the data fields of a struct are, in declaration order.
  // ---------------------------------------------------------------------

  /** A byte range `[offset, offset + width)`. */
  datatype Slot = Slot(offset: nat, width: nat)

  /** The slots of the data fields among the first `k` fields; padding fields have none. */
  function SlotsUpTo<N>(rule: Rule, fs: seq<Field<N>>, k: nat): (r: seq<Slot>)
    requires k <= |fs|
  {
    if k == 0 then []
    else if fs[k - 1].Padding? then SlotsUpTo(rule, fs, k - 1)
    else SlotsUpTo(rule, fs, k - 1) + [Slot(OffsetAt(rule, fs, k - 1), Size(rule, fs[k - 1].ty))]
  }

  /** The slots of all data fields of a struct. */
  function Slots<N>(rule: Rule, fs: seq<Field<N>>): (r: seq<Slot>)
  {
    SlotsUpTo(rule, fs, |fs|)
  }
}
