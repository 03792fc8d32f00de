/**
 * Reading the shared record the way a consumer of the mapped view does:
 * the raw bytes of a field at its offset, and `r3e_int32` fields decoded as
 * 32-bit two's-complement integers in the byte order of the x86 machines the
 * game runs on (least significant byte first). Floating-point fields stay
 * raw bit patterns. Storing a value is modelled too, for the producer side
 * that the consumer's reads must agree with.
 */
module Decoder {
  import opened Results
  import opened Layout
  import opened Access

  type Byte = b: int | 0 <= b < 256

  const Two31: int := 0x8000_0000
  const Two32: int := 0x1_0000_0000

  /** The values an `r3e_int32` (`int32_t`, C# `Int32`) can hold. */
  predicate IsInt32(v: int)
  {
    -Two31 <= v < Two31
  }

  /** Four bytes as an unsigned number, least significant byte first. */
  function LittleEndian(bs: seq<Byte>): (u: nat)
    requires |bs| == 4
    ensures u < Two32
    ensures u % 256 == bs[0] && (u / 256) % 256 == bs[1] && (u / 256 / 256) % 256 == bs[2] && u / 256 / 256 / 256 == bs[3]
  {
    var b0, b1, b2, b3: int := bs[0], bs[1], bs[2], bs[3];
    SplitByte(b0, b1 + 256 * (b2 + 256 * b3));
    SplitByte(b1, b2 + 256 * b3);
    SplitByte(b2, b3);
    b0 + 256 * (b1 + 256 * (b2 + 256 * b3))
  }

  /** Four bytes as a 32-bit two's-complement integer: negative exactly when the top bit is set. */
  function DecodeInt32(bs: seq<Byte>): (v: int)
    requires |bs| == 4
    ensures IsInt32(v)
    ensures v < 0 <==> bs[3] >= 128
  {
    var u := LittleEndian(bs);
    if u < Two31 then u else u - Two32
  }

  /** The four bytes that store `v`, least significant first. */
  function EncodeInt32(v: int): (bs: seq<Byte>)
    requires IsInt32(v)
    ensures |bs| == 4
    ensures bs[3] >= 128 <==> v < 0
  {
    var u := if v < 0 then v + Two32 else v;
    var q1 := u / 256;
    var q2 := q1 / 256;
    var q3 := q2 / 256;
    [u % 256, q1 % 256, q2 % 256, q3]
  }

  /** Decoding what was encoded gives the value back, every 32-bit value included. */
  lemma DecodeEncode(v: int)
    requires IsInt32(v)
    ensures DecodeInt32(EncodeInt32(v)) == v
  {
    var u := if v < 0 then v + Two32 else v;
    var q1 := u / 256;
    var q2 := q1 / 256;
    var q3 := q2 / 256;
    assert u == u % 256 + 256 * q1;
    assert q1 == q1 % 256 + 256 * q2;
    assert q2 == q2 % 256 + 256 * q3;
    assert LittleEndian(EncodeInt32(v)) == u;
  }

  /** Splitting `lo + 256 * hi` again gives `lo` and `hi`. */
  lemma SplitByte(lo: Byte, hi: nat)
    ensures (lo + 256 * hi) % 256 == lo
    ensures (lo + 256 * hi) / 256 == hi
  {
  }

  /** Re-encoding decoded bytes gives the same four bytes back. */
  lemma EncodeDecode(bs: seq<Byte>)
    requires |bs| == 4
    ensures EncodeInt32(DecodeInt32(bs)) == bs
  {
    var u := LittleEndian(bs);
    var v := DecodeInt32(bs);
    assert (if v < 0 then v + Two32 else v) == u;
    var b0, b1, b2, b3: int := bs[0], bs[1], bs[2], bs[3];
    SplitByte(b0, b1 + 256 * (b2 + 256 * b3));
    SplitByte(b1, b2 + 256 * b3);
    SplitByte(b2, b3);
    assert EncodeInt32(v) == [bs[0], bs[1], bs[2], bs[3]];
  }

  /**
   * The sentinels the headers document come through as stored: `-1`
   * ("n/a", "no data for DRS") is four `0xFF` bytes and `-2` (gear "no
   * data") is `0xFE` followed by three `0xFF` bytes.
   */
  lemma Sentinels()
    ensures EncodeInt32(-1) == [0xFF, 0xFF, 0xFF, 0xFF]
    ensures EncodeInt32(-2) == [0xFE, 0xFF, 0xFF, 0xFF]
    ensures DecodeInt32([0xFF, 0xFF, 0xFF, 0xFF]) == -1
    ensures DecodeInt32([0xFE, 0xFF, 0xFF, 0xFF]) == -2
  {
  }

  datatype ReadError =
    | BufferTooSmall                   // the view is shorter than the record
    | Unlocatable(reason: LocateError) // the path names no data in the record
    | NotAnInt32                       // the value at the path is not an `r3e_int32`

  /**
   * The raw bytes of the value at `path` in a view `buf` of a record of type
   * `t`. The view must hold the whole record.
   */
  function ReadRaw<N(==)>(buf: seq<Byte>, rule: Rule, t: Ty<N>, path: seq<Step<N>>): (r: Result<seq<Byte>, ReadError>)
    ensures r.Err? <==> |buf| < Size(rule, t) || Locate(rule, t, path).Err?
    ensures |buf| < Size(rule, t) ==> r == Err(BufferTooSmall)
    ensures |buf| >= Size(rule, t) && Locate(rule, t, path).Err? ==> r == Err(Unlocatable(Locate(rule, t, path).error))
    ensures r.Ok? ==> |r.value| == Size(rule, Locate(rule, t, path).value.ty)
    ensures r.Ok? ==> var q := Locate(rule, t, path).value;
      q.offset + Size(rule, q.ty) <= |buf| && r.value == buf[q.offset .. q.offset + Size(rule, q.ty)]
  {
    if |buf| < Size(rule, t) then Err(BufferTooSmall)
    else
      match Locate(rule, t, path)
      case Err(e) => Err(Unlocatable(e))
      case Ok(p) => Ok(buf[p.offset .. p.offset + Size(rule, p.ty)])
  }

  /** The `r3e_int32` at `path`, decoded. */
  function ReadInt32<N(==)>(buf: seq<Byte>, rule: Rule, t: Ty<N>, path: seq<Step<N>>): (r: Result<int, ReadError>)
    ensures r.Ok? ==> IsInt32(r.value)
    ensures r.Ok? <==> ReadRaw(buf, rule, t, path).Ok? && Locate(rule, t, path).value.ty == I32
    ensures ReadRaw(buf, rule, t, path).Err? ==> r == Err(ReadRaw(buf, rule, t, path).error)
    ensures ReadRaw(buf, rule, t, path).Ok? && Locate(rule, t, path).value.ty != I32 ==> r == Err(NotAnInt32)
  {
    match ReadRaw(buf, rule, t, path)
    case Err(e) => Err(e)
    case Ok(bytes) =>
      if Locate(rule, t, path).value.ty != I32 then Err(NotAnInt32)
      else Ok(DecodeInt32(bytes))
  }

  /** An `r3e_int32` located at `at` is decoded from the four bytes starting there. */
  lemma ReadInt32At<N>(buf: seq<Byte>, rule: Rule, t: Ty<N>, path: seq<Step<N>>, at: nat)
    requires |buf| >= Size(rule, t)
    requires Locate(rule, t, path) == Ok(Place(at, I32))
    ensures at + 4 <= |buf|
    ensures ReadInt32(buf, rule, t, path) == Ok(DecodeInt32(buf[at .. at + 4]))
  {
  }

  /** `buf` with the bytes from `at` on replaced by `bs`. */
  function Splice(buf: seq<Byte>, at: nat, bs: seq<Byte>): (r: seq<Byte>)
    requires at + |bs| <= |buf|
    ensures |r| == |buf|
    ensures r[at .. at + |bs|] == bs
    ensures forall i :: 0 <= i < |buf| && !(at <= i < at + |bs|) ==> r[i] == buf[i]
  {
    buf[..at] + bs + buf[at + |bs|..]
  }

  /** Stores the `r3e_int32` `v` at `path`, as the producer of the record does. */
  function WriteInt32<N(==)>(buf: seq<Byte>, rule: Rule, t: Ty<N>, path: seq<Step<N>>, v: int): (r: Result<seq<Byte>, ReadError>)
    requires IsInt32(v)
    ensures r.Ok? ==> |r.value| == |buf|
    ensures r.Ok? <==> ReadInt32(buf, rule, t, path).Ok?
  {
    if |buf| < Size(rule, t) then Err(BufferTooSmall)
    else
      match Locate(rule, t, path)
      case Err(e) => Err(Unlocatable(e))
      case Ok(p) =>
        if p.ty != I32 then Err(NotAnInt32)
        else Ok(Splice(buf, p.offset, EncodeInt32(v)))
  }
  /** Reading back a stored `r3e_int32` gives the stored value, sentinels included. */
  lemma ReadAfterWrite<N>(buf: seq<Byte>, rule: Rule, t: Ty<N>, path: seq<Step<N>>, v: int)
    requires IsInt32(v)
    requires WriteInt32(buf, rule, t, path, v).Ok?
    ensures ReadInt32(WriteInt32(buf, rule, t, path, v).value, rule, t, path) == Ok(v)
  {
    var p := Locate(rule, t, path).value;
    var stored := WriteInt32(buf, rule, t, path, v).value;
    assert stored == Splice(buf, p.offset, EncodeInt32(v));
    assert ReadRaw(stored, rule, t, path) == Ok(EncodeInt32(v));
    DecodeEncode(v);
  }

  /** Two places that share no byte. */
  predicate Apart<N>(rule: Rule, p: Place<N>, q: Place<N>)
  {
    p.offset + Size(rule, p.ty) <= q.offset || q.offset + Size(rule, q.ty) <= p.offset
  }

  /** Splicing leaves every range that does not meet the spliced bytes as it was. */
  lemma SpliceKeeps(buf: seq<Byte>, at: nat, bs: seq<Byte>, lo: nat, hi: nat)
    requires at + |bs| <= |buf| && lo <= hi <= |buf|
    requires hi <= at || at + |bs| <= lo
    ensures Splice(buf, at, bs)[lo .. hi] == buf[lo .. hi]
  {
    var r := Splice(buf, at, bs);
    forall i | lo <= i < hi
      ensures r[i] == buf[i]
    {
    }
  }

  /** The bytes `WriteInt32` produces: the encoding spliced in at the located place. */
  lemma WrittenBytes<N>(buf: seq<Byte>, rule: Rule, t: Ty<N>, path: seq<Step<N>>, v: int)
    requires IsInt32(v)
    requires WriteInt32(buf, rule, t, path, v).Ok?
    ensures Locate(rule, t, path).Ok? && Locate(rule, t, path).value.offset + 4 <= |buf|
    ensures WriteInt32(buf, rule, t, path, v).value == Splice(buf, Locate(rule, t, path).value.offset, EncodeInt32(v))
  {
  }

  /** The bytes `ReadRaw` returns: the located place's range of the view. */
  lemma ReadBytes<N>(buf: seq<Byte>, rule: Rule, t: Ty<N>, path: seq<Step<N>>)
    requires |buf| >= Size(rule, t) && Locate(rule, t, path).Ok?
    ensures var q := Locate(rule, t, path).value;
      q.offset + Size(rule, q.ty) <= |buf| &&
      ReadRaw(buf, rule, t, path) == Ok(buf[q.offset .. q.offset + Size(rule, q.ty)])
  {
  }

  /** Storing at one place leaves the bytes of every place apart from it as they were. */
  lemma WriteLeavesOthers<N>(buf: seq<Byte>, rule: Rule, t: Ty<N>, path: seq<Step<N>>, v: int, other: seq<Step<N>>)
    requires IsInt32(v)
    requires WriteInt32(buf, rule, t, path, v).Ok?
    requires Locate(rule, t, other).Ok?
    requires Apart(rule, Locate(rule, t, path).value, Locate(rule, t, other).value)
    ensures var before, after := ReadRaw(buf, rule, t, other), ReadRaw(WriteInt32(buf, rule, t, path, v).value, rule, t, other);
      before.Ok? && after.Ok? && after.value == before.value
  {
    var p := Locate(rule, t, path).value;
    var q := Locate(rule, t, other).value;
    var stored := WriteInt32(buf, rule, t, path, v).value;
    WrittenBytes(buf, rule, t, path, v);
    ReadBytes(buf, rule, t, other);
    ReadBytes(stored, rule, t, other);
    SpliceKeeps(buf, p.offset, EncodeInt32(v), q.offset, q.offset + Size(rule, q.ty));
  }

  /** Storing the value that a field already holds leaves the view unchanged. */
  lemma WriteWhatIsRead<N>(buf: seq<Byte>, rule: Rule, t: Ty<N>, path: seq<Step<N>>)
    requires ReadInt32(buf, rule, t, path).Ok?
    ensures WriteInt32(buf, rule, t, path, ReadInt32(buf, rule, t, path).value) == Ok(buf)
  {
    var p := Locate(rule, t, path).value;
    var bytes := ReadRaw(buf, rule, t, path).value;
    EncodeDecode(bytes);
    assert bytes == buf[p.offset .. p.offset + 4];
    assert Splice(buf, p.offset, bytes) == buf;
  }
}
