/**
 * What holds across the three declarations of the `$Race$` record: the
 * explicit padding of the packed C header reproduces the naturally aligned
 * layout of the older header byte for byte, the C# mirror agrees with the
 * packed C header at every member, and so a consumer using any of them reads
 * the same bytes for each datum from the same mapped view; for `gear` the
 * decoded value is proved the same as well.
 */
module Compatibility {
  import opened Results
  import opened Layout
  import opened Access
  import opened Decoder
  import PackedHeader
  import LegacyHeader
  import CSharpMirror

  /** The three declarations publish the record under the same segment name. */
  lemma SameSegmentName()
    ensures PackedHeader.SharedMemoryName == LegacyHeader.SharedMemoryName == CSharpMirror.SharedMemoryName == "$Race$"
  {
  }

  /**
   * The packed header with its `_padding1` fields places every datum of
   * `r3e_playerdata` and `r3e_shared` on exactly the bytes the unpacked,
   * naturally aligned header places it, and both records have the same size.
   */
  lemma PaddingReproducesNaturalLayout()
    ensures Slots(Packed, PackedHeader.PlayerDataFields) == Slots(Natural, LegacyHeader.PlayerDataFields)
    ensures Size(Packed, PackedHeader.PlayerData) == Size(Natural, LegacyHeader.PlayerData) == 208
    ensures Slots(Packed, PackedHeader.SharedFields) == Slots(Natural, LegacyHeader.SharedFields)
    ensures Size(Packed, PackedHeader.Shared) == Size(Natural, LegacyHeader.Shared) == 400
  {
    PackedHeader.PlayerDataLayout();
    LegacyHeader.PlayerDataLayout();
    PackedHeader.SharedLayout();
    LegacyHeader.SharedLayout();
    assert PackedHeader.SharedMap4 + PackedHeader.SharedMap5 == LegacyHeader.SharedMap4;
  }

  /**
   * Each `_padding1` fills exactly the gap natural alignment leaves: in
   * `r3e_playerdata` between the end of the tick count and the 8-aligned
   * time, in `r3e_shared` between the end of `drsEngaged` and the 8-aligned
   * `player`.
   */
  lemma PaddingFillsAlignmentGaps()
    ensures OffsetAt(Packed, PackedHeader.PlayerDataFields, 1) == EndAt(Natural, LegacyHeader.PlayerDataFields, 1)
    ensures OffsetAt(Packed, PackedHeader.PlayerDataFields, 1) + 4 == OffsetAt(Natural, LegacyHeader.PlayerDataFields, 1)
    ensures OffsetAt(Packed, PackedHeader.SharedFields, 25) == EndAt(Natural, LegacyHeader.SharedFields, 25)
    ensures OffsetAt(Packed, PackedHeader.SharedFields, 25) + 4 == OffsetAt(Natural, LegacyHeader.SharedFields, 25)
  {
    PackedHeader.PlayerDataLayout();
    LegacyHeader.PlayerDataPart0Layout();
    LegacyHeader.PlayerDataLayout();
    PackedHeader.SharedLayout();
    LegacyHeader.SharedLayout();
  }

  /**
   * The C# structs lay their members on the same bytes as the packed C
   * structs: `TireTemperature`, `PlayerData` and `Shared` have the same data
   * slots and sizes as `r3e_tire_temps`, `r3e_playerdata` and `r3e_shared`,
   * and each `Padding1` sits where the C `_padding1` does.
   */
  lemma MirrorMatchesPackedHeader()
    ensures Slots(Packed, CSharpMirror.TireTemperatureFields) == Slots(Packed, PackedHeader.TireTempsFields)
    ensures Size(Packed, CSharpMirror.TireTemperatureType) == Size(Packed, PackedHeader.TireTemps) == 48
    ensures Slots(Packed, CSharpMirror.PlayerDataFields) == Slots(Packed, PackedHeader.PlayerDataFields)
    ensures OffsetAt(Packed, CSharpMirror.PlayerDataFields, 1) == OffsetAt(Packed, PackedHeader.PlayerDataFields, 1) == 4
    ensures Size(Packed, CSharpMirror.PlayerDataType) == Size(Packed, PackedHeader.PlayerData) == 208
    ensures Slots(Packed, CSharpMirror.SharedFields) == Slots(Packed, PackedHeader.SharedFields)
    ensures OffsetAt(Packed, CSharpMirror.SharedFields, 25) == OffsetAt(Packed, PackedHeader.SharedFields, 25) == 188
    ensures Size(Packed, CSharpMirror.SharedType) == Size(Packed, PackedHeader.Shared) == 400
  {
    CSharpMirror.TireTemperatureLayout();
    PackedHeader.TireTempsLayout();
    CSharpMirror.PlayerDataLayout();
    PackedHeader.PlayerDataLayout();
    CSharpMirror.SharedLayout();
    PackedHeader.SharedLayout();
  }

  /** The C# member `TireTemperature.<tire>_<tread>` for a tire and a tread. */
  function TireTemperatureName(t: LegacyHeader.TireLocation, l: LegacyHeader.TreadLocation): (n: CSharpMirror.Name)
    ensures n == CSharpMirror.FrontLeft_Left + 3 * LegacyHeader.TireIndex(t) + LegacyHeader.TreadIndex(l)
  {
    match (t, l)
    case (FrontLeft, Left) => CSharpMirror.FrontLeft_Left
    case (FrontLeft, Center) => CSharpMirror.FrontLeft_Center
    case (FrontLeft, Right) => CSharpMirror.FrontLeft_Right
    case (FrontRight, Left) => CSharpMirror.FrontRight_Left
    case (FrontRight, Center) => CSharpMirror.FrontRight_Center
    case (FrontRight, Right) => CSharpMirror.FrontRight_Right
    case (RearLeft, Left) => CSharpMirror.RearLeft_Left
    case (RearLeft, Center) => CSharpMirror.RearLeft_Center
    case (RearLeft, Right) => CSharpMirror.RearLeft_Right
    case (RearRight, Left) => CSharpMirror.RearRight_Left
    case (RearRight, Center) => CSharpMirror.RearRight_Center
    case (RearRight, Right) => CSharpMirror.RearRight_Right
  }

  /**
   * The flattened C# `TireTemperature` is the legacy `tireTemp` array in
   * row-major order: member `<t>_<l>` is member number `3 * t + l`, and it
   * lies on the same four bytes as `tireTemp[t][l]`, both aggregates
   * starting at 92 in the shared record.
   */
  lemma TireTemperatureIsRowMajor(t: LegacyHeader.TireLocation, l: LegacyHeader.TreadLocation)
    ensures var k := 3 * LegacyHeader.TireIndex(t) + LegacyHeader.TreadIndex(l);
      k < 12 && CSharpMirror.TireTemperatureFields[k] == Data(TireTemperatureName(t, l), F32)
    ensures var k := 3 * LegacyHeader.TireIndex(t) + LegacyHeader.TreadIndex(l);
      Locate(Packed, CSharpMirror.TireTemperatureType, [Member(TireTemperatureName(t, l))]) == Ok(Place(4 * k, F32))
    ensures var k := 3 * LegacyHeader.TireIndex(t) + LegacyHeader.TreadIndex(l);
      Locate(Natural, LegacyHeader.TireTempArray, [Element(LegacyHeader.TireIndex(t)), Element(LegacyHeader.TreadIndex(l))]) == Ok(Place(4 * k, F32))
    ensures Locate(Packed, CSharpMirror.SharedType, [Member(CSharpMirror.TireTemp)]) == Ok(Place(92, CSharpMirror.TireTemperatureType))
    ensures Locate(Natural, LegacyHeader.Shared, [Member(LegacyHeader.tireTemp)]) == Ok(Place(92, LegacyHeader.TireTempArray))
  {
    var k := 3 * LegacyHeader.TireIndex(t) + LegacyHeader.TreadIndex(l);
    CSharpMirror.TireTemperatureMembers();
    assert TireTemperatureName(t, l) == CSharpMirror.FrontLeft_Left + k;
    CSharpMirror.TireTemperatureMember(k);
    LegacyHeader.TireTempArrayElement(t, l);
    CSharpMirror.TireTempPlace();
    LegacyHeader.TireTempPlace();
  }

  /**
   * `gear` decodes from bytes 88 to 91 of any view of at least 400 bytes,
   * whichever of the three declarations the consumer reads it through.
   */
  lemma GearReadsAgree(buf: seq<Byte>)
    requires |buf| >= 400
    ensures ReadInt32(buf, Packed, PackedHeader.Shared, [Member(PackedHeader.gear)]) == Ok(DecodeInt32(buf[88 .. 92]))
    ensures ReadInt32(buf, Natural, LegacyHeader.Shared, [Member(LegacyHeader.gear)]) == Ok(DecodeInt32(buf[88 .. 92]))
    ensures ReadInt32(buf, Packed, CSharpMirror.SharedType, [Member(CSharpMirror.Gear)]) == Ok(DecodeInt32(buf[88 .. 92]))
  {
    PackedHeader.SharedLayout();
    PackedHeader.GearPlace();
    ReadInt32At(buf, Packed, PackedHeader.Shared, [Member(PackedHeader.gear)], 88);
    LegacyHeader.SharedLayout();
    LegacyHeader.GearPlace();
    ReadInt32At(buf, Natural, LegacyHeader.Shared, [Member(LegacyHeader.gear)], 88);
    CSharpMirror.SharedLayout();
    CSharpMirror.GearPlace();
    ReadInt32At(buf, Packed, CSharpMirror.SharedType, [Member(CSharpMirror.Gear)], 88);
  }

  /**
   * A gear stored through the packed C header is read back unchanged
   * through the legacy header and through the C# mirror; in particular the
   * "no data" sentinel -2 and reverse, -1, survive as they are.
   */
  lemma GearCrossesHeaders(buf: seq<Byte>, v: int)
    requires |buf| >= 400 && IsInt32(v)
    ensures WriteInt32(buf, Packed, PackedHeader.Shared, [Member(PackedHeader.gear)], v).Ok?
    ensures var stored := WriteInt32(buf, Packed, PackedHeader.Shared, [Member(PackedHeader.gear)], v).value;
      ReadInt32(stored, Natural, LegacyHeader.Shared, [Member(LegacyHeader.gear)]) == Ok(v) &&
      ReadInt32(stored, Packed, CSharpMirror.SharedType, [Member(CSharpMirror.Gear)]) == Ok(v)
  {
    GearReadsAgree(buf);
    var path: seq<Step<PackedHeader.Name>> := [Member(PackedHeader.gear)];
    var stored := WriteInt32(buf, Packed, PackedHeader.Shared, path, v).value;
    ReadAfterWrite(buf, Packed, PackedHeader.Shared, path, v);
    GearReadsAgree(stored);
  }

  /** Bytes FE FF FF FF at 88 read as the "no data" gear, -2, through every header. */
  lemma GearNoData(buf: seq<Byte>)
    requires |buf| >= 400 && buf[88 .. 92] == [0xFE, 0xFF, 0xFF, 0xFF]
    ensures ReadInt32(buf, Packed, PackedHeader.Shared, [Member(PackedHeader.gear)]) == Ok(-2)
    ensures ReadInt32(buf, Natural, LegacyHeader.Shared, [Member(LegacyHeader.gear)]) == Ok(-2)
    ensures ReadInt32(buf, Packed, CSharpMirror.SharedType, [Member(CSharpMirror.Gear)]) == Ok(-2)
  {
    GearReadsAgree(buf);
    Sentinels();
  }

  /** A view holding the whole record can be read at every member of it. */
  lemma WholeViewReadsEverywhere(buf: seq<Byte>, path: seq<Step<nat>>)
    requires |buf| >= 400
    ensures Locate(Packed, PackedHeader.Shared, path).Ok? ==> ReadRaw(buf, Packed, PackedHeader.Shared, path).Ok?
    ensures Locate(Natural, LegacyHeader.Shared, path).Ok? ==> ReadRaw(buf, Natural, LegacyHeader.Shared, path).Ok?
    ensures Locate(Packed, CSharpMirror.SharedType, path).Ok? ==> ReadRaw(buf, Packed, CSharpMirror.SharedType, path).Ok?
  {
    PackedHeader.SharedLayout();
    LegacyHeader.SharedLayout();
    CSharpMirror.SharedLayout();
  }
}
