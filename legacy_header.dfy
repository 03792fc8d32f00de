/**
 * The older declaration of the `$Race$` shared record: no pack pragma, so
 * the compiler aligns every field naturally, and vectors, orientations and
 * tread temperatures are arrays indexed by the enumerations below.
 */
module LegacyHeader {
  import opened Results
  import opened Layout
  import opened Access

  /** Name of the shared-memory segment the record is published under. */
  const SharedMemoryName: string := "$Race$"

  // ---------------------------------------------------------------------
  // Enumerations: each constant is its position in the declaration, and the
  // final `..._SIZE` constant is the number of the others, used as an array
  // length.
  // ---------------------------------------------------------------------

  /** `r3e_treadlocation`: a point across the tread of a tire. */
  datatype TreadLocation = Left | Center | Right

  /** `R3E_TREAD_LOC_SIZE` */
  const TreadLocSize: nat := 3

  function TreadIndex(l: TreadLocation): (i: nat)
    ensures i < TreadLocSize
  {
    match l
    case Left => 0
    case Center => 1
    case Right => 2
  }

  /** The tread location with index `i`, if there is one. */
  function TreadAt(i: nat): (r: Option<TreadLocation>)
    ensures r.Some? <==> i < TreadLocSize
    ensures r.Some? ==> TreadIndex(r.value) == i
  {
    if i == 0 then Some(Left)
    else if i == 1 then Some(Center)
    else if i == 2 then Some(Right)
    else None
  }

  /** Each tread location is found again from its index: the indices are distinct. */
  lemma TreadIndexRoundTrip(l: TreadLocation)
    ensures TreadAt(TreadIndex(l)) == Some(l)
  {
  }

  /** `r3e_tirelocation`: one of the four tires. */
  datatype TireLocation = FrontLeft | FrontRight | RearLeft | RearRight

  /** `R3E_TIRE_LOC_SIZE` */
  const TireLocSize: nat := 4

  function TireIndex(t: TireLocation): (i: nat)
    ensures i < TireLocSize
  {
    match t
    case FrontLeft => 0
    case FrontRight => 1
    case RearLeft => 2
    case RearRight => 3
  }

  /** The tire location with index `i`, if there is one. */
  function TireAt(i: nat): (r: Option<TireLocation>)
    ensures r.Some? <==> i < TireLocSize
    ensures r.Some? ==> TireIndex(r.value) == i
  {
    if i == 0 then Some(FrontLeft)
    else if i == 1 then Some(FrontRight)
    else if i == 2 then Some(RearLeft)
    else if i == 3 then Some(RearRight)
    else None
  }

  lemma TireIndexRoundTrip(t: TireLocation)
    ensures TireAt(TireIndex(t)) == Some(t)
  {
  }

  /** `r3e_orientation`: an Euler angle. */
  datatype OrientationAxis = Pitch | Yaw | Roll

  /** `R3E_ORI_SIZE` */
  const OriSize: nat := 3

  function OrientationIndex(a: OrientationAxis): (i: nat)
    ensures i < OriSize
  {
    match a
    case Pitch => 0
    case Yaw => 1
    case Roll => 2
  }

  /** The orientation axis with index `i`, if there is one. */
  function OrientationAt(i: nat): (r: Option<OrientationAxis>)
    ensures r.Some? <==> i < OriSize
    ensures r.Some? ==> OrientationIndex(r.value) == i
  {
    if i == 0 then Some(Pitch)
    else if i == 1 then Some(Yaw)
    else if i == 2 then Some(Roll)
    else None
  }

  lemma OrientationIndexRoundTrip(a: OrientationAxis)
    ensures OrientationAt(OrientationIndex(a)) == Some(a)
  {
  }

  /** `r3e_vec3`: a coordinate axis. */
  datatype Vec3Axis = X | Y | Z

  /** `R3E_VEC3_SIZE` */
  const Vec3Size: nat := 3

  function Vec3Index(a: Vec3Axis): (i: nat)
    ensures i < Vec3Size
  {
    match a
    case X => 0
    case Y => 1
    case Z => 2
  }

  /** The coordinate axis with index `i`, if there is one. */
  function Vec3At(i: nat): (r: Option<Vec3Axis>)
    ensures r.Some? <==> i < Vec3Size
    ensures r.Some? ==> Vec3Index(r.value) == i
  {
    if i == 0 then Some(X)
    else if i == 1 then Some(Y)
    else if i == 2 then Some(Z)
    else None
  }

  lemma Vec3IndexRoundTrip(a: Vec3Axis)
    ensures Vec3At(Vec3Index(a)) == Some(a)
  {
  }

  // ---------------------------------------------------------------------
  // Field identifiers, numbered in order of first declaration; only their
  // distinctness matters.
  // ---------------------------------------------------------------------

  type Name = nat

  // r3e_playerdata
  const gameSimulationTicks: Name := 0
  const gameSimulationTime: Name := 1
  const position: Name := 2
  const velocity: Name := 3
  const acceleration: Name := 4
  const localAcceleration: Name := 5
  const orientation: Name := 6
  const rotation: Name := 7
  const angularAcceleration: Name := 8
  const driverBodyAcceleration: Name := 9
  // r3e_shared (position and localAcceleration are declared above)
  const userInput: Name := 10
  const engineRps: Name := 11
  const maxEngineRps: Name := 12
  const fuelPressure: Name := 13
  const fuelLeft: Name := 14
  const fuelCapacity: Name := 15
  const engineWaterTemp: Name := 16
  const engineOilTemp: Name := 17
  const engineOilPressure: Name := 18
  const carSpeed: Name := 19
  const numberOfLaps: Name := 20
  const completedLaps: Name := 21
  const lapTimeBest: Name := 22
  const lapTimePrevious: Name := 23
  const lapTimeCurrent: Name := 24
  const numCars: Name := 25
  const gear: Name := 26
  const tireTemp: Name := 27
  const numPenalties: Name := 28
  const carCgLoc: Name := 29
  const carOrientation: Name := 30
  const drsAvailable: Name := 31
  const drsEngaged: Name := 32
  const player: Name := 33

  // ---------------------------------------------------------------------
  // Types
  // ---------------------------------------------------------------------

  /** `r3e_float64 v[R3E_VEC3_SIZE]` */
  const Vec3F64: Ty<Name> := Arr(F64, Vec3Size)

  /** `r3e_float32 v[R3E_VEC3_SIZE]` */
  const Vec3F32: Ty<Name> := Arr(F32, Vec3Size)

  /** `r3e_float32 v[R3E_ORI_SIZE]` */
  const OrientationF32: Ty<Name> := Arr(F32, OriSize)

  /** `r3e_float32 tireTemp[R3E_TIRE_LOC_SIZE][R3E_TREAD_LOC_SIZE]`: one row of treads per tire. */
  const TireTempArray: Ty<Name> := Arr(Arr(F32, TreadLocSize), TireLocSize)

  // r3e_playerdata

  const PlayerDataFields0: seq<Field<Name>> := [
    Data(gameSimulationTicks, I32),
    Data(gameSimulationTime, F64)
  ]
  const PlayerDataFields1: seq<Field<Name>> := [
    Data(position, Vec3F64),
    Data(velocity, Vec3F64),
    Data(acceleration, Vec3F64),
    Data(localAcceleration, Vec3F64)
  ]
  const PlayerDataFields2: seq<Field<Name>> := [
    Data(orientation, Vec3F64),
    Data(rotation, Vec3F64),
    Data(angularAcceleration, Vec3F64),
    Data(driverBodyAcceleration, Vec3F64)
  ]
  const PlayerDataFields: seq<Field<Name>> := PlayerDataFields0 + PlayerDataFields1 + PlayerDataFields2

  const PlayerDataMap0: seq<Slot> := [Slot(0, 4), Slot(8, 8)]
  const PlayerDataMap1: seq<Slot> := [Slot(16, 24), Slot(40, 24), Slot(64, 24), Slot(88, 24)]
  const PlayerDataMap2: seq<Slot> := [Slot(112, 24), Slot(136, 24), Slot(160, 24), Slot(184, 24)]
  const PlayerDataMap: seq<Slot> := PlayerDataMap0 + PlayerDataMap1 + PlayerDataMap2

  lemma PlayerDataPart0Layout()
    ensures EndAt(Natural, PlayerDataFields, 1) == 4
    ensures EndAt(Natural, PlayerDataFields, 2) == 16
    ensures SlotsUpTo(Natural, PlayerDataFields, 2) == PlayerDataMap0
    ensures OffsetAt(Natural, PlayerDataFields, 1) == 8
  {
    assert |PlayerDataFields| == 10;
    assert EndAt(Natural, PlayerDataFields, 0) == 0;
    assert EndAt(Natural, PlayerDataFields, 1) == 4;
    assert EndAt(Natural, PlayerDataFields, 2) == 16;
    assert SlotsUpTo(Natural, PlayerDataFields, 1) == SlotsUpTo(Natural, PlayerDataFields, 0) + [Slot(0, 4)];
    assert SlotsUpTo(Natural, PlayerDataFields, 2) == SlotsUpTo(Natural, PlayerDataFields, 1) + [Slot(8, 8)];
  }

  lemma PlayerDataPart1Layout()
    ensures EndAt(Natural, PlayerDataFields, 6) == 112
    ensures SlotsUpTo(Natural, PlayerDataFields, 6) == PlayerDataMap0 + PlayerDataMap1
  {
    PlayerDataPart0Layout();
    assert |PlayerDataFields| == 10;
    assert EndAt(Natural, PlayerDataFields, 3) == 40;
    assert EndAt(Natural, PlayerDataFields, 4) == 64;
    assert EndAt(Natural, PlayerDataFields, 5) == 88;
    assert EndAt(Natural, PlayerDataFields, 6) == 112;
    assert SlotsUpTo(Natural, PlayerDataFields, 3) == SlotsUpTo(Natural, PlayerDataFields, 2) + [Slot(16, 24)];
    assert SlotsUpTo(Natural, PlayerDataFields, 4) == SlotsUpTo(Natural, PlayerDataFields, 3) + [Slot(40, 24)];
    assert SlotsUpTo(Natural, PlayerDataFields, 5) == SlotsUpTo(Natural, PlayerDataFields, 4) + [Slot(64, 24)];
    assert SlotsUpTo(Natural, PlayerDataFields, 6) == SlotsUpTo(Natural, PlayerDataFields, 5) + [Slot(88, 24)];
  }

  lemma PlayerDataPart2Layout()
    ensures EndAt(Natural, PlayerDataFields, 10) == 208
    ensures SlotsUpTo(Natural, PlayerDataFields, 10) == PlayerDataMap0 + PlayerDataMap1 + PlayerDataMap2
  {
    PlayerDataPart1Layout();
    assert |PlayerDataFields| == 10;
    assert EndAt(Natural, PlayerDataFields, 7) == 136;
    assert EndAt(Natural, PlayerDataFields, 8) == 160;
    assert EndAt(Natural, PlayerDataFields, 9) == 184;
    assert EndAt(Natural, PlayerDataFields, 10) == 208;
    assert SlotsUpTo(Natural, PlayerDataFields, 7) == SlotsUpTo(Natural, PlayerDataFields, 6) + [Slot(112, 24)];
    assert SlotsUpTo(Natural, PlayerDataFields, 8) == SlotsUpTo(Natural, PlayerDataFields, 7) + [Slot(136, 24)];
    assert SlotsUpTo(Natural, PlayerDataFields, 9) == SlotsUpTo(Natural, PlayerDataFields, 8) + [Slot(160, 24)];
    assert SlotsUpTo(Natural, PlayerDataFields, 10) == SlotsUpTo(Natural, PlayerDataFields, 9) + [Slot(184, 24)];
  }

  const PlayerData: Ty<Name> := Struct(PlayerDataFields)

  /**
   * Without packing, `gameSimulationTime` is moved to the next multiple of
   * 8 after the 4-byte `gameSimulationTicks`; the struct is 8-aligned and
   * 208 bytes long.
   */
  lemma PlayerDataLayout()
    ensures Slots(Natural, PlayerDataFields) == PlayerDataMap
    ensures OffsetAt(Natural, PlayerDataFields, 1) == 8
    ensures Align(Natural, PlayerData) == 8
    ensures Size(Natural, PlayerData) == 208
  {
    PlayerDataPart0Layout();
    PlayerDataPart2Layout();
    MaxAlignAtLeast(Natural, PlayerDataFields, |PlayerDataFields|, 1);
  }

  // r3e_shared

  const SharedFields0: seq<Field<Name>> := [
    Data(userInput, Arr(F32, 6)),
    Data(engineRps, F32),
    Data(maxEngineRps, F32),
    Data(fuelPressure, F32),
    Data(fuelLeft, F32)
  ]
  const SharedFields1: seq<Field<Name>> := [
    Data(fuelCapacity, F32),
    Data(engineWaterTemp, F32),
    Data(engineOilTemp, F32),
    Data(engineOilPressure, F32),
    Data(carSpeed, F32),
    Data(numberOfLaps, I32)
  ]
  const SharedFields2: seq<Field<Name>> := [
    Data(completedLaps, I32),
    Data(lapTimeBest, F32),
    Data(lapTimePrevious, F32),
    Data(lapTimeCurrent, F32),
    Data(position, I32),
    Data(numCars, I32)
  ]
  const SharedFields3: seq<Field<Name>> := [
    Data(gear, I32),
    Data(tireTemp, TireTempArray),
    Data(numPenalties, I32)
  ]
  const SharedFields4: seq<Field<Name>> := [
    Data(carCgLoc, Vec3F32),
    Data(carOrientation, OrientationF32),
    Data(localAcceleration, Vec3F32),
    Data(drsAvailable, I32),
    Data(drsEngaged, I32),
    Data(player, PlayerData)
  ]
  const SharedFields: seq<Field<Name>> := SharedFields0 + SharedFields1 + SharedFields2 + SharedFields3 + SharedFields4

  const SharedMap0: seq<Slot> := [Slot(0, 24), Slot(24, 4), Slot(28, 4), Slot(32, 4), Slot(36, 4)]
  const SharedMap1: seq<Slot> := [Slot(40, 4), Slot(44, 4), Slot(48, 4), Slot(52, 4), Slot(56, 4), Slot(60, 4)]
  const SharedMap2: seq<Slot> := [Slot(64, 4), Slot(68, 4), Slot(72, 4), Slot(76, 4), Slot(80, 4), Slot(84, 4)]
  const SharedMap3: seq<Slot> := [Slot(88, 4), Slot(92, 48), Slot(140, 4)]
  const SharedMap4: seq<Slot> := [Slot(144, 12), Slot(156, 12), Slot(168, 12), Slot(180, 4), Slot(184, 4), Slot(192, 208)]
  const SharedMap: seq<Slot> := SharedMap0 + SharedMap1 + SharedMap2 + SharedMap3 + SharedMap4

  lemma SharedPart0Layout()
    ensures EndAt(Natural, SharedFields, 5) == 40
    ensures SlotsUpTo(Natural, SharedFields, 5) == SharedMap0
    ensures OffsetAt(Natural, SharedFields, 1) == 24
  {
    assert |SharedFields| == 26;
    assert EndAt(Natural, SharedFields, 0) == 0;
    assert EndAt(Natural, SharedFields, 1) == 24;
    assert EndAt(Natural, SharedFields, 2) == 28;
    assert EndAt(Natural, SharedFields, 3) == 32;
    assert EndAt(Natural, SharedFields, 4) == 36;
    assert EndAt(Natural, SharedFields, 5) == 40;
    assert SlotsUpTo(Natural, SharedFields, 1) == SlotsUpTo(Natural, SharedFields, 0) + [Slot(0, 24)];
    assert SlotsUpTo(Natural, SharedFields, 2) == SlotsUpTo(Natural, SharedFields, 1) + [Slot(24, 4)];
    assert SlotsUpTo(Natural, SharedFields, 3) == SlotsUpTo(Natural, SharedFields, 2) + [Slot(28, 4)];
    assert SlotsUpTo(Natural, SharedFields, 4) == SlotsUpTo(Natural, SharedFields, 3) + [Slot(32, 4)];
    assert SlotsUpTo(Natural, SharedFields, 5) == SlotsUpTo(Natural, SharedFields, 4) + [Slot(36, 4)];
  }

  lemma SharedPart1Layout()
    ensures EndAt(Natural, SharedFields, 11) == 64
    ensures SlotsUpTo(Natural, SharedFields, 11) == SharedMap0 + SharedMap1
  {
    SharedPart0Layout();
    assert |SharedFields| == 26;
    assert EndAt(Natural, SharedFields, 6) == 44;
    assert EndAt(Natural, SharedFields, 7) == 48;
    assert EndAt(Natural, SharedFields, 8) == 52;
    assert EndAt(Natural, SharedFields, 9) == 56;
    assert EndAt(Natural, SharedFields, 10) == 60;
    assert EndAt(Natural, SharedFields, 11) == 64;
    assert SlotsUpTo(Natural, SharedFields, 6) == SlotsUpTo(Natural, SharedFields, 5) + [Slot(40, 4)];
    assert SlotsUpTo(Natural, SharedFields, 7) == SlotsUpTo(Natural, SharedFields, 6) + [Slot(44, 4)];
    assert SlotsUpTo(Natural, SharedFields, 8) == SlotsUpTo(Natural, SharedFields, 7) + [Slot(48, 4)];
    assert SlotsUpTo(Natural, SharedFields, 9) == SlotsUpTo(Natural, SharedFields, 8) + [Slot(52, 4)];
    assert SlotsUpTo(Natural, SharedFields, 10) == SlotsUpTo(Natural, SharedFields, 9) + [Slot(56, 4)];
    assert SlotsUpTo(Natural, SharedFields, 11) == SlotsUpTo(Natural, SharedFields, 10) + [Slot(60, 4)];
  }

  lemma SharedPart2Layout()
    ensures EndAt(Natural, SharedFields, 17) == 88
    ensures SlotsUpTo(Natural, SharedFields, 17) == SharedMap0 + SharedMap1 + SharedMap2
  {
    SharedPart1Layout();
    assert |SharedFields| == 26;
    assert EndAt(Natural, SharedFields, 12) == 68;
    assert EndAt(Natural, SharedFields, 13) == 72;
    assert EndAt(Natural, SharedFields, 14) == 76;
    assert EndAt(Natural, SharedFields, 15) == 80;
    assert EndAt(Natural, SharedFields, 16) == 84;
    assert EndAt(Natural, SharedFields, 17) == 88;
    assert SlotsUpTo(Natural, SharedFields, 12) == SlotsUpTo(Natural, SharedFields, 11) + [Slot(64, 4)];
    assert SlotsUpTo(Natural, SharedFields, 13) == SlotsUpTo(Natural, SharedFields, 12) + [Slot(68, 4)];
    assert SlotsUpTo(Natural, SharedFields, 14) == SlotsUpTo(Natural, SharedFields, 13) + [Slot(72, 4)];
    assert SlotsUpTo(Natural, SharedFields, 15) == SlotsUpTo(Natural, SharedFields, 14) + [Slot(76, 4)];
    assert SlotsUpTo(Natural, SharedFields, 16) == SlotsUpTo(Natural, SharedFields, 15) + [Slot(80, 4)];
    assert SlotsUpTo(Natural, SharedFields, 17) == SlotsUpTo(Natural, SharedFields, 16) + [Slot(84, 4)];
  }

  lemma SharedPart3Layout()
    ensures EndAt(Natural, SharedFields, 20) == 144
    ensures SlotsUpTo(Natural, SharedFields, 20) == SharedMap0 + SharedMap1 + SharedMap2 + SharedMap3
    ensures OffsetAt(Natural, SharedFields, 17) == 88
    ensures OffsetAt(Natural, SharedFields, 18) == 92
  {
    SharedPart2Layout();
    assert |SharedFields| == 26;
    assert EndAt(Natural, SharedFields, 18) == 92;
    assert EndAt(Natural, SharedFields, 19) == 140;
    assert EndAt(Natural, SharedFields, 20) == 144;
    assert SlotsUpTo(Natural, SharedFields, 18) == SlotsUpTo(Natural, SharedFields, 17) + [Slot(88, 4)];
    assert SlotsUpTo(Natural, SharedFields, 19) == SlotsUpTo(Natural, SharedFields, 18) + [Slot(92, 48)];
    assert SlotsUpTo(Natural, SharedFields, 20) == SlotsUpTo(Natural, SharedFields, 19) + [Slot(140, 4)];
  }

  lemma SharedPart4Layout()
    ensures EndAt(Natural, SharedFields, 26) == 400
    ensures SlotsUpTo(Natural, SharedFields, 26) == SharedMap0 + SharedMap1 + SharedMap2 + SharedMap3 + SharedMap4
    ensures OffsetAt(Natural, SharedFields, 24) == 184
    ensures OffsetAt(Natural, SharedFields, 25) == 192
  {
    SharedPart3Layout();
    PlayerDataLayout();
    assert |SharedFields| == 26;
    assert EndAt(Natural, SharedFields, 21) == 156;
    assert EndAt(Natural, SharedFields, 22) == 168;
    assert EndAt(Natural, SharedFields, 23) == 180;
    assert EndAt(Natural, SharedFields, 24) == 184;
    assert EndAt(Natural, SharedFields, 25) == 188;
    assert EndAt(Natural, SharedFields, 26) == 400;
    assert SlotsUpTo(Natural, SharedFields, 21) == SlotsUpTo(Natural, SharedFields, 20) + [Slot(144, 12)];
    assert SlotsUpTo(Natural, SharedFields, 22) == SlotsUpTo(Natural, SharedFields, 21) + [Slot(156, 12)];
    assert SlotsUpTo(Natural, SharedFields, 23) == SlotsUpTo(Natural, SharedFields, 22) + [Slot(168, 12)];
    assert SlotsUpTo(Natural, SharedFields, 24) == SlotsUpTo(Natural, SharedFields, 23) + [Slot(180, 4)];
    assert SlotsUpTo(Natural, SharedFields, 25) == SlotsUpTo(Natural, SharedFields, 24) + [Slot(184, 4)];
    assert SlotsUpTo(Natural, SharedFields, 26) == SlotsUpTo(Natural, SharedFields, 25) + [Slot(192, 208)];
  }

  const Shared: Ty<Name> := Struct(SharedFields)

  /**
   * Natural alignment puts the data of `r3e_shared` at the ranges of
   * `SharedMap`: `drsEngaged` ends at 188, the 8-aligned `player` starts
   * at 192, and the whole record is 400 bytes, a multiple of its alignment 8.
   */
  lemma SharedLayout()
    ensures Slots(Natural, SharedFields) == SharedMap
    ensures OffsetAt(Natural, SharedFields, 1) == 24
    ensures OffsetAt(Natural, SharedFields, 17) == 88
    ensures OffsetAt(Natural, SharedFields, 18) == 92
    ensures OffsetAt(Natural, SharedFields, 24) == 184
    ensures EndAt(Natural, SharedFields, 25) == 188
    ensures OffsetAt(Natural, SharedFields, 25) == 192
    ensures Align(Natural, Shared) == 8
    ensures Size(Natural, Shared) == 400 && 400 % 8 == 0
  {
    SharedPart0Layout();
    SharedPart3Layout();
    SharedPart4Layout();
    PlayerDataLayout();
    MaxAlignAtLeast(Natural, SharedFields, |SharedFields|, 25);
  }
  // ---------------------------------------------------------------------
  // Array elements
  // ---------------------------------------------------------------------

  /** Element `v[a]` of a double vector is `8 * a` bytes into it, inside its 24 bytes. */
  lemma VectorElement(a: Vec3Axis)
    ensures Locate(Natural, Vec3F64, [Element(Vec3Index(a))]) == Ok(Place(8 * Vec3Index(a), F64))
    ensures 8 * Vec3Index(a) + 8 <= Size(Natural, Vec3F64) == 24
  {
    LocateElement<Name>(Natural, F64, Vec3Size, Vec3Index(a));
  }

  lemma PlayerPlace()
    ensures Locate(Natural, Shared, [Member(player)]) == Ok(Place(192, PlayerData))
  {
    SharedLayout();
    LocateMember(Natural, SharedFields, 25);
  }

  lemma PositionPlace()
    ensures Locate(Natural, PlayerData, [Member(position)]) == Ok(Place(16, Vec3F64))
  {
    PlayerDataPart0Layout();
    LocateMember(Natural, PlayerDataFields, 2);
  }

  /** `position[a]` of `r3e_playerdata` is at 16 + 8 * a. */
  lemma PositionElement(a: Vec3Axis)
    ensures Locate(Natural, PlayerData, [Member(position), Element(Vec3Index(a))]) ==
      Ok(Place(16 + 8 * Vec3Index(a), F64))
  {
    PositionPlace();
    VectorElement(a);
    var first, second: seq<Step<Name>> := [Member(position)], [Element(Vec3Index(a))];
    assert first + second == [Member(position), Element(Vec3Index(a))];
    LocateConcat(Natural, PlayerData, first, second);
  }

  /** Element `[t][l]` of the tread temperatures is `4 * (3 * t + l)` bytes into the array. */
  lemma TireTempArrayElement(t: TireLocation, l: TreadLocation)
    ensures Locate(Natural, TireTempArray, [Element(TireIndex(t)), Element(TreadIndex(l))]) ==
      Ok(Place(4 * (3 * TireIndex(t) + TreadIndex(l)), F32))
  {
    var ti, li := TireIndex(t), TreadIndex(l);
    LocateElement<Name>(Natural, Arr(F32, TreadLocSize), TireLocSize, ti);
    LocateElement<Name>(Natural, F32, TreadLocSize, li);
    var first, second: seq<Step<Name>> := [Element(ti)], [Element(li)];
    assert first + second == [Element(ti), Element(li)];
    assert Locate(Natural, TireTempArray, first) == Ok(Place(12 * ti, Arr(F32, TreadLocSize)));
    assert Locate(Natural, Arr(F32, TreadLocSize), second) == Ok(Place(4 * li, F32));
    LocateConcat(Natural, TireTempArray, first, second);
  }

  /** `gear` is the `r3e_int32` at 88. */
  lemma GearPlace()
    ensures Locate(Natural, Shared, [Member(gear)]) == Ok(Place(88, I32))
  {
    SharedLayout();
    LocateMember(Natural, SharedFields, 17);
  }

  lemma TireTempPlace()
    ensures Locate(Natural, Shared, [Member(tireTemp)]) == Ok(Place(92, TireTempArray))
  {
    SharedLayout();
    LocateMember(Natural, SharedFields, 18);
  }

  /**
   * `tireTemp[t][l]` is row-major: tire `t`'s three treads lie together, and
   * the element is at 92 + 4 * (3 * t + l), inside the 48 bytes of the array.
   */
  lemma TireTempElement(t: TireLocation, l: TreadLocation)
    ensures Locate(Natural, Shared, [Member(tireTemp), Element(TireIndex(t)), Element(TreadIndex(l))]) ==
      Ok(Place(92 + 4 * (3 * TireIndex(t) + TreadIndex(l)), F32))
    ensures 92 <= 92 + 4 * (3 * TireIndex(t) + TreadIndex(l)) && 92 + 4 * (3 * TireIndex(t) + TreadIndex(l)) + 4 <= 92 + 48
  {
    var ti, li := TireIndex(t), TreadIndex(l);
    TireTempPlace();
    TireTempArrayElement(t, l);
    var inner: seq<Step<Name>> := [Element(ti), Element(li)];
    assert [Member(tireTemp)] + inner == [Member(tireTemp), Element(ti), Element(li)];
    LocateConcat(Natural, Shared, [Member(tireTemp)], inner);
  }
}
