/**
 * The C# mirror of the `$Race$` shared record: sequential structs with
 * `Pack = 1`, so every member starts where the previous one ends. The
 * members marked obsolete with an error ("Used for padding") are padding
 * fields; `UserInput`, obsolete with only a warning, is still data.
 */
module CSharpMirror {
  import opened Results
  import opened Layout
  import opened Access

  /** `Constant.SharedMemoryName` */
  const SharedMemoryName: string := "$Race$"

  /**
   * Member identifiers, numbered in order of first declaration; only their
   * distinctness matters. `UserInput`'s members `_1` … `_6` are spelt
   * `U1` … `U6`: an identifier may not start with an underscore here.
   */
  type Name = nat

  // Vector3<T>, Orientation<T>
  const X: Name := 0
  const Y: Name := 1
  const Z: Name := 2
  const Pitch: Name := 3
  const Yaw: Name := 4
  const Roll: Name := 5
  // UserInput
  const U1: Name := 6
  const U2: Name := 7
  const U3: Name := 8
  const U4: Name := 9
  const U5: Name := 10
  const U6: Name := 11
  // TireTemperature
  const FrontLeft_Left: Name := 12
  const FrontLeft_Center: Name := 13
  const FrontLeft_Right: Name := 14
  const FrontRight_Left: Name := 15
  const FrontRight_Center: Name := 16
  const FrontRight_Right: Name := 17
  const RearLeft_Left: Name := 18
  const RearLeft_Center: Name := 19
  const RearLeft_Right: Name := 20
  const RearRight_Left: Name := 21
  const RearRight_Center: Name := 22
  const RearRight_Right: Name := 23
  // PlayerData
  const GameSimulationTicks: Name := 24
  const Padding1: Name := 25
  const GameSimulationTime: Name := 26
  const Position: Name := 27
  const Velocity: Name := 28
  const Acceleration: Name := 29
  const LocalAcceleration: Name := 30
  const Orientation: Name := 31
  const Rotation: Name := 32
  const AngularAcceleration: Name := 33
  const DriverBodyAcceleration: Name := 34
  // Shared (Position, LocalAcceleration and Padding1 are declared above)
  const UserInput: Name := 35
  const EngineRps: Name := 36
  const MaxEngineRps: Name := 37
  const FuelPressure: Name := 38
  const FuelLeft: Name := 39
  const FuelCapacity: Name := 40
  const EngineWaterTemp: Name := 41
  const EngineOilTemp: Name := 42
  const EngineOilPressure: Name := 43
  const CarSpeed: Name := 44
  const NumberOfLaps: Name := 45
  const CompletedLaps: Name := 46
  const LapTimeBest: Name := 47
  const LapTimePrevious: Name := 48
  const LapTimeCurrent: Name := 49
  const NumCars: Name := 50
  const Gear: Name := 51
  const TireTemp: Name := 52
  const NumPenalties: Name := 53
  const CarCgLoc: Name := 54
  const CarOrientation: Name := 55
  const DrsAvailable: Name := 56
  const DrsEngaged: Name := 57
  const Player: Name := 58

  // Generic structs: `Vector3<T>` and `Orientation<T>` for a member type `t`.

  function Vector3Fields(t: Ty<Name>): (fs: seq<Field<Name>>) { [Data(X, t), Data(Y, t), Data(Z, t)] }

  function Vector3Type(t: Ty<Name>): (v: Ty<Name>) { Struct(Vector3Fields(t)) }

  function OrientationFields(t: Ty<Name>): (fs: seq<Field<Name>>) { [Data(Pitch, t), Data(Yaw, t), Data(Roll, t)] }

  function OrientationType(t: Ty<Name>): (o: Ty<Name>) { Struct(OrientationFields(t)) }

  /** Whatever `T` is, `Vector3<T>` holds three `T`s back to back. */
  lemma Vector3Layout(t: Ty<Name>)
    ensures var s := Size(Packed, t);
      Slots(Packed, Vector3Fields(t)) == [Slot(0, s), Slot(s, s), Slot(2 * s, s)] &&
      Size(Packed, Vector3Type(t)) == 3 * s
  {
    var fs, s := Vector3Fields(t), Size(Packed, t);
    assert EndAt(Packed, fs, 0) == 0;
    assert EndAt(Packed, fs, 1) == s;
    assert EndAt(Packed, fs, 2) == 2 * s;
    assert EndAt(Packed, fs, 3) == 3 * s;
    assert SlotsUpTo(Packed, fs, 1) == [Slot(0, s)];
    assert SlotsUpTo(Packed, fs, 2) == [Slot(0, s), Slot(s, s)];
  }

  /** Whatever `T` is, `Orientation<T>` holds three `T`s back to back. */
  lemma OrientationLayout(t: Ty<Name>)
    ensures var s := Size(Packed, t);
      Slots(Packed, OrientationFields(t)) == [Slot(0, s), Slot(s, s), Slot(2 * s, s)] &&
      Size(Packed, OrientationType(t)) == 3 * s
  {
    var fs, s := OrientationFields(t), Size(Packed, t);
    assert EndAt(Packed, fs, 0) == 0;
    assert EndAt(Packed, fs, 1) == s;
    assert EndAt(Packed, fs, 2) == 2 * s;
    assert EndAt(Packed, fs, 3) == 3 * s;
    assert SlotsUpTo(Packed, fs, 1) == [Slot(0, s)];
    assert SlotsUpTo(Packed, fs, 2) == [Slot(0, s), Slot(s, s)];
  }

  // UserInput

  const UserInputFields: seq<Field<Name>> := [
    Data(U1, F32), Data(U2, F32), Data(U3, F32), Data(U4, F32), Data(U5, F32), Data(U6, F32)
  ]

  const UserInputType: Ty<Name> := Struct(UserInputFields)

  /** `UserInput` is six `Single`s, 24 bytes, like `user_input[6]` of the C header. */
  lemma UserInputLayout()
    ensures Slots(Packed, UserInputFields) ==
      [Slot(0, 4), Slot(4, 4), Slot(8, 4), Slot(12, 4), Slot(16, 4), Slot(20, 4)]
    ensures Size(Packed, UserInputType) == 24
  {
    var fs := UserInputFields;
    assert EndAt(Packed, fs, 0) == 0;
    assert EndAt(Packed, fs, 1) == 4;
    assert EndAt(Packed, fs, 2) == 8;
    assert EndAt(Packed, fs, 3) == 12;
    assert EndAt(Packed, fs, 4) == 16;
    assert EndAt(Packed, fs, 5) == 20;
    assert EndAt(Packed, fs, 6) == 24;
    assert SlotsUpTo(Packed, fs, 1) == [Slot(0, 4)];
    assert SlotsUpTo(Packed, fs, 2) == [Slot(0, 4), Slot(4, 4)];
    assert SlotsUpTo(Packed, fs, 3) == [Slot(0, 4), Slot(4, 4), Slot(8, 4)];
    assert SlotsUpTo(Packed, fs, 4) == [Slot(0, 4), Slot(4, 4), Slot(8, 4), Slot(12, 4)];
    assert SlotsUpTo(Packed, fs, 5) == [Slot(0, 4), Slot(4, 4), Slot(8, 4), Slot(12, 4), Slot(16, 4)];
  }

  // TireTemperature, one tire per part.

  const TireTemperatureFields0: seq<Field<Name>> := [
    Data(FrontLeft_Left, F32),
    Data(FrontLeft_Center, F32),
    Data(FrontLeft_Right, F32)
  ]
  const TireTemperatureFields1: seq<Field<Name>> := [
    Data(FrontRight_Left, F32),
    Data(FrontRight_Center, F32),
    Data(FrontRight_Right, F32)
  ]
  const TireTemperatureFields2: seq<Field<Name>> := [
    Data(RearLeft_Left, F32),
    Data(RearLeft_Center, F32),
    Data(RearLeft_Right, F32)
  ]
  const TireTemperatureFields3: seq<Field<Name>> := [
    Data(RearRight_Left, F32),
    Data(RearRight_Center, F32),
    Data(RearRight_Right, F32)
  ]
  const TireTemperatureFields: seq<Field<Name>> := TireTemperatureFields0 + TireTemperatureFields1 + TireTemperatureFields2 + TireTemperatureFields3

  const TireTemperatureMap0: seq<Slot> := [Slot(0, 4), Slot(4, 4), Slot(8, 4)]
  const TireTemperatureMap1: seq<Slot> := [Slot(12, 4), Slot(16, 4), Slot(20, 4)]
  const TireTemperatureMap2: seq<Slot> := [Slot(24, 4), Slot(28, 4), Slot(32, 4)]
  const TireTemperatureMap3: seq<Slot> := [Slot(36, 4), Slot(40, 4), Slot(44, 4)]
  const TireTemperatureMap: seq<Slot> := TireTemperatureMap0 + TireTemperatureMap1 + TireTemperatureMap2 + TireTemperatureMap3

  lemma TireTemperaturePart0Layout()
    ensures EndAt(Packed, TireTemperatureFields, 3) == 12
    ensures SlotsUpTo(Packed, TireTemperatureFields, 3) == TireTemperatureMap0
  {
    assert |TireTemperatureFields| == 12;
    assert EndAt(Packed, TireTemperatureFields, 0) == 0;
    assert EndAt(Packed, TireTemperatureFields, 1) == 4;
    assert EndAt(Packed, TireTemperatureFields, 2) == 8;
    assert EndAt(Packed, TireTemperatureFields, 3) == 12;
    assert SlotsUpTo(Packed, TireTemperatureFields, 1) == SlotsUpTo(Packed, TireTemperatureFields, 0) + [Slot(0, 4)];
    assert SlotsUpTo(Packed, TireTemperatureFields, 2) == SlotsUpTo(Packed, TireTemperatureFields, 1) + [Slot(4, 4)];
    assert SlotsUpTo(Packed, TireTemperatureFields, 3) == SlotsUpTo(Packed, TireTemperatureFields, 2) + [Slot(8, 4)];
  }

  lemma TireTemperaturePart1Layout()
    ensures EndAt(Packed, TireTemperatureFields, 6) == 24
    ensures SlotsUpTo(Packed, TireTemperatureFields, 6) == TireTemperatureMap0 + TireTemperatureMap1
  {
    TireTemperaturePart0Layout();
    assert |TireTemperatureFields| == 12;
    assert EndAt(Packed, TireTemperatureFields, 4) == 16;
    assert EndAt(Packed, TireTemperatureFields, 5) == 20;
    assert EndAt(Packed, TireTemperatureFields, 6) == 24;
    assert SlotsUpTo(Packed, TireTemperatureFields, 4) == SlotsUpTo(Packed, TireTemperatureFields, 3) + [Slot(12, 4)];
    assert SlotsUpTo(Packed, TireTemperatureFields, 5) == SlotsUpTo(Packed, TireTemperatureFields, 4) + [Slot(16, 4)];
    assert SlotsUpTo(Packed, TireTemperatureFields, 6) == SlotsUpTo(Packed, TireTemperatureFields, 5) + [Slot(20, 4)];
  }

  lemma TireTemperaturePart2Layout()
    ensures EndAt(Packed, TireTemperatureFields, 9) == 36
    ensures SlotsUpTo(Packed, TireTemperatureFields, 9) == TireTemperatureMap0 + TireTemperatureMap1 + TireTemperatureMap2
  {
    TireTemperaturePart1Layout();
    assert |TireTemperatureFields| == 12;
    assert EndAt(Packed, TireTemperatureFields, 7) == 28;
    assert EndAt(Packed, TireTemperatureFields, 8) == 32;
    assert EndAt(Packed, TireTemperatureFields, 9) == 36;
    assert SlotsUpTo(Packed, TireTemperatureFields, 7) == SlotsUpTo(Packed, TireTemperatureFields, 6) + [Slot(24, 4)];
    assert SlotsUpTo(Packed, TireTemperatureFields, 8) == SlotsUpTo(Packed, TireTemperatureFields, 7) + [Slot(28, 4)];
    assert SlotsUpTo(Packed, TireTemperatureFields, 9) == SlotsUpTo(Packed, TireTemperatureFields, 8) + [Slot(32, 4)];
  }

  lemma TireTemperaturePart3Layout()
    ensures EndAt(Packed, TireTemperatureFields, 12) == 48
    ensures SlotsUpTo(Packed, TireTemperatureFields, 12) == TireTemperatureMap0 + TireTemperatureMap1 + TireTemperatureMap2 + TireTemperatureMap3
  {
    TireTemperaturePart2Layout();
    assert |TireTemperatureFields| == 12;
    assert EndAt(Packed, TireTemperatureFields, 10) == 40;
    assert EndAt(Packed, TireTemperatureFields, 11) == 44;
    assert EndAt(Packed, TireTemperatureFields, 12) == 48;
    assert SlotsUpTo(Packed, TireTemperatureFields, 10) == SlotsUpTo(Packed, TireTemperatureFields, 9) + [Slot(36, 4)];
    assert SlotsUpTo(Packed, TireTemperatureFields, 11) == SlotsUpTo(Packed, TireTemperatureFields, 10) + [Slot(40, 4)];
    assert SlotsUpTo(Packed, TireTemperatureFields, 12) == SlotsUpTo(Packed, TireTemperatureFields, 11) + [Slot(44, 4)];
  }

  const TireTemperatureType: Ty<Name> := Struct(TireTemperatureFields)

  /** `TireTemperature` holds its twelve `Single`s back to back: 48 bytes. */
  lemma TireTemperatureLayout()
    ensures Slots(Packed, TireTemperatureFields) == TireTemperatureMap
    ensures Size(Packed, TireTemperatureType) == 48
  {
    TireTemperaturePart3Layout();
  }

  // PlayerData

  const PlayerDataFields0: seq<Field<Name>> := [
    Data(GameSimulationTicks, I32),
    Padding(Padding1, I32),
    Data(GameSimulationTime, F64)
  ]
  const PlayerDataFields1: seq<Field<Name>> := [
    Data(Position, Vector3Type(F64)),
    Data(Velocity, Vector3Type(F64)),
    Data(Acceleration, Vector3Type(F64)),
    Data(LocalAcceleration, Vector3Type(F64))
  ]
  const PlayerDataFields2: seq<Field<Name>> := [
    Data(Orientation, Vector3Type(F64)),
    Data(Rotation, Vector3Type(F64)),
    Data(AngularAcceleration, Vector3Type(F64)),
    Data(DriverBodyAcceleration, Vector3Type(F64))
  ]
  const PlayerDataFields: seq<Field<Name>> := PlayerDataFields0 + PlayerDataFields1 + PlayerDataFields2

  const PlayerDataMap0: seq<Slot> := [Slot(0, 4), Slot(8, 8)]
  const PlayerDataMap1: seq<Slot> := [Slot(16, 24), Slot(40, 24), Slot(64, 24), Slot(88, 24)]
  const PlayerDataMap2: seq<Slot> := [Slot(112, 24), Slot(136, 24), Slot(160, 24), Slot(184, 24)]
  const PlayerDataMap: seq<Slot> := PlayerDataMap0 + PlayerDataMap1 + PlayerDataMap2

  lemma PlayerDataPart0Layout()
    ensures EndAt(Packed, PlayerDataFields, 3) == 16
    ensures SlotsUpTo(Packed, PlayerDataFields, 3) == PlayerDataMap0
    ensures OffsetAt(Packed, PlayerDataFields, 1) == 4
    ensures OffsetAt(Packed, PlayerDataFields, 2) == 8
  {
    assert |PlayerDataFields| == 11;
    assert EndAt(Packed, PlayerDataFields, 0) == 0;
    assert EndAt(Packed, PlayerDataFields, 1) == 4;
    assert EndAt(Packed, PlayerDataFields, 2) == 8;
    assert EndAt(Packed, PlayerDataFields, 3) == 16;
    assert SlotsUpTo(Packed, PlayerDataFields, 1) == SlotsUpTo(Packed, PlayerDataFields, 0) + [Slot(0, 4)];
    assert SlotsUpTo(Packed, PlayerDataFields, 2) == SlotsUpTo(Packed, PlayerDataFields, 1);
    assert SlotsUpTo(Packed, PlayerDataFields, 3) == SlotsUpTo(Packed, PlayerDataFields, 2) + [Slot(8, 8)];
  }

  lemma PlayerDataPart1Layout()
    ensures EndAt(Packed, PlayerDataFields, 7) == 112
    ensures SlotsUpTo(Packed, PlayerDataFields, 7) == PlayerDataMap0 + PlayerDataMap1
  {
    PlayerDataPart0Layout();
    Vector3Layout(F64);
    assert |PlayerDataFields| == 11;
    assert EndAt(Packed, PlayerDataFields, 4) == 40;
    assert EndAt(Packed, PlayerDataFields, 5) == 64;
    assert EndAt(Packed, PlayerDataFields, 6) == 88;
    assert EndAt(Packed, PlayerDataFields, 7) == 112;
    assert SlotsUpTo(Packed, PlayerDataFields, 4) == SlotsUpTo(Packed, PlayerDataFields, 3) + [Slot(16, 24)];
    assert SlotsUpTo(Packed, PlayerDataFields, 5) == SlotsUpTo(Packed, PlayerDataFields, 4) + [Slot(40, 24)];
    assert SlotsUpTo(Packed, PlayerDataFields, 6) == SlotsUpTo(Packed, PlayerDataFields, 5) + [Slot(64, 24)];
    assert SlotsUpTo(Packed, PlayerDataFields, 7) == SlotsUpTo(Packed, PlayerDataFields, 6) + [Slot(88, 24)];
  }

  lemma PlayerDataPart2Layout()
    ensures EndAt(Packed, PlayerDataFields, 11) == 208
    ensures SlotsUpTo(Packed, PlayerDataFields, 11) == PlayerDataMap0 + PlayerDataMap1 + PlayerDataMap2
    ensures OffsetAt(Packed, PlayerDataFields, 10) == 184
  {
    PlayerDataPart1Layout();
    Vector3Layout(F64);
    assert |PlayerDataFields| == 11;
    assert EndAt(Packed, PlayerDataFields, 8) == 136;
    assert EndAt(Packed, PlayerDataFields, 9) == 160;
    assert EndAt(Packed, PlayerDataFields, 10) == 184;
    assert EndAt(Packed, PlayerDataFields, 11) == 208;
    assert SlotsUpTo(Packed, PlayerDataFields, 8) == SlotsUpTo(Packed, PlayerDataFields, 7) + [Slot(112, 24)];
    assert SlotsUpTo(Packed, PlayerDataFields, 9) == SlotsUpTo(Packed, PlayerDataFields, 8) + [Slot(136, 24)];
    assert SlotsUpTo(Packed, PlayerDataFields, 10) == SlotsUpTo(Packed, PlayerDataFields, 9) + [Slot(160, 24)];
    assert SlotsUpTo(Packed, PlayerDataFields, 11) == SlotsUpTo(Packed, PlayerDataFields, 10) + [Slot(184, 24)];
  }

  const PlayerDataType: Ty<Name> := Struct(PlayerDataFields)

  /**
   * `PlayerData` is 208 bytes: `Padding1` at 4 puts `GameSimulationTime` at
   * 8, and `DriverBodyAcceleration` is the last 24 bytes, from 184.
   */
  lemma PlayerDataLayout()
    ensures Slots(Packed, PlayerDataFields) == PlayerDataMap
    ensures OffsetAt(Packed, PlayerDataFields, 1) == 4
    ensures OffsetAt(Packed, PlayerDataFields, 2) == 8
    ensures OffsetAt(Packed, PlayerDataFields, 10) == 184
    ensures Size(Packed, PlayerDataType) == 208
  {
    PlayerDataPart0Layout();
    PlayerDataPart2Layout();
  }

  // Shared, in parts of at most six members.

  const SharedFields0: seq<Field<Name>> := [
    Data(UserInput, UserInputType),
    Data(EngineRps, F32),
    Data(MaxEngineRps, F32),
    Data(FuelPressure, F32),
    Data(FuelLeft, F32)
  ]
  const SharedFields1: seq<Field<Name>> := [
    Data(FuelCapacity, F32),
    Data(EngineWaterTemp, F32),
    Data(EngineOilTemp, F32),
    Data(EngineOilPressure, F32),
    Data(CarSpeed, F32),
    Data(NumberOfLaps, I32)
  ]
  const SharedFields2: seq<Field<Name>> := [
    Data(CompletedLaps, I32),
    Data(LapTimeBest, F32),
    Data(LapTimePrevious, F32),
    Data(LapTimeCurrent, F32),
    Data(Position, I32),
    Data(NumCars, I32)
  ]
  const SharedFields3: seq<Field<Name>> := [
    Data(Gear, I32),
    Data(TireTemp, TireTemperatureType),
    Data(NumPenalties, I32)
  ]
  const SharedFields4: seq<Field<Name>> := [
    Data(CarCgLoc, Vector3Type(F32)),
    Data(CarOrientation, OrientationType(F32)),
    Data(LocalAcceleration, Vector3Type(F32)),
    Data(DrsAvailable, I32),
    Data(DrsEngaged, I32)
  ]
  const SharedFields5: seq<Field<Name>> := [
    Padding(Padding1, I32),
    Data(Player, PlayerDataType)
  ]
  const SharedFields: seq<Field<Name>> := SharedFields0 + SharedFields1 + SharedFields2 + SharedFields3 + SharedFields4 + SharedFields5

  const SharedMap0: seq<Slot> := [Slot(0, 24), Slot(24, 4), Slot(28, 4), Slot(32, 4), Slot(36, 4)]
  const SharedMap1: seq<Slot> := [Slot(40, 4), Slot(44, 4), Slot(48, 4), Slot(52, 4), Slot(56, 4), Slot(60, 4)]
  const SharedMap2: seq<Slot> := [Slot(64, 4), Slot(68, 4), Slot(72, 4), Slot(76, 4), Slot(80, 4), Slot(84, 4)]
  const SharedMap3: seq<Slot> := [Slot(88, 4), Slot(92, 48), Slot(140, 4)]
  const SharedMap4: seq<Slot> := [Slot(144, 12), Slot(156, 12), Slot(168, 12), Slot(180, 4), Slot(184, 4)]
  const SharedMap5: seq<Slot> := [Slot(192, 208)]
  const SharedMap: seq<Slot> := SharedMap0 + SharedMap1 + SharedMap2 + SharedMap3 + SharedMap4 + SharedMap5

  lemma SharedPart0Layout()
    ensures EndAt(Packed, SharedFields, 5) == 40
    ensures SlotsUpTo(Packed, SharedFields, 5) == SharedMap0
    ensures OffsetAt(Packed, SharedFields, 1) == 24
  {
    UserInputLayout();
    assert |SharedFields| == 27;
    assert EndAt(Packed, SharedFields, 0) == 0;
    assert EndAt(Packed, SharedFields, 1) == 24;
    assert EndAt(Packed, SharedFields, 2) == 28;
    assert EndAt(Packed, SharedFields, 3) == 32;
    assert EndAt(Packed, SharedFields, 4) == 36;
    assert EndAt(Packed, SharedFields, 5) == 40;
    assert SlotsUpTo(Packed, SharedFields, 1) == SlotsUpTo(Packed, SharedFields, 0) + [Slot(0, 24)];
    assert SlotsUpTo(Packed, SharedFields, 2) == SlotsUpTo(Packed, SharedFields, 1) + [Slot(24, 4)];
    assert SlotsUpTo(Packed, SharedFields, 3) == SlotsUpTo(Packed, SharedFields, 2) + [Slot(28, 4)];
    assert SlotsUpTo(Packed, SharedFields, 4) == SlotsUpTo(Packed, SharedFields, 3) + [Slot(32, 4)];
    assert SlotsUpTo(Packed, SharedFields, 5) == SlotsUpTo(Packed, SharedFields, 4) + [Slot(36, 4)];
  }

  lemma SharedPart1Layout()
    ensures EndAt(Packed, SharedFields, 11) == 64
    ensures SlotsUpTo(Packed, SharedFields, 11) == SharedMap0 + SharedMap1
  {
    SharedPart0Layout();
    assert |SharedFields| == 27;
    assert EndAt(Packed, SharedFields, 6) == 44;
    assert EndAt(Packed, SharedFields, 7) == 48;
    assert EndAt(Packed, SharedFields, 8) == 52;
    assert EndAt(Packed, SharedFields, 9) == 56;
    assert EndAt(Packed, SharedFields, 10) == 60;
    assert EndAt(Packed, SharedFields, 11) == 64;
    assert SlotsUpTo(Packed, SharedFields, 6) == SlotsUpTo(Packed, SharedFields, 5) + [Slot(40, 4)];
    assert SlotsUpTo(Packed, SharedFields, 7) == SlotsUpTo(Packed, SharedFields, 6) + [Slot(44, 4)];
    assert SlotsUpTo(Packed, SharedFields, 8) == SlotsUpTo(Packed, SharedFields, 7) + [Slot(48, 4)];
    assert SlotsUpTo(Packed, SharedFields, 9) == SlotsUpTo(Packed, SharedFields, 8) + [Slot(52, 4)];
    assert SlotsUpTo(Packed, SharedFields, 10) == SlotsUpTo(Packed, SharedFields, 9) + [Slot(56, 4)];
    assert SlotsUpTo(Packed, SharedFields, 11) == SlotsUpTo(Packed, SharedFields, 10) + [Slot(60, 4)];
  }

  lemma SharedPart2Layout()
    ensures EndAt(Packed, SharedFields, 17) == 88
    ensures SlotsUpTo(Packed, SharedFields, 17) == SharedMap0 + SharedMap1 + SharedMap2
  {
    SharedPart1Layout();
    assert |SharedFields| == 27;
    assert EndAt(Packed, SharedFields, 12) == 68;
    assert EndAt(Packed, SharedFields, 13) == 72;
    assert EndAt(Packed, SharedFields, 14) == 76;
    assert EndAt(Packed, SharedFields, 15) == 80;
    assert EndAt(Packed, SharedFields, 16) == 84;
    assert EndAt(Packed, SharedFields, 17) == 88;
    assert SlotsUpTo(Packed, SharedFields, 12) == SlotsUpTo(Packed, SharedFields, 11) + [Slot(64, 4)];
    assert SlotsUpTo(Packed, SharedFields, 13) == SlotsUpTo(Packed, SharedFields, 12) + [Slot(68, 4)];
    assert SlotsUpTo(Packed, SharedFields, 14) == SlotsUpTo(Packed, SharedFields, 13) + [Slot(72, 4)];
    assert SlotsUpTo(Packed, SharedFields, 15) == SlotsUpTo(Packed, SharedFields, 14) + [Slot(76, 4)];
    assert SlotsUpTo(Packed, SharedFields, 16) == SlotsUpTo(Packed, SharedFields, 15) + [Slot(80, 4)];
    assert SlotsUpTo(Packed, SharedFields, 17) == SlotsUpTo(Packed, SharedFields, 16) + [Slot(84, 4)];
  }

  lemma SharedPart3Layout()
    ensures EndAt(Packed, SharedFields, 20) == 144
    ensures SlotsUpTo(Packed, SharedFields, 20) == SharedMap0 + SharedMap1 + SharedMap2 + SharedMap3
    ensures OffsetAt(Packed, SharedFields, 17) == 88
    ensures OffsetAt(Packed, SharedFields, 18) == 92
  {
    SharedPart2Layout();
    TireTemperatureLayout();
    assert |SharedFields| == 27;
    assert EndAt(Packed, SharedFields, 18) == 92;
    assert EndAt(Packed, SharedFields, 19) == 140;
    assert EndAt(Packed, SharedFields, 20) == 144;
    assert SlotsUpTo(Packed, SharedFields, 18) == SlotsUpTo(Packed, SharedFields, 17) + [Slot(88, 4)];
    assert SlotsUpTo(Packed, SharedFields, 19) == SlotsUpTo(Packed, SharedFields, 18) + [Slot(92, 48)];
    assert SlotsUpTo(Packed, SharedFields, 20) == SlotsUpTo(Packed, SharedFields, 19) + [Slot(140, 4)];
  }

  lemma SharedPart4Layout()
    ensures EndAt(Packed, SharedFields, 25) == 188
    ensures SlotsUpTo(Packed, SharedFields, 25) == SharedMap0 + SharedMap1 + SharedMap2 + SharedMap3 + SharedMap4
    ensures OffsetAt(Packed, SharedFields, 24) == 184
  {
    SharedPart3Layout();
    OrientationLayout(F32);
    Vector3Layout(F32);
    assert |SharedFields| == 27;
    assert EndAt(Packed, SharedFields, 21) == 156;
    assert EndAt(Packed, SharedFields, 22) == 168;
    assert EndAt(Packed, SharedFields, 23) == 180;
    assert EndAt(Packed, SharedFields, 24) == 184;
    assert EndAt(Packed, SharedFields, 25) == 188;
    assert SlotsUpTo(Packed, SharedFields, 21) == SlotsUpTo(Packed, SharedFields, 20) + [Slot(144, 12)];
    assert SlotsUpTo(Packed, SharedFields, 22) == SlotsUpTo(Packed, SharedFields, 21) + [Slot(156, 12)];
    assert SlotsUpTo(Packed, SharedFields, 23) == SlotsUpTo(Packed, SharedFields, 22) + [Slot(168, 12)];
    assert SlotsUpTo(Packed, SharedFields, 24) == SlotsUpTo(Packed, SharedFields, 23) + [Slot(180, 4)];
    assert SlotsUpTo(Packed, SharedFields, 25) == SlotsUpTo(Packed, SharedFields, 24) + [Slot(184, 4)];
  }

  lemma SharedPart5Layout()
    ensures EndAt(Packed, SharedFields, 27) == 400
    ensures SlotsUpTo(Packed, SharedFields, 27) == SharedMap0 + SharedMap1 + SharedMap2 + SharedMap3 + SharedMap4 + SharedMap5
    ensures OffsetAt(Packed, SharedFields, 25) == 188
    ensures OffsetAt(Packed, SharedFields, 26) == 192
  {
    SharedPart4Layout();
    PlayerDataLayout();
    assert |SharedFields| == 27;
    assert EndAt(Packed, SharedFields, 26) == 192;
    assert EndAt(Packed, SharedFields, 27) == 400;
    assert SlotsUpTo(Packed, SharedFields, 26) == SlotsUpTo(Packed, SharedFields, 25);
    assert SlotsUpTo(Packed, SharedFields, 27) == SlotsUpTo(Packed, SharedFields, 26) + [Slot(192, 208)];
  }

  const SharedType: Ty<Name> := Struct(SharedFields)

  /**
   * `Shared` is 400 bytes; `Padding1` at 188 puts `Player` at 192.
   */
  lemma SharedLayout()
    ensures Slots(Packed, SharedFields) == SharedMap
    ensures OffsetAt(Packed, SharedFields, 1) == 24
    ensures OffsetAt(Packed, SharedFields, 17) == 88
    ensures OffsetAt(Packed, SharedFields, 18) == 92
    ensures OffsetAt(Packed, SharedFields, 24) == 184
    ensures OffsetAt(Packed, SharedFields, 25) == 188
    ensures OffsetAt(Packed, SharedFields, 26) == 192
    ensures Size(Packed, SharedType) == 400
  {
    SharedPart0Layout();
    SharedPart3Layout();
    SharedPart4Layout();
    SharedPart5Layout();
  }

  // Member access

  /** The twelve `TireTemperature` members are `Single`s named in declaration order. */
  lemma TireTemperatureMembers()
    ensures |TireTemperatureFields| == 12
    ensures forall k :: 0 <= k < |TireTemperatureFields| ==>
      TireTemperatureFields[k] == Data(FrontLeft_Left + k, F32)
  {
  }

  /** Member `k` of `TireTemperature` is the `Single` at `4 * k`. */
  lemma TireTemperatureMember(k: nat)
    requires k < 12
    ensures Locate(Packed, TireTemperatureType, [Member(TireTemperatureFields[k].name)]) == Ok(Place(4 * k, F32))
  {
    TireTemperatureMembers();
    PackedUniformEnd(TireTemperatureFields, 4, k);
    LocateMember(Packed, TireTemperatureFields, k);
  }

  /** `Shared.TireTemp` is the 48-byte `TireTemperature` at 92. */
  lemma TireTempPlace()
    ensures Locate(Packed, SharedType, [Member(TireTemp)]) == Ok(Place(92, TireTemperatureType))
  {
    SharedLayout();
    LocateMember(Packed, SharedFields, 18);
  }

  /** `Shared.Gear` is the `Int32` at 88. */
  lemma GearPlace()
    ensures Locate(Packed, SharedType, [Member(Gear)]) == Ok(Place(88, I32))
  {
    SharedLayout();
    LocateMember(Packed, SharedFields, 17);
  }
}
