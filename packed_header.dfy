/**
 * The packed (`#pragma pack(push, 1)`) declaration of the `$Race$` shared
 * record, field by field, with the sizes and offsets it implies.
 */
module PackedHeader {
  import opened Results
  import opened Layout
  import opened Access

  /** Name of the shared-memory segment the record is published under. */
  const SharedMemoryName: string := "$Race$"

  /**
   * Field identifiers of this header, numbered like C enumerators in order
   * of first declaration; only their distinctness matters. (`_padding1` is
   * spelt `padding1`: an identifier may not start with an underscore here.)
   */
  type Name = nat

  // r3e_vec3_f32, r3e_vec3_f64, r3e_orientation_f32
  const x: Name := 0
  const y: Name := 1
  const z: Name := 2
  const pitch: Name := 3
  const yaw: Name := 4
  const roll: Name := 5
  // r3e_tiretemps
  const frontleft_left: Name := 6
  const frontleft_center: Name := 7
  const frontleft_right: Name := 8
  const frontright_left: Name := 9
  const frontright_center: Name := 10
  const frontright_right: Name := 11
  const rearleft_left: Name := 12
  const rearleft_center: Name := 13
  const rearleft_right: Name := 14
  const rearright_left: Name := 15
  const rearright_center: Name := 16
  const rearright_right: Name := 17
  // r3e_playerdata
  const game_simulation_ticks: Name := 18
  const padding1: Name := 19
  const game_simulation_time: Name := 20
  const position: Name := 21
  const velocity: Name := 22
  const acceleration: Name := 23
  const local_acceleration: Name := 24
  const orientation: Name := 25
  const rotation: Name := 26
  const angular_acceleration: Name := 27
  const driver_body_acceleration: Name := 28
  // r3e_shared (position, local_acceleration and padding1 are declared above)
  const user_input: Name := 29
  const engine_rps: Name := 30
  const max_engine_rps: Name := 31
  const fuel_pressure: Name := 32
  const fuel_left: Name := 33
  const fuel_capacity: Name := 34
  const engine_water_temp: Name := 35
  const engine_oil_temp: Name := 36
  const engine_oil_pressure: Name := 37
  const car_speed: Name := 38
  const number_of_laps: Name := 39
  const completed_laps: Name := 40
  const lap_time_best: Name := 41
  const lap_time_previous: Name := 42
  const lap_time_current: Name := 43
  const num_cars: Name := 44
  const gear: Name := 45
  const tire_temps: Name := 46
  const num_penalties: Name := 47
  const car_cg_location: Name := 48
  const car_orientation: Name := 49
  const drs_available: Name := 50
  const drs_engaged: Name := 51
  const player: Name := 52

  const Vec3F32Fields: seq<Field<Name>> := [Data(x, F32), Data(y, F32), Data(z, F32)]
  const Vec3F32: Ty<Name> := Struct(Vec3F32Fields)

  const Vec3F64Fields: seq<Field<Name>> := [Data(x, F64), Data(y, F64), Data(z, F64)]
  const Vec3F64: Ty<Name> := Struct(Vec3F64Fields)

  const OrientationF32Fields: seq<Field<Name>> := [Data(pitch, F32), Data(yaw, F32), Data(roll, F32)]
  const OrientationF32: Ty<Name> := Struct(OrientationF32Fields)

  lemma Vec3F32Layout()
    ensures Slots(Packed, Vec3F32Fields) == [Slot(0, 4), Slot(4, 4), Slot(8, 4)]
    ensures Size(Packed, Vec3F32) == 12
  {
    assert |Vec3F32Fields| == 3;
    assert EndAt(Packed, Vec3F32Fields, 0) == 0;
    assert EndAt(Packed, Vec3F32Fields, 1) == 4;
    assert EndAt(Packed, Vec3F32Fields, 2) == 8;
    assert EndAt(Packed, Vec3F32Fields, 3) == 12;
    assert SlotsUpTo(Packed, Vec3F32Fields, 1) == [Slot(0, 4)];
    assert SlotsUpTo(Packed, Vec3F32Fields, 2) == [Slot(0, 4), Slot(4, 4)];
  }

  lemma Vec3F64Layout()
    ensures Slots(Packed, Vec3F64Fields) == [Slot(0, 8), Slot(8, 8), Slot(16, 8)]
    ensures Size(Packed, Vec3F64) == 24
  {
    assert |Vec3F64Fields| == 3;
    assert EndAt(Packed, Vec3F64Fields, 0) == 0;
    assert EndAt(Packed, Vec3F64Fields, 1) == 8;
    assert EndAt(Packed, Vec3F64Fields, 2) == 16;
    assert EndAt(Packed, Vec3F64Fields, 3) == 24;
    assert SlotsUpTo(Packed, Vec3F64Fields, 1) == [Slot(0, 8)];
    assert SlotsUpTo(Packed, Vec3F64Fields, 2) == [Slot(0, 8), Slot(8, 8)];
  }

  lemma OrientationF32Layout()
    ensures Slots(Packed, OrientationF32Fields) == [Slot(0, 4), Slot(4, 4), Slot(8, 4)]
    ensures Size(Packed, OrientationF32) == 12
  {
    assert |OrientationF32Fields| == 3;
    assert EndAt(Packed, OrientationF32Fields, 0) == 0;
    assert EndAt(Packed, OrientationF32Fields, 1) == 4;
    assert EndAt(Packed, OrientationF32Fields, 2) == 8;
    assert EndAt(Packed, OrientationF32Fields, 3) == 12;
    assert SlotsUpTo(Packed, OrientationF32Fields, 1) == [Slot(0, 4)];
    assert SlotsUpTo(Packed, OrientationF32Fields, 2) == [Slot(0, 4), Slot(4, 4)];
  }

  // r3e_tiretemps, one tire (left, center, right tread) per part.

  const TireTempsFields0: seq<Field<Name>> := [
    Data(frontleft_left, F32),
    Data(frontleft_center, F32),
    Data(frontleft_right, F32)
  ]
  const TireTempsFields1: seq<Field<Name>> := [
    Data(frontright_left, F32),
    Data(frontright_center, F32),
    Data(frontright_right, F32)
  ]
  const TireTempsFields2: seq<Field<Name>> := [
    Data(rearleft_left, F32),
    Data(rearleft_center, F32),
    Data(rearleft_right, F32)
  ]
  const TireTempsFields3: seq<Field<Name>> := [
    Data(rearright_left, F32),
    Data(rearright_center, F32),
    Data(rearright_right, F32)
  ]
  const TireTempsFields: seq<Field<Name>> := TireTempsFields0 + TireTempsFields1 + TireTempsFields2 + TireTempsFields3

  const TireTempsMap0: seq<Slot> := [Slot(0, 4), Slot(4, 4), Slot(8, 4)]
  const TireTempsMap1: seq<Slot> := [Slot(12, 4), Slot(16, 4), Slot(20, 4)]
  const TireTempsMap2: seq<Slot> := [Slot(24, 4), Slot(28, 4), Slot(32, 4)]
  const TireTempsMap3: seq<Slot> := [Slot(36, 4), Slot(40, 4), Slot(44, 4)]
  const TireTempsMap: seq<Slot> := TireTempsMap0 + TireTempsMap1 + TireTempsMap2 + TireTempsMap3

  lemma TireTempsPart0Layout()
    ensures EndAt(Packed, TireTempsFields, 3) == 12
    ensures SlotsUpTo(Packed, TireTempsFields, 3) == TireTempsMap0
  {
    assert |TireTempsFields| == 12;
    assert EndAt(Packed, TireTempsFields, 0) == 0;
    assert EndAt(Packed, TireTempsFields, 1) == 4;
    assert EndAt(Packed, TireTempsFields, 2) == 8;
    assert EndAt(Packed, TireTempsFields, 3) == 12;
    assert SlotsUpTo(Packed, TireTempsFields, 1) == SlotsUpTo(Packed, TireTempsFields, 0) + [Slot(0, 4)];
    assert SlotsUpTo(Packed, TireTempsFields, 2) == SlotsUpTo(Packed, TireTempsFields, 1) + [Slot(4, 4)];
    assert SlotsUpTo(Packed, TireTempsFields, 3) == SlotsUpTo(Packed, TireTempsFields, 2) + [Slot(8, 4)];
  }

  lemma TireTempsPart1Layout()
    ensures EndAt(Packed, TireTempsFields, 6) == 24
    ensures SlotsUpTo(Packed, TireTempsFields, 6) == TireTempsMap0 + TireTempsMap1
  {
    TireTempsPart0Layout();
    assert |TireTempsFields| == 12;
    assert EndAt(Packed, TireTempsFields, 4) == 16;
    assert EndAt(Packed, TireTempsFields, 5) == 20;
    assert EndAt(Packed, TireTempsFields, 6) == 24;
    assert SlotsUpTo(Packed, TireTempsFields, 4) == SlotsUpTo(Packed, TireTempsFields, 3) + [Slot(12, 4)];
    assert SlotsUpTo(Packed, TireTempsFields, 5) == SlotsUpTo(Packed, TireTempsFields, 4) + [Slot(16, 4)];
    assert SlotsUpTo(Packed, TireTempsFields, 6) == SlotsUpTo(Packed, TireTempsFields, 5) + [Slot(20, 4)];
  }

  lemma TireTempsPart2Layout()
    ensures EndAt(Packed, TireTempsFields, 9) == 36
    ensures SlotsUpTo(Packed, TireTempsFields, 9) == TireTempsMap0 + TireTempsMap1 + TireTempsMap2
  {
    TireTempsPart1Layout();
    assert |TireTempsFields| == 12;
    assert EndAt(Packed, TireTempsFields, 7) == 28;
    assert EndAt(Packed, TireTempsFields, 8) == 32;
    assert EndAt(Packed, TireTempsFields, 9) == 36;
    assert SlotsUpTo(Packed, TireTempsFields, 7) == SlotsUpTo(Packed, TireTempsFields, 6) + [Slot(24, 4)];
    assert SlotsUpTo(Packed, TireTempsFields, 8) == SlotsUpTo(Packed, TireTempsFields, 7) + [Slot(28, 4)];
    assert SlotsUpTo(Packed, TireTempsFields, 9) == SlotsUpTo(Packed, TireTempsFields, 8) + [Slot(32, 4)];
  }

  lemma TireTempsPart3Layout()
    ensures EndAt(Packed, TireTempsFields, 12) == 48
    ensures SlotsUpTo(Packed, TireTempsFields, 12) == TireTempsMap0 + TireTempsMap1 + TireTempsMap2 + TireTempsMap3
  {
    TireTempsPart2Layout();
    assert |TireTempsFields| == 12;
    assert EndAt(Packed, TireTempsFields, 10) == 40;
    assert EndAt(Packed, TireTempsFields, 11) == 44;
    assert EndAt(Packed, TireTempsFields, 12) == 48;
    assert SlotsUpTo(Packed, TireTempsFields, 10) == SlotsUpTo(Packed, TireTempsFields, 9) + [Slot(36, 4)];
    assert SlotsUpTo(Packed, TireTempsFields, 11) == SlotsUpTo(Packed, TireTempsFields, 10) + [Slot(40, 4)];
    assert SlotsUpTo(Packed, TireTempsFields, 12) == SlotsUpTo(Packed, TireTempsFields, 11) + [Slot(44, 4)];
  }

  /** `r3e_tiretemps` holds its twelve tread temperatures back to back: 48 bytes. */
  lemma TireTempsLayout()
    ensures Slots(Packed, TireTempsFields) == TireTempsMap
    ensures Size(Packed, TireTemps) == 48
  {
    TireTempsPart3Layout();
  }

  const TireTemps: Ty<Name> := Struct(TireTempsFields)

  // r3e_playerdata: the scalars, then the eight vectors in two parts.

  const PlayerDataFields0: seq<Field<Name>> := [
    Data(game_simulation_ticks, I32),
    Padding(padding1, I32),
    Data(game_simulation_time, F64)
  ]
  const PlayerDataFields1: seq<Field<Name>> := [
    Data(position, Vec3F64),
    Data(velocity, Vec3F64),
    Data(acceleration, Vec3F64),
    Data(local_acceleration, Vec3F64)
  ]
  const PlayerDataFields2: seq<Field<Name>> := [
    Data(orientation, Vec3F64),
    Data(rotation, Vec3F64),
    Data(angular_acceleration, Vec3F64),
    Data(driver_body_acceleration, Vec3F64)
  ]
  const PlayerDataFields: seq<Field<Name>> := PlayerDataFields0 + PlayerDataFields1 + PlayerDataFields2

  const PlayerDataMap0: seq<Slot> := [Slot(0, 4), Slot(8, 8)]
  const PlayerDataMap1: seq<Slot> := [Slot(16, 24), Slot(40, 24), Slot(64, 24), Slot(88, 24)]
  const PlayerDataMap2: seq<Slot> := [Slot(112, 24), Slot(136, 24), Slot(160, 24), Slot(184, 24)]
  const PlayerDataMap: seq<Slot> := PlayerDataMap0 + PlayerDataMap1 + PlayerDataMap2

  lemma PlayerDataPart0Layout()
    ensures EndAt(Packed, PlayerDataFields, 3) == 16
    ensures SlotsUpTo(Packed, PlayerDataFields, 3) == PlayerDataMap0
    ensures OffsetAt(Packed, PlayerDataFields, 1) == 4
    ensures OffsetAt(Packed, PlayerDataFields, 2) == 8
  {
    assert |PlayerDataFields| == 11;
    assert EndAt(Packed, PlayerDataFields, 0) == 0;
    assert EndAt(Packed, PlayerDataFields, 1) == 4;
    assert EndAt(Packed, PlayerDataFields, 2) == 8;
    assert EndAt(Packed, PlayerDataFields, 3) == 16;
    assert SlotsUpTo(Packed, PlayerDataFields, 1) == SlotsUpTo(Packed, PlayerDataFields, 0) + [Slot(0, 4)];
    assert SlotsUpTo(Packed, PlayerDataFields, 2) == SlotsUpTo(Packed, PlayerDataFields, 1);
    assert SlotsUpTo(Packed, PlayerDataFields, 3) == SlotsUpTo(Packed, PlayerDataFields, 2) + [Slot(8, 8)];
  }

  lemma PlayerDataPart1Layout()
    ensures EndAt(Packed, PlayerDataFields, 7) == 112
    ensures SlotsUpTo(Packed, PlayerDataFields, 7) == PlayerDataMap0 + PlayerDataMap1
  {
    PlayerDataPart0Layout();
    Vec3F64Layout();
    assert |PlayerDataFields| == 11;
    assert EndAt(Packed, PlayerDataFields, 4) == 40;
    assert EndAt(Packed, PlayerDataFields, 5) == 64;
    assert EndAt(Packed, PlayerDataFields, 6) == 88;
    assert EndAt(Packed, PlayerDataFields, 7) == 112;
    assert SlotsUpTo(Packed, PlayerDataFields, 4) == SlotsUpTo(Packed, PlayerDataFields, 3) + [Slot(16, 24)];
    assert SlotsUpTo(Packed, PlayerDataFields, 5) == SlotsUpTo(Packed, PlayerDataFields, 4) + [Slot(40, 24)];
    assert SlotsUpTo(Packed, PlayerDataFields, 6) == SlotsUpTo(Packed, PlayerDataFields, 5) + [Slot(64, 24)];
    assert SlotsUpTo(Packed, PlayerDataFields, 7) == SlotsUpTo(Packed, PlayerDataFields, 6) + [Slot(88, 24)];
  }

  lemma PlayerDataPart2Layout()
    ensures EndAt(Packed, PlayerDataFields, 11) == 208
    ensures SlotsUpTo(Packed, PlayerDataFields, 11) == PlayerDataMap0 + PlayerDataMap1 + PlayerDataMap2
    ensures OffsetAt(Packed, PlayerDataFields, 10) == 184
  {
    PlayerDataPart1Layout();
    Vec3F64Layout();
    assert |PlayerDataFields| == 11;
    assert EndAt(Packed, PlayerDataFields, 8) == 136;
    assert EndAt(Packed, PlayerDataFields, 9) == 160;
    assert EndAt(Packed, PlayerDataFields, 10) == 184;
    assert EndAt(Packed, PlayerDataFields, 11) == 208;
    assert SlotsUpTo(Packed, PlayerDataFields, 8) == SlotsUpTo(Packed, PlayerDataFields, 7) + [Slot(112, 24)];
    assert SlotsUpTo(Packed, PlayerDataFields, 9) == SlotsUpTo(Packed, PlayerDataFields, 8) + [Slot(136, 24)];
    assert SlotsUpTo(Packed, PlayerDataFields, 10) == SlotsUpTo(Packed, PlayerDataFields, 9) + [Slot(160, 24)];
    assert SlotsUpTo(Packed, PlayerDataFields, 11) == SlotsUpTo(Packed, PlayerDataFields, 10) + [Slot(184, 24)];
  }

  const PlayerData: Ty<Name> := Struct(PlayerDataFields)

  /**
   * `r3e_playerdata` is 208 bytes; `_padding1` fills bytes 4..8 so that
   * `game_simulation_time` starts on an 8-byte boundary.
   */
  lemma PlayerDataLayout()
    ensures Slots(Packed, PlayerDataFields) == PlayerDataMap
    ensures OffsetAt(Packed, PlayerDataFields, 1) == 4
    ensures OffsetAt(Packed, PlayerDataFields, 2) == 8
    ensures OffsetAt(Packed, PlayerDataFields, 10) == 184
    ensures Size(Packed, PlayerData) == 208
  {
    PlayerDataPart0Layout();
    PlayerDataPart2Layout();
  }

  // r3e_shared, in parts of at most six fields.

  const SharedFields0: seq<Field<Name>> := [
    Data(user_input, Arr(F32, 6)),
    Data(engine_rps, F32),
    Data(max_engine_rps, F32),
    Data(fuel_pressure, F32),
    Data(fuel_left, F32)
  ]
  const SharedFields1: seq<Field<Name>> := [
    Data(fuel_capacity, F32),
    Data(engine_water_temp, F32),
    Data(engine_oil_temp, F32),
    Data(engine_oil_pressure, F32),
    Data(car_speed, F32),
    Data(number_of_laps, I32)
  ]
  const SharedFields2: seq<Field<Name>> := [
    Data(completed_laps, I32),
    Data(lap_time_best, F32),
    Data(lap_time_previous, F32),
    Data(lap_time_current, F32),
    Data(position, I32),
    Data(num_cars, I32)
  ]
  const SharedFields3: seq<Field<Name>> := [
    Data(gear, I32),
    Data(tire_temps, TireTemps),
    Data(num_penalties, I32)
  ]
  const SharedFields4: seq<Field<Name>> := [
    Data(car_cg_location, Vec3F32),
    Data(car_orientation, OrientationF32),
    Data(local_acceleration, Vec3F32),
    Data(drs_available, I32),
    Data(drs_engaged, I32)
  ]
  const SharedFields5: seq<Field<Name>> := [
    Padding(padding1, I32),
    Data(player, PlayerData)
  ]
  const SharedFields: seq<Field<Name>> := SharedFields0 + SharedFields1 + SharedFields2 + SharedFields3 + SharedFields4 + SharedFields5

  const SharedMap0: seq<Slot> := [Slot(0, 24), Slot(24, 4), Slot(28, 4), Slot(32, 4), Slot(36, 4)]
  const SharedMap1: seq<Slot> := [Slot(40, 4), Slot(44, 4), Slot(48, 4), Slot(52, 4), Slot(56, 4), Slot(60, 4)]
  const SharedMap2: seq<Slot> := [Slot(64, 4), Slot(68, 4), Slot(72, 4), Slot(76, 4), Slot(80, 4), Slot(84, 4)]
  const SharedMap3: seq<Slot> := [Slot(88, 4), Slot(92, 48), Slot(140, 4)]
  const SharedMap4: seq<Slot> := [Slot(144, 12), Slot(156, 12), Slot(168, 12), Slot(180, 4), Slot(184, 4)]
  const SharedMap5: seq<Slot> := [Slot(192, 208)]
  const SharedMap: seq<Slot> := SharedMap0 + SharedMap1 + SharedMap2 + SharedMap3 + SharedMap4 + SharedMap5

  lemma SharedPart0Layout()
    ensures EndAt(Packed, SharedFields, 5) == 40
    ensures SlotsUpTo(Packed, SharedFields, 5) == SharedMap0
    ensures OffsetAt(Packed, SharedFields, 1) == 24
  {
    assert |SharedFields| == 27;
    assert EndAt(Packed, SharedFields, 0) == 0;
    assert EndAt(Packed, SharedFields, 1) == 24;
    assert EndAt(Packed, SharedFields, 2) == 28;
    assert EndAt(Packed, SharedFields, 3) == 32;
    assert EndAt(Packed, SharedFields, 4) == 36;
    assert EndAt(Packed, SharedFields, 5) == 40;
    assert SlotsUpTo(Packed, SharedFields, 1) == SlotsUpTo(Packed, SharedFields, 0) + [Slot(0, 24)];
    assert SlotsUpTo(Packed, SharedFields, 2) == SlotsUpTo(Packed, SharedFields, 1) + [Slot(24, 4)];
    assert SlotsUpTo(Packed, SharedFields, 3) == SlotsUpTo(Packed, SharedFields, 2) + [Slot(28, 4)];
    assert SlotsUpTo(Packed, SharedFields, 4) == SlotsUpTo(Packed, SharedFields, 3) + [Slot(32, 4)];
    assert SlotsUpTo(Packed, SharedFields, 5) == SlotsUpTo(Packed, SharedFields, 4) + [Slot(36, 4)];
  }

  lemma SharedPart1Layout()
    ensures EndAt(Packed, SharedFields, 11) == 64
    ensures SlotsUpTo(Packed, SharedFields, 11) == SharedMap0 + SharedMap1
  {
    SharedPart0Layout();
    assert |SharedFields| == 27;
    assert EndAt(Packed, SharedFields, 6) == 44;
    assert EndAt(Packed, SharedFields, 7) == 48;
    assert EndAt(Packed, SharedFields, 8) == 52;
    assert EndAt(Packed, SharedFields, 9) == 56;
    assert EndAt(Packed, SharedFields, 10) == 60;
    assert EndAt(Packed, SharedFields, 11) == 64;
    assert SlotsUpTo(Packed, SharedFields, 6) == SlotsUpTo(Packed, SharedFields, 5) + [Slot(40, 4)];
    assert SlotsUpTo(Packed, SharedFields, 7) == SlotsUpTo(Packed, SharedFields, 6) + [Slot(44, 4)];
    assert SlotsUpTo(Packed, SharedFields, 8) == SlotsUpTo(Packed, SharedFields, 7) + [Slot(48, 4)];
    assert SlotsUpTo(Packed, SharedFields, 9) == SlotsUpTo(Packed, SharedFields, 8) + [Slot(52, 4)];
    assert SlotsUpTo(Packed, SharedFields, 10) == SlotsUpTo(Packed, SharedFields, 9) + [Slot(56, 4)];
    assert SlotsUpTo(Packed, SharedFields, 11) == SlotsUpTo(Packed, SharedFields, 10) + [Slot(60, 4)];
  }

  lemma SharedPart2Layout()
    ensures EndAt(Packed, SharedFields, 17) == 88
    ensures SlotsUpTo(Packed, SharedFields, 17) == SharedMap0 + SharedMap1 + SharedMap2
  {
    SharedPart1Layout();
    assert |SharedFields| == 27;
    assert EndAt(Packed, SharedFields, 12) == 68;
    assert EndAt(Packed, SharedFields, 13) == 72;
    assert EndAt(Packed, SharedFields, 14) == 76;
    assert EndAt(Packed, SharedFields, 15) == 80;
    assert EndAt(Packed, SharedFields, 16) == 84;
    assert EndAt(Packed, SharedFields, 17) == 88;
    assert SlotsUpTo(Packed, SharedFields, 12) == SlotsUpTo(Packed, SharedFields, 11) + [Slot(64, 4)];
    assert SlotsUpTo(Packed, SharedFields, 13) == SlotsUpTo(Packed, SharedFields, 12) + [Slot(68, 4)];
    assert SlotsUpTo(Packed, SharedFields, 14) == SlotsUpTo(Packed, SharedFields, 13) + [Slot(72, 4)];
    assert SlotsUpTo(Packed, SharedFields, 15) == SlotsUpTo(Packed, SharedFields, 14) + [Slot(76, 4)];
    assert SlotsUpTo(Packed, SharedFields, 16) == SlotsUpTo(Packed, SharedFields, 15) + [Slot(80, 4)];
    assert SlotsUpTo(Packed, SharedFields, 17) == SlotsUpTo(Packed, SharedFields, 16) + [Slot(84, 4)];
  }

  lemma SharedPart3Layout()
    ensures EndAt(Packed, SharedFields, 20) == 144
    ensures SlotsUpTo(Packed, SharedFields, 20) == SharedMap0 + SharedMap1 + SharedMap2 + SharedMap3
    ensures OffsetAt(Packed, SharedFields, 17) == 88
    ensures OffsetAt(Packed, SharedFields, 18) == 92
  {
    SharedPart2Layout();
    TireTempsLayout();
    assert |SharedFields| == 27;
    assert EndAt(Packed, SharedFields, 18) == 92;
    assert EndAt(Packed, SharedFields, 19) == 140;
    assert EndAt(Packed, SharedFields, 20) == 144;
    assert SlotsUpTo(Packed, SharedFields, 18) == SlotsUpTo(Packed, SharedFields, 17) + [Slot(88, 4)];
    assert SlotsUpTo(Packed, SharedFields, 19) == SlotsUpTo(Packed, SharedFields, 18) + [Slot(92, 48)];
    assert SlotsUpTo(Packed, SharedFields, 20) == SlotsUpTo(Packed, SharedFields, 19) + [Slot(140, 4)];
  }

  lemma SharedPart4Layout()
    ensures EndAt(Packed, SharedFields, 25) == 188
    ensures SlotsUpTo(Packed, SharedFields, 25) == SharedMap0 + SharedMap1 + SharedMap2 + SharedMap3 + SharedMap4
    ensures OffsetAt(Packed, SharedFields, 24) == 184
  {
    SharedPart3Layout();
    OrientationF32Layout();
    Vec3F32Layout();
    assert |SharedFields| == 27;
    assert EndAt(Packed, SharedFields, 21) == 156;
    assert EndAt(Packed, SharedFields, 22) == 168;
    assert EndAt(Packed, SharedFields, 23) == 180;
    assert EndAt(Packed, SharedFields, 24) == 184;
    assert EndAt(Packed, SharedFields, 25) == 188;
    assert SlotsUpTo(Packed, SharedFields, 21) == SlotsUpTo(Packed, SharedFields, 20) + [Slot(144, 12)];
    assert SlotsUpTo(Packed, SharedFields, 22) == SlotsUpTo(Packed, SharedFields, 21) + [Slot(156, 12)];
    assert SlotsUpTo(Packed, SharedFields, 23) == SlotsUpTo(Packed, SharedFields, 22) + [Slot(168, 12)];
    assert SlotsUpTo(Packed, SharedFields, 24) == SlotsUpTo(Packed, SharedFields, 23) + [Slot(180, 4)];
    assert SlotsUpTo(Packed, SharedFields, 25) == SlotsUpTo(Packed, SharedFields, 24) + [Slot(184, 4)];
  }

  lemma SharedPart5Layout()
    ensures EndAt(Packed, SharedFields, 27) == 400
    ensures SlotsUpTo(Packed, SharedFields, 27) == SharedMap0 + SharedMap1 + SharedMap2 + SharedMap3 + SharedMap4 + SharedMap5
    ensures OffsetAt(Packed, SharedFields, 25) == 188
    ensures OffsetAt(Packed, SharedFields, 26) == 192
  {
    SharedPart4Layout();
    PlayerDataLayout();
    assert |SharedFields| == 27;
    assert EndAt(Packed, SharedFields, 26) == 192;
    assert EndAt(Packed, SharedFields, 27) == 400;
    assert SlotsUpTo(Packed, SharedFields, 26) == SlotsUpTo(Packed, SharedFields, 25);
    assert SlotsUpTo(Packed, SharedFields, 27) == SlotsUpTo(Packed, SharedFields, 26) + [Slot(192, 208)];
  }

  const Shared: Ty<Name> := Struct(SharedFields)

  /**
   * `r3e_shared` is 400 bytes and its data fields occupy exactly the ranges
   * of `SharedMap`: `engine_rps` at 24, `gear` at 88, `tire_temps` at 92,
   * `drs_engaged` at 184; `_padding1` fills bytes 188..192, so `player`
   * starts on an 8-byte boundary.
   */
  lemma SharedLayout()
    ensures Slots(Packed, SharedFields) == SharedMap
    ensures OffsetAt(Packed, SharedFields, 1) == 24
    ensures OffsetAt(Packed, SharedFields, 17) == 88
    ensures OffsetAt(Packed, SharedFields, 18) == 92
    ensures OffsetAt(Packed, SharedFields, 24) == 184
    ensures OffsetAt(Packed, SharedFields, 25) == 188
    ensures OffsetAt(Packed, SharedFields, 26) == 192
    ensures Size(Packed, Shared) == 400
  {
    SharedPart0Layout();
    SharedPart3Layout();
    SharedPart4Layout();
    SharedPart5Layout();
  }

  /** `gear` is the `r3e_int32` at 88. */
  lemma GearPlace()
    ensures Locate(Packed, Shared, [Member(gear)]) == Ok(Place(88, I32))
  {
    SharedLayout();
    LocateMember(Packed, SharedFields, 17);
  }
}
