# The `$Race$` shared-memory record

RaceRoom Racing Experience publishes live telemetry as one fixed-size
record in a named shared-memory segment, `$Race$`. Its consumers overlay a
struct declaration on a view of that memory and only read it, and three
declarations of the same record exist:

- the packed C header (`sample-c/src/r3e.h`), compiled under
  `#pragma pack(push, 1)`, with explicit `_padding1` fields;
- the older C header (`src/r3e.h`), with no packing directive, so the
  compiler's natural alignment applies. It sizes its vector and tire
  arrays with `_SIZE` enumerators (`userInput[6]` has a literal 6);
- the C# mirror (`sample-csharp/src/R3E.cs`), made of sequential structs
  with `Pack = 1`. Its `Padding1` members are marked obsolete.

This project models the three declarations as data and proves what makes
them interchangeable. Each declaration has its field widths, its layout
rule and the offsets and sizes those imply. Every member access lands
inside the 400-byte record. The `_padding1` fields reproduce the naturally
aligned layout byte for byte. The C# mirror puts every member on the same
bytes as the C headers. A 32-bit integer such as `gear` is decoded in
two's complement, and the sentinels -1 and -2 pass through unchanged.

Modules:

- `Results` (results.dfy): `Option` and `Result`.
- `Layout` (layout.dfy): a layout calculator. It covers scalar, array and
  struct types under two rules. Under `Packed`, each field starts where
  the previous one ends, as `#pragma pack(1)` or `Pack = 1` demand.
  Under `Natural`, each field is rounded up to its own alignment (4 for
  `int32_t` and `float`, 8 for `double`), and a struct's size is rounded
  up to its strictest alignment. `Slots` lists the byte ranges of a
  struct's data fields, skipping padding. Two declarations with equal
  `Slots` put every datum on the same bytes.
- `Access` (access.dfy): member and index paths (`shared.player`,
  `tireTemp[t][l]`) resolved to a byte offset and a type. A path can fail
  in four ways: no such member, a padding field, an index out of range,
  or a step of the wrong kind (a member step into anything but a struct,
  an index step into anything but an array).
- `Decoder` (decoder.dfy): bytes of the mapped view, little-endian
  two's-complement `int32_t`, and reads and writes at a path.
- `PackedHeader` (packed_header.dfy), `LegacyHeader` (legacy_header.dfy),
  `CSharpMirror` (csharp_mirror.dfy): the three declarations, with their
  layouts. Long field lists are written in parts of up to six fields,
  and each part has its own lemma.
- `Compatibility` (compatibility.dfy): the statements that relate the
  three declarations.

Modelling choices:

- Field names are numbered constants (`type Name = nat`), one per
  distinct identifier in each declaration. Only their distinctness
  matters.
- An identifier may not start with an underscore here, so `_padding1` is
  spelt `padding1` and the C# `_1` … `_6` are spelt `U1` … `U6`.
- The accessor refuses padding fields in every declaration
  (`ReservedField`). The C# compiler refuses them too, because they are
  marked obsolete as errors. The C header leaves `_padding1` readable,
  but it carries no data.
- `UserInput`, obsolete only as a warning in C#, is data. So is the C
  `user_input[6]`.
- The bytes are assumed little-endian, as on the x86 Windows machines
  the segment lives on.
- The natural rule is the one the Microsoft and common x86-64 compilers
  apply to these types.
- No consumer in the repository writes the record. The C sample maps it
  with `FILE_MAP_READ` (src/sample.c:21, 46); the C# sample opens a
  default read-write view (sample-csharp/src/Program.cs:79-80) but only
  calls `_view.Read` (sample-csharp/src/Program.cs:92). `WriteInt32`, `Splice` and `SpliceKeeps` model the external
  producer's store of an `int32_t`, the encoding side of the format, only
  so that the round-trip and cross-header properties can be stated.
- The packed header asks for 1-byte packing with `#pragma pack(push, 1)`
  (sample-c/src/r3e.h:11-12), and the C# structs with `Pack = 1`
  (sample-csharp/src/R3E.cs:13). The older header `src/r3e.h` has no
  packing directive at all, so it is modelled with natural alignment.
  `Compatibility.PaddingReproducesNaturalLayout` proves that this leads
  to the same bytes as the packed header.

## Model

| member | source | states |
|---|---|---|
| Layout.RoundUp | sample-c/src/r3e.h:11-12 | the rounded offset is a multiple of the alignment and less than one alignment past the input (the gap a compiler may insert; none under packing) |
| Layout.Align | sample-c/src/r3e.h:11-12 | under `#pragma pack(push, 1)` every type has alignment 1 |
| Layout.MaxAlign | src/r3e.h:45-82 | the alignment of a struct: the largest alignment among its fields, 1 when packed; `Layout.MaxAlignAtLeast` states it is at least each field's and `Layout.MaxAlignAttained` that it is 1 or one of them |
| Layout.Size | sample-c/src/r3e.h:11-12 | the bytes a value occupies: a packed struct is the sum of its field widths (`Layout.PackedSizeIsSum`); a naturally aligned one is a multiple of its alignment (`Layout.NaturalSizeIsMultiple`) and holds every field (`Layout.FieldInStruct`) |
| Layout.EndAt | sample-c/src/r3e.h:11-12 | the byte past the first k fields: the sum of their widths when packed (`Layout.PackedEndIsPrefixSum`), never decreasing in k (`Layout.EndMonotone`) |
| Layout.OffsetAt | src/r3e.h:45-82 | where field k starts: the prefix sum of widths when packed (`Layout.PackedOffsetIsPrefixSum`), a multiple of the field's alignment when natural (`Layout.NaturalOffsetAligned`), and disjoint from every other field (`Layout.FieldsDisjoint`) |
| Layout.SlotsUpTo | src/r3e.h:45-82 | the byte ranges of the data fields among the first k, padding skipped; the per-part lemmas of each declaration state them |
| Layout.Slots | sample-csharp/src/R3E.cs:13 | the byte ranges of all data fields of a struct; every cross-declaration lemma (`Compatibility.PaddingReproducesNaturalLayout`, `Compatibility.MirrorMatchesPackedHeader`) compares them |
| Layout.Sizes | sample-c/src/r3e.h:14-195 | one width per field, in declaration order; a reference list whose content is in `Layout.PackedEndIsPrefixSum` and `Layout.PackedSizeIsSum`, which tie it to `EndAt` and `Size` |
| Layout.PackedEndIsPrefixSum | sample-c/src/r3e.h:11-12 | with 1-byte packing, the end of the first k fields is the sum of their widths |
| Layout.PackedOffsetIsPrefixSum | sample-c/src/r3e.h:11-12 | with 1-byte packing, field k starts at the sum of the widths before it |
| Layout.PackedSizeIsSum | sample-c/src/r3e.h:11-12 | a packed struct is exactly as large as the sum of its field widths, with no tail padding |
| Layout.PackedUniformEnd | sample-csharp/src/R3E.cs:35-53 | packed fields that all have width w start at multiples of w |
| Layout.EndMonotone | sample-c/src/r3e.h:14-195 | fields are laid out in declaration order: a later end is never before an earlier one |
| Layout.FieldsDisjoint | sample-c/src/r3e.h:14-195 | two different fields of a struct never share a byte |
| Layout.FieldInStruct | sample-c/src/r3e.h:14-195 | every field lies inside its struct |
| Layout.MaxAlignAtLeast | src/r3e.h:45-82 | a struct is aligned at least as strictly as each of its fields |
| Layout.MaxAlignAttained | src/r3e.h:45-82 | a struct's alignment is 1 or the alignment of one of its fields, so together with `Layout.MaxAlignAtLeast` it is exactly the largest (1 for an empty struct) |
| Layout.NaturalOffsetAligned | src/r3e.h:45-82 | under natural alignment each field starts at a multiple of its own alignment |
| Layout.NaturalSizeIsMultiple | src/r3e.h:45-82 | a naturally aligned struct has a size that is a multiple of its alignment, so arrays of it stay aligned |
| Layout.ElementInArray | src/r3e.h:56 | element i of an array of n lies inside the array when i < n |
| Access.FieldIndexFrom | sample-c/src/r3e.h:14-195 | finds the first field of that name at or after the start, and reports none exactly when there is none |
| Access.FieldIndex | sample-c/src/r3e.h:14-195 | a member name denotes the first field of that name; none is found exactly when no field has it |
| Access.Child | sample-c/src/r3e.h:14-195 | one member or index step, when it succeeds, lands inside the enclosing value; a member step into a non-struct or an index step into a non-array is `NotAggregate`, a missing member `NoSuchField`, a padding member (and only that) `ReservedField`, an index at or past the length `IndexOutOfRange`, and an index below the length succeeds |
| Access.Within | sample-c/src/r3e.h:14-195 | a located place moved d bytes further in keeps its type; success and the error are kept |
| Access.Locate | sample-c/src/r3e.h:14-195 | every place a path reaches lies inside the record; the empty path is the whole record |
| Access.LocateConcat | src/r3e.h:56 | following p then q is following p + q: offsets add up, types agree, and an error part-way is kept |
| Access.LocateMember | sample-c/src/r3e.h:14-195 | a member step reaches that data field at its computed offset with its declared type |
| Access.LocateMemberFails | sample-csharp/src/R3E.cs:63-64 | a member step fails with NoSuchField exactly when no field has the name, and with ReservedField exactly when the field is padding |
| Access.LocateElement | src/r3e.h:150 | index i of an n-element array is at i element widths when i < n, and IndexOutOfRange otherwise |
| Access.MembersDisjoint | sample-c/src/r3e.h:14-195 | two different members of one struct never overlap |
| Decoder.LittleEndian | sample-c/src/r3e.h:5 | four bytes read as an unsigned number below 2^32, least significant byte first: byte i is the value's i-th base-256 digit |
| Decoder.DecodeInt32 | sample-c/src/r3e.h:5 | an `int32_t` is decoded in two's complement: the result is in the 32-bit range and negative exactly when the top bit is set |
| Decoder.EncodeInt32 | sample-c/src/r3e.h:5 | every 32-bit value has a four-byte encoding whose top bit is set exactly when the value is negative |
| Decoder.DecodeEncode | sample-c/src/r3e.h:5 | decoding an encoded value gives the value back |
| Decoder.EncodeDecode | sample-c/src/r3e.h:5 | encoding a decoded value gives the same four bytes back |
| Decoder.Sentinels | sample-c/src/r3e.h:154-159 | the sentinels -1 and -2 are the bytes FF FF FF FF and FE FF FF FF, and decode back unchanged |
| Decoder.ReadRaw | src/sample.c:46 | reading fails exactly when the view is smaller than the record or the path names no data: a short view with `BufferTooSmall`, otherwise an unlocatable path with `Unlocatable` carrying the lookup's error; a success yields exactly the bytes of the view the located member covers |
| Decoder.ReadInt32 | src/sample.c:105 | an integer read succeeds exactly when the raw read does and the member is an `r3e_int32`, and yields a 32-bit value; a failed raw read passes its error on, and a member of another type gives `NotAnInt32` |
| Decoder.IsInt32 | sample-c/src/r3e.h:5 | the range of `int32_t`, -2^31 to 2^31 - 1; `Decoder.DecodeInt32` lands in it and `Decoder.EncodeInt32` accepts exactly it |
| Decoder.ReadInt32At | src/sample.c:107 | an `r3e_int32` found at offset a is decoded from bytes a to a + 3 of the view |
| Decoder.Splice | sample-c/src/r3e.h:5 | the producer's store of the four bytes of an `int32_t` into the record: the length is kept, the new bytes are written and every other byte is kept |
| Decoder.WriteInt32 | sample-c/src/r3e.h:5 | the external producer's store of an `r3e_int32` at a path, the encoding side of the format: it succeeds exactly when a read of the same path would, and keeps the view's length |
| Decoder.ReadAfterWrite | sample-c/src/r3e.h:154-159 | a value stored is the value read back, sentinels included |
| Decoder.SpliceKeeps | sample-c/src/r3e.h:5 | a producer's store of an `int32_t` leaves every byte range it does not meet unchanged |
| Decoder.WrittenBytes | sample-c/src/r3e.h:5 | a successful store is the four-byte encoding placed at the located offset |
| Decoder.ReadBytes | sample-csharp/src/Program.cs:92 | a successful read returns the located range of the view |
| Decoder.WriteLeavesOthers | sample-c/src/r3e.h:5 | storing into one member leaves every member apart from it reading as before |
| Decoder.WriteWhatIsRead | sample-c/src/r3e.h:5 | storing the value a member already holds leaves the view unchanged |
| PackedHeader.Vec3F32Layout | sample-c/src/r3e.h:14-19 | `r3e_vec3_f32` is x, y, z at 0, 4, 8: 12 bytes |
| PackedHeader.Vec3F64Layout | sample-c/src/r3e.h:21-26 | `r3e_vec3_f64` is x, y, z at 0, 8, 16: 24 bytes |
| PackedHeader.OrientationF32Layout | sample-c/src/r3e.h:28-33 | `r3e_orientation_f32` is pitch, yaw, roll at 0, 4, 8: 12 bytes |
| PackedHeader.TireTempsPart0Layout | sample-c/src/r3e.h:37-39 | the first 3 tread temperatures occupy 4 bytes each from 0, ending at 12 |
| PackedHeader.TireTempsPart1Layout | sample-c/src/r3e.h:41-43 | the first 6 tread temperatures occupy 4 bytes each from 0, ending at 24 |
| PackedHeader.TireTempsPart2Layout | sample-c/src/r3e.h:45-47 | the first 9 tread temperatures occupy 4 bytes each from 0, ending at 36 |
| PackedHeader.TireTempsPart3Layout | sample-c/src/r3e.h:49-51 | the first 12 tread temperatures occupy 4 bytes each from 0, ending at 48 |
| PackedHeader.TireTempsLayout | sample-c/src/r3e.h:35-52 | `r3e_tiretemps` is twelve floats back to back: 48 bytes |
| PackedHeader.PlayerDataPart0Layout | sample-c/src/r3e.h:59-66 | ticks at 0, `_padding1` at 4, time at 8, ending at 16 |
| PackedHeader.PlayerDataPart1Layout | sample-c/src/r3e.h:69-81 | position, velocity, acceleration and local acceleration follow at 16, 40, 64, 88, ending at 112 |
| PackedHeader.PlayerDataPart2Layout | sample-c/src/r3e.h:85-94 | orientation, rotation, angular acceleration and driver body acceleration at 112, 136, 160, 184, ending at 208 |
| PackedHeader.PlayerDataLayout | sample-c/src/r3e.h:55-95 | `r3e_playerdata`: `_padding1` at 4, time at 8, driver body acceleration at 184, 208 bytes in all |
| PackedHeader.SharedPart0Layout | sample-c/src/r3e.h:100-115 | the fields up to here end at byte 40, each at the end of the previous one |
| PackedHeader.SharedPart1Layout | sample-c/src/r3e.h:119-134 | the fields up to here end at byte 64, each at the end of the previous one |
| PackedHeader.SharedPart2Layout | sample-c/src/r3e.h:137-152 | the fields up to here end at byte 88, each at the end of the previous one |
| PackedHeader.SharedPart3Layout | sample-c/src/r3e.h:159-166 | the fields up to here end at byte 144, each at the end of the previous one |
| PackedHeader.SharedPart4Layout | sample-c/src/r3e.h:169-188 | the fields up to here end at byte 188, each at the end of the previous one |
| PackedHeader.SharedPart5Layout | sample-c/src/r3e.h:191-194 | the fields up to here end at byte 400, each at the end of the previous one |
| PackedHeader.SharedLayout | sample-c/src/r3e.h:97-195 | `r3e_shared`: engine_rps at 24, gear at 88, tire_temps at 92, drs_engaged at 184, `_padding1` at 188, player at 192, 400 bytes in all |
| PackedHeader.GearPlace | sample-c/src/r3e.h:159 | `gear` is the `r3e_int32` at 88 |
| LegacyHeader.TreadIndex | src/r3e.h:11-17 | each enumerator has a value below the `_SIZE` enumerator, 3 |
| LegacyHeader.TreadAt | src/r3e.h:11-17 | a value names an enumerator exactly when it is below 3, and then names the one with that value |
| LegacyHeader.TreadIndexRoundTrip | src/r3e.h:11-17 | the enumerator with the value of an enumerator is that enumerator |
| LegacyHeader.TireIndex | src/r3e.h:19-26 | each enumerator has a value below the `_SIZE` enumerator, 4 |
| LegacyHeader.TireAt | src/r3e.h:19-26 | a value names an enumerator exactly when it is below 4, and then names the one with that value |
| LegacyHeader.TireIndexRoundTrip | src/r3e.h:19-26 | the enumerator with the value of an enumerator is that enumerator |
| LegacyHeader.OrientationIndex | src/r3e.h:28-34 | each enumerator has a value below the `_SIZE` enumerator, 3 |
| LegacyHeader.OrientationAt | src/r3e.h:28-34 | a value names an enumerator exactly when it is below 3, and then names the one with that value |
| LegacyHeader.OrientationIndexRoundTrip | src/r3e.h:28-34 | the enumerator with the value of an enumerator is that enumerator |
| LegacyHeader.Vec3Index | src/r3e.h:36-42 | each enumerator has a value below the `_SIZE` enumerator, 3 |
| LegacyHeader.Vec3At | src/r3e.h:36-42 | a value names an enumerator exactly when it is below 3, and then names the one with that value |
| LegacyHeader.Vec3IndexRoundTrip | src/r3e.h:36-42 | the enumerator with the value of an enumerator is that enumerator |
| LegacyHeader.PlayerDataPart0Layout | src/r3e.h:49-53 | natural alignment puts ticks at 0 (ending at 4) and time at 8, ending at 16 |
| LegacyHeader.PlayerDataPart1Layout | src/r3e.h:56-68 | the next four vectors end at 112 |
| LegacyHeader.PlayerDataPart2Layout | src/r3e.h:72-81 | the last four vectors end at 208 |
| LegacyHeader.PlayerDataLayout | src/r3e.h:45-82 | time at 8, alignment 8, 208 bytes in all |
| LegacyHeader.SharedPart0Layout | src/r3e.h:87-102 | under natural alignment the fields up to here end at byte 40 |
| LegacyHeader.SharedPart1Layout | src/r3e.h:106-121 | under natural alignment the fields up to here end at byte 64 |
| LegacyHeader.SharedPart2Layout | src/r3e.h:124-139 | under natural alignment the fields up to here end at byte 88 |
| LegacyHeader.SharedPart3Layout | src/r3e.h:146-153 | under natural alignment the fields up to here end at byte 144 |
| LegacyHeader.SharedPart4Layout | src/r3e.h:156-178 | under natural alignment the fields up to here end at byte 400 |
| LegacyHeader.SharedLayout | src/r3e.h:84-179 | engineRps at 24, gear at 88, tireTemp at 92, drsEngaged from 184 to 188, player at 192, alignment 8, 400 bytes, a multiple of 8 |
| LegacyHeader.VectorElement | src/r3e.h:56 | component i of an `r3e_float64[R3E_VEC3_SIZE]` is at 8i, inside its 24 bytes |
| LegacyHeader.PlayerPlace | src/r3e.h:178 | `player` is the `r3e_playerdata` at 192 |
| LegacyHeader.PositionPlace | src/r3e.h:56 | `position` is the vector at 16 in `r3e_playerdata` |
| LegacyHeader.PositionElement | src/r3e.h:56 | `position[i]` is the double at 16 + 8i |
| LegacyHeader.TireTempArrayElement | src/r3e.h:150 | element [t][l] of the tread temperatures is at 4(3t + l): row-major |
| LegacyHeader.GearPlace | src/r3e.h:146 | `gear` is the `r3e_int32` at 88 |
| LegacyHeader.TireTempPlace | src/r3e.h:150 | `tireTemp` is the 48-byte array at 92 |
| LegacyHeader.TireTempElement | src/r3e.h:150 | `tireTemp[t][l]` is the float at 92 + 4(3t + l), inside the 48 bytes of the array |
| CSharpMirror.Vector3Layout | sample-csharp/src/R3E.cs:13-19 | `Vector3<T>` under Pack = 1 is X, Y, Z at 0, s, 2s: 3s bytes (24 for `Double`, 12 for `Single`) |
| CSharpMirror.OrientationLayout | sample-csharp/src/R3E.cs:21-27 | `Orientation<T>` is Pitch, Yaw, Roll at 0, s, 2s: 3s bytes |
| CSharpMirror.Vector3Type | sample-csharp/src/R3E.cs:13-19 | the generic `Vector3<T>` struct for a member type; its layout is stated by `CSharpMirror.Vector3Layout` |
| CSharpMirror.OrientationType | sample-csharp/src/R3E.cs:21-27 | the generic `Orientation<T>` struct for a member type; its layout is stated by `CSharpMirror.OrientationLayout` |
| CSharpMirror.UserInputLayout | sample-csharp/src/R3E.cs:29-33 | `UserInput` is six `Single`s at 0, 4, …, 20: 24 bytes |
| CSharpMirror.TireTemperaturePart0Layout | sample-csharp/src/R3E.cs:38-40 | the first 3 members end at 12 |
| CSharpMirror.TireTemperaturePart1Layout | sample-csharp/src/R3E.cs:42-44 | the first 6 members end at 24 |
| CSharpMirror.TireTemperaturePart2Layout | sample-csharp/src/R3E.cs:46-48 | the first 9 members end at 36 |
| CSharpMirror.TireTemperaturePart3Layout | sample-csharp/src/R3E.cs:50-52 | the first 12 members end at 48 |
| CSharpMirror.TireTemperatureLayout | sample-csharp/src/R3E.cs:35-53 | `TireTemperature` is twelve `Single`s back to back: 48 bytes |
| CSharpMirror.PlayerDataPart0Layout | sample-csharp/src/R3E.cs:60-68 | `GameSimulationTicks` at 0, `Padding1` at 4, `GameSimulationTime` at 8 |
| CSharpMirror.PlayerDataPart1Layout | sample-csharp/src/R3E.cs:71-83 | the next four vectors end at 112 |
| CSharpMirror.PlayerDataPart2Layout | sample-csharp/src/R3E.cs:87-96 | the last four end at 208, `DriverBodyAcceleration` at 184 |
| CSharpMirror.PlayerDataLayout | sample-csharp/src/R3E.cs:55-97 | `PlayerData`: `Padding1` at 4, time at 8, `DriverBodyAcceleration` at 184, 208 bytes |
| CSharpMirror.SharedPart0Layout | sample-csharp/src/R3E.cs:103-118 | the members up to here end at byte 40 |
| CSharpMirror.SharedPart1Layout | sample-csharp/src/R3E.cs:122-137 | the members up to here end at byte 64 |
| CSharpMirror.SharedPart2Layout | sample-csharp/src/R3E.cs:140-155 | the members up to here end at byte 88 |
| CSharpMirror.SharedPart3Layout | sample-csharp/src/R3E.cs:162-169 | the members up to here end at byte 144 |
| CSharpMirror.SharedPart4Layout | sample-csharp/src/R3E.cs:172-191 | the members up to here end at byte 188 |
| CSharpMirror.SharedPart5Layout | sample-csharp/src/R3E.cs:195-198 | the members up to here end at byte 400 |
| CSharpMirror.SharedLayout | sample-csharp/src/R3E.cs:99-199 | `Shared`: EngineRps at 24, Gear at 88, TireTemp at 92, DrsEngaged at 184, `Padding1` at 188, Player at 192, 400 bytes |
| CSharpMirror.TireTemperatureMembers | sample-csharp/src/R3E.cs:38-52 | the twelve members are `Single`s, member k named `FrontLeft_Left + k`; this spells the declared FrontLeft … RearRight, Left … Right order because the name constants are numbered in declaration order |
| CSharpMirror.TireTemperatureMember | sample-csharp/src/R3E.cs:38-52 | member k of `TireTemperature` is the `Single` at 4k |
| CSharpMirror.TireTempPlace | sample-csharp/src/R3E.cs:166 | `TireTemp` is the `TireTemperature` at 92 |
| CSharpMirror.GearPlace | sample-csharp/src/R3E.cs:162 | `Gear` is the `Int32` at 88 |
| Compatibility.SameSegmentName | sample-csharp/src/R3E.cs:8 | the packed header, the legacy header and the C# mirror all name the segment `$Race$` (also sample-c/src/r3e.h:9 and src/r3e.h:9) |
| Compatibility.PaddingReproducesNaturalLayout | sample-c/src/r3e.h:61-62 | the packed header with its `_padding1` fields puts every datum of the player and shared records on the same bytes as the naturally aligned legacy header, with equal sizes 208 and 400 |
| Compatibility.PaddingFillsAlignmentGaps | sample-c/src/r3e.h:190-191 | each `_padding1` starts where the preceding legacy field ends and is followed, 4 bytes on, by the field natural alignment moved to 8 |
| Compatibility.MirrorMatchesPackedHeader | sample-csharp/src/R3E.cs:99-199 | the C# `TireTemperature`, `PlayerData` and `Shared` occupy the same data bytes, have the same sizes and hold their `Padding1` at the same offsets (4 and 188) as the packed C structs |
| Compatibility.TireTemperatureName | sample-csharp/src/R3E.cs:36-53 | the C# member for tire t and tread l is the (3t + l)-th name of `TireTemperature` |
| Compatibility.TireTemperatureIsRowMajor | sample-csharp/src/R3E.cs:36-53 | the C# member `<tire>_<tread>` is member 3t + l and lies on the same bytes as the legacy `tireTemp[t][l]`, both aggregates at 92 |
| Compatibility.GearReadsAgree | src/sample.c:105-107 | through any of the three declarations, the gear of a view of at least 400 bytes is decoded from bytes 88 to 91 |
| Compatibility.GearCrossesHeaders | sample-csharp/src/Program.cs:94-96 | a gear stored through the packed header is read back unchanged through the legacy header and through the C# mirror |
| Compatibility.GearNoData | sample-c/src/r3e.h:154-159 | the bytes FE FF FF FF at 88 read as -2, "no data", through every declaration |
| Compatibility.WholeViewReadsEverywhere | sample-csharp/src/Program.cs:80 | a view as large as the record (400 bytes) can be read at every member any declaration locates |

## Left out

- Access.Child: refuses a padding member with `ReservedField` in all three declarations. In the C header `_padding1` is an ordinary readable member (sample-c/src/r3e.h:62, 191); only the C# mirror forbids it (sample-csharp/src/R3E.cs:63, 194). It carries no data, so the model treats it as reserved everywhere.
- Opening, mapping and closing the segment (`src/sample.c:18-60`, `sample-csharp/src/Program.cs:75-87`): these are operating-system calls. The view is a byte sequence made available to the model, and only its size, `sizeof(r3e_shared)`, is modelled.
- The polling and timing loops (`src/sample.c:62-118`, `sample-csharp/src/Program.cs:31-73`): these depend on the clock and on sleeping.
- Finding the game's process (`sample-c/src/utils.c:6-25`, `IsRrreRunning` in the C# program): this is process enumeration.
- The unit conversions `RpsToRpm` and `MpsToKph` (`sample-csharp/src/Utilities.cs:8-16`) and the C `RPS_TO_RPM` and `MPS_TO_KPH` constants: these are floating-point arithmetic.
- The meaning of the `float` and `double` fields: only their widths and places are modelled, and IEEE 754 is not.
- Printing, and the display guards `gear > -2`, `gear >= -1` and `engineRps > -1` (`src/sample.c:105-114`, `sample-csharp/src/Program.cs:94-103`): these are console output. The sentinels themselves are modelled.
- Torn reads while the game updates the record: the model has no concurrency.
- Later revisions of the record, with version fields and per-driver arrays: they are not part of the three declarations modelled here.
- A lemma for `player.position[i]` taken from the whole shared record: it follows from `LegacyHeader.PlayerPlace`, `LegacyHeader.PositionElement` and `Access.LocateConcat`, but it is not stated as one lemma, because composing a lookup through the whole `r3e_playerdata` type is too costly for the verifier. The two halves are proved.
- A path through `Shared.TireTemp` to one member, as one lemma in the C# mirror: it is not stated, for the same reason. `Compatibility.TireTemperatureIsRowMajor` states the two halves: `TireTemp` at 92, and the member at 4(3t + l) inside it.
