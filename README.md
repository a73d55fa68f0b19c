# F1 telemetry packet decoder, modelled in Dafny

The F1 telemetry library decodes the UDP datagrams that the F1 racing games
send. This project models its core:

- **Format dispatch** (`FormatDispatch`). The first two bytes of every
  datagram are the game format, little-endian. 2019 and 2020 select their
  decoder set; any other format is rejected.
- **2019 packet-type dispatch** (`Dispatch2019`):
  - a datagram smaller than the header is rejected;
  - the header is read from a fresh cursor;
  - its packet id goes through the closed 0..7 table;
  - Motion and CarSetups are answered "not implemented";
  - every other type's payload decoder runs, and its result is wrapped in the matching `Packet` variant.
- **2019 header decoder** (`Header2019`). It makes nine little-endian reads from a cursor (23 bytes) and fills the second-player index with 255.
- **2019 car-status decoder** (`CarStatus2019`):
  - six closed code-to-enum validators;
  - the 56-byte per-car record;
  - the loop that decodes exactly twenty records and stops at the first error.
- **Session domain types** (`SessionData`): the coded enums, their defaults and display names, and the session packet with its trailing fields that depend on the format revision.
- **Display helpers** (`Display`): pure conversions from decoded packets to the records the viewer draws.

`Wire` holds the fixed-width integers and the little-endian encoding. It
also holds the `Cursor` class, which stands for the byte reader the decoders
advance. `Unpack` holds the outcome types and `PacketTypes` the `Packet`
union.

The code that changes state is imperative Dafny: the header read, the
per-car read, the twenty-car loop and the 2019 dispatcher's cursor. Each
such method is proved equal to a pure specification function, and the
properties are proved about those functions:

- `ParseHeader` against `HeaderAt`;
- `ParseCar` against `CarAt`;
- `ParseCarStatusData` against `CarStatusPacketAt`;
- `ParsePacket2019` against `Parse2019`.

Every read in the source is unwrapped, so a buffer that ends before a read
panics. Each decoder here requires the whole extent it can read: 23 bytes
for the header, 56 for a car record, 20 x 56 after the header for a
car-status packet. The source only panics when a read actually runs past the
end. A record whose validator rejects an early field returns its error
before reading the rest, so some short buffers end in an error there rather
than a panic; the preconditions exclude those buffers (see "Left out"). Each error message of the source becomes an `UnpackError`
constructor carrying the values the message interpolates.

The 2019 crate's `src/packet.rs` declares its own `Packet` enum with six
variants (no Motion, no CarSetups). The model uses the library's
eight-variant `Packet` (f1-telemetry/src/packet.rs:27-36) throughout. The six
variants the 2019 dispatcher can produce are the same in both.

## Model

| member | source | states |
|---|---|---|
| Wire.LeValueOfLeBytes | f1-telemetry/src/f1_2019/header.rs:12-19 | decoding the n-byte little-endian encoding of any x below 256^n gives x back |
| Wire.LeBytesOfLeValue | f1-telemetry/src/f1_2019/header.rs:12-19 | re-encoding the little-endian value of any byte string gives that string: a read loses no byte |
| Wire.FieldsAreLittleEndian | f1-telemetry/src/f1_2019/header.rs:12-19 | the 16-, 32- and 64-bit reads are the little-endian values of their 2, 4 and 8 bytes |
| Wire.AsI8 | f1-telemetry/src/f1_2019/car_status.rs:141 | a signed-byte read is the two's-complement reading of the raw byte (equal to it modulo 256) |
| Wire.Cursor.ReadU8 | f1-telemetry/src/f1_2019/car_status.rs:131 | a byte read returns the byte at the position and advances it by one |
| Wire.Cursor.ReadI8 | f1-telemetry/src/f1_2019/car_status.rs:141 | a signed read returns the signed reading of the byte at the position and advances by one |
| Wire.Cursor.ReadU16 | f1-telemetry/src/f1_2019/header.rs:12 | a 16-bit read returns the little-endian word at the position and advances by two |
| Wire.Cursor.ReadU32 | f1-telemetry/src/f1_2019/header.rs:19 | a 32-bit read returns the little-endian word at the position and advances by four |
| Wire.Cursor.ReadU64 | f1-telemetry/src/f1_2019/header.rs:17 | a 64-bit read returns the little-endian word at the position and advances by eight |
| Wire.Cursor.ReadF32 | f1-telemetry/src/f1_2019/header.rs:18 | a float read returns the 32-bit pattern at the position and advances by four |
| Header2019.Size | f1-telemetry/src/f1_2019/header.rs:6-8 | the reported header size is 24, one more than the 23 bytes the decoder reads |
| Header2019.HeaderAt | f1-telemetry/src/f1_2019/header.rs:11-34 | the packet id is byte 5, the player index byte 22, the format is byte 0 plus 256 times byte 1, the second-player index is 255 |
| Header2019.DecodeEncode | f1-telemetry/src/f1_2019/header.rs:12-32 | decoding a header encoded field by field, whatever follows it, returns every field unchanged |
| Header2019.EncodeDecode | f1-telemetry/src/f1_2019/header.rs:12-20 | re-encoding the decoded header gives back exactly the 23 bytes read |
| Header2019.HeaderOnlyReadsItsBytes | f1-telemetry/src/f1_2019/header.rs:11-20 | two buffers that agree on their first 23 bytes decode to the same header |
| Header2019.ParseHeader | f1-telemetry/src/f1_2019/header.rs:11-34 | the nine reads advance the cursor by exactly 23 bytes and yield the header at the old position |
| SessionData.Weather.Default | f1-telemetry/src/packet/session.rs:17-21 | the default weather is Clear |
| SessionData.TemperatureChange.Default | f1-telemetry/src/packet/session.rs:30-34 | the default temperature change is Up |
| SessionData.SessionType.Default | f1-telemetry/src/packet/session.rs:73-77 | the default session type is the one named "Unknown" |
| SessionData.SafetyCar.Default | f1-telemetry/src/packet/session.rs:171-175 | the default safety-car state is the one named "No Safety Car" |
| SessionData.WeatherForecastSample.Default | f1-telemetry/src/packet/session.rs:188-198 | the default forecast sample has an unknown session, clear weather, both changes Up and every number 0 |
| SessionData.SessionType.Name | f1-telemetry/src/packet/session.rs:54-70 | the display-name table of the 13 session types, string for string; its distinctness is `SessionTypeNamesDistinct` |
| SessionData.Track.Name | f1-telemetry/src/packet/session.rs:112-143 | the display-name table of the tracks, string for string; the uniqueness of "[UNKNOWN]" is `UnknownTrackName` |
| SessionData.SafetyCar.Name | f1-telemetry/src/packet/session.rs:162-168 | the display names of the three safety-car states, string for string; their distinctness is `SafetyCarNamesDistinct` |
| SessionData.SessionTypeNamesDistinct | f1-telemetry/src/packet/session.rs:54-70 | distinct session types have distinct display names |
| SessionData.UnknownTrackName | f1-telemetry/src/packet/session.rs:112-143 | "[UNKNOWN]" is the name of the unknown track and of no other track |
| SessionData.SafetyCarNamesDistinct | f1-telemetry/src/packet/session.rs:162-168 | the three safety-car states have distinct display names |
| CarStatus2019.TractionControlFrom | f1-telemetry/src/f1_2019/car_status.rs:16-26 | accepts exactly 0..2, each variant's code is the byte, every other byte is an error naming it |
| CarStatus2019.FuelMixFrom | f1-telemetry/src/f1_2019/car_status.rs:32-40 | accepts exactly 0..3, each variant's code is the byte, every other byte is an error naming it |
| CarStatus2019.DrsFrom | f1-telemetry/src/f1_2019/car_status.rs:46-53 | accepts exactly -1, 0 and 1 (-1 is Unknown, not clamped), every other value is an error |
| CarStatus2019.TyreCompoundFrom | f1-telemetry/src/f1_2019/car_status.rs:59-80 | accepts 0, 7..20 and 255; 16..20 are C5..C1, 0 and 255 are Invalid; 1..6 and 21..254 are errors |
| CarStatus2019.TyreCompoundVisualFrom | f1-telemetry/src/f1_2019/car_status.rs:87-107 | accepts 0 and 7..18 (16..18 Soft, Medium, Hard); 19, 20 and 255 are errors |
| CarStatus2019.ErsDeployModeFrom | f1-telemetry/src/f1_2019/car_status.rs:113-126 | accepts exactly 0..5, each mode's code is the byte, every other byte is an error |
| CarStatus2019.TractionControlRoundTrip | f1-telemetry/src/f1_2019/car_status.rs:16-26 | every traction-control setting is accepted back from its own code |
| CarStatus2019.FuelMixRoundTrip | f1-telemetry/src/f1_2019/car_status.rs:32-40 | every fuel mix is accepted back from its own code |
| CarStatus2019.DrsRoundTrip | f1-telemetry/src/f1_2019/car_status.rs:46-53 | every DRS state, the -1 "unknown" included, is accepted back from its own signed code |
| CarStatus2019.TyreCompoundRoundTrip | f1-telemetry/src/f1_2019/car_status.rs:59-80 | every fitted compound is accepted back from its canonical code (0 for Invalid) |
| CarStatus2019.TyreCompoundVisualRoundTrip | f1-telemetry/src/f1_2019/car_status.rs:87-107 | every shown compound is accepted back from its own code |
| CarStatus2019.ErsDeployModeRoundTrip | f1-telemetry/src/f1_2019/car_status.rs:113-126 | every ERS deploy mode is accepted back from its own code |
| CarStatus2019.TyreCompoundInvalidCodes | f1-telemetry/src/f1_2019/car_status.rs:59-80 | two codes decode to the same compound only if equal or both in {0, 255} |
| CarStatus2019.VisualAgreesWithActual | f1-telemetry/src/f1_2019/car_status.rs:59-107 | on the codes both accept (0, 7..15) the two compound enums agree; 19, 20, 255 are fitted-only |
| CarStatus2019.CarAt | f1-telemetry/src/f1_2019/car_status.rs:129-197 | the record at an offset; its field layout, first-failure rule and round trip are the lemmas below |
| CarStatus2019.CarAtFailsAtFirstBadField | f1-telemetry/src/f1_2019/car_status.rs:129-166 | a record decodes iff its seven coded fields all validate; otherwise the error is the one of the first rejected field in read order (traction control, fuel mix, DRS, fitted compound, shown compound, flag, ERS mode) |
| CarStatus2019.CarAtLayout | f1-telemetry/src/f1_2019/car_status.rs:129-166 | each coded field comes from its own offset, the two booleans are "byte equals 1", wear and damage are four consecutive bytes |
| CarStatus2019.DecodeEncodeCar | f1-telemetry/src/f1_2019/car_status.rs:129-197 | decoding an encoded record, whatever follows it, returns the record when the flag validator accepts its flag |
| CarStatus2019.ParseCar | f1-telemetry/src/f1_2019/car_status.rs:129-197 | the field reads give the record at the old position and, on success, advance the cursor by exactly 56 bytes |
| CarStatus2019.Repeat | f1-telemetry/src/f1_2019/car_status.rs:203-208 | a successful run of n record reads yields exactly n records |
| CarStatus2019.RepeatInOrder | f1-telemetry/src/f1_2019/car_status.rs:203-208 | on success record k is the k-th decoder result; a failure carries the error of a record all of whose predecessors decode |
| CarStatus2019.RepeatStep | f1-telemetry/src/f1_2019/car_status.rs:204-207 | a record that decodes is appended to the run; one that fails is the result of the whole run |
| CarStatus2019.RepeatErrorPersists | f1-telemetry/src/f1_2019/car_status.rs:204-207 | once a record fails, decoding further records does not change the result |
| CarStatus2019.CarStatusPacketAt | f1-telemetry/src/f1_2019/car_status.rs:199-209 | a decoded packet keeps the header it was given and holds exactly twenty records |
| CarStatus2019.CarStatusRecordsInOrder | f1-telemetry/src/f1_2019/car_status.rs:203-208 | record k is the one at offset 56k; a failure carries the first failing record's error, with no partial list |
| CarStatus2019.CarSlotStep | f1-telemetry/src/f1_2019/car_status.rs:204-207 | one loop turn extends the run by the record read, or decides the packet with that record's error |
| CarStatus2019.ParseCarStatusData | f1-telemetry/src/f1_2019/car_status.rs:199-209 | the loop returns the packet specification's result and, on success, has consumed 20 x 56 bytes |
| Dispatch2019.PacketTypeFrom | src/packet.rs:50-62 | accepts exactly ids 0..7 in table order (the type's id is the byte); any other id is an error carrying it |
| Dispatch2019.PacketTypeIdRoundTrip | src/packet.rs:50-59 | every packet type is recognised back from its own id |
| Dispatch2019.Payload2019 | src/packet.rs:80-119 | Motion and CarSetups are "not implemented"; for each other type a successful decode is returned wrapped in that type's variant, holding exactly the decoder's value |
| Dispatch2019.Parse2019 | src/packet.rs:65-119 | too small gives TooSmall(size); an id of 8 or more gives InvalidPacketType; ids 0 and 5 are not implemented; otherwise the result is the payload step for the id's type under the header read from bytes 0..22 |
| Dispatch2019.TooSmallIgnoresContents | src/packet.rs:66-73 | a datagram below the header size is rejected whatever its bytes and whatever the payload decoders |
| Dispatch2019.IdCheckPrecedesPayload | src/packet.rs:78-118 | an out-of-table or unimplemented id gives the same error under any payload decoders |
| Dispatch2019.PayloadErrorPassesThrough | src/packet.rs:83-114 | each implemented type's decoder error is returned unchanged |
| Dispatch2019.ModelledCarStatusShape | src/packet.rs:110-113 | the modelled car-status decoder returns the header it is handed and twenty records |
| Dispatch2019.PayloadKeepsHeader | src/packet.rs:83-114 | the payload step returns the header it is handed whenever the decoder it runs does |
| Dispatch2019.DecodedHeaderIsWireHeader | src/packet.rs:75-114 | a decoded packet's header is the header at the start of the datagram |
| Dispatch2019.CarStatusDatagramDecodes | src/packet.rs:65-113 | a car-status datagram decodes to the twenty-record body read after the 23 header bytes under the header read from them, or fails with that body's error |
| Dispatch2019.ParsePacket2019 | src/packet.rs:65-78 | the cursor-based dispatcher returns the dispatch specification's result |
| Dispatch2019.ParsePayload2019 | src/packet.rs:80-119 | the payload step over the cursor after the header returns the payload specification's result |
| FormatDispatch.ParseVersion | f1-telemetry/src/packet.rs:80-82 | the format is the little-endian value of the first two bytes |
| FormatDispatch.ParsePacket | f1-telemetry/src/packet.rs:67-78 | the format dispatcher; its routing by format and its independence from the decoders on unknown formats are the lemmas below |
| FormatDispatch.RoutesByFormat | f1-telemetry/src/packet.rs:67-78 | bytes E3 07 route to the 2019 set and E4 07 to the 2020 set, each result unchanged; any other format is UnknownFormat(format) |
| FormatDispatch.UnknownFormatCallsNoDecoder | f1-telemetry/src/packet.rs:73-76 | for an unknown format the result is an error and the same under any decoder sets |
| FormatDispatch.VersionReadsTwoBytes | f1-telemetry/src/packet.rs:80-82 | the format depends on the first two bytes only |
| FormatDispatch.VersionIsHeaderFormat | f1-telemetry/src/packet.rs:81 | the format the dispatcher routes on equals the format field of the 2019 header |
| PacketTypes.Packet.Header | f1-telemetry/src/packet.rs:39-50 | the header held by whichever payload the packet carries; for a decoded 2019 datagram it is the wire header (next row) |
| FormatDispatch.DispatchedHeader | f1-telemetry/src/packet.rs:39-50 | `Packet::header` of a decoded 2019 datagram is the header at its start, with format 2019 |
| Display.ParseSessionData | f1-telemetry-display/src/main.rs:87-96 | elapsed plus time left is the duration; the names, lap counters and duration are the session's |
| Display.LapRow | f1-telemetry-display/src/main.rs:111-125 | in-pit iff the pit status is not None; every other column is its lap or participant field |
| Display.ParseLapData | f1-telemetry-display/src/main.rs:98-131 | None iff participants are absent; otherwise one row per lap slot, row i pairing lap slot i with participant i |
| Display.ParseEventData | f1-telemetry-display/src/main.rs:133-156 | None iff the event names a car and there are no participants; a driver name iff a car is named, that car's name |
| Display.ParseTelemetryData | f1-telemetry-display/src/main.rs:158-172 | always Some, with every field of the player's car slot |
| Display.GetCurrentLap | f1-telemetry-display/src/main.rs:174-181 | 0 with no lap slots; otherwise an upper bound of every slot's lap number that some slot attains |

## Left out

- The 2020 decoder set is a parameter, and so are the 2019 session, lap, event, participants and telemetry payload decoders. Their modules are not part of this model. The car-status entry of the 2019 decoder set is pinned to this model's decoder by the predicate `CarStatusModelled`.
- `Flag::try_from` and `WheelData` (the generic packet module) are not part of this model. The flag validator is a parameter: any total, fallible function of the signed flag code.
- `mem::size_of::<PacketHeader>()` is the `headerSize` parameter, because the in-memory layout of the header struct is not a wire fact.
- Floats are carried as their 32-bit patterns. Session time, fuel, energy, lap times and distances are never interpreted as IEEE-754 values.
- Error messages are constructors carrying the interpolated values, not formatted strings.
- CarStatus2019.ParseCar, CarStatus2019.ParseCarStatusData, Dispatch2019.Parse2019: the preconditions require the whole 56-byte record, the whole 20 x 56-byte body and, for id 7, 23 + 1120 bytes. A shorter buffer whose first failing validator comes before the end is decoded by the source to that validator's error, and the model does not cover that case.
- A failing decoder's cursor position is not stated. The source discards the cursor on every error path.
- Dispatch2019.DecodedHeaderIsWireHeader: for the decoders that are not modelled, header preservation is a hypothesis (`KeepsHeader`) rather than a proved fact, because their bodies are not available.
- The display names of the 28 tracks are not proved pairwise distinct, because that proof is too costly for the solver. Only the unknown track's name is proved unique.
- Which trailing session fields a given revision fills is not modelled, because the session decoders are not available. The model only states that the fields may be absent.
- The payload types of the motion, car-setup, lap, event, participants and telemetry modules hold only the header and the fields the display helpers read.
- Display.ParseSessionData: the 16-bit subtraction is a precondition (time left at most duration). Below zero, the source panics in debug builds and wraps in release builds.
- Display.ParseEventData, Display.ParseTelemetryData, Display.ParseLapData: indices out of range panic in the source. They are preconditions here, so a player index of 255 is excluded.
- `main` of the viewer is not modelled: the UDP stream, the polling loop, the keyboard and the ncurses windows are I/O and presentation.
- `PacketHeader::size()` (24) differs from the 23 bytes the 2019 decoder reads. Both values are modelled, and `Header2019.Size` states the difference. Its callers are not part of this model, so no consequence is claimed.
