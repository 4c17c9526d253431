# Telemetry framing and sensor register model

A Dafny model of the pure core of an embedded telemetry crate. It covers three parts.

- **The packet framer** (`Packet`, `Bytes`, `Crc32`). Fixed-layout payloads are packed into little-endian bytes. The payload is checksummed with CRC-32 as defined for the frame check sequence of IEEE 802.3 (section 3.2.9): reflected polynomial 0xEDB88320, preset and final XOR 0xFFFFFFFF. The frame is wrapped as `B0 0B`, the checksum least significant byte first, the type byte, a one-byte length, the payload, then `A0 0A`. Both discriminant mappings of `PacketType` are modelled: the `repr(u8)` cast that frames use, and the separate `From` conversion.
- **The PCA9557 I/O expander** (`Pca9557Registers`, `Pca9557Driver`, `Pca9557Address`). It has four one-byte pin registers with eight msb0 one-bit fields each. The setters reverse the pin array, read the register, overwrite all pins and write the byte back. The getters return the pins unreversed.
- **The BMP390 pressure sensor** (`Bmp390Enums`, `Bmp390Registers`, `Bmp390Driver`, `Bmp390Address`). This part has:
  - the field encodings;
  - every register's address, access mode, byte count and field widths;
  - the msb0 placement of the fields that the driver writes;
  - the five setters, modelled as pure functions from the register contents to the bus step they take.

Four of the setters read the register, change named fields and write the byte back. `set_interrupt` starts from the register's default value instead.

The shared parts are:
- `Bitfield`: one-byte field access and byte order;
- `Layout`: where msb0 (most significant bit first) declarations place their fields;
- `CommonEnums`: the one-bit `LogicLevel`;
- `Results`: `Option`, a bus read `Result`, a setter's bus effect `Step`, and the `RegisterFile` the drivers read from.

A `RegisterFile` maps each register address to what a one-byte read there returns, a byte or a bus error. Every getter and setter reads its own register's address from it. A `Step` is either `Abort(error)`, meaning a failed read and no write, or `Write(address, byte)`. `Results.Apply` performs a step on a register file.

The one-byte length field cannot describe a payload over 255 bytes. The code writes `len as u8`, which keeps the low eight bits, and the model follows the code. `Packet.Frame` records the length byte as `|data| % 256`. `Packet.FrameRoundTrip` shows that a frame reads back exactly when the payload has at most 255 bytes.

## Model

| member | source | states |
|---|---|---|
| Results.Apply | src/devices/pca9557/mod.rs:46 | `write_register`: the written address then reads the byte written, and every other address reads as before |
| Bytes.Le16 | src/packet/mod.rs:49-58 | a `u16` field packs into two bytes, low byte first, which unpack to the same value |
| Bytes.Le32 | src/packet/mod.rs:18 | the checksum's `to_le_bytes` is four bytes that read back, least significant first, to the checksum |
| Bytes.Le16Seq | src/packet/mod.rs:49-58 | a sequence of `u16` fields packs into exactly two bytes per field |
| Bytes.FromLe16Seq | src/packet/mod.rs:49-58 | unpacking a byte string of even length gives one `u16` per two bytes |
| Bytes.Le16SeqOffsets | src/packet/mod.rs:49-58 | field `i` of a packed `u16` sequence occupies bytes `2i` and `2i+1`, with no padding |
| Bytes.Le16SeqRoundTrip | src/packet/mod.rs:49-58 | unpacking packed `u16` fields gives the fields back |
| Crc32.UpdateConcat | src/packet/mod.rs:14 | the CRC register after `a ++ b` is the register after `a`, then fed `b` |
| Crc32.Hash | src/packet/mod.rs:14 | `crc32fast::hash`: the CRC-32 of IEEE 802.3, a bitwise definition with no contract of its own; `HashEmpty`, `CheckValue` and `ComputeHash` state its properties |
| Crc32.HashEmpty | src/packet/mod.rs:14 | the CRC-32 of no bytes is 0 |
| Crc32.CheckValue | src/packet/mod.rs:14 | the CRC-32 of ASCII "123456789" is the standard check value 0xCBF43926 |
| Crc32.ComputeHash | src/packet/mod.rs:14 | a byte-at-a-time, bit-at-a-time loop computes exactly the CRC-32 of the data |
| Packet.ReprByte | src/packet/mod.rs:37-41 | the `repr` discriminant (Accelerometer 0x01, Test 0xFF) decodes back to its type |
| Packet.TypeOfReprByte | src/packet/mod.rs:37-41 | a type byte names a packet type exactly when it is 0x01 or 0xFF |
| Packet.IntoU8 | src/packet/mod.rs:70-77 | `From<PacketType> for u8` gives 0xFF exactly for Test |
| Packet.DiscriminantMappingsDisagree | src/packet/mod.rs:19 | the frame byte of Accelerometer is 0x01 while `From` gives 0x00; the two mappings agree exactly on Test |
| Packet.GetType | src/packet/mod.rs:11 | `get_type` is `Accelerometer` for the six-axis packet and `Test` for the test packet; a table without a contract, used by `Serialize` |
| Packet.IntoBytes | src/packet/mod.rs:49-65 | the payload is two bytes per `u16` field, and each field reads back little-endian from offset `2i` in declaration order |
| Packet.FromBytesIntoBytes | src/packet/mod.rs:49-65 | parsing a packed payload with its packet type gives the packet back |
| Packet.Frame | src/packet/mod.rs:13-23 | a frame is `len + 10` bytes: the begin marker, then the CRC-32 of exactly the payload bytes (little-endian), the type byte at offset 6, `len mod 256` at offset 7, the payload from offset 8, and the end marker |
| Packet.Serialize | src/packet/mod.rs:12-24 | `serialize` frames `into_bytes()` with the `repr` type byte and the exact payload length |
| Packet.CapacityHintOneSpare | src/packet/mod.rs:16-22 | the `len + 11` capacity leaves exactly one byte unused |
| Packet.FrameRoundTrip | src/packet/mod.rs:17-22 | an independent frame reader checks the markers, length and checksum, and returns the type and payload exactly when the payload has at most 255 bytes |
| Packet.SerializeRoundTrip | src/packet/mod.rs:8-28 | every serialized packet decodes back to itself |
| Packet.SerializeInjective | src/packet/mod.rs:8-28 | distinct packets serialize to distinct frames |
| Packet.SixAxisFrameShape | src/packet/mod.rs:49-59 | a six-axis frame is 22 bytes with type 0x01 and a length byte of 12, so the length does not truncate |
| Packet.TestFrameShape | src/packet/mod.rs:61-67 | a test frame is 12 bytes with type 0xFF and a length byte of 2 |
| Packet.TestPacketBytes | src/packet/tests.rs:8-10 | `TestPacket { test: 0x080F }` packs to `0F 08` |
| Packet.TestPacketFrame | src/packet/tests.rs:8-11 | the full frame of that packet is `B0 0B 02 86 9A C8 FF 02 0F 08 A0 0A` |
| Packet.StaleTestVector | src/packet/tests.rs:13-14 | the expected bytes in the unit test are not the current frame; only its type, length and payload bytes agree |
| Bitfield.InBusOrder | src/devices/pca9557/registers.rs:36 | bytes in bus order keep their count |
| Bitfield.BusOrderInvolution | src/devices/pca9557/registers.rs:36 | applying a byte order twice restores the bytes |
| Bitfield.OneByteOrderIrrelevant | src/devices/pca9557/registers.rs:10 | for a one-byte register the declared byte order ("be" or "le") changes nothing |
| Bitfield.Get | src/devices/bmp390/registers.rs:222-236 | a field read out of a byte is no wider than the field |
| Bitfield.Set | src/devices/bmp390/mod.rs:23-25 | a `write_<field>` leaves every bit outside the field as it was |
| Bitfield.GetSet | src/devices/bmp390/mod.rs:23-25 | reading a field just written gives the value written, cut to the field's width |
| Bitfield.SetGet | src/devices/bmp390/mod.rs:23-25 | writing back the value a field holds leaves the byte unchanged |
| Bitfield.BoolBit | src/devices/bmp390/registers.rs:233-235 | a `bool` field is the bit 1 exactly when true |
| Layout.Msb0Layout | src/devices/bmp390/registers.rs:224 | `read_from = "msb0"`: the fields, first declared at the top, get one span each, packed downwards from the top of the register |
| Layout.Msb0Placement | src/devices/bmp390/registers.rs:224-235 | under msb0 the first field ends at the top bit, each field sits directly below the one declared before it, and none reaches past the top |
| Layout.SumFromAntitone | src/devices/bmp390/registers.rs:224-235 | the fields declared from a later index take no more bits than those from an earlier one |
| Layout.OnesSum | src/devices/pca9557/registers.rs:12-13 | a run of one-bit fields takes one bit per field |
| Layout.OnesLayout | src/devices/pca9557/registers.rs:12-13 | in a byte of one-bit msb0 fields, field `i` is bit `n - 1 - i` |
| Layout.SumFromConcat | src/devices/bmp390/registers.rs:285-300 | the size of two field lists in sequence is the sum of their sizes |
| CommonEnums.LevelBit | src/common/enums.rs:6-10 | High is 1 and Low is 0, and decoding the bit gives the level back |
| CommonEnums.LevelOfBit | src/common/enums.rs:6-10 | every bit decodes to a level, High exactly for 1 |
| CommonEnums.LevelBitOfLevel | src/common/enums.rs:6-10 | decoding then encoding a bit gives the bit back, so the encoding is a bijection |
| CommonEnums.DefaultLevelIsZero | src/common/enums.rs:8-9 | the default level is Low and is stored as 0 |
| Pca9557Registers.PolarityBit | src/devices/pca9557/registers.rs:26-32 | Inverted is 1 and Original is 0, and decoding gives the polarity back |
| Pca9557Registers.PolarityOfBit | src/devices/pca9557/registers.rs:26-32 | both bit values decode, to Inverted exactly for 1 |
| Pca9557Registers.DirectionBit | src/devices/pca9557/registers.rs:42-48 | Input is 1 and Output is 0, and decoding gives the direction back |
| Pca9557Registers.DirectionOfBit | src/devices/pca9557/registers.rs:42-48 | both bit values decode, to Input exactly for 1 |
| Pca9557Registers.PinEncodingsBijective | src/devices/pca9557/registers.rs:26-48 | the polarity and direction encodings are bijections on one bit |
| Pca9557Registers.Address | src/devices/pca9557/registers.rs:9-51 | the declared addresses: InputPort 0x00, OutputPort 0x01, PolarityInversion 0x02, Configuration 0x03; `RegisterAt` is its inverse |
| Pca9557Registers.AccessOf | src/devices/pca9557/registers.rs:9-51 | the declared modes: InputPort is "r" and the other three "rw"; `RegisterTable` states it |
| Pca9557Registers.DeclaredOrder | src/devices/pca9557/registers.rs:10-52 | the declared byte orders: "le" for the polarity register, "be" for the others; `DeclaredOrderKeepsPins` states what it changes |
| Pca9557Registers.RegisterAt | src/devices/pca9557/registers.rs:9-51 | addresses 0x00 to 0x03, and only these, name a register, whose address is that byte |
| Pca9557Registers.RegisterTable | src/devices/pca9557/registers.rs:9-51 | the four registers have distinct addresses, and only `InputPort` is read-only |
| Pca9557Registers.PinLayout | src/devices/pca9557/registers.rs:12-13 | the eight one-bit pins fill the byte, with `pins[i]` at bit `7 - i` |
| Pca9557Registers.PinFieldsPlaced | src/devices/pca9557/registers.rs:12-13 | the eight one-bit fields `pins[i]` are exactly the spans the msb0 layout of eight one-bit widths gives |
| Pca9557Registers.PinFieldsRead | src/devices/pca9557/registers.rs:13 | `read_pins` at index `i` is the field access `Get` on pin field `i` |
| Pca9557Registers.DeclaredOrderKeepsPins | src/devices/pca9557/registers.rs:10-52 | putting a one-byte register in its declared byte order, "le" or "be", leaves its byte and its pins unchanged |
| Pca9557Registers.ReadPins | src/devices/pca9557/registers.rs:13 | `read_pins` gives eight pins, `pins[0]` from bit 7 and `pins[7]` from bit 0 |
| Pca9557Registers.WritePins | src/devices/pca9557/registers.rs:13 | `write_pins` followed by `read_pins` returns the pins written |
| Pca9557Registers.WriteReadPins | src/devices/pca9557/registers.rs:13 | `read_pins` followed by `write_pins` returns the byte, because both cover all eight bits |
| Pca9557Registers.ReadLevels | src/devices/pca9557/registers.rs:18-24 | the `LogicLevel` pins are the bit pins, encoded one to one |
| Pca9557Registers.WriteLevels | src/devices/pca9557/registers.rs:18-24 | writing `LogicLevel` pins and reading them back returns them |
| Pca9557Registers.ReadPolarities | src/devices/pca9557/registers.rs:34-40 | the `Polarity` pins are the bit pins, encoded one to one |
| Pca9557Registers.WritePolarities | src/devices/pca9557/registers.rs:34-40 | writing `Polarity` pins and reading them back returns them |
| Pca9557Registers.ReadDirections | src/devices/pca9557/registers.rs:50-56 | the `IODirection` pins are the bit pins, encoded one to one |
| Pca9557Registers.WriteDirections | src/devices/pca9557/registers.rs:50-56 | writing `IODirection` pins and reading them back returns them |
| Pca9557Registers.DefaultByte | src/devices/pca9557/registers.rs:26-48 | each register's default byte reads as eight copies of its pin type's default |
| Pca9557Driver.Reverse | src/devices/pca9557/mod.rs:43 | `reverse` keeps the length and puts element `n - 1 - i` at index `i` |
| Pca9557Driver.ReverseEight | src/devices/pca9557/mod.rs:43 | reversing eight pins gives them in the opposite order |
| Pca9557Driver.ChipBits | src/devices/pca9557/mod.rs:43 | the register's bits by chip pin number are the `read_pins` order reversed |
| Pca9557Driver.ChipLevels | src/devices/pca9557/mod.rs:43-45 | reversing the levels and writing them as pins puts caller pin `i` in chip bit `i` |
| Pca9557Driver.ChipPolarities | src/devices/pca9557/mod.rs:51-53 | as `ChipLevels`, for polarities |
| Pca9557Driver.ChipDirections | src/devices/pca9557/mod.rs:59-61 | as `ChipLevels`, for directions |
| Pca9557Driver.GetInputPort | src/devices/pca9557/mod.rs:26-28 | reads address 0x00: a failed read is passed through; otherwise the pins, unreversed, are those of the byte read |
| Pca9557Driver.GetOutputPort | src/devices/pca9557/mod.rs:30-32 | as `GetInputPort`, reading the output port at 0x01 |
| Pca9557Driver.GetPolarity | src/devices/pca9557/mod.rs:34-36 | as `GetInputPort`, reading the polarity inversion register at 0x02 |
| Pca9557Driver.GetConfiguration | src/devices/pca9557/mod.rs:38-40 | as `GetInputPort`, reading the configuration register at 0x03 |
| Pca9557Driver.SetOutputPort | src/devices/pca9557/mod.rs:42-48 | reads address 0x01; a failed read issues no write; otherwise 0x01 is written with caller pin `i` in chip bit `i` |
| Pca9557Driver.SetPolarity | src/devices/pca9557/mod.rs:50-56 | reads address 0x02; a failed read issues no write; otherwise 0x02 is written with caller pin `i` in chip bit `i` |
| Pca9557Driver.SetConfiguration | src/devices/pca9557/mod.rs:58-64 | reads address 0x03; a failed read issues no write; otherwise 0x03 is written with caller pin `i` in chip bit `i` |
| Pca9557Driver.SettersOverwriteAllPins | src/devices/pca9557/mod.rs:44-46 | when the read succeeds, the step a setter takes does not depend on the byte it read |
| Pca9557Driver.GetAfterSet | src/devices/pca9557/mod.rs:26-64 | after a setter's step, the matching getter returns the caller's array reversed, and `set_output_port` changes no other address |
| Pca9557Driver.InversionRegisterTest | src/devices/pca9557/mod.rs:99-114 | caller pins `[Original x4, Inverted x4]`, set on a readable register, write the byte 0b11110000 to 0x02 |
| Pca9557Address.ToByte | src/devices/pca9557/address.rs:12-18 | Primary converts to 0x18, not the documented 0x24; `Custom(x)` converts to `x` |
| Pca9557Address.EveryByteReachable | src/devices/pca9557/address.rs:16 | every byte is the conversion of some address |
| Pca9557Address.AddressOf | src/devices/pca9557/address.rs:12-18 | a right inverse: the address chosen for a byte converts back to that byte |
| Pca9557Address.AddressOfToByte | src/devices/pca9557/address.rs:15-16 | converting then choosing returns the address exactly when it is not `Custom(0x18)` |
| Pca9557Address.NotInjective | src/devices/pca9557/address.rs:3-16 | Primary and `Custom(0x18)` are different addresses that convert to the same byte |
| Pca9557Address.CustomMayExceedSevenBits | src/devices/pca9557/mod.rs:84-86 | some address converts to a byte that is not a seven-bit I2C address |
| Bmp390Address.ToByte | src/devices/bmp390/address.rs:15-22 | Primary converts to 0x76 and Secondary to 0x77, neither the documented byte; `Custom(x)` converts to `x` |
| Bmp390Address.FixedAddressesDistinct | src/devices/bmp390/address.rs:3-10 | Primary and Secondary differ, and each is one below its doc comment's value |
| Bmp390Address.EveryByteReachable | src/devices/bmp390/address.rs:20 | every byte is the conversion of some address |
| Bmp390Address.AddressOf | src/devices/bmp390/address.rs:15-22 | a right inverse: the address chosen for a byte converts back to that byte |
| Bmp390Address.AddressOfToByte | src/devices/bmp390/address.rs:18-20 | converting then choosing returns the address exactly when it is not `Custom(0x76)` or `Custom(0x77)` |
| Bmp390Address.CustomMayExceedSevenBits | src/devices/bmp390/mod.rs:87-90 | some address converts to a byte that is not a seven-bit I2C address |
| Bmp390Enums.InterruptOutputBits | src/devices/bmp390/enums.rs:6-10 | OpenDrain is 1 and PushPull is 0, and decoding gives the setting back |
| Bmp390Enums.InterruptOutputOf | src/devices/bmp390/enums.rs:6-10 | a value decodes exactly when it fits the one-bit field |
| Bmp390Enums.PowerModeBits | src/devices/bmp390/enums.rs:18-23 | Sleep 0, Forced 1, Normal 3, each below 4 and decoding back |
| Bmp390Enums.PowerModeOf | src/devices/bmp390/enums.rs:18-23 | of the two-bit values only 0b10 has no mode |
| Bmp390Enums.OversamplingBits | src/devices/bmp390/enums.rs:28-36 | X1 to X32 are 0 to 5, each decoding back |
| Bmp390Enums.OversamplingOf | src/devices/bmp390/enums.rs:28-36 | of the three-bit values only 6 and 7 have no setting |
| Bmp390Enums.IirFilterBits | src/devices/bmp390/enums.rs:41-51 | Coeff0 to Coeff127 are 0 to 7, each decoding back |
| Bmp390Enums.IirFilterOf | src/devices/bmp390/enums.rs:41-51 | every three-bit value, and only those, decodes to a coefficient |
| Bmp390Enums.DecodeThenEncode | src/devices/bmp390/enums.rs:6-51 | a value that decodes encodes back to itself, so each encoding is injective |
| Bmp390Enums.Defaults | src/devices/bmp390/enums.rs:8-43 | the defaults are PushPull, Normal, X1 and Coeff0, with their stored values |
| Bmp390Registers.StatusSharesErrorAddress | src/devices/bmp390/registers.rs:30-43 | as declared, `Status` sits at 0x02, the address of `Error` |
| Bmp390Registers.DeclaredAddress | src/devices/bmp390/registers.rs:13-285 | the addresses as declared, `Status` at 0x02 included; a table whose property `StatusSharesErrorAddress` states |
| Bmp390Registers.Address | src/devices/bmp390/registers.rs:29-279 | with `Status` at 0x03, each register's address names that register; the burst read starts at the pressure register |
| Bmp390Registers.AddressesDistinct | src/devices/bmp390/registers.rs:29-279 | with `Status` at 0x03, no two registers other than the burst read share an address |
| Bmp390Registers.AccessOf | src/devices/bmp390/registers.rs:13-285 | each register's declared mode, "r", "rw" or "w"; `WritableRegisters` states it for the registers the driver writes |
| Bmp390Registers.EnforceBytes | src/devices/bmp390/registers.rs:13-285 | each register's declared `enforce_bytes`; `WidthsFillRegister` relates it to the field widths |
| Bmp390Registers.FieldWidths | src/devices/bmp390/registers.rs:13-285 | each register's field widths in declaration order; `WidthsFillRegister` and the layout lemmas state their properties |
| Bmp390Registers.WidthsFillRegister | src/devices/bmp390/registers.rs:29-301 | every register's declared field widths, reserved fields included, add up to 8 times its `enforce_bytes` |
| Bmp390Registers.CalibrationWidths | src/devices/bmp390/registers.rs:282-301 | the fourteen calibration coefficients take 168 bits, the register's 21 bytes |
| Bmp390Registers.PowerControlLayout | src/devices/bmp390/registers.rs:222-236 | mode is bits 5-4, temp_en bit 1, press_en bit 0; bits 7-6 and 3-2 are reserved |
| Bmp390Registers.OversamplingLayout | src/devices/bmp390/registers.rs:238-248 | oversampling_temp is bits 5-3 and over_sampling_press bits 2-0; bits 7-6 are reserved |
| Bmp390Registers.OutputDataRateLayout | src/devices/bmp390/registers.rs:250-260 | subdivision_factor is bits 4-0; bits 7-5 are reserved |
| Bmp390Registers.IirFilterConfigurationLayout | src/devices/bmp390/registers.rs:262-272 | 4 reserved bits, iir_filter at bits 3-1, short_in at bit 0 |
| Bmp390Registers.InterruptControlLayout | src/devices/bmp390/registers.rs:188-209 | bit 7 is reserved and the seven flags follow from bit 6 (data_ready_int) down to bit 0 (int_od) |
| Bmp390Registers.SubdivisionFieldRange | src/devices/bmp390/registers.rs:256-259 | the five-bit field holds every value up to 31, beyond its documented range of 0 to 17 |
| Bmp390Registers.Reading24 | src/devices/bmp390/registers.rs:58-96 | a reading assembled from its three bytes is below 2^24 and gives each byte back |
| Bmp390Registers.ReadingsAre24Bit | src/devices/bmp390/registers.rs:58-96 | pressure, temperature and sensor time are single 24-bit fields in three bytes |
| Bmp390Driver.PowerControlByte | src/devices/bmp390/mod.rs:23-25 | mode, press_en and temp_en read back as written, and the four reserved bits keep their value |
| Bmp390Driver.OversamplingByte | src/devices/bmp390/mod.rs:32-33 | both oversampling fields read back as written, and the reserved bits keep their value |
| Bmp390Driver.OutputDataRateByte | src/devices/bmp390/mod.rs:41 | subdivision_factor holds the argument modulo 32, and bits 7-5 keep their value |
| Bmp390Driver.IirFilterByte | src/devices/bmp390/mod.rs:49-50 | the coefficient reads back as written, short_in is cleared, and bits 7-4 keep their value |
| Bmp390Driver.DefaultInterruptControl | src/devices/bmp390/mod.rs:57 | the default register has level Low, output PushPull and every flag cleared |
| Bmp390Driver.InterruptControlByte | src/devices/bmp390/mod.rs:57-63 | the six written fields read back as given, and int_ds and the reserved bit are 0 |
| Bmp390Driver.SetPowerMode | src/devices/bmp390/mod.rs:21-28 | reads 0x1B; a failed read issues no write; otherwise 0x1B is written with the new fields and the reserved bits as read |
| Bmp390Driver.SetOversample | src/devices/bmp390/mod.rs:30-37 | reads 0x1C; a failed read issues no write; otherwise 0x1C is written with both settings and the reserved bits as read |
| Bmp390Driver.SetOutputDataRate | src/devices/bmp390/mod.rs:39-45 | reads 0x1D; a failed read issues no write; otherwise 0x1D is written with the factor cut to five bits and bits 7-5 as read |
| Bmp390Driver.SetIirFilter | src/devices/bmp390/mod.rs:47-53 | reads 0x1F; a failed read issues no write; otherwise 0x1F is written with the coefficient, short_in cleared and bits 7-4 as read |
| Bmp390Driver.SetInterrupt | src/devices/bmp390/mod.rs:55-66 | always writes 0x19, whatever the register held, with the six fields as given and int_ds and the reserved bit at 0 |
| Bmp390Driver.SettersWriteWhatTheyRead | src/devices/bmp390/mod.rs:21-66 | each setter writes the register it names, and the four read-modify-write setters write only the address they read successfully |
| Bmp390Driver.WritableRegisters | src/devices/bmp390/registers.rs:188-272 | the five registers the driver writes are at 0x19, 0x1B, 0x1C, 0x1D and 0x1F, and each is read-write |
| Bmp390Driver.PowerControlIdempotent | src/devices/bmp390/mod.rs:21-28 | after a `set_power_mode` step, the same call takes the same step again, so a second call changes nothing |
| Bmp390Driver.OversamplingIdempotent | src/devices/bmp390/mod.rs:30-37 | after a `set_oversample` step, the same call takes the same step again |
| Bmp390Driver.OutputDataRateIdempotent | src/devices/bmp390/mod.rs:39-45 | after a `set_output_data_rate` step, the same call takes the same step again |
| Bmp390Driver.IirFilterIdempotent | src/devices/bmp390/mod.rs:47-53 | after a `set_iir_filter` step, the same call takes the same step again |
| Bmp390Driver.OutputDataRateUnchecked | src/devices/bmp390/mod.rs:39-45 | when the read succeeds, the argument is not range-checked: 18 is written as is, above the documented 17, and 32 wraps to 0 |

## Left out

- Asynchronous bus I/O is not modelled. This covers `read_register`/`write_register`, `I2cDevice`, the one-byte register-address codec, the `new_i2c` constructors and the `embedded_hal_async` traits. The register contents are a parameter, a `RegisterFile`, and a setter's effect is a `Step`. A failed `write_register` is not modelled: a `Write` step always takes effect.
- The derive macros of `bondrewd`, `embedded_registers` and `embedded_devices_derive` are external code. The model covers only the layouts the visible structs declare.
- Enum decoders: a field value that no variant declares decodes to `None`. Whatever the generated accessor does with it is outside the source.
- Bmp390Driver.OutputDataRateByte: assumes the generated `write_subdivision_factor` masks its argument to the field's five bits. The accessor is generated code.
- Pca9557Registers.DefaultByte: takes a register's `default()` to be every field at its `#[default]`. The same holds for Bmp390Driver.DefaultInterruptControl. This is the derive's conventional meaning; its code is external.
- Bmp390Registers.FieldWidths: the multi-byte registers have widths and byte counts only, not exact bit positions. Their msb0-with-little-endian ordering is marked unverified in the source itself.
- Crc32.Hash: the checksum is a bitwise definition of the IEEE 802.3 frame check sequence. The table-driven `crc32fast` implementation is external.
- Packet.StaleTestVector: the unit test's expected bytes use old markers and no checksum. They are stated as differing from `serialize`, not taken as its specification.
- The `defmt::Format` and `Debug` derives are not modelled.
- The FIFO, event, error, status and command registers have no driver logic in the source. They appear only as addresses, access modes and field widths.
- The signed calibration coefficients (`i8`, `i16`) appear only as field widths. Their values are not interpreted.

## Findings

| source | as written | input that shows it | evidently intended | confidence | as-written member | corrected member |
|---|---|---|---|---|---|---|
| src/devices/bmp390/registers.rs:43 | `Status` is declared at address 0x02, the same address as `Error` (line 30) | reading `Status` reads address 0x02, which is the error register | `Status` at 0x03, the sensor's status register, so that every register has its own address | medium, not executed | Bmp390Registers.StatusSharesErrorAddress | Bmp390Registers.AddressesDistinct |
