# Smart house aggregate, modelled in Dafny

The smart house is a named house that owns rooms. Each room owns named devices: sockets, thermometers, speakers and lamps. The repository has three versions of this aggregate:

- **The local house** (src/lib.rs). Rooms and devices are stored in `BTreeMap`s. The lookups answer with error texts and never panic, and the report lists rooms and devices in name order.
- **The client house** (client/src/lib.rs). It keeps the same aggregate locally. Before a mutation that passes the local checks, it sends one HTTP request to the house service, and it changes its local copy only when that request succeeds. A failed request panics.
- **The early house** (src/main.rs). Rooms come from a fixed enum (`Hall`, `Kitchen`, `Bedroom`) and are stored in `HashMap`s, so the report visits rooms and devices in an unspecified order.

The project is made of these modules:

- `Wrappers` (wrappers.dfy): `Option` and `Result`.
- `Text` (text.dfy):
  - `to_string` of integers (`Decimal`), with its inverse `ParseInt`;
  - the `str` order that a `BTreeMap` iterates in (`Less`), and the ascending key listing `SortedKeys`;
  - the `{:?}` rendering of a room name (`DebugStr`).
- `Devices` (devices.dfy): the datatype `Device`, the four device kinds of src/devices.rs:1-26 and client/src/devices.rs:3-30 over an `i32` newtype, the status text of each device, and `ParseStatus`. `ParseStatus` is the inverse of the status text and serves as the reference the proofs read status texts back with.
- `Aggregate` (aggregate.dfy): the aggregate as map values. The datatype `Room` is the struct of src/room.rs:4-6 and client/src/room.rs:5-8.
  - The four mutations and the lookups are functions.
  - `Report` is the report as a function of the house.
  - `RenderReport` and its helpers build the report, pushing one part at a time in nested loops as `create_report` does.
- `House` (house.dfy): the `SmartHouse` class of src/lib.rs and the test vectors of its tests.
- `Client` (client.dfy):
  - the `SmartHouse` class of client/src/lib.rs, as the class `RemoteHouse`;
  - the resource paths it requests;
  - `DeleteHouse`, its static `delete`.
- `Legacy` (legacy.dfy): the early `HashMap` house.

How the models are built:

- The mutators of both classes are methods. Each `modifies` its object, and its postcondition ties the new `rooms` field and the returned value to the `Aggregate` function.
- The read operations are functions of the object.
- The report methods have no `modifies` clause. In the two `BTreeMap` versions they are proved equal to `Report`. In the early house the report method is proved equal to `LegacyReport`, taken over the visiting orders that the iteration chose.
- **The client's transport.** It is modelled as a `delivered: bool` parameter: the outcome of the awaited request.
  - Every request that is sent is appended to a ghost `sent` log as a `Request(verb, path)` pair.
  - A panic on a failed request is the outcome `Aborted(message)`. The local state is left unchanged, and the request still appears in the log.
- **The early house's iteration order.** It is modelled by `Legacy.Enumerate`, which lists a key set by repeatedly taking an arbitrary key not yet visited.
  - The report method returns, as ghost outputs, the room order and the device orders it took.
  - It is specified against them: every room once, and inside it every device once, numbered from 1. No particular order is promised.

The texts follow the code:

- The missing-room text is `The room <room> is not exists!`. The missing-device text is `Device '<name>' not found!`. In the early house, the missing-device text is `not found`.
- Device lines of the report are indented by three spaces: `   <i>) <name>: <status>\n\r`.
- The client's `delete` panics with `Failed to initialize smart house!`, the same message as `new`.
- The bullet of the room header differs between versions, and each version keeps its own constant:
  - src/lib.rs and src/main.rs use a space, U+2022 and a space.
  - client/src/lib.rs holds the bytes of U+2022 decoded once more as Windows-1252: a space, U+00E2, U+20AC, U+00A2 and a space.

## Model

| member | source | states |
|---|---|---|
| Text.Digits | src/lib.rs:139-141 | the decimal digits of a natural number: non-empty, all digits, no leading zero unless the number is 0 |
| Text.Decimal | src/lib.rs:27-32 | `i32::to_string`: starts with '-' exactly for negatives, canonical digits otherwise |
| Text.DecimalRoundTrip | src/lib.rs:27-32 | every integer reads back from its decimal text |
| Text.ParseIntSound | src/lib.rs:27-32 | every text that reads back as a number is that number's decimal text |
| Text.DecimalInjective | src/lib.rs:27-32 | distinct numbers have distinct decimal texts, in both directions |
| Text.DigitsRoundTrip | src/lib.rs:139-141 | reading the digits of n gives n |
| Text.ValueRoundTrip | src/lib.rs:139-141 | rendering the value of canonical digits gives back those digits |
| Text.ZeroValueIsZeros | src/lib.rs:139-141 | a digit string worth 0 consists of zeros only |
| Text.LessAsymmetric | src/room.rs:5 | the order of `str` keys is asymmetric |
| Text.LessTransitive | src/room.rs:5 | the order of `str` keys is transitive |
| Text.LessTotal | src/room.rs:5 | any two distinct keys are ordered one way or the other |
| Text.LessTrichotomy | src/room.rs:5 | asymmetry and totality for all keys at once |
| Text.Least | src/room.rs:5 | a non-empty key set has a key below none of the others |
| Text.LeastExists | src/room.rs:5 | the least key exists |
| Text.PrependLeast | src/room.rs:5 | a key below all of an ascending listing, and absent from it, may head it |
| Text.SortedKeys | src/lib.rs:124-126 | the keys of a `BTreeMap` in iteration order: strictly ascending, each key once, nothing else |
| Text.AscendingUnique | src/room.rs:5 | two strictly ascending listings of the same keys are equal, so the BTreeMap order is determined |
| Text.SortedKeysIsTheAscendingListing | tests/index.rs:33-40 | any strictly ascending listing of the keys is the iteration order |
| Text.ListingOfOne | tests/index.rs:25-31 | one key is listed alone |
| Text.ListingOfTwo | tests/index.rs:50-61 | two ordered keys are listed in that order |
| Text.ListingOfThree | tests/index.rs:69-82 | three ordered keys are listed in that order |
| Text.DebugStr | src/lib.rs:136 | `{:?}` of a string: the escaped characters between double quotes (its content is stated by the lemmas below) |
| Text.EscapeDebug | src/lib.rs:136 | the `{:?}` escape of one character is the character itself exactly when it prints verbatim |
| Text.EscapedPlain | src/lib.rs:136 | a name of printable characters other than quote and backslash is escaped to itself |
| Text.DebugStrOfPlainName | src/lib.rs:136 | `{:?}` of such a name is the name in double quotes |
| Text.DebugStrOfOtherName | src/lib.rs:136 | a name with any other character renders differently from the quoted name |
| Text.EscapedLonger | src/lib.rs:136 | escaping never shortens a name |
| Devices.Status | src/lib.rs:19-34 | the exhaustive dispatch: `enabled` exactly for a lit lamp and `disabled` exactly for an unlit one; `voltage `, `volume ` or `temperature ` followed by a decimal that reads back as the payload |
| Devices.ReadI32 | src/devices.rs:12-22 | a text read as an `i32` is that number's decimal text |
| Devices.ReadI32Decimal | src/devices.rs:12-22 | every `i32` reads back from its decimal text |
| Devices.PrefixedDecimal | src/lib.rs:27-33 | a status word followed by a number starts with that word and reads back as that number |
| Devices.SocketRoundTrip | src/lib.rs:27 | a socket's text `voltage <v>` reads back as the same socket |
| Devices.SpeakerRoundTrip | src/lib.rs:28-30 | a speaker's text `volume <v>` reads back as the same speaker |
| Devices.ThermometerRoundTrip | src/lib.rs:31-33 | a thermometer's text `temperature <t>` reads back as the same thermometer |
| Devices.StatusRoundTrip | src/lib.rs:19-34 | the dispatch is exhaustive over the four variants and every status text reads back as its device |
| Devices.ParseStatusSound | src/lib.rs:19-34 | every text that reads as a device is that device's status text |
| Devices.StatusInjective | client/src/devices.rs:3-30 | two devices have the same status text exactly when they are equal, variant and payload |
| Devices.StatusExamples | src/lib.rs:172 | `voltage 110` as the test expects, and `volume 3`, `temperature -22`, `enabled` and `disabled` for the other variants |
| Aggregate.AddRoom | src/lib.rs:45-52 | a new name gains exactly the given room; a taken name leaves the map as it was; no other room changes |
| Aggregate.RemoveRoom | src/lib.rs:54-61 | the name leaves the key set, the other rooms are kept, and the removed room is returned exactly when it was present |
| Aggregate.AddDevice | src/lib.rs:67-87 | only the named room changes, by gaining the device; a missing room or a taken name changes nothing |
| Aggregate.RemoveDevice | src/lib.rs:89-108 | the device comes back exactly when room and device exist; only that room loses only that key |
| Aggregate.GetRoom | src/lib.rs:63-65 | the room exactly when the name is present |
| Aggregate.RoomMissing | src/lib.rs:120 | the missing-room text `The room <room> is not exists!` |
| Aggregate.DeviceMissing | src/lib.rs:115 | the missing-device text `Device '<name>' not found!` |
| Aggregate.GetDevice | src/lib.rs:110-122 | the room is checked first (`The room <room> is not exists!`), then the device (`Device '<name>' not found!`) |
| Aggregate.GetDeviceStatus | src/lib.rs:15-38 | the status of a found device, otherwise the lookup's error text, in all three cases |
| Aggregate.RoomNames | src/lib.rs:124-126 | every room name once, strictly ascending |
| Aggregate.DeviceNames | src/lib.rs:128-130 | for a present room, every device name once, strictly ascending |
| Aggregate.Header | src/lib.rs:133 | the first line `<name> report: \n\r` |
| Aggregate.RoomHeader | src/lib.rs:136 | a room's line: the version's bullet, the `{:?}` of the name, `:` and `\n\r` |
| Aggregate.DeviceLine | src/lib.rs:139-141 | a device's line: three spaces, the index in decimal, `) `, the name, `: `, the status and `\n\r` |
| Aggregate.ConcatSnoc | src/lib.rs:136-144 | pushing one more part extends the joined text by that part |
| Aggregate.DeviceLines | src/lib.rs:138-144 | the i-th line names the i-th device, numbered i + 1, with its status |
| Aggregate.RoomBlock | src/lib.rs:136-145 | a room's header followed by its device lines in ascending name order, numbered from 1 |
| Aggregate.RoomBlocks | src/lib.rs:135-146 | the i-th block is the block of the i-th room name |
| Aggregate.Report | src/lib.rs:132-148 | the header, then the blocks of all rooms in ascending name order; the reference that `RenderReport` is proved against |
| Aggregate.RoomBlocksOfTwo | src/lib.rs:135-146 | two room names give their two blocks in that order |
| Aggregate.EmptyRoomBlock | tests/index.rs:53-55 | a room with no devices is reported as its header line alone |
| Aggregate.OneDeviceBlock | src/lib.rs:136-144 | a room with one device is reported as its header and that device's line numbered 1 |
| Aggregate.ConcatOne | src/lib.rs:136-144 | one part joins to itself |
| Aggregate.ConcatTwo | src/lib.rs:136-144 | two parts join in order |
| Aggregate.PlainRoomHeader | src/lib.rs:136 | a plain room name gets the header: bullet, the name between double quotes, a colon, then `\n\r` |
| Aggregate.PushPart | src/lib.rs:136-144 | pushing the next part onto the parts pushed so far gives one more part pushed |
| Aggregate.RenderReport | src/lib.rs:132-148 | the nested loops build exactly `Report` |
| Aggregate.PushRoomBlocks | src/lib.rs:135-146 | the outer loop appends the blocks of the given rooms in order |
| Aggregate.PushRoomBlock | src/lib.rs:136-145 | one room appends its header and then its device lines |
| Aggregate.PushDeviceLines | src/lib.rs:138-145 | the inner `enumerate` loop appends the device lines numbered from 1 |
| Aggregate.RenderDeviceLine | src/lib.rs:139-144 | the line of the j-th device is numbered j + 1 and carries its status |
| Aggregate.RemoveAddedRoom | src/lib.rs:45-61 | removing a freshly added room restores the house and hands the room back |
| Aggregate.AddRemovedRoom | src/lib.rs:45-61 | re-adding a removed room restores the house |
| Aggregate.AddRoomsCommute | src/lib.rs:45-52 | two rooms with different names can be added in either order |
| Aggregate.RemovedRoomHasNoDevices | src/room.rs:4-6 | after its room is removed a device is no longer found: the room is reported missing |
| Aggregate.RemoveAddedDevice | src/lib.rs:67-108 | removing a freshly added device restores the house and hands the device back |
| Aggregate.AddDeviceIsolated | src/lib.rs:67-87 | adding a device leaves every other lookup unchanged |
| Aggregate.RemoveDeviceIsolated | src/lib.rs:89-108 | removing a device leaves every other lookup and status unchanged |
| Aggregate.ErrorTextsAreNoStatus | src/lib.rs:115-120 | neither error text reads as a device status |
| Aggregate.StatusTextIdentifiesDevice | src/lib.rs:15-38 | the status text reads back as the device exactly when room and device exist |
| Aggregate.ReportStartsWithHeader | tests/index.rs:42-48 | every report starts with `<name> report: \n\r` |
| Aggregate.ReportOfEmptyHouse | src/lib.rs:133-147 | a house without rooms reports its header alone |
| House.SmartHouse.constructor | src/lib.rs:41-43 | the house holds exactly the given name and rooms; no method assigns the name |
| House.SmartHouse.AddRoom | src/lib.rs:45-52 | the rooms become `Aggregate.AddRoom` of the old rooms; the result is always `None` |
| House.SmartHouse.RemoveRoom | src/lib.rs:54-61 | the rooms and result are `Aggregate.RemoveRoom` of the old rooms; `Some` exactly when present |
| House.SmartHouse.AddDevice | src/lib.rs:67-87 | the rooms become `Aggregate.AddDevice` of the old rooms; the result is always `None` |
| House.SmartHouse.RemoveDevice | src/lib.rs:89-108 | the rooms and result are `Aggregate.RemoveDevice` of the old rooms; `Some` exactly when room and device exist |
| House.SmartHouse.RoomsList | src/lib.rs:124-126 | the room names, each once, strictly ascending |
| House.SmartHouse.DevicesList | src/lib.rs:128-130 | a present room's device names, each once, strictly ascending |
| House.SmartHouse.DeviceStatus | src/lib.rs:15-38 | `The room <room> is not exists!` for a missing room, `Device '<name>' not found!` for a missing device; otherwise a text that reads back as exactly that device |
| House.SmartHouse.CreateReport | src/lib.rs:132-148 | the report is `Report` with the U+2022 bullet, and starts with the header line |
| House.TestRoomListing | tests/index.rs:24-31 | the test house lists `["Kitchen"]` |
| House.TestDeviceListing | tests/index.rs:33-40 | its kitchen lists `["Socket", "Speaker"]` |
| House.TestAddRoomListing | tests/index.rs:50-61 | after adding "Hall" the rooms are `["Hall", "Kitchen"]` |
| House.TestRemoveRoomListing | tests/index.rs:62-68 | after removing "Kitchen" no room is listed |
| House.TestAddDeviceListing | tests/index.rs:69-82 | after adding "Lamp" the devices are `["Lamp", "Socket", "Speaker"]` |
| House.TestRemoveDeviceListing | tests/index.rs:83-91 | after removing "Speaker" the devices are `["Socket"]` |
| House.TestFoundStatus | src/lib.rs:169-173 | the socket's status is `voltage 110` |
| House.TestMissingDeviceStatus | src/lib.rs:174-181 | a missing lamp gives `Device 'Lamp' not found!` |
| House.TestMissingRoomStatus | src/lib.rs:120 | a missing room gives `The room Hall is not exists!` |
| House.TwoRoomReport | src/lib.rs:132-148 | for rooms a < b, a empty and b with one socket, the report is the header, a's header, b's header, then the socket's line numbered 1 |
| House.TwoRoomReportAs | src/lib.rs:132-148 | the same report, with the headers and the line given as the texts they evaluate to |
| House.HeaderText | src/lib.rs:136 | a plain room name's header is the bullet, the quoted name, `:` and `\n\r` |
| House.SocketLine | src/lib.rs:139-141 | the first line of a 110 V socket named `socket` is `   1) socket: voltage 110\n\r` |
| House.BedroomKitchenReport | src/lib.rs:132-148 | the report of an empty `bedroom` and a `kitchen` holding a 110 V `socket`, line by line as literal text |
| Client.HousesPath | client/src/lib.rs:54 | `/houses`, the path `new` posts to |
| Client.HousePath | client/src/lib.rs:68 | `/houses/<id>`, the path `delete` deletes |
| Client.RoomPath | client/src/lib.rs:85-88 | `/houses/<id>/rooms/<room>`, shared by `add_room` and `remove_room` |
| Client.DevicePath | client/src/lib.rs:132-135 | `/houses/<id>/rooms/<room>/devices/<name>`, shared by `add_device` and `remove_device` |
| Client.ConcatCancel | client/src/lib.rs:85-88 | a common prefix can be cancelled from both sides of an equation |
| Client.RoomPathInjective | client/src/lib.rs:85-88 | within one house, a room's path names that room and no other |
| Client.DevicePathInjective | client/src/lib.rs:132-135 | within one room, a device's path names that device and no other |
| Client.PathsBelowHouse | client/src/lib.rs:132-135 | room paths lie below `/houses/<id>/rooms/`, device paths below `<room path>/devices/` |
| Client.DeleteHouse | client/src/lib.rs:64-76 | one DELETE of `/houses/<name>`; the success message when delivered, otherwise a panic with `Failed to initialize smart house!` |
| Client.RemoteHouse.Posted | client/src/lib.rs:48-56 | the house holds the given id and rooms, after one POST to `/houses` |
| Client.RemoteHouse.New | client/src/lib.rs:46-62 | a fresh house with that id and rooms exactly when the POST is delivered, otherwise the panic `Failed to initialize smart house!` |
| Client.RemoteHouse.AddRoom | client/src/lib.rs:78-96 | a taken name: `None`, no request, no change; a free one: one POST to the room path, then `Aggregate.AddRoom` when delivered, or the panic with the rooms unchanged |
| Client.RemoteHouse.RemoveRoom | client/src/lib.rs:98-116 | a missing name: `None`, no request; a present one: one DELETE to the room path, then the room removed and returned, or the panic with the rooms unchanged |
| Client.RemoteHouse.AddDevice | client/src/lib.rs:118-149 | a missing room or taken name: `None`, no request; otherwise one POST to the device path, then `Aggregate.AddDevice`, or the panic with the rooms unchanged |
| Client.RemoteHouse.RemoveDevice | client/src/lib.rs:151-181 | a missing room or device: `None`, no request; otherwise one DELETE to the device path, then the device removed and returned, or the panic with the rooms unchanged |
| Client.RemoteHouse.RoomsList | client/src/lib.rs:183-185 | the room names, each once, strictly ascending |
| Client.RemoteHouse.DevicesList | client/src/lib.rs:187-189 | a present room's device names, each once, strictly ascending |
| Client.RemoteHouse.DeviceStatus | client/src/lib.rs:18-41 | `The room <room> is not exists!` for a missing room, `Device '<name>' not found!` for a missing device; otherwise a text that reads back as exactly that device |
| Client.RemoteHouse.CreateReport | client/src/lib.rs:191-207 | the report is `Report` with this version's bullet, and starts with `<id> report: \n\r` |
| Client.TestRoomListing | client/tests/index.rs:34-41 | the test house lists `["kitchen"]` |
| Client.TestDeviceListing | client/tests/index.rs:43-50 | its kitchen lists `["socket", "speaker"]` |
| Client.TestAddRoomListing | client/tests/index.rs:60-71 | after adding "hall" the rooms are `["hall", "kitchen"]` |
| Client.TestRemoveRoomListing | client/tests/index.rs:72-78 | after removing "kitchen" no room is listed |
| Client.TestAddDeviceListing | client/tests/index.rs:79-94 | after adding "lamp" the devices are `["lamp", "socket", "speaker"]` |
| Client.TestRemoveDeviceListing | client/tests/index.rs:95-103 | after removing "speaker" the devices are `["socket"]` |
| Client.TestFoundStatus | client/src/lib.rs:256-260 | the socket's status is `voltage 110` |
| Client.TestMissingDeviceStatus | client/src/lib.rs:261-268 | a missing lamp gives `Device 'lamp' not found!` |
| Legacy.KindName | src/main.rs:13-18 | the derived `Debug` of a room kind: its variant name without quotes, as the header at src/main.rs:44 prints it |
| Legacy.KindNameInjective | src/main.rs:13-18 | the three room kinds have three distinct names |
| Legacy.Enumerate | src/main.rs:32-38 | `keys()` of a `HashMap`: every key once and nothing else, in an order left open |
| Legacy.LegacyStatus | src/main.rs:79-105 | for a present room: `not found` for a missing device; the text reads as a device exactly when the device exists, and then as that device |
| Legacy.LegacyRoomBlock | src/main.rs:44-53 | a room's header ` • <Kind>:\n\r`, then its device lines in the order given, numbered from 1 |
| Legacy.LegacyReport | src/main.rs:40-56 | the header, then the blocks of the rooms in the visiting order, each with its own device order |
| Legacy.VisitOrdersPrefix | src/main.rs:42-53 | a prefix of a run's visiting orders is a run's visiting orders |
| Legacy.LegacyBlocksSnoc | src/main.rs:43-53 | visiting one more room appends that room's block |
| Legacy.PushBlock | src/main.rs:43-53 | pushing the next room's block extends the report by exactly that room |
| Legacy.VisitOrdersSnoc | src/main.rs:43-53 | a room visited once more with its devices each once extends the visiting orders |
| Legacy.LegacyReportStartsWithHeader | src/main.rs:41 | whatever the order, the report starts with `<name> report: \n\r` |
| Legacy.LegacyReportOfEmptyHouse | src/main.rs:40-56 | a house without rooms reports its header alone |
| Legacy.LegacyHouse.constructor | src/main.rs:28-30 | the house holds exactly the given name and rooms |
| Legacy.LegacyHouse.DeviceStatus | src/main.rs:79-105 | for a present room: `not found` for a missing device, otherwise the device's status |
| Legacy.LegacyHouse.CreateReport | src/main.rs:40-56 | the report starts with `<name> report: \n\r`, then lists every room once and, within it, every device once numbered from 1, in the orders the iteration took |
| Legacy.LegacyHouse.PushRooms | src/main.rs:43-54 | the outer loop only appends: the block of each room visited, in the order visited |
| Legacy.LegacyHouse.PushRoom | src/main.rs:44-53 | one room appends ` • <Kind>:\n\r` without quotes, then its devices each once |
| Legacy.LegacyHouse.PushDevices | src/main.rs:46-53 | the inner loop appends the device lines numbered from 1 |
| Legacy.LegacyHouse.RenderDeviceLine | src/main.rs:47-52 | the line of the j-th device is numbered j + 1 and carries its status |

## Left out

- House.SmartHouse.constructor: the house name is a `const` here. In Rust, `name` (src/lib.rs:11) and the client's `_id` (client/src/lib.rs:14) are `pub` fields, so any holder of a `&mut SmartHouse` may reassign them. The model states only that no method of the type assigns them.
- HTTP transport: the `awc` client, the `API` base URL, JSON bodies and `async`. A request is a verb and a path added to the ghost log `sent`. Its outcome is the `delivered` parameter.
- `panic!` on a failed request: modelled as the outcome `Aborted(message)`, with the local state unchanged. Unwinding is not modelled.
- The server (server/src/*): it forwards requests to MongoDB calls whose semantics are not in this repository. Its dotted update paths are not modelled.
- The `println!` diagnostics of the mutators: console output is not part of any result.
- The demo drivers: `main` in src/main.rs and the example programs of the library and of the client crate. They only print.
- Panics on indexing a missing room: the `get_devices_list` of both versions and the early house's `get_devices` and `get_device_status` index the room map and panic on a missing room. Here these become preconditions (`Aggregate.DeviceNames`, `House.SmartHouse.DevicesList`, `Client.RemoteHouse.DevicesList`, `Legacy.LegacyStatus`, `Legacy.LegacyHouse.DeviceStatus`).
- Borrowing: the `Keys` iterators and `&Room`/`&Devices` references become sequences and values.
- Text.EscapeDebug: follows Rust's `escape_debug` for ASCII characters only. Non-ASCII characters that Rust also escapes (unassigned, unprintable or grapheme-extending code points) pass through unchanged, because the Unicode tables are not modelled. A room name with such a character would get a different header from this model.
- Legacy.LegacyHouse.CreateReport: does not fix the room or device order, because `HashMap` iteration order depends on a random hash seed. `Legacy.Enumerate` stands for that choice.
- `Debug` of `get_rooms_list()` in the tests: that is a formatting of the iterator. The listing lemmas state the listed sequence itself.
