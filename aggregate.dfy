/**
 * The smart-house aggregate as values: rooms by name, each room a map from
 * device name to device. The mutators of `SmartHouse` in src/lib.rs and
 * client/src/lib.rs change their `rooms` field exactly as the functions
 * here say, the read operations are these functions, and the report both
 * versions build is `Report`, produced step by step by `RenderReport`.
 */
module Aggregate {
  import opened Wrappers
  import opened Text
  import opened Devices

  /** `Room { devices }`; device names are unique because they are map keys. */
  datatype Room = Room(devices: map<string, Device>)

  /** The `rooms` field of a house: room name to room. */
  type Rooms = map<string, Room>

  // ---------------------------------------------------------------------------
  // Mutations
  // ---------------------------------------------------------------------------

  /** `add_room`: a new name gains the room; an existing name leaves every room as it was. */
  function AddRoom(rooms: Rooms, name: string, room: Room): (r: Rooms)
    ensures r.Keys == rooms.Keys + {name}
    ensures name in rooms ==> r == rooms
    ensures name !in rooms ==> r[name] == room
    ensures forall k :: k in rooms && k != name ==> r[k] == rooms[k]
  {
    if name in rooms then rooms else rooms[name := room]
  }

  /** `remove_room`: the room leaves the house, devices and all, and is handed back. */
  function RemoveRoom(rooms: Rooms, name: string): (r: (Rooms, Option<Room>))
    ensures r.0.Keys == rooms.Keys - {name}
    ensures forall k :: k in r.0 ==> r.0[k] == rooms[k]
    ensures r.1.Some? <==> name in rooms
    ensures r.1.Some? ==> r.1.value == rooms[name]
  {
    if name !in rooms then (rooms, None) else (rooms - {name}, Some(rooms[name]))
  }

  /**
   * `add_device`: only the named room changes, and only by gaining the new
   * device; a missing room or a taken device name changes nothing.
   */
  function AddDevice(rooms: Rooms, roomName: string, name: string, device: Device): (r: Rooms)
    ensures r.Keys == rooms.Keys
    ensures forall k :: k in rooms && k != roomName ==> r[k] == rooms[k]
    ensures roomName !in rooms || name in rooms[roomName].devices ==> r == rooms
    ensures roomName in rooms && name !in rooms[roomName].devices ==>
      r[roomName].devices == rooms[roomName].devices[name := device]
  {
    if roomName !in rooms || name in rooms[roomName].devices then rooms
    else rooms[roomName := Room(rooms[roomName].devices[name := device])]
  }

  /**
   * `remove_device`: the device is handed back only when both its room and it
   * exist; only that room changes, and only by losing that one key.
   */
  function RemoveDevice(rooms: Rooms, roomName: string, name: string): (r: (Rooms, Option<Device>))
    ensures r.0.Keys == rooms.Keys
    ensures forall k :: k in rooms && k != roomName ==> r.0[k] == rooms[k]
    ensures roomName in rooms ==> r.0[roomName].devices.Keys == rooms[roomName].devices.Keys - {name}
    ensures roomName in rooms ==>
      forall n :: n in r.0[roomName].devices ==> r.0[roomName].devices[n] == rooms[roomName].devices[n]
    ensures r.1.Some? <==> roomName in rooms && name in rooms[roomName].devices
    ensures r.1.Some? ==> r.1.value == rooms[roomName].devices[name]
  {
    if roomName in rooms && name in rooms[roomName].devices then
      (rooms[roomName := Room(rooms[roomName].devices - {name})], Some(rooms[roomName].devices[name]))
    else
      (rooms, None)
  }

  // ---------------------------------------------------------------------------
  // Lookups
  // ---------------------------------------------------------------------------

  /** `get_room`. */
  function GetRoom(rooms: Rooms, name: string): (r: Option<Room>)
    ensures r.Some? <==> name in rooms
    ensures r.Some? ==> r.value == rooms[name]
  {
    if name in rooms then Some(rooms[name]) else None
  }

  function RoomMissing(roomName: string): string {
    "The room " + roomName + " is not exists!"
  }

  function DeviceMissing(name: string): string {
    "Device '" + name + "' not found!"
  }

  /** `get_device`: the room is looked up first, then the device inside it. */
  function GetDevice(rooms: Rooms, roomName: string, name: string): (r: Result<Device, string>)
    ensures roomName !in rooms ==> r == Err(RoomMissing(roomName))
    ensures roomName in rooms && name !in rooms[roomName].devices ==> r == Err(DeviceMissing(name))
    ensures roomName in rooms && name in rooms[roomName].devices ==> r == Ok(rooms[roomName].devices[name])
  {
    match GetRoom(rooms, roomName)
    case Some(room) =>
      if name !in room.devices then Err(DeviceMissing(name)) else Ok(room.devices[name])
    case None => Err(RoomMissing(roomName))
  }

  /** `get_device_status`: a text in every case, the status or the lookup's error. */
  function GetDeviceStatus(rooms: Rooms, roomName: string, name: string): (r: string)
    ensures roomName !in rooms ==> r == RoomMissing(roomName)
    ensures roomName in rooms && name !in rooms[roomName].devices ==> r == DeviceMissing(name)
    ensures roomName in rooms && name in rooms[roomName].devices ==> r == Status(rooms[roomName].devices[name])
  {
    match GetDevice(rooms, roomName, name)
    case Ok(device) => Status(device)
    case Err(error) => error
  }

  /** `get_rooms_list`: every room name once, in ascending order. */
  function RoomNames(rooms: Rooms): (r: seq<string>)
    ensures StrictlyAscending(r)
    ensures |r| == |rooms|
    ensures forall k :: k in r <==> k in rooms
  {
    SortedKeys(rooms.Keys)
  }

  /** `get_devices_list`: indexing `rooms[room_name]` panics on a missing room. */
  function DeviceNames(rooms: Rooms, roomName: string): (r: seq<string>)
    requires roomName in rooms
    ensures StrictlyAscending(r)
    ensures |r| == |rooms[roomName].devices|
    ensures forall n :: n in r <==> n in rooms[roomName].devices
  {
    SortedKeys(rooms[roomName].devices.Keys)
  }

  // ---------------------------------------------------------------------------
  // The report
  // ---------------------------------------------------------------------------

  function Header(houseName: string): string {
    houseName + " report: \n\r"
  }

  /** `format!("{}{:?}:\n\r", bullet, room_name)`; the bullet literal differs between versions. */
  function RoomHeader(bullet: string, roomName: string): string {
    bullet + DebugStr(roomName) + ":\n\r"
  }

  function DeviceLine(index: nat, name: string, status: string): string {
    "   " + Decimal(index) + ") " + name + ": " + status + "\n\r"
  }

  /** The pieces joined in order, as successive `push_str` calls leave them. */
  function Concat(parts: seq<string>): string {
    if parts == [] then "" else Concat(parts[..|parts| - 1]) + parts[|parts| - 1]
  }

  lemma ConcatSnoc(parts: seq<string>, part: string)
    ensures Concat(parts + [part]) == Concat(parts) + part
  {
    assert (parts + [part])[..|parts|] == parts;
  }

  /** One line per device of `names`: the line at index i is numbered i + 1. */
  function DeviceLines(room: Room, names: seq<string>): (lines: seq<string>)
    requires forall n :: n in names ==> n in room.devices
    ensures |lines| == |names|
    ensures forall i :: 0 <= i < |names| ==>
      lines[i] == DeviceLine(i + 1, names[i], Status(room.devices[names[i]]))
  {
    seq(|names|, i requires 0 <= i < |names| => DeviceLine(i + 1, names[i], Status(room.devices[names[i]])))
  }

  /** A room's header line followed by its device lines in ascending name order. */
  function RoomBlock(bullet: string, roomName: string, room: Room): string {
    RoomHeader(bullet, roomName) + Concat(DeviceLines(room, SortedKeys(room.devices.Keys)))
  }

  function RoomBlocks(bullet: string, rooms: Rooms, names: seq<string>): (blocks: seq<string>)
    requires forall n :: n in names ==> n in rooms
    ensures |blocks| == |names|
    ensures forall i :: 0 <= i < |names| ==> blocks[i] == RoomBlock(bullet, names[i], rooms[names[i]])
  {
    seq(|names|, i requires 0 <= i < |names| => RoomBlock(bullet, names[i], rooms[names[i]]))
  }

  /**
   * `create_report`: the header, then for every room in ascending name order
   * its header line and one line per device in ascending name order,
   * numbered from 1 within the room.
   */
  function Report(bullet: string, houseName: string, rooms: Rooms): string {
    var names := RoomNames(rooms);
    Header(houseName) + Concat(RoomBlocks(bullet, rooms, names))
  }

  lemma RoomBlocksOfTwo(bullet: string, rooms: Rooms, a: string, b: string)
    requires a in rooms && b in rooms
    ensures RoomBlocks(bullet, rooms, [a, b]) == [RoomBlock(bullet, a, rooms[a]), RoomBlock(bullet, b, rooms[b])]
  {
  }

  /** A room without devices is reported as its header line alone. */
  lemma EmptyRoomBlock(bullet: string, name: string)
    ensures RoomBlock(bullet, name, Room(map[])) == RoomHeader(bullet, name)
  {
    assert SortedKeys(Room(map[]).devices.Keys) == [];
    AppendNothing(RoomHeader(bullet, name));
  }

  /** A room with one device is reported as its header and that device's line, numbered 1. */
  lemma OneDeviceBlock(bullet: string, name: string, deviceName: string, device: Device)
    ensures RoomBlock(bullet, name, Room(map[deviceName := device])) ==
      RoomHeader(bullet, name) + DeviceLine(1, deviceName, Status(device))
  {
    var room := Room(map[deviceName := device]);
    assert room.devices.Keys == {deviceName};
    ListingOfOne(deviceName);
    ConcatOne(DeviceLines(room, [deviceName]));
  }

  lemma AppendNothing(s: string)
    ensures s + Concat([]) == s
  {
  }

  lemma ConcatOne(parts: seq<string>)
    requires |parts| == 1
    ensures Concat(parts) == parts[0]
  {
  }

  lemma ConcatTwo(x: string, y: string)
    ensures Concat([x, y]) == x + y
  {
    assert [x, y][..1] == [x];
    ConcatOne([x]);
  }

  /** A plain name's room header is the bullet, the name in quotes, a colon and the terminator. */
  lemma PlainRoomHeader(bullet: string, name: string)
    requires PlainName(name)
    ensures RoomHeader(bullet, name) == bullet + "\"" + name + "\":\n\r"
  {
    DebugStrOfPlainName(name);
  }

  /** Pushing the next part onto a prefix of the joined parts extends the prefix by one part. */
  lemma PushPart(pushed: string, head: string, parts: seq<string>, i: nat, part: string)
    requires i < |parts| && pushed == head + Concat(parts[..i]) && part == parts[i]
    ensures pushed + part == head + Concat(parts[..i + 1])
  {
    ConcatSnoc(parts[..i], parts[i]);
    assert parts[..i + 1] == parts[..i] + [parts[i]];
  }

  /** Pushing two parts in turn is pushing their join. */
  lemma PushAfter(report: string, first: string, second: string)
    ensures (report + first) + second == report + (first + second)
  {
  }

  /** `create_report`: the header, then every room's block pushed in ascending name order. */
  method RenderReport(bullet: string, houseName: string, rooms: Rooms) returns (report: string)
    ensures report == Report(bullet, houseName, rooms)
  {
    report := houseName + " report: \n\r";
    var roomNames := RoomNames(rooms);
    report := PushRoomBlocks(report, bullet, rooms, roomNames);
  }

  /** The outer loop of `create_report`, over the listed room names. */
  method PushRoomBlocks(report: string, bullet: string, rooms: Rooms, names: seq<string>) returns (r: string)
    requires forall n :: n in names ==> n in rooms
    ensures r == report + Concat(RoomBlocks(bullet, rooms, names))
  {
    r := report;
    ghost var blocks := RoomBlocks(bullet, rooms, names);
    var i := 0;
    while i < |names|
      invariant i <= |names|
      invariant r == report + Concat(blocks[..i])
    {
      ghost var pushed := r;
      assert names[i] in names;
      r := PushRoomBlock(r, bullet, rooms, names[i]);
      assert blocks[i] == RoomBlock(bullet, names[i], rooms[names[i]]);
      PushPart(pushed, report, blocks, i, blocks[i]);
      i := i + 1;
    }
    assert blocks[..i] == blocks;
  }

  /** One room of `create_report`: its header line, then its devices in ascending name order. */
  method PushRoomBlock(report: string, bullet: string, rooms: Rooms, roomName: string) returns (r: string)
    requires roomName in rooms
    ensures r == report + RoomBlock(bullet, roomName, rooms[roomName])
  {
    var header := bullet + DebugStr(roomName) + ":\n\r";
    var deviceNames := DeviceNames(rooms, roomName);
    r := PushDeviceLines(report + header, rooms, roomName, deviceNames);
    PushAfter(report, header, Concat(DeviceLines(rooms[roomName], deviceNames)));
  }

  /** The inner loop of `create_report`, over the listed device names, numbering from 1. */
  method PushDeviceLines(report: string, rooms: Rooms, roomName: string, names: seq<string>) returns (r: string)
    requires roomName in rooms
    requires forall n :: n in names ==> n in rooms[roomName].devices
    ensures r == report + Concat(DeviceLines(rooms[roomName], names))
  {
    r := report;
    ghost var lines := DeviceLines(rooms[roomName], names);
    var j := 0;
    while j < |names|
      invariant j <= |names|
      invariant r == report + Concat(lines[..j])
    {
      var line := RenderDeviceLine(rooms, roomName, names, j);
      PushPart(r, report, lines, j, line);
      r := r + line;
      j := j + 1;
    }
    assert lines[..j] == lines;
  }

  /** The line of the device at position `j`, its status looked up through `get_device_status`. */
  method RenderDeviceLine(rooms: Rooms, roomName: string, names: seq<string>, j: nat) returns (line: string)
    requires roomName in rooms
    requires forall n :: n in names ==> n in rooms[roomName].devices
    requires j < |names|
    ensures line == DeviceLines(rooms[roomName], names)[j]
  {
    var status := GetDeviceStatus(rooms, roomName, names[j]);
    line := DeviceLine(j + 1, names[j], status);
  }

  // ---------------------------------------------------------------------------
  // Properties relating the operations
  // ---------------------------------------------------------------------------

  /** Removing a room just added gives back both the house and the room. */
  lemma RemoveAddedRoom(rooms: Rooms, name: string, room: Room)
    requires name !in rooms
    ensures RemoveRoom(AddRoom(rooms, name, room), name) == (rooms, Some(room))
  {
    assert AddRoom(rooms, name, room) - {name} == rooms;
  }

  /** Adding back a room just removed restores the house. */
  lemma AddRemovedRoom(rooms: Rooms, name: string)
    requires name in rooms
    ensures AddRoom(RemoveRoom(rooms, name).0, name, rooms[name]) == rooms
  {
    assert (rooms - {name})[name := rooms[name]] == rooms;
  }

  /** Room membership does not depend on the order rooms are added in. */
  lemma AddRoomsCommute(rooms: Rooms, a: string, ra: Room, b: string, rb: Room)
    requires a != b
    ensures AddRoom(AddRoom(rooms, a, ra), b, rb) == AddRoom(AddRoom(rooms, b, rb), a, ra)
  {
  }

  /** No device outlives its room. */
  lemma RemovedRoomHasNoDevices(rooms: Rooms, name: string, device: string)
    ensures GetDevice(RemoveRoom(rooms, name).0, name, device) == Err(RoomMissing(name))
  {
  }

  /** Removing a device just added gives back both the house and the device. */
  lemma RemoveAddedDevice(rooms: Rooms, roomName: string, name: string, device: Device)
    requires roomName in rooms && name !in rooms[roomName].devices
    ensures RemoveDevice(AddDevice(rooms, roomName, name, device), roomName, name) == (rooms, Some(device))
  {
    var after := AddDevice(rooms, roomName, name, device);
    assert after[roomName].devices - {name} == rooms[roomName].devices;
    assert after[roomName := Room(after[roomName].devices - {name})] == rooms;
  }

  /** Adding a device leaves every other lookup as it was. */
  lemma AddDeviceIsolated(rooms: Rooms, roomName: string, name: string, device: Device, r: string, n: string)
    requires r != roomName || n != name
    ensures GetDevice(AddDevice(rooms, roomName, name, device), r, n) == GetDevice(rooms, r, n)
  {
  }

  /** Removing a device leaves every other lookup, and so every other status, as it was. */
  lemma RemoveDeviceIsolated(rooms: Rooms, roomName: string, name: string, r: string, n: string)
    requires r != roomName || n != name
    ensures GetDevice(RemoveDevice(rooms, roomName, name).0, r, n) == GetDevice(rooms, r, n)
    ensures GetDeviceStatus(RemoveDevice(rooms, roomName, name).0, r, n) == GetDeviceStatus(rooms, r, n)
  {
  }

  lemma ErrorTextsAreNoStatus(roomName: string, name: string)
    ensures ParseStatus(RoomMissing(roomName)) == None
    ensures ParseStatus(DeviceMissing(name)) == None
  {
    var s, t := RoomMissing(roomName), DeviceMissing(name);
    assert s[0] == 'T' && t[0] == 'D';
    CharRulesOut(s, "enabled", 0);
    CharRulesOut(s, "disabled", 0);
    CharRulesOut(s, "voltage ", 0);
    CharRulesOut(s, "volume ", 0);
    CharRulesOut(s, "temperature ", 0);
    CharRulesOut(t, "enabled", 0);
    CharRulesOut(t, "disabled", 0);
    CharRulesOut(t, "voltage ", 0);
    CharRulesOut(t, "volume ", 0);
    CharRulesOut(t, "temperature ", 0);
  }

  /**
   * The status text tells a found device apart from a failed lookup: it reads
   * back as the device exactly when room and device exist.
   */
  lemma StatusTextIdentifiesDevice(rooms: Rooms, roomName: string, name: string)
    ensures ParseStatus(GetDeviceStatus(rooms, roomName, name)) ==
      if roomName in rooms && name in rooms[roomName].devices
      then Some(rooms[roomName].devices[name]) else None
  {
    ErrorTextsAreNoStatus(roomName, name);
    if roomName in rooms && name in rooms[roomName].devices {
      StatusRoundTrip(rooms[roomName].devices[name]);
    }
  }

  /** Every report begins with the house's header line. */
  lemma ReportStartsWithHeader(bullet: string, houseName: string, rooms: Rooms)
    ensures HasPrefix(Report(bullet, houseName, rooms), Header(houseName))
  {
  }

  /** A house with no rooms reports its header alone. */
  lemma ReportOfEmptyHouse(bullet: string, houseName: string)
    ensures Report(bullet, houseName, map[]) == Header(houseName)
  {
  }
}
