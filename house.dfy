/**
 * The local `SmartHouse` of src/lib.rs: a named house owning its rooms in a
 * `BTreeMap`. Every mutator changes the `rooms` field exactly as the
 * matching function of `Aggregate` says, and returns what the map operation
 * underneath returns.
 */
module House {
  import opened Wrappers
  import opened Text
  import opened Devices
  import opened Aggregate

  /** The room bullet of src/lib.rs: a space, U+2022 BULLET, a space. */
  const Bullet: string := " \U{2022} "

  class SmartHouse {
    /** The `pub` field `name`; a constant here, since no method of the type assigns it. */
    const name: string
    var rooms: Rooms

    /** `SmartHouse::new`: the house takes the rooms it is given, unchecked. */
    constructor(name: string, rooms: Rooms)
      ensures this.name == name && this.rooms == rooms
    {
      this.name := name;
      this.rooms := rooms;
    }

    /**
     * `add_room`: a taken name changes nothing; a free one gains the room.
     * Either way the result is `None`, the first because the source says so,
     * the second because `insert` on a free key has no previous value.
     */
    method AddRoom(roomName: string, room: Room) returns (previous: Option<Room>)
      modifies this
      ensures rooms == Aggregate.AddRoom(old(rooms), roomName, room)
      ensures previous == None
    {
      if roomName in rooms {
        previous := None;
      } else {
        previous := GetRoom(rooms, roomName);
        rooms := rooms[roomName := room];
      }
    }

    /** `remove_room`: the room is handed back exactly when it was there. */
    method RemoveRoom(roomName: string) returns (removed: Option<Room>)
      modifies this
      ensures (rooms, removed) == Aggregate.RemoveRoom(old(rooms), roomName)
      ensures removed.Some? <==> roomName in old(rooms)
    {
      if roomName !in rooms {
        removed := None;
      } else {
        removed := Some(rooms[roomName]);
        rooms := rooms - {roomName};
      }
    }

    /** `add_device`: `None` in every case, as for `add_room`. */
    method AddDevice(roomName: string, deviceName: string, device: Device) returns (previous: Option<Device>)
      modifies this
      ensures rooms == Aggregate.AddDevice(old(rooms), roomName, deviceName, device)
      ensures previous == None
    {
      match GetRoom(rooms, roomName)
      case Some(room) =>
        if deviceName in room.devices {
          previous := None;
        } else {
          previous := None;
          rooms := rooms[roomName := Room(room.devices[deviceName := device])];
        }
      case None =>
        previous := None;
    }

    /** `remove_device`: the device is handed back exactly when room and device exist. */
    method RemoveDevice(roomName: string, deviceName: string) returns (removed: Option<Device>)
      modifies this
      ensures (rooms, removed) == Aggregate.RemoveDevice(old(rooms), roomName, deviceName)
      ensures removed.Some? <==> roomName in old(rooms) && deviceName in old(rooms)[roomName].devices
    {
      match GetRoom(rooms, roomName)
      case Some(room) =>
        if deviceName in room.devices {
          removed := Some(room.devices[deviceName]);
          rooms := rooms[roomName := Room(room.devices - {deviceName})];
        } else {
          removed := None;
        }
      case None =>
        removed := None;
    }

    /** `get_rooms_list`: the room names, ascending. */
    function RoomsList(): (r: seq<string>)
      reads this
      ensures StrictlyAscending(r)
      ensures forall k :: k in r <==> k in rooms
    {
      RoomNames(rooms)
    }

    /** `get_devices_list`, which panics on a missing room: hence the precondition. */
    function DevicesList(roomName: string): (r: seq<string>)
      reads this
      requires roomName in rooms
      ensures StrictlyAscending(r)
      ensures forall n :: n in r <==> n in rooms[roomName].devices
    {
      DeviceNames(rooms, roomName)
    }

    /** `get_device_status` of the `DeviceInfoProvider` implementation. */
    function DeviceStatus(roomName: string, deviceName: string): (r: string)
      reads this
      ensures roomName !in rooms ==> r == RoomMissing(roomName)
      ensures roomName in rooms && deviceName !in rooms[roomName].devices ==> r == DeviceMissing(deviceName)
      ensures ParseStatus(r).Some? <==> roomName in rooms && deviceName in rooms[roomName].devices
      ensures ParseStatus(r).Some? ==> ParseStatus(r).value == rooms[roomName].devices[deviceName]
    {
      StatusTextIdentifiesDevice(rooms, roomName, deviceName);
      GetDeviceStatus(rooms, roomName, deviceName)
    }

    /** `create_report`, with the U+2022 bullet. */
    method CreateReport() returns (report: string)
      ensures report == Report(Bullet, name, rooms)
      ensures HasPrefix(report, name + " report: \n\r")
    {
      report := RenderReport(Bullet, name, rooms);
      ReportStartsWithHeader(Bullet, name, rooms);
    }
  }

  // ---------------------------------------------------------------------------
  // The house of tests/index.rs
  // ---------------------------------------------------------------------------

  function Kitchen(): Room {
    Room(map["Socket" := Socket(110), "Speaker" := Speaker(3)])
  }

  function TestRooms(): Rooms {
    map["Kitchen" := Kitchen()]
  }

  /** `it_should_return_rooms_list`. */
  lemma TestRoomListing()
    ensures RoomNames(TestRooms()) == ["Kitchen"]
  {
    ListingOfOne("Kitchen");
    assert TestRooms().Keys == {"Kitchen"};
  }

  /** `it_should_return_devices_list`. */
  lemma TestDeviceListing()
    ensures DeviceNames(TestRooms(), "Kitchen") == ["Socket", "Speaker"]
  {
    assert Less("Socket", "Speaker");
    ListingOfTwo("Socket", "Speaker");
    assert TestRooms()["Kitchen"].devices.Keys == {"Socket", "Speaker"};
  }

  /** `it_should_add_room`: "Hall" is listed before "Kitchen". */
  lemma TestAddRoomListing()
    ensures RoomNames(Aggregate.AddRoom(TestRooms(), "Hall", Room(map[]))) == ["Hall", "Kitchen"]
  {
    assert Less("Hall", "Kitchen");
    ListingOfTwo("Hall", "Kitchen");
    assert Aggregate.AddRoom(TestRooms(), "Hall", Room(map[])).Keys == {"Hall", "Kitchen"};
  }

  /** `it_should_remove_room`: no room is left. */
  lemma TestRemoveRoomListing()
    ensures RoomNames(Aggregate.RemoveRoom(TestRooms(), "Kitchen").0) == []
  {
  }

  /** `it_should_add_device`: "Lamp" is listed first. */
  lemma TestAddDeviceListing()
    ensures DeviceNames(Aggregate.AddDevice(TestRooms(), "Kitchen", "Lamp", Lamp(true)), "Kitchen")
      == ["Lamp", "Socket", "Speaker"]
  {
    assert Less("Lamp", "Socket") && Less("Socket", "Speaker");
    ListingOfThree("Lamp", "Socket", "Speaker");
    assert Aggregate.AddDevice(TestRooms(), "Kitchen", "Lamp", Lamp(true))["Kitchen"].devices.Keys
      == {"Lamp", "Socket", "Speaker"};
  }

  /** `it_should_remove_device`: only "Socket" is left. */
  lemma TestRemoveDeviceListing()
    ensures DeviceNames(Aggregate.RemoveDevice(TestRooms(), "Kitchen", "Speaker").0, "Kitchen") == ["Socket"]
  {
    ListingOfOne("Socket");
    assert Aggregate.RemoveDevice(TestRooms(), "Kitchen", "Speaker").0["Kitchen"].devices.Keys == {"Socket"};
  }

  /** The status of the test house's socket. */
  lemma TestFoundStatus()
    ensures GetDeviceStatus(TestRooms(), "Kitchen", "Socket") == "voltage 110"
  {
    StatusExamples();
  }

  /** The error text for a device the room lacks. */
  lemma TestMissingDeviceStatus()
    ensures GetDeviceStatus(TestRooms(), "Kitchen", "Lamp") == "Device 'Lamp' not found!"
  {
  }

  /** The error text for a room the house lacks. */
  lemma TestMissingRoomStatus()
    ensures GetDeviceStatus(TestRooms(), "Hall", "Lamp") == "The room Hall is not exists!"
  {
  }

  // ---------------------------------------------------------------------------
  // A worked report: an empty room and a room with one socket
  // ---------------------------------------------------------------------------

  /**
   * For rooms `a` < `b`, `a` empty and `b` holding one socket, the report
   * lists `a`, then `b`, then the socket numbered 1; `BedroomKitchenReport`
   * spells out one instance.
   */
  lemma TwoRoomReport(id: string, a: string, b: string, socket: string, voltage: i32)
    requires Less(a, b)
    ensures Report(Bullet, id, map[a := Room(map[]), b := Room(map[socket := Socket(voltage)])]) ==
      Header(id) + RoomHeader(Bullet, a) + RoomHeader(Bullet, b) + DeviceLine(1, socket, Status(Socket(voltage)))
  {
    LessAsymmetric(a, b);
    var empty, one := Room(map[]), Room(map[socket := Socket(voltage)]);
    var rooms := map[a := empty, b := one];
    var line := DeviceLine(1, socket, Status(Socket(voltage)));
    assert RoomNames(rooms) == [a, b] by {
      assert rooms.Keys == {a, b};
      ListingOfTwo(a, b);
    }
    EmptyRoomBlock(Bullet, a);
    OneDeviceBlock(Bullet, b, socket, Socket(voltage));
    RoomBlocksOfTwo(Bullet, rooms, a, b);
    ConcatTwo(RoomBlock(Bullet, a, empty), RoomBlock(Bullet, b, one));
    PushAfter(Header(id) + RoomHeader(Bullet, a), RoomHeader(Bullet, b), line);
    PushAfter(Header(id), RoomHeader(Bullet, a), RoomHeader(Bullet, b) + line);
  }

  /** The header of a plain room name, given as the literal it spells. */
  lemma HeaderText(name: string, text: string)
    requires PlainName(name) && text == Bullet + "\"" + name + "\":\n\r"
    ensures RoomHeader(Bullet, name) == text
  {
    PlainRoomHeader(Bullet, name);
  }

  lemma SocketLine()
    ensures DeviceLine(1, "socket", Status(Socket(110))) == "   1) socket: voltage 110\n\r"
  {
    StatusExamples();
    assert Decimal(1) == "1";
  }

  /** `TwoRoomReport` with the headers and the line given as the texts they evaluate to. */
  lemma TwoRoomReportAs(id: string, a: string, b: string, socket: string, ha: string, hb: string, line: string)
    requires Less(a, b)
    requires RoomHeader(Bullet, a) == ha && RoomHeader(Bullet, b) == hb
    requires DeviceLine(1, socket, Status(Socket(110))) == line
    ensures Report(Bullet, id, map[a := Room(map[]), b := Room(map[socket := Socket(110)])]) == Header(id) + ha + hb + line
  {
    TwoRoomReport(id, a, b, socket, 110);
  }

  /**
   * The two-room report with "bedroom", "kitchen" and a 110 V socket, line
   * by line as literal text. The names come in as parameters fixed by the
   * precondition, which keeps the key listing from being unfolded on literals.
   */
  lemma BedroomKitchenReport(id: string, a: string, b: string, socket: string)
    requires a == "bedroom" && b == "kitchen" && socket == "socket"
    ensures Report(Bullet, id, map[a := Room(map[]), b := Room(map[socket := Socket(110)])]) ==
      id + " report: \n\r" + " \U{2022} \"bedroom\":\n\r" + " \U{2022} \"kitchen\":\n\r" + "   1) socket: voltage 110\n\r"
  {
    assert Less(a, b);
    assert PlainName(a) && PlainName(b);
    HeaderText(a, " \U{2022} \"bedroom\":\n\r");
    HeaderText(b, " \U{2022} \"kitchen\":\n\r");
    SocketLine();
    TwoRoomReportAs(id, a, b, socket, " \U{2022} \"bedroom\":\n\r", " \U{2022} \"kitchen\":\n\r", "   1) socket: voltage 110\n\r");
  }
}
