/**
 * The HTTP-backed `SmartHouse` of client/src/lib.rs. It keeps the same
 * aggregate locally and, before each mutation that passes the local checks,
 * sends one request to the house service. The local state changes only
 * when that request is delivered; a failed request makes the source panic,
 * which is modelled as an `Aborted` outcome carrying the panic message,
 * with the local state left as it was.
 */
module Client {
  import opened Wrappers
  import opened Text
  import opened Devices
  import opened Aggregate

  /**
   * The room bullet of client/src/lib.rs. Its literal holds the bytes
   * C3 A2 E2 82 AC C2 A2, that is U+2022 BULLET encoded as UTF-8, decoded
   * as Windows-1252 and encoded again: a space, U+00E2, U+20AC, U+00A2, a space.
   */
  const Bullet: string := " \U{E2}\U{20AC}\U{A2} "

  datatype Verb = Post | Delete

  /** A request to the house service: its verb and its path below the service's base URL. */
  datatype Request = Request(verb: Verb, path: string)

  /** What an operation with a remote side effect comes to: its value, or the panic it raised. */
  datatype Step<+T> = Applied(value: T) | Aborted(panic: string)

  const InitFailed: string := "Failed to initialize smart house!"
  const AddRoomFailed: string := "Failed to add room!"
  const RemoveRoomFailed: string := "Failed to remove room!"
  const AddDeviceFailed: string := "Failed to add device!"
  const RemoveDeviceFailed: string := "Failed to remove device!"

  // ---------------------------------------------------------------------------
  // Resource paths
  // ---------------------------------------------------------------------------

  function HousesPath(): string {
    "/houses"
  }

  function HousePath(id: string): string {
    "/houses/" + id
  }

  function RoomPath(id: string, room: string): string {
    HousePath(id) + "/rooms/" + room
  }

  function DevicePath(id: string, room: string, device: string): string {
    RoomPath(id, room) + "/devices/" + device
  }

  lemma ConcatCancel(p: string, a: string, b: string)
    ensures p + a == p + b <==> a == b
  {
    if p + a == p + b {
      assert a == (p + a)[|p|..];
      assert b == (p + b)[|p|..];
    }
  }

  /** Within one house, a room's path names that room and no other. */
  lemma RoomPathInjective(id: string, a: string, b: string)
    ensures RoomPath(id, a) == RoomPath(id, b) <==> a == b
  {
    ConcatCancel(HousePath(id) + "/rooms/", a, b);
  }

  /** Within one room, a device's path names that device and no other. */
  lemma DevicePathInjective(id: string, room: string, a: string, b: string)
    ensures DevicePath(id, room, a) == DevicePath(id, room, b) <==> a == b
  {
    ConcatCancel(RoomPath(id, room) + "/devices/", a, b);
  }

  /** Every room and device path lies below the path of its house. */
  lemma PathsBelowHouse(id: string, room: string, device: string)
    ensures HasPrefix(RoomPath(id, room), HousePath(id) + "/rooms/")
    ensures HasPrefix(DevicePath(id, room, device), RoomPath(id, room) + "/devices/")
  {
    var p := HousePath(id) + "/rooms/";
    assert (p + room)[..|p|] == p;
    var q := RoomPath(id, room) + "/devices/";
    assert (q + device)[..|q|] == q;
  }

  /** `SmartHouse::delete`: one DELETE of the house's path; the message, or the panic. */
  method DeleteHouse(name: string, delivered: bool) returns (r: Step<string>, ghost request: Request)
    ensures request == Request(Delete, HousePath(name))
    ensures delivered ==> r == Applied("Smart house " + name + " successfully deleted!")
    ensures !delivered ==> r == Aborted(InitFailed)
  {
    request := Request(Delete, "/houses/" + name);
    if delivered {
      r := Applied("Smart house " + name + " successfully deleted!");
    } else {
      r := Aborted(InitFailed);
    }
  }

  /** The client's `SmartHouse`; `sent` records the requests it has made, for the proofs. */
  class RemoteHouse {
    /** The `pub` field `_id`; a constant here, since no method of the type assigns it. */
    const id: string
    var rooms: Rooms
    ghost var sent: seq<Request>

    constructor Posted(id: string, rooms: Rooms)
      ensures this.id == id && this.rooms == rooms
      ensures sent == [Request(Post, HousesPath())]
    {
      this.id := id;
      this.rooms := rooms;
      sent := [Request(Post, HousesPath())];
    }

    /**
     * `SmartHouse::new`: POSTs the house to the service, then hands it back,
     * or panics when the request fails.
     */
    static method New(name: string, rooms: Rooms, delivered: bool) returns (r: Step<RemoteHouse>)
      ensures delivered <==> r.Applied?
      ensures r.Applied? ==> fresh(r.value) && r.value.id == name && r.value.rooms == rooms
      ensures r.Applied? ==> r.value.sent == [Request(Post, HousesPath())]
      ensures r.Aborted? ==> r.panic == InitFailed
    {
      var house := new RemoteHouse.Posted(name, rooms);
      if delivered {
        r := Applied(house);
      } else {
        r := Aborted(InitFailed);
      }
    }

    /**
     * `add_room`: a taken name is refused locally, with no request; a free
     * one is POSTed first and added only once the request is delivered.
     */
    method AddRoom(name: string, room: Room, delivered: bool) returns (r: Step<Option<Room>>)
      modifies this
      ensures name in old(rooms) ==> r == Applied(None) && rooms == old(rooms) && sent == old(sent)
      ensures name !in old(rooms) ==> sent == old(sent) + [Request(Post, RoomPath(id, name))]
      ensures name !in old(rooms) && delivered ==>
        r == Applied(None) && rooms == Aggregate.AddRoom(old(rooms), name, room)
      ensures name !in old(rooms) && !delivered ==> r == Aborted(AddRoomFailed) && rooms == old(rooms)
    {
      if name in rooms {
        r := Applied(None);
      } else {
        sent := sent + [Request(Post, "/houses/" + id + "/rooms/" + name)];
        if delivered {
          r := Applied(GetRoom(rooms, name));
          rooms := rooms[name := room];
        } else {
          r := Aborted(AddRoomFailed);
        }
      }
    }

    /** `remove_room`: a missing room is refused locally; otherwise DELETE, then remove. */
    method RemoveRoom(name: string, delivered: bool) returns (r: Step<Option<Room>>)
      modifies this
      ensures name !in old(rooms) ==> r == Applied(None) && rooms == old(rooms) && sent == old(sent)
      ensures name in old(rooms) ==> sent == old(sent) + [Request(Delete, RoomPath(id, name))]
      ensures name in old(rooms) && delivered ==>
        r == Applied(Some(old(rooms)[name])) && rooms == Aggregate.RemoveRoom(old(rooms), name).0
      ensures name in old(rooms) && !delivered ==> r == Aborted(RemoveRoomFailed) && rooms == old(rooms)
    {
      if name !in rooms {
        r := Applied(None);
      } else {
        sent := sent + [Request(Delete, "/houses/" + id + "/rooms/" + name)];
        if delivered {
          r := Applied(Some(rooms[name]));
          rooms := rooms - {name};
        } else {
          r := Aborted(RemoveRoomFailed);
        }
      }
    }

    /**
     * `add_device`: a missing room or a taken device name is refused locally;
     * otherwise POST, then insert into that room.
     */
    method AddDevice(roomName: string, name: string, device: Device, delivered: bool) returns (r: Step<Option<Device>>)
      modifies this
      ensures roomName !in old(rooms) || name in old(rooms)[roomName].devices ==>
        r == Applied(None) && rooms == old(rooms) && sent == old(sent)
      ensures roomName in old(rooms) && name !in old(rooms)[roomName].devices ==>
        sent == old(sent) + [Request(Post, DevicePath(id, roomName, name))]
      ensures roomName in old(rooms) && name !in old(rooms)[roomName].devices && delivered ==>
        r == Applied(None) && rooms == Aggregate.AddDevice(old(rooms), roomName, name, device)
      ensures roomName in old(rooms) && name !in old(rooms)[roomName].devices && !delivered ==>
        r == Aborted(AddDeviceFailed) && rooms == old(rooms)
    {
      match GetRoom(rooms, roomName)
      case Some(room) =>
        if name in room.devices {
          r := Applied(None);
        } else {
          sent := sent + [Request(Post, "/houses/" + id + "/rooms/" + roomName + "/devices/" + name)];
          if delivered {
            r := Applied(None);
            rooms := rooms[roomName := Room(room.devices[name := device])];
          } else {
            r := Aborted(AddDeviceFailed);
          }
        }
      case None =>
        r := Applied(None);
    }

    /** `remove_device`: a missing room or device is refused locally; otherwise DELETE, then remove. */
    method RemoveDevice(roomName: string, name: string, delivered: bool) returns (r: Step<Option<Device>>)
      modifies this
      ensures roomName !in old(rooms) || name !in old(rooms)[roomName].devices ==>
        r == Applied(None) && rooms == old(rooms) && sent == old(sent)
      ensures roomName in old(rooms) && name in old(rooms)[roomName].devices ==>
        sent == old(sent) + [Request(Delete, DevicePath(id, roomName, name))]
      ensures roomName in old(rooms) && name in old(rooms)[roomName].devices && delivered ==>
        r == Applied(Some(old(rooms)[roomName].devices[name])) &&
        rooms == Aggregate.RemoveDevice(old(rooms), roomName, name).0
      ensures roomName in old(rooms) && name in old(rooms)[roomName].devices && !delivered ==>
        r == Aborted(RemoveDeviceFailed) && rooms == old(rooms)
    {
      match GetRoom(rooms, roomName)
      case Some(room) =>
        if name in room.devices {
          sent := sent + [Request(Delete, "/houses/" + id + "/rooms/" + roomName + "/devices/" + name)];
          if delivered {
            r := Applied(Some(room.devices[name]));
            rooms := rooms[roomName := Room(room.devices - {name})];
          } else {
            r := Aborted(RemoveDeviceFailed);
          }
        } else {
          r := Applied(None);
        }
      case None =>
        r := Applied(None);
    }

    /** `get_rooms_list`: the room names, ascending. */
    function RoomsList(): (r: seq<string>)
      reads this
      ensures StrictlyAscending(r)
      ensures forall k :: k in r <==> k in rooms
    {
      RoomNames(rooms)
    }

    /** `get_devices_list`, which panics on a missing room: hence the precondition. */
    function DevicesList(roomName: string): (r: seq<string>)
      reads this
      requires roomName in rooms
      ensures StrictlyAscending(r)
      ensures forall n :: n in r <==> n in rooms[roomName].devices
    {
      DeviceNames(rooms, roomName)
    }

    /** `get_device_status` of the `DeviceInfoProvider` implementation. */
    function DeviceStatus(roomName: string, deviceName: string): (r: string)
      reads this
      ensures roomName !in rooms ==> r == RoomMissing(roomName)
      ensures roomName in rooms && deviceName !in rooms[roomName].devices ==> r == DeviceMissing(deviceName)
      ensures ParseStatus(r).Some? <==> roomName in rooms && deviceName in rooms[roomName].devices
      ensures ParseStatus(r).Some? ==> ParseStatus(r).value == rooms[roomName].devices[deviceName]
    {
      StatusTextIdentifiesDevice(rooms, roomName, deviceName);
      GetDeviceStatus(rooms, roomName, deviceName)
    }

    /** `create_report`: headed by the house's `_id`, with this version's bullet. */
    method CreateReport() returns (report: string)
      ensures report == Report(Bullet, id, rooms)
      ensures HasPrefix(report, id + " report: \n\r")
    {
      report := RenderReport(Bullet, id, rooms);
      ReportStartsWithHeader(Bullet, id, rooms);
    }
  }

  // ---------------------------------------------------------------------------
  // The house of the unit tests in client/src/lib.rs
  // ---------------------------------------------------------------------------

  function TestRooms(): Rooms {
    map["kitchen" := Room(map["socket" := Socket(110), "speaker" := Speaker(3)])]
  }

  /** `it_should_return_rooms_list` of client/tests/index.rs. */
  lemma TestRoomListing()
    ensures RoomNames(TestRooms()) == ["kitchen"]
  {
    ListingOfOne("kitchen");
    assert TestRooms().Keys == {"kitchen"};
  }

  /** `it_should_return_devices_list`. */
  lemma TestDeviceListing()
    ensures DeviceNames(TestRooms(), "kitchen") == ["socket", "speaker"]
  {
    assert Less("socket", "speaker");
    ListingOfTwo("socket", "speaker");
    assert TestRooms()["kitchen"].devices.Keys == {"socket", "speaker"};
  }

  /** `it_should_add_room`: "hall" is listed before "kitchen". */
  lemma TestAddRoomListing()
    ensures RoomNames(Aggregate.AddRoom(TestRooms(), "hall", Room(map[]))) == ["hall", "kitchen"]
  {
    assert Less("hall", "kitchen");
    ListingOfTwo("hall", "kitchen");
    assert Aggregate.AddRoom(TestRooms(), "hall", Room(map[])).Keys == {"hall", "kitchen"};
  }

  /** `it_should_remove_room`: no room is left. */
  lemma TestRemoveRoomListing()
    ensures RoomNames(Aggregate.RemoveRoom(TestRooms(), "kitchen").0) == []
  {
  }

  /** `it_should_add_device`: "lamp" is listed first. */
  lemma TestAddDeviceListing()
    ensures DeviceNames(Aggregate.AddDevice(TestRooms(), "kitchen", "lamp", Lamp(true)), "kitchen")
      == ["lamp", "socket", "speaker"]
  {
    assert Less("lamp", "socket") && Less("socket", "speaker");
    ListingOfThree("lamp", "socket", "speaker");
    assert Aggregate.AddDevice(TestRooms(), "kitchen", "lamp", Lamp(true))["kitchen"].devices.Keys
      == {"lamp", "socket", "speaker"};
  }

  /** `it_should_remove_device`: only "socket" is left. */
  lemma TestRemoveDeviceListing()
    ensures DeviceNames(Aggregate.RemoveDevice(TestRooms(), "kitchen", "speaker").0, "kitchen") == ["socket"]
  {
    ListingOfOne("socket");
    assert Aggregate.RemoveDevice(TestRooms(), "kitchen", "speaker").0["kitchen"].devices.Keys == {"socket"};
  }

  /** `it_should_return_device_status` of client/src/lib.rs. */
  lemma TestFoundStatus()
    ensures GetDeviceStatus(TestRooms(), "kitchen", "socket") == "voltage 110"
  {
    StatusExamples();
  }

  /** `it_should_return_message_device_not_found`. */
  lemma TestMissingDeviceStatus()
    ensures GetDeviceStatus(TestRooms(), "kitchen", "lamp") == "Device 'lamp' not found!"
  {
  }
}
