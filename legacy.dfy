/**
 * The early `SmartHouse` of src/main.rs: rooms keyed by a closed enum in a
 * `HashMap`, devices by name in a `HashMap`. Its status resolver answers
 * "not found" for a missing device and indexes the room map, which panics
 * on a missing room. `HashMap` iteration order is unspecified, so the
 * report is specified against whatever order the iteration took, and the
 * model only promises that every room and every device is visited once.
 */
module Legacy {
  import opened Wrappers
  import opened Text
  import opened Devices
  import opened Aggregate

  /** The `Rooms` enum: the only rooms this house can have. */
  datatype RoomKind = Hall | Kitchen | Bedroom

  /** The derived `Debug` of a unit variant: its name, without quotes. */
  function KindName(k: RoomKind): string {
    match k
    case Hall => "Hall"
    case Kitchen => "Kitchen"
    case Bedroom => "Bedroom"
  }

  /** Distinct rooms get distinct headers. */
  lemma KindNameInjective(a: RoomKind, b: RoomKind)
    ensures KindName(a) == KindName(b) <==> a == b
  {
    if a != b {
      assert KindName(a)[0] != KindName(b)[0];
    }
  }

  /** The room bullet of src/main.rs: a space, U+2022 BULLET, a space. */
  const Bullet: string := " \U{2022} "

  const NotFound: string := "not found"

  type LegacyRooms = map<RoomKind, Room>

  // ---------------------------------------------------------------------------
  // Iteration in an unspecified order
  // ---------------------------------------------------------------------------

  predicate Distinct<T(==)>(s: seq<T>) {
    forall i, j :: 0 <= i < j < |s| ==> s[i] != s[j]
  }

  /** `s` lists every element of `keys` once and nothing else. */
  ghost predicate Enumerates<T(!new)>(s: seq<T>, keys: set<T>) {
    Distinct(s) && forall x :: x in s <==> x in keys
  }

  /**
   * `HashMap::keys`: the keys in some order the model leaves open; each
   * step takes any key not yet visited.
   */
  method Enumerate<T(==, !new)>(keys: set<T>) returns (s: seq<T>)
    ensures Enumerates(s, keys)
  {
    s := [];
    var remaining := keys;
    while remaining != {}
      invariant Distinct(s)
      invariant forall x :: x in s <==> x in keys && x !in remaining
      invariant remaining <= keys
      decreases |remaining|
    {
      var x :| x in remaining;
      s := s + [x];
      remaining := remaining - {x};
    }
  }

  // ---------------------------------------------------------------------------
  // Status and report, as functions of the chosen orders
  // ---------------------------------------------------------------------------

  /** `get_device_status`; the room must be present, as indexing panics otherwise. */
  function LegacyStatus(rooms: LegacyRooms, room: RoomKind, name: string): (r: string)
    requires room in rooms
    ensures name !in rooms[room].devices ==> r == NotFound
    ensures ParseStatus(r) == if name in rooms[room].devices then Some(rooms[room].devices[name]) else None
  {
    if name !in rooms[room].devices then
      assert NotFound[0] == 'n';
      NotFound
    else
      StatusRoundTrip(rooms[room].devices[name]);
      Status(rooms[room].devices[name])
  }

  /** A room's header, `" • {:?}:\n\r"` of its kind, then its device lines in the order visited. */
  function LegacyRoomBlock(kind: RoomKind, room: Room, order: seq<string>): string
    requires forall n :: n in order ==> n in room.devices
  {
    (Bullet + KindName(kind) + ":\n\r") + Concat(DeviceLines(room, order))
  }

  /** The i-th order lists, once each, the devices of the i-th room visited. */
  ghost predicate VisitOrders(rooms: LegacyRooms, kinds: seq<RoomKind>, orders: seq<seq<string>>) {
    |orders| == |kinds| &&
    forall i :: 0 <= i < |kinds| ==> kinds[i] in rooms && Enumerates(orders[i], rooms[kinds[i]].devices.Keys)
  }

  /** The room blocks in the order the rooms were visited. */
  function LegacyBlocks(rooms: LegacyRooms, kinds: seq<RoomKind>, orders: seq<seq<string>>): string
    requires VisitOrders(rooms, kinds, orders)
  {
    if kinds == [] then ""
    else
      var n := |kinds| - 1;
      VisitOrdersPrefix(rooms, kinds, orders);
      LegacyBlocks(rooms, kinds[..n], orders[..n]) + LegacyRoomBlock(kinds[n], rooms[kinds[n]], orders[n])
  }

  /** The orders a run of `create_report` may visit: each room once, each of its devices once. */
  ghost predicate IterationOrders(rooms: LegacyRooms, kinds: seq<RoomKind>, orders: seq<seq<string>>) {
    Enumerates(kinds, rooms.Keys) && VisitOrders(rooms, kinds, orders)
  }

  lemma VisitOrdersPrefix(rooms: LegacyRooms, kinds: seq<RoomKind>, orders: seq<seq<string>>)
    requires VisitOrders(rooms, kinds, orders) && kinds != []
    ensures VisitOrders(rooms, kinds[..|kinds| - 1], orders[..|kinds| - 1])
  {
    var n := |kinds| - 1;
    forall i | 0 <= i < n ensures kinds[..n][i] == kinds[i] && orders[..n][i] == orders[i] { }
  }

  /** The report for the given visiting orders. */
  function LegacyReport(houseName: string, rooms: LegacyRooms, kinds: seq<RoomKind>, orders: seq<seq<string>>): string
    requires VisitOrders(rooms, kinds, orders)
  {
    Header(houseName) + LegacyBlocks(rooms, kinds, orders)
  }

  lemma LegacyBlocksSnoc(rooms: LegacyRooms, kinds: seq<RoomKind>, orders: seq<seq<string>>, kind: RoomKind, order: seq<string>)
    requires VisitOrders(rooms, kinds, orders) && VisitOrders(rooms, kinds + [kind], orders + [order])
    requires kind in rooms && forall n :: n in order ==> n in rooms[kind].devices
    ensures LegacyBlocks(rooms, kinds + [kind], orders + [order]) ==
      LegacyBlocks(rooms, kinds, orders) + LegacyRoomBlock(kind, rooms[kind], order)
  {
    assert (kinds + [kind])[..|kinds|] == kinds;
    assert (orders + [order])[..|orders|] == orders;
  }

  /** Pushing the block of the next room visited extends the blocks pushed so far by that room. */
  lemma PushBlock(pushed: string, report: string, rooms: LegacyRooms, visit: seq<RoomKind>, i: nat,
                  orders: seq<seq<string>>, order: seq<string>)
    requires i < |visit| && VisitOrders(rooms, visit[..i], orders)
    requires visit[i] in rooms && Enumerates(order, rooms[visit[i]].devices.Keys)
    requires pushed == report + LegacyBlocks(rooms, visit[..i], orders)
    ensures VisitOrders(rooms, visit[..i + 1], orders + [order])
    ensures pushed + LegacyRoomBlock(visit[i], rooms[visit[i]], order) ==
      report + LegacyBlocks(rooms, visit[..i + 1], orders + [order])
  {
    var kinds := visit[..i];
    assert visit[..i + 1] == kinds + [visit[i]];
    VisitOrdersSnoc(rooms, kinds, orders, visit[i], order);
    LegacyBlocksSnoc(rooms, kinds, orders, visit[i], order);
    PushAfter(report, LegacyBlocks(rooms, kinds, orders), LegacyRoomBlock(visit[i], rooms[visit[i]], order));
  }

  lemma VisitOrdersSnoc(rooms: LegacyRooms, kinds: seq<RoomKind>, orders: seq<seq<string>>, kind: RoomKind, order: seq<string>)
    requires VisitOrders(rooms, kinds, orders)
    requires kind in rooms && Enumerates(order, rooms[kind].devices.Keys)
    ensures VisitOrders(rooms, kinds + [kind], orders + [order])
  {
    var ks, os := kinds + [kind], orders + [order];
    forall i | 0 <= i < |ks|
      ensures ks[i] in rooms && Enumerates(os[i], rooms[ks[i]].devices.Keys)
    {
      if i < |kinds| {
        assert ks[i] == kinds[i] && os[i] == orders[i];
      }
    }
  }

  /** Whatever the orders, a report begins with the house's header line. */
  lemma LegacyReportStartsWithHeader(houseName: string, rooms: LegacyRooms, kinds: seq<RoomKind>, orders: seq<seq<string>>)
    requires VisitOrders(rooms, kinds, orders)
    ensures HasPrefix(LegacyReport(houseName, rooms, kinds, orders), houseName + " report: \n\r")
  {
    var h := Header(houseName);
    assert (h + LegacyBlocks(rooms, kinds, orders))[..|h|] == h;
  }

  /** A house without rooms reports only its header. */
  lemma LegacyReportOfEmptyHouse(houseName: string)
    ensures LegacyReport(houseName, map[], [], []) == houseName + " report: \n\r"
  {
  }

  // ---------------------------------------------------------------------------
  // The house
  // ---------------------------------------------------------------------------

  class LegacyHouse {
    const name: string
    var rooms: LegacyRooms

    constructor(name: string, rooms: LegacyRooms)
      ensures this.name == name && this.rooms == rooms
    {
      this.name := name;
      this.rooms := rooms;
    }

    /** `get_device_status` of the `DeviceInfoProvider` implementation. */
    function DeviceStatus(room: RoomKind, deviceName: string): (r: string)
      reads this
      requires room in rooms
      ensures deviceName !in rooms[room].devices ==> r == NotFound
      ensures deviceName in rooms[room].devices ==> r == Status(rooms[room].devices[deviceName])
    {
      LegacyStatus(rooms, room, deviceName)
    }

    /**
     * `create_report`: the header, then every room once and, inside it,
     * every device once, numbered from 1, each in the order the iteration
     * took; `kinds` and `orders` are those orders.
     */
    method CreateReport() returns (report: string, ghost kinds: seq<RoomKind>, ghost orders: seq<seq<string>>)
      ensures IterationOrders(rooms, kinds, orders)
      ensures report == LegacyReport(name, rooms, kinds, orders)
      ensures HasPrefix(report, name + " report: \n\r")
    {
      report := name + " report: \n\r";
      var visit := Enumerate(rooms.Keys);
      forall k | k in visit ensures k in rooms { }
      report, orders := PushRooms(report, visit);
      kinds := visit;
      LegacyReportStartsWithHeader(name, rooms, kinds, orders);
    }

    /** The outer loop of `create_report`, over the rooms in the order visited. */
    method PushRooms(report: string, visit: seq<RoomKind>) returns (r: string, ghost orders: seq<seq<string>>)
      requires forall k :: k in visit ==> k in rooms
      ensures VisitOrders(rooms, visit, orders)
      ensures r == report + LegacyBlocks(rooms, visit, orders)
      ensures HasPrefix(r, report)
    {
      r := report;
      orders := [];
      var i := 0;
      while i < |visit|
        invariant i <= |visit|
        invariant VisitOrders(rooms, visit[..i], orders)
        invariant r == report + LegacyBlocks(rooms, visit[..i], orders)
      {
        assert visit[i] in visit;
        ghost var pushed := r;
        ghost var order;
        r, order := PushRoom(r, visit[i]);
        PushBlock(pushed, report, rooms, visit, i, orders, order);
        orders := orders + [order];
        i := i + 1;
      }
      assert visit[..i] == visit;
      JoinHasPrefix(report, LegacyBlocks(rooms, visit, orders));
    }

    /** One room: its header, then its devices in the order their map yields them. */
    method PushRoom(report: string, kind: RoomKind) returns (r: string, ghost order: seq<string>)
      requires kind in rooms
      ensures Enumerates(order, rooms[kind].devices.Keys)
      ensures forall n :: n in order ==> n in rooms[kind].devices
      ensures r == report + LegacyRoomBlock(kind, rooms[kind], order)
      ensures HasPrefix(r, report + (Bullet + KindName(kind) + ":\n\r"))
    {
      var header := Bullet + KindName(kind) + ":\n\r";
      var devices := Enumerate(rooms[kind].devices.Keys);
      r := PushDevices(report + header, kind, devices);
      PushAfter(report, header, Concat(DeviceLines(rooms[kind], devices)));
      order := devices;
      JoinHasPrefix(report + header, Concat(DeviceLines(rooms[kind], devices)));
    }

    /** The device lines of one room for a given visiting order. */
    method PushDevices(report: string, kind: RoomKind, names: seq<string>) returns (r: string)
      requires kind in rooms
      requires forall n :: n in names ==> n in rooms[kind].devices
      ensures r == report + Concat(DeviceLines(rooms[kind], names))
    {
      r := report;
      ghost var lines := DeviceLines(rooms[kind], names);
      var j := 0;
      while j < |names|
        invariant j <= |names|
        invariant r == report + Concat(lines[..j])
      {
        var line := RenderDeviceLine(kind, names, j);
        PushPart(r, report, lines, j, line);
        r := r + line;
        j := j + 1;
      }
      assert lines[..j] == lines;
    }

    /** The line of the device at position `j`, its status from `get_device_status`. */
    method RenderDeviceLine(kind: RoomKind, names: seq<string>, j: nat) returns (line: string)
      requires kind in rooms
      requires forall n :: n in names ==> n in rooms[kind].devices
      requires j < |names|
      ensures line == DeviceLines(rooms[kind], names)[j]
    {
      var status := DeviceStatus(kind, names[j]);
      line := DeviceLine(j + 1, names[j], status);
    }
  }
}
