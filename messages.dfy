/**
 * The messages the add-on pushes over its websocket, as the Home Assistant side
 * reads them, and the two scans every listener performs over their room lists:
 * the first-sighting scan of the setup handlers (`known_udns`) and the
 * first-match scan of an entity's own event handler.
 */
module Messages {
  import opened Wrappers
  import opened Seqs
  import opened Text

  /** The `nowPlaying` record of a room; every key may be absent. */
  datatype NowPlaying = NowPlaying(
    powerState: Option<string>,
    isPlaying: Option<bool>,
    isLoading: Option<bool>,
    volume: Option<int>,
    isMuted: Option<bool>,
    track: Option<string>,
    artist: Option<string>,
    album: Option<string>,
    image: Option<string>,
    classString: Option<string>,
    durationSeconds: Option<int>,
    positionSeconds: Option<int>,
    canPlayNext: Option<bool>,
    canPlayPrev: Option<bool>)

  /** `room_data.get("nowPlaying", {})` when the key is absent. */
  const NoNowPlaying := NowPlaying(None, None, None, None, None, None, None, None, None,
                                   None, None, None, None, None)

  /** Python truthiness of an optional JSON flag. */
  predicate Truthy(flag: Option<bool>) {
    flag == Some(true)
  }

  /** The power state, "ACTIVE" when absent, names one of the standby states. */
  predicate InStandby(np: NowPlaying) {
    Contains(np.powerState.GetOr("ACTIVE"), "STANDBY")
  }

  /** A record without a power state is taken as active. */
  lemma MissingPowerStateIsActive(np: NowPlaying)
    requires np.powerState.None?
    ensures !InStandby(np)
  {
    assert 'S' in "STANDBY" && 'S' !in "ACTIVE";
    MissingCharExcludes("ACTIVE", "STANDBY", 'S');
  }

  /** Manual and automatic standby are standby states too. */
  lemma NamedStandbyStates(np: NowPlaying)
    requires np.powerState == Some("MANUAL_STANDBY") || np.powerState == Some("AUTOMATIC_STANDBY")
    ensures InStandby(np)
  {
    if np.powerState == Some("MANUAL_STANDBY") {
      assert "MANUAL_STANDBY" == "MANUAL_" + "STANDBY" + "";
      ContainsInfix("MANUAL_", "STANDBY", "");
    } else {
      assert "AUTOMATIC_STANDBY" == "AUTOMATIC_" + "STANDBY" + "";
      ContainsInfix("AUTOMATIC_", "STANDBY", "");
    }
  }

  /** One room as the add-on describes it. */
  datatype RoomData = RoomData(
    udn: Option<string>,
    name: Option<string>,
    nowPlaying: Option<NowPlaying>,
    zoneName: Option<string>,
    zoneMembers: Option<seq<string>>,
    currentZoneUdn: Option<string>)

  function NowPlayingOf(room: RoomData): NowPlaying {
    room.nowPlaying.GetOr(NoNowPlaying)
  }

  /** The `payload` key: absent, a list of rooms, or the dict of a full state update. */
  datatype Payload =
    | NoPayload
    | RoomList(rooms: seq<RoomData>)
    | StateDict(availableRooms: Option<seq<RoomData>>, availableZones: Option<seq<RoomData>>)

  datatype Message = Message(kind: Option<string>, payload: Payload)

  /** `data.get("type") in ("zones", "zoneStateChanged")` */
  predicate IsRoomList(m: Message) {
    m.kind == Some("zones") || m.kind == Some("zoneStateChanged")
  }

  /** `data.get("type") == "fullStateUpdate"` */
  predicate IsFullState(m: Message) {
    m.kind == Some("fullStateUpdate")
  }

  /** `data.get("payload", [])` iterated as a list; None when iterating raises. */
  function ListPayload(p: Payload): Option<seq<RoomData>> {
    match p
    case NoPayload => Some([])
    case RoomList(rooms) => Some(rooms)
    case StateDict(_, _) => None
  }

  /**
   * `data.get("payload", {}).get(key, [])`, with `zones` selecting "availableZones"
   * and otherwise "availableRooms"; None when the payload is a list (no `get`).
   */
  function DictPayload(p: Payload, zones: bool): Option<seq<RoomData>> {
    match p
    case NoPayload => Some([])
    case RoomList(_) => None
    case StateDict(rooms, zs) => Some(if zones then zs.GetOr([]) else rooms.GetOr([]))
  }

  /**
   * The rooms a setup handler creates entities from: the list of a zones message,
   * `availableRooms` of a full state update, nothing for any other message.
   */
  function CreationRooms(m: Message): Option<seq<RoomData>> {
    if IsRoomList(m) then ListPayload(m.payload)
    else if IsFullState(m) then DictPayload(m.payload, false)
    else Some([])
  }

  /**
   * The rooms an entity's own event handler updates from: the list of a zones
   * message, but `availableZones` (not `availableRooms`) of a full state update.
   */
  function UpdateRooms(m: Message): Option<seq<RoomData>> {
    if IsRoomList(m) then ListPayload(m.payload)
    else if IsFullState(m) then DictPayload(m.payload, true)
    else Some([])
  }

  // ---------------------------------------------------------------------------
  // First-sighting scan of the setup handlers

  /** A room seen for the first time, with the udn read from it. */
  datatype Sighting = Sighting(udn: string, room: RoomData)

  /**
   * The outcome of one pass of a setup handler over a room list: the rooms that
   * get a new entity, the new `known_udns`, and whether `room["udn"]` raised
   * (a room without "udn"), which discards the new entities but keeps the udns
   * already added to `known_udns`.
   */
  datatype ScanResult = ScanResult(newRooms: seq<Sighting>, known: set<string>, aborted: bool)

  function Scan(known: set<string>, rooms: seq<RoomData>): ScanResult
    decreases |rooms|
  {
    if rooms == [] then ScanResult([], known, false)
    else match rooms[0].udn
      case None => ScanResult([], known, true)
      case Some(u) =>
        if u in known then Scan(known, rooms[1..])
        else
          var rest := Scan(known + {u}, rooms[1..]);
          rest.(newRooms := [Sighting(u, rooms[0])] + rest.newRooms)
  }

  function UdnsOf(newRooms: seq<Sighting>): (r: seq<string>)
    ensures |r| == |newRooms| && forall k :: 0 <= k < |newRooms| ==> r[k] == newRooms[k].udn
  {
    if newRooms == [] then [] else [newRooms[0].udn] + UdnsOf(newRooms[1..])
  }

  /** The rooms before the first one without a udn (all of them when every room has one). */
  function ReadableRooms(rooms: seq<RoomData>): (r: seq<RoomData>)
    ensures |r| <= |rooms| && r == rooms[..|r|]
    ensures forall k :: 0 <= k < |r| ==> r[k].udn.Some?
    ensures |r| < |rooms| ==> rooms[|r|].udn.None?
  {
    if rooms == [] || rooms[0].udn.None? then [] else [rooms[0]] + ReadableRooms(rooms[1..])
  }

  /**
   * What a scan guarantees: it only grows the known set, by exactly the udns of the
   * new entities, which are the udns read before the first room without one; a
   * new entity's udn was unknown before and is read from the first room carrying
   * it, a room before any room without a udn; no udn gets two entities, even when
   * a message repeats it; and it aborts exactly when some room lacks a udn.
   */
  lemma ScanGuarantees(known: set<string>, rooms: seq<RoomData>)
    ensures var r := Scan(known, rooms);
      && r.known == known + (set s | s in r.newRooms :: s.udn)
      && Distinct(UdnsOf(r.newRooms))
      && (forall s :: s in r.newRooms ==> s.udn !in known && s.room in rooms && s.room.udn == Some(s.udn))
      && (r.aborted <==> exists room :: room in rooms && room.udn.None?)
      && r.known == known + UdnsRead(rooms)
      && (forall s :: s in r.newRooms ==> s.room in ReadableRooms(rooms) && FirstWithUdn(rooms, s.room, s.udn))
  {
    ScanSightsFresh(known, rooms);
    ScanKnowsReadUdns(known, rooms);
    ScanSightsFirstRooms(known, rooms);
  }

  /** The new entities' udns: each fresh, read from its room, and all different. */
  lemma {:induction false} ScanSightsFresh(known: set<string>, rooms: seq<RoomData>)
    ensures var r := Scan(known, rooms);
      && r.known == known + (set s | s in r.newRooms :: s.udn)
      && Distinct(UdnsOf(r.newRooms))
      && (forall s :: s in r.newRooms ==> s.udn !in known && s.room in rooms && s.room.udn == Some(s.udn))
      && (r.aborted <==> exists room :: room in rooms && room.udn.None?)
    decreases |rooms|
  {
    if rooms != [] && rooms[0].udn.Some? {
      var u := rooms[0].udn.value;
      var tail := rooms[1..];
      assert forall room :: room in tail ==> room in rooms;
      if u in known {
        ScanSightsFresh(known, tail);
      } else {
        ScanSightsFresh(known + {u}, tail);
        var rest := Scan(known + {u}, tail);
        assert UdnsOf(Scan(known, rooms).newRooms) == [u] + UdnsOf(rest.newRooms);
        forall s | s in rest.newRooms ensures s.udn != u { }
      }
    }
  }

  /** The udns read before a room without one raises: those of the readable rooms. */
  function UdnsRead(rooms: seq<RoomData>): set<string> {
    set room | room in ReadableRooms(rooms) && room.udn.Some? :: room.udn.value
  }

  /** A scan ends knowing exactly the udns it read, besides those known before. */
  lemma {:induction false} ScanKnowsReadUdns(known: set<string>, rooms: seq<RoomData>)
    ensures Scan(known, rooms).known == known + UdnsRead(rooms)
    decreases |rooms|
  {
    if rooms == [] || rooms[0].udn.None? {
      assert ReadableRooms(rooms) == [];
    } else {
      var u := rooms[0].udn.value;
      ScanKnowsReadUdns(if u in known then known else known + {u}, rooms[1..]);
      UdnsReadFirst(rooms);
    }
  }

  lemma UdnsReadFirst(rooms: seq<RoomData>)
    requires rooms != [] && rooms[0].udn.Some?
    ensures UdnsRead(rooms) == {rooms[0].udn.value} + UdnsRead(rooms[1..])
  {
    assert ReadableRooms(rooms) == [rooms[0]] + ReadableRooms(rooms[1..]);
  }

  /** `room` stands at some position of `rooms` with no earlier room carrying `udn`. */
  predicate FirstWithUdn(rooms: seq<RoomData>, room: RoomData, udn: string) {
    exists i :: 0 <= i < |rooms| && rooms[i] == room && forall j :: 0 <= j < i ==> rooms[j].udn != Some(udn)
  }

  /** Putting a room with another udn in front keeps a room first with its udn. */
  lemma FirstWithUdnCons(rooms: seq<RoomData>, room: RoomData, udn: string)
    requires rooms != [] && rooms[0].udn != Some(udn) && FirstWithUdn(rooms[1..], room, udn)
    ensures FirstWithUdn(rooms, room, udn)
  {
    var tail := rooms[1..];
    var i :| 0 <= i < |tail| && tail[i] == room && forall j :: 0 <= j < i ==> tail[j].udn != Some(udn);
    assert rooms[i + 1] == room;
    forall j | 0 <= j < i + 1 ensures rooms[j].udn != Some(udn) {
      if j > 0 {
        assert rooms[j] == tail[j - 1];
      }
    }
  }

  /**
   * A scan reads nothing past the first room without a udn: each first sighting
   * is a readable room, and the first room of the list carrying its udn.
   */
  lemma {:induction false} ScanSightsFirstRooms(known: set<string>, rooms: seq<RoomData>)
    ensures forall s :: s in Scan(known, rooms).newRooms ==>
      s.udn !in known && s.room in ReadableRooms(rooms) && FirstWithUdn(rooms, s.room, s.udn)
    decreases |rooms|
  {
    if rooms != [] && rooms[0].udn.Some? {
      var u := rooms[0].udn.value;
      var tail := rooms[1..];
      var known' := if u in known then known else known + {u};
      ScanSightsFirstRooms(known', tail);
      assert Scan(known, rooms).newRooms == (if u in known then [] else [Sighting(u, rooms[0])]) + Scan(known', tail).newRooms;
      assert ReadableRooms(rooms) == [rooms[0]] + ReadableRooms(tail);
      assert FirstWithUdn(rooms, rooms[0], u) by {
        assert rooms[0] == rooms[0];
      }
      forall s | s in Scan(known', tail).newRooms
        ensures s.room in ReadableRooms(rooms) && FirstWithUdn(rooms, s.room, s.udn)
      {
        FirstWithUdnCons(rooms, s.room, s.udn);
      }
    }
  }

  /** `for room in rooms: if room["udn"] not in known_udns: ...` as a loop. */
  method ScanRooms(known0: set<string>, rooms: seq<RoomData>)
    returns (newRooms: seq<Sighting>, known: set<string>, aborted: bool)
    ensures ScanResult(newRooms, known, aborted) == Scan(known0, rooms)
  {
    newRooms, known, aborted := [], known0, false;
    var i := 0;
    while i < |rooms|
      invariant 0 <= i <= |rooms|
      invariant Scan(known0, rooms) == var r := Scan(known, rooms[i..]); r.(newRooms := newRooms + r.newRooms)
    {
      assert rooms[i..][1..] == rooms[i + 1..];
      match rooms[i].udn
      case None =>
        aborted := true;
        return;
      case Some(u) =>
        if u !in known {
          known := known + {u};
          newRooms := newRooms + [Sighting(u, rooms[i])];
        }
      i := i + 1;
    }
  }

  /**
   * The registry of a setup handler, as the udns of the batches it handed to
   * `async_add_entities`: no batch is empty, no udn has two entities, and
   * every entity's udn is known, so no later message can create a second one.
   */
  ghost predicate RegistryValid(known: set<string>, batches: seq<seq<string>>) {
    && (forall k :: 0 <= k < |batches| ==> batches[k] != [])
    && Distinct(Flatten(batches))
    && forall u :: u in Flatten(batches) ==> u in known
  }

  /** Appending unknown, pairwise different udns to known, pairwise different ones. */
  lemma FreshUdnsAppend(oldUdns: seq<string>, known0: set<string>, newUdns: seq<string>, known1: set<string>)
    requires Distinct(oldUdns) && forall u :: u in oldUdns ==> u in known0
    requires Distinct(newUdns) && forall u :: u in newUdns ==> u !in known0 && u in known1
    requires known0 <= known1
    ensures Distinct(oldUdns + newUdns)
    ensures forall u :: u in oldUdns + newUdns ==> u in known1
  {
    DistinctConcat(oldUdns, newUdns);
  }

  /** Each udn of a scan's first sightings was unknown before the scan and is known after it. */
  lemma SightingUdnsFresh(known0: set<string>, s: ScanResult)
    requires s.known == known0 + (set x | x in s.newRooms :: x.udn)
    requires forall x :: x in s.newRooms ==> x.udn !in known0
    ensures forall u :: u in UdnsOf(s.newRooms) ==> u !in known0 && u in s.known
  {
    forall u | u in UdnsOf(s.newRooms) ensures u !in known0 && u in s.known {
      var k :| 0 <= k < |s.newRooms| && UdnsOf(s.newRooms)[k] == u;
      assert s.newRooms[k] in s.newRooms;
    }
  }

  /** A first sighting carries the udn read from its room. */
  lemma {:induction false} SightingsCarryUdn(known: set<string>, rooms: seq<RoomData>)
    ensures forall x :: x in Scan(known, rooms).newRooms ==> x.room.udn == Some(x.udn)
    decreases |rooms|
  {
    if rooms != [] && rooms[0].udn.Some? {
      SightingsCarryUdn(known, rooms[1..]);
      SightingsCarryUdn(known + {rooms[0].udn.value}, rooms[1..]);
    }
  }

  /**
   * A scan keeps the registry valid, and so does adding its first sightings,
   * when there are any, as one batch: their udns were unknown, and each
   * appears once.
   */
  lemma RegistryAfterScan(known0: set<string>, batches: seq<seq<string>>, rooms: seq<RoomData>)
    requires RegistryValid(known0, batches)
    ensures RegistryValid(Scan(known0, rooms).known, batches)
    ensures Scan(known0, rooms).newRooms != [] ==>
      RegistryValid(Scan(known0, rooms).known, batches + [UdnsOf(Scan(known0, rooms).newRooms)])
  {
    var s := Scan(known0, rooms);
    ScanGuarantees(known0, rooms);
    if s.newRooms != [] {
      var batch := UdnsOf(s.newRooms);
      FlattenAppend(batches, batch);
      SightingUdnsFresh(known0, s);
      FreshUdnsAppend(Flatten(batches), known0, batch, s.known);
      assert forall k :: 0 <= k < |batches| ==> (batches + [batch])[k] == batches[k];
    }
  }

  // ---------------------------------------------------------------------------
  // First-match scan of an entity's event handler

  /** The first room carrying the entity's udn, no such room, or a room that raised first. */
  datatype Lookup = Found(room: RoomData) | NotFound | MissingUdn

  function FindRoom(rooms: seq<RoomData>, udn: string): Lookup
    decreases |rooms|
  {
    if rooms == [] then NotFound
    else match rooms[0].udn
      case None => MissingUdn
      case Some(u) => if u == udn then Found(rooms[0]) else FindRoom(rooms[1..], udn)
  }

  /** The room at `i` is found when every room before it has another udn. */
  lemma {:induction false} FindRoomFirstMatch(rooms: seq<RoomData>, udn: string, i: nat)
    requires i < |rooms| && rooms[i].udn == Some(udn)
    requires forall j :: 0 <= j < i ==> rooms[j].udn.Some? && rooms[j].udn != Some(udn)
    ensures FindRoom(rooms, udn) == Found(rooms[i])
  {
    if i > 0 {
      FindRoomFirstMatch(rooms[1..], udn, i - 1);
    }
  }

  /**
   * A found room carries the udn and is the first readable room that does;
   * nothing found means every room was read and none has the udn; the lookup
   * raises exactly when it meets a room without a udn before any match.
   */
  lemma {:induction false} FindRoomSound(rooms: seq<RoomData>, udn: string)
    ensures FindRoom(rooms, udn).Found? ==>
      && FindRoom(rooms, udn).room in ReadableRooms(rooms) && FindRoom(rooms, udn).room.udn == Some(udn)
      && FirstWithUdn(rooms, FindRoom(rooms, udn).room, udn)
    ensures FindRoom(rooms, udn) == NotFound <==>
      forall room :: room in rooms ==> room.udn.Some? && room.udn != Some(udn)
    ensures FindRoom(rooms, udn) == MissingUdn <==>
      |ReadableRooms(rooms)| < |rooms| && forall room :: room in ReadableRooms(rooms) ==> room.udn != Some(udn)
    decreases |rooms|
  {
    if rooms != [] {
      var tail := rooms[1..];
      FindRoomSound(tail, udn);
      assert forall room :: room in rooms ==> room == rooms[0] || room in tail;
      if rooms[0].udn.Some? {
        assert ReadableRooms(rooms) == [rooms[0]] + ReadableRooms(tail);
        if rooms[0].udn != Some(udn) && FindRoom(tail, udn).Found? {
          FirstWithUdnCons(rooms, FindRoom(tail, udn).room, udn);
        } else if rooms[0].udn == Some(udn) {
          assert rooms[0] == rooms[0];
        }
      }
    }
  }

  /** `for room in rooms: if room["udn"] == self._udn: ...; break` as a loop. */
  method LocateRoom(rooms: seq<RoomData>, udn: string) returns (found: Lookup)
    ensures found == FindRoom(rooms, udn)
  {
    var i := 0;
    while i < |rooms|
      invariant 0 <= i <= |rooms|
      invariant FindRoom(rooms, udn) == FindRoom(rooms[i..], udn)
    {
      assert rooms[i..][1..] == rooms[i + 1..];
      match rooms[i].udn
      case None =>
        return MissingUdn;
      case Some(u) =>
        if u == udn {
          return Found(rooms[i]);
        }
      i := i + 1;
    }
    return NotFound;
  }

  /**
   * A full state update that lists a room only under `availableRooms` creates
   * that room's entity but never reaches it afterwards: the setup handlers read
   * `availableRooms`, the entity's own handler reads `availableZones` alone.
   */
  lemma AvailableRoomsNeverUpdate(m: Message, room: RoomData)
    requires IsFullState(m) && m.payload.StateDict?
    requires room in m.payload.availableRooms.GetOr([]) && room.udn.Some?
    requires forall z :: z in m.payload.availableZones.GetOr([]) ==> z.udn.Some? && z.udn != room.udn
    ensures CreationRooms(m) == Some(m.payload.availableRooms.GetOr([])) && room in CreationRooms(m).value
    ensures UpdateRooms(m) == Some(m.payload.availableZones.GetOr([]))
    ensures FindRoom(UpdateRooms(m).value, room.udn.value) == NotFound
  {
    FindRoomSound(UpdateRooms(m).value, room.udn.value);
  }
}
