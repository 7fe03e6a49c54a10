/**
 * The button platform of the custom component: one global button that asks
 * the add-on to remove the integration files, added at setup, and one reboot
 * button per room, created the first time the room's udn is seen.
 */
module Buttons {
  import opened Wrappers
  import opened Seqs
  import opened Messages
  import opened Client

  /** The integration's domain, which is also the name of its directory. */
  const Domain := "teufel_raumfeld_raumkernel"

  /**
   * The two button entities; neither changes after it is created, so each is a
   * value: the room a reboot button belongs to, with the room's name for its
   * device, or the one remove-integration button.
   */
  datatype Button =
    | RebootButton(roomUdn: string, deviceName: Option<string>)
    | RemoveIntegrationButton
  {
    function Name(): string {
      match this
      case RebootButton(_, _) => "Reboot"
      case RemoveIntegrationButton => "Remove Integration Files (Addon must still be installed)"
    }

    function UniqueId(): string {
      match this
      case RebootButton(udn, _) => udn + "_reboot"
      case RemoveIntegrationButton => Domain + "_remove_integration"
    }

    /** The (domain, id) pair identifying the device the button belongs to. */
    function DeviceIdentifier(): (string, string) {
      match this
      case RebootButton(udn, _) => (Domain, udn)
      case RemoveIntegrationButton => (Domain, "addon")
    }

    function DeviceName(): Option<string> {
      match this
      case RebootButton(_, name) => name
      case RemoveIntegrationButton => Some("Teufel Raumfeld Addon")
    }

    function DeviceModel(): string {
      match this
      case RebootButton(_, _) => "Raumfeld Room"
      case RemoveIntegrationButton => "Raumkernel Addon"
    }
  }

  /** `RaumfeldRebootButton(client, room)` for a room whose udn was read. */
  function RebootButtonFor(s: Sighting): (b: Button)
    ensures b.RebootButton? && b.UniqueId() == s.udn + "_reboot" && b.DeviceIdentifier() == (Domain, s.udn)
  {
    RebootButton(s.udn, s.room.name)
  }

  /**
   * Reboot buttons of different rooms have different unique ids, and none has
   * the unique id of the remove-integration button.
   */
  lemma UniqueIdsSeparateRooms(a: Button, b: Button)
    requires a.RebootButton? && (b.RebootButton? ==> a.roomUdn != b.roomUdn)
    ensures a.UniqueId() != b.UniqueId()
  {
    var ia := a.UniqueId();
    if b.RebootButton? {
      var ib := b.UniqueId();
      if |a.roomUdn| != |b.roomUdn| {
        assert |ia| != |ib|;
      } else {
        assert ia[..|a.roomUdn|] == a.roomUdn;
        assert ib[..|b.roomUdn|] == b.roomUdn;
      }
    } else {
      assert ia[|ia| - 1] == 't' != 'n' == b.UniqueId()[|b.UniqueId()| - 1];
    }
  }

  /** The room of a reboot button; never asked of the remove-integration button. */
  function RoomOf(b: Button): string {
    match b
    case RebootButton(udn, _) => udn
    case RemoveIntegrationButton => ""
  }

  function ButtonUdns(buttons: seq<Button>): (r: seq<string>)
    ensures |r| == |buttons| && forall k :: 0 <= k < |buttons| ==> r[k] == RoomOf(buttons[k])
  {
    seq(|buttons|, k requires 0 <= k < |buttons| => RoomOf(buttons[k]))
  }

  /** The room udns of each batch of reboot buttons. */
  function UdnBatches(batches: seq<seq<Button>>): (r: seq<seq<string>>)
    ensures |r| == |batches|
  {
    if batches == [] then []
    else UdnBatches(batches[..|batches| - 1]) + [ButtonUdns(batches[|batches| - 1])]
  }

  /** All buttons of all batches. */
  function AllButtons(batches: seq<seq<Button>>): seq<Button> {
    Flatten(batches)
  }

  /** The reboot buttons for the first sightings of a scan, in order. */
  method NewButtons(newRooms: seq<Sighting>) returns (batch: seq<Button>)
    ensures |batch| == |newRooms|
    ensures forall k :: 0 <= k < |newRooms| ==> batch[k] == RebootButtonFor(newRooms[k])
    ensures ButtonUdns(batch) == UdnsOf(newRooms)
  {
    batch := [];
    for i := 0 to |newRooms|
      invariant |batch| == i
      invariant forall k :: 0 <= k < i ==> batch[k] == RebootButtonFor(newRooms[k])
    {
      batch := batch + [RebootButtonFor(newRooms[i])];
    }
  }

  /**
   * The button platform: `known_udns` and the batches handed to
   * `async_add_entities`, in order, the first being the remove button alone.
   */
  class Platform {
    const client: ApiClient
    var known: set<string>
    var added: seq<seq<Button>>

    /**
     * The remove button comes first and alone, every later batch holds reboot
     * buttons only, and those form a valid registry over `known_udns`.
     */
    ghost predicate Valid()
      reads this
    {
      && |added| >= 1 && added[0] == [RemoveIntegrationButton]
      && (forall k, b :: 1 <= k < |added| && b in added[k] ==> b.RebootButton?)
      && RegistryValid(known, UdnBatches(added[1..]))
    }

    /** `async_setup_entry`: the remove button is added before any message is handled. */
    constructor (client: ApiClient)
      ensures this.client == client && known == {} && added == [[RemoveIntegrationButton]]
      ensures Valid()
    {
      this.client := client;
      known := {};
      added := [[RemoveIntegrationButton]];
    }

    /**
     * `handle_message`: rooms from the list of a zones message or from
     * `availableRooms` of a full state update; each udn not yet known gets one
     * reboot button, and the new buttons are added together when there are
     * any. A room without a udn raises: the batch is lost, the udns read
     * before it stay known.
     */
    method HandleMessage(m: Message) returns (raised: bool, batch: seq<Button>)
      requires Valid()
      modifies this
      ensures Valid()
      ensures added == old(added) + (if batch == [] then [] else [batch])
      ensures CreationRooms(m).None? ==> raised && known == old(known) && batch == []
      ensures CreationRooms(m).Some? ==>
        var s := Scan(old(known), CreationRooms(m).value);
        && known == s.known
        && raised == s.aborted
        && (raised ==> batch == [])
        && (!raised ==> |batch| == |s.newRooms|
                        && forall k :: 0 <= k < |batch| ==> batch[k] == RebootButtonFor(s.newRooms[k]))
    {
      var rooms := CreationRooms(m);
      if rooms.None? {
        return true, [];
      }
      RegistryAfterScan(known, UdnBatches(added[1..]), rooms.value);
      var newRooms, known', aborted := ScanRooms(known, rooms.value);
      if aborted {
        known := known';
        return true, [];
      }
      batch := NewButtons(newRooms);
      if batch != [] {
        assert (added[1..] + [batch])[..|added| - 1] == added[1..];
        assert (added + [batch])[1..] == added[1..] + [batch];
        added := added + [batch];
      }
      known := known';
      raised := false;
    }
  }

  /**
   * Across everything a valid platform has added, no two buttons share a unique
   * id: the remove button appears once, and reboot buttons belong to
   * different rooms.
   */
  lemma UniqueIdsUnique(known: set<string>, added: seq<seq<Button>>)
    requires |added| >= 1 && added[0] == [RemoveIntegrationButton]
    requires forall k, b :: 1 <= k < |added| && b in added[k] ==> b.RebootButton?
    requires RegistryValid(known, UdnBatches(added[1..]))
    ensures forall i, j :: 0 <= i < j < |AllButtons(added)| ==>
      AllButtons(added)[i].UniqueId() != AllButtons(added)[j].UniqueId()
  {
    FlattenButtonUdns(added[1..]);
    FlattenFirst(added);
    var rest := Flatten(added[1..]);
    assert AllButtons(added) == [RemoveIntegrationButton] + rest;
    forall b | b in rest ensures b.RebootButton? {
      FlattenMemberOf(added[1..], b);
    }
    forall i, j | 0 <= i < j < |AllButtons(added)|
      ensures AllButtons(added)[i].UniqueId() != AllButtons(added)[j].UniqueId()
    {
      var all := AllButtons(added);
      assert all[j] == rest[j - 1];
      assert rest[j - 1] in rest;
      if i == 0 {
        UniqueIdsSeparateRooms(all[j], all[i]);
      } else {
        assert all[i] == rest[i - 1];
        assert rest[i - 1] in rest;
        assert ButtonUdns(rest)[i - 1] != ButtonUdns(rest)[j - 1];
        UniqueIdsSeparateRooms(all[i], all[j]);
      }
    }
  }

  /** The room udns of all batches are the room udns of all buttons. */
  lemma {:induction false} FlattenButtonUdns(batches: seq<seq<Button>>)
    ensures Flatten(UdnBatches(batches)) == ButtonUdns(Flatten(batches))
  {
    if batches != [] {
      var init := batches[..|batches| - 1];
      FlattenButtonUdns(init);
      assert ButtonUdns(Flatten(init) + batches[|batches| - 1])
        == ButtonUdns(Flatten(init)) + ButtonUdns(batches[|batches| - 1]);
    }
  }

  /** Flattening from the first batch on. */
  lemma {:induction false} FlattenFirst<T>(batches: seq<seq<T>>)
    requires batches != []
    ensures Flatten(batches) == batches[0] + Flatten(batches[1..])
    decreases |batches|
  {
    if |batches| > 1 {
      var init := batches[..|batches| - 1];
      FlattenFirst(init);
      assert init[1..] == batches[1..][..|batches| - 2];
    } else {
      assert batches[1..] == [];
    }
  }

  /** Every element of a flattened sequence comes from one of its batches. */
  lemma {:induction false} FlattenMemberOf<T>(batches: seq<seq<T>>, x: T)
    requires x in Flatten(batches)
    ensures exists k :: 0 <= k < |batches| && x in batches[k]
  {
    var init := batches[..|batches| - 1];
    if x in Flatten(init) {
      FlattenMemberOf(init, x);
      var k :| 0 <= k < |init| && x in init[k];
      assert batches[k] == init[k];
    }
  }

  /** `async_press`: a reboot of the button's room, or a request to remove the integration files. */
  method Press(client: ApiClient, b: Button) returns (raised: bool)
    modifies client
    ensures b.RebootButton? ==> client.log == old(client.log) + [Reboot(b.roomUdn)]
    ensures b.RemoveIntegrationButton? ==> client.log == old(client.log) + [RemoveIntegration]
    ensures raised == client.fails(client.log[|client.log| - 1])
  {
    match b
    case RebootButton(udn, _) =>
      raised := client.Send(Reboot(udn));
    case RemoveIntegrationButton =>
      raised := client.Send(RemoveIntegration);
  }
}
