/**
 * The media player of the add-on's own copy of the integration: one entity per
 * room, created by the platform's setup handler the first time a udn is seen,
 * then kept up to date by the entity's own event handler.
 */
module AddonMediaPlayer {
  import opened Wrappers
  import opened Text
  import opened Seqs
  import opened Messages
  import opened Client
  import opened MediaBrowse
  import opened PlayMediaRule
  import HA = HomeAssistant
  import MediaContent

  // ---------------------------------------------------------------------------
  // The projection of a room record onto the entity

  /**
   * The player state: standby first, whatever the playback flags say; then
   * playing or loading both count as playing; everything else is paused.
   */
  function StateOf(np: NowPlaying): (r: HA.PlayerState)
    ensures r != HA.Buffering
    ensures r == HA.Idle <==> InStandby(np)
    ensures r == HA.Paused <==> !InStandby(np) && !Truthy(np.isPlaying) && !Truthy(np.isLoading)
  {
    if InStandby(np) then HA.Idle
    else if Truthy(np.isPlaying) || Truthy(np.isLoading) then HA.Playing
    else HA.Paused
  }

  /** The flags this copy always reports: the nine base flags, seeking and grouping. */
  const AlwaysFeatures: set<HA.Feature> := HA.BaseFeatures + {HA.Seek, HA.Grouping}

  /** The supported features: the fixed flags, and the track skips the room allows. */
  function FeaturesOf(np: NowPlaying): (r: set<HA.Feature>)
    ensures AlwaysFeatures <= r <= AlwaysFeatures + {HA.NextTrack, HA.PreviousTrack}
    ensures HA.NextTrack in r <==> Truthy(np.canPlayNext)
    ensures HA.PreviousTrack in r <==> Truthy(np.canPlayPrev)
  {
    AlwaysFeatures
    + (if Truthy(np.canPlayNext) then {HA.NextTrack} else {})
    + (if Truthy(np.canPlayPrev) then {HA.PreviousTrack} else {})
  }

  /** The flag word `update_state` builds with `|=`. */
  method SupportedFeatures(np: NowPlaying) returns (features: set<HA.Feature>)
    ensures features == FeaturesOf(np)
  {
    features := HA.BaseFeatures + {HA.Seek};
    if Truthy(np.canPlayNext) {
      features := features + {HA.NextTrack};
    }
    if Truthy(np.canPlayPrev) {
      features := features + {HA.PreviousTrack};
    }
    features := features + {HA.Grouping};
  }

  /** Every entity field `update_state` writes. */
  datatype PlayerView = PlayerView(
    available: bool,
    state: HA.PlayerState,
    volume: int,
    muted: bool,
    title: Option<string>,
    artist: Option<string>,
    album: Option<string>,
    image: Option<string>,
    upnpClass: string,
    duration: int,
    position: int,
    positionUpdatedAt: Option<int>,
    zoneName: Option<string>,
    zoneMembers: seq<string>,
    currentZoneUdn: Option<string>,
    features: set<HA.Feature>)

  /**
   * The fields after `update_state(room)` at time `now`, where `stamp` is the
   * position timestamp before the call: it only moves while the room plays.
   */
  function Project(room: RoomData, now: int, stamp: Option<int>): PlayerView {
    var np := NowPlayingOf(room);
    PlayerView(
      true,
      StateOf(np),
      np.volume.GetOr(0),
      np.isMuted.GetOr(false),
      np.track,
      np.artist,
      np.album,
      np.image,
      np.classString.GetOr(""),
      np.durationSeconds.GetOr(0),
      np.positionSeconds.GetOr(0),
      if Truthy(np.isPlaying) then Some(now) else stamp,
      room.zoneName,
      room.zoneMembers.GetOr([]),
      room.currentZoneUdn,
      FeaturesOf(np))
  }

  // ---------------------------------------------------------------------------
  // Group members

  /** One `media_player` state: its entity id and its `room_udn` attribute. */
  datatype EntityState = EntityState(entityId: string, roomUdn: Option<string>)

  predicate InZone(s: EntityState, zoneMembers: seq<string>) {
    s.roomUdn.Some? && s.roomUdn.value in zoneMembers
  }

  /** The entity ids of the states whose room is in the zone, in state order. */
  function ZoneEntityIds(zoneMembers: seq<string>, states: seq<EntityState>): (r: seq<string>)
    ensures |r| <= |states|
  {
    if states == [] then []
    else (if InZone(states[0], zoneMembers) then [states[0].entityId] else [])
         + ZoneEntityIds(zoneMembers, states[1..])
  }

  /** An id is resolved exactly when some state with that id lies in the zone. */
  lemma {:induction false} ZoneEntityIdsMembership(zoneMembers: seq<string>, states: seq<EntityState>, id: string)
    ensures id in ZoneEntityIds(zoneMembers, states) <==>
      exists k :: 0 <= k < |states| && states[k].entityId == id && InZone(states[k], zoneMembers)
  {
    if states != [] {
      ZoneEntityIdsMembership(zoneMembers, states[1..], id);
      if exists k :: 0 <= k < |states| && states[k].entityId == id && InZone(states[k], zoneMembers) {
        var k :| 0 <= k < |states| && states[k].entityId == id && InZone(states[k], zoneMembers);
        if k > 0 {
          assert states[1..][k - 1] == states[k];
        }
      }
      if exists k :: 0 <= k < |states| - 1 && states[1..][k].entityId == id && InZone(states[1..][k], zoneMembers) {
        var k :| 0 <= k < |states| - 1 && states[1..][k].entityId == id && InZone(states[1..][k], zoneMembers);
        assert states[k + 1] == states[1..][k];
      }
    }
  }

  /** Resolving two runs of states resolves each in turn: the state order is kept. */
  lemma {:induction false} ZoneEntityIdsAppend(zoneMembers: seq<string>, a: seq<EntityState>, b: seq<EntityState>)
    ensures ZoneEntityIds(zoneMembers, a + b) == ZoneEntityIds(zoneMembers, a) + ZoneEntityIds(zoneMembers, b)
  {
    if a != [] {
      assert (a + b)[1..] == a[1..] + b;
      ZoneEntityIdsAppend(zoneMembers, a[1..], b);
    } else {
      assert a + b == b;
    }
  }

  /**
   * `group_members`: nothing for a zone of fewer than two rooms or with no
   * resolved entity; otherwise the entity ids of the states in the zone, in order.
   */
  function GroupOf(zoneMembers: seq<string>, states: seq<EntityState>): (r: Option<seq<string>>)
    ensures r.Some? ==> 2 <= |zoneMembers| && r.value != [] && r.value == ZoneEntityIds(zoneMembers, states)
    ensures r.None? <==> |zoneMembers| <= 1 || ZoneEntityIds(zoneMembers, states) == []
  {
    if |zoneMembers| <= 1 then None
    else
      var ids := ZoneEntityIds(zoneMembers, states);
      if ids == [] then None else Some(ids)
  }

  // ---------------------------------------------------------------------------
  // Joining players

  /** The zone to join: `current_zone_udn` when set and non-empty, else the room's own udn. */
  function JoinTarget(udn: string, currentZoneUdn: Option<string>): (r: string)
    ensures currentZoneUdn.Some? && currentZoneUdn.value != "" ==> r == currentZoneUdn.value
    ensures currentZoneUdn.None? || currentZoneUdn == Some("") ==> r == udn
  {
    if currentZoneUdn.Some? && currentZoneUdn.value != "" then currentZoneUdn.value else udn
  }

  /** A member resolves when Home Assistant has a state for it with a non-empty `room_udn`. */
  predicate Resolves(member: string, roomUdns: map<string, Option<string>>) {
    member in roomUdns && roomUdns[member].Some? && roomUdns[member].value != ""
  }

  /** The join calls for `members`, in order, skipping those that do not resolve. */
  function JoinPlan(members: seq<string>, roomUdns: map<string, Option<string>>, target: string): seq<Command> {
    if members == [] then []
    else
      (if Resolves(members[0], roomUdns) then [JoinGroup(roomUdns[members[0]].value, target)] else [])
      + JoinPlan(members[1..], roomUdns, target)
  }

  /**
   * Every planned call joins a resolved member's room to the target, and every
   * resolved member gets such a call; a plan is never longer than the member list.
   */
  lemma {:induction false} JoinPlanCovers(members: seq<string>, roomUdns: map<string, Option<string>>, target: string)
    ensures |JoinPlan(members, roomUdns, target)| <= |members|
    ensures forall c :: c in JoinPlan(members, roomUdns, target) ==>
      c.JoinGroup? && c.zoneUdn == target && c.roomUdn != ""
      && exists m :: m in members && Resolves(m, roomUdns) && roomUdns[m].value == c.roomUdn
    ensures forall m :: m in members && Resolves(m, roomUdns) ==>
      JoinGroup(roomUdns[m].value, target) in JoinPlan(members, roomUdns, target)
  {
    if members != [] {
      JoinPlanCovers(members[1..], roomUdns, target);
      assert forall m :: m in members[1..] ==> m in members;
      assert forall m :: m in members ==> m == members[0] || m in members[1..];
    }
  }

  /** Members that do not resolve contribute nothing: only the resolved ones count. */
  lemma {:induction false} JoinPlanSkipsUnresolved(members: seq<string>, roomUdns: map<string, Option<string>>, target: string)
    requires forall m :: m in members ==> !Resolves(m, roomUdns)
    ensures JoinPlan(members, roomUdns, target) == []
  {
    if members != [] {
      assert forall m :: m in members[1..] ==> m in members;
      JoinPlanSkipsUnresolved(members[1..], roomUdns, target);
    }
  }

  // ---------------------------------------------------------------------------
  // The entity

  class Player {
    const client: ApiClient
    const udn: string
    const name: Option<string>

    var available: bool
    var state: HA.PlayerState
    var volume: int
    var muted: bool
    var title: Option<string>
    var artist: Option<string>
    var album: Option<string>
    var image: Option<string>
    var upnpClass: string
    var duration: int
    var position: int
    var positionUpdatedAt: Option<int>
    var zoneName: Option<string>
    var zoneMembers: seq<string>
    var currentZoneUdn: Option<string>
    var features: set<HA.Feature>

    ghost function View(): PlayerView
      reads this
    {
      PlayerView(available, state, volume, muted, title, artist, album, image, upnpClass,
                 duration, position, positionUpdatedAt, zoneName, zoneMembers, currentZoneUdn, features)
    }

    /**
     * `media_content_type` of what the room plays now: the stored UPnP class,
     * which `update_state` defaults to the empty string, run through the rule chain.
     */
    function ContentType(): (r: Option<MediaContent.MediaType>)
      reads this
      ensures upnpClass == "" ==> r.None?
      ensures r == MediaContent.ContentTypeOf(upnpClass)
    {
      MediaContent.ContentTypeOf(upnpClass)
    }

    /** The entity for a room record; its unique id is the room's udn. */
    constructor (client: ApiClient, room: RoomData, now: int)
      requires room.udn.Some?
      ensures this.client == client && udn == room.udn.value && name == room.name
      ensures View() == Project(room, now, None)
    {
      this.client := client;
      udn := room.udn.value;
      name := room.name;
      upnpClass := "";
      positionUpdatedAt := None;
      new;
      UpdateState(room, now);
    }

    /** `update_state`: copies the room record onto the entity fields. */
    method UpdateState(room: RoomData, now: int)
      modifies this
      ensures View() == Project(room, now, old(positionUpdatedAt))
    {
      var np := NowPlayingOf(room);
      UpdatePlayback(np);
      UpdateMedia(np, now);
      UpdateZone(room);
      features := SupportedFeatures(np);
    }

    /** Availability, player state, volume and mute. */
    method UpdatePlayback(np: NowPlaying)
      modifies this
      ensures View() == old(View()).(available := true, state := StateOf(np),
        volume := np.volume.GetOr(0), muted := np.isMuted.GetOr(false))
    {
      available := true;
      if InStandby(np) {
        state := HA.Idle;
      } else if Truthy(np.isPlaying) || Truthy(np.isLoading) {
        state := HA.Playing;
      } else {
        state := HA.Paused;
      }
      volume := np.volume.GetOr(0);
      muted := np.isMuted.GetOr(false);
    }

    /** What is playing, and where in it. */
    method UpdateMedia(np: NowPlaying, now: int)
      modifies this
      ensures View() == old(View()).(title := np.track, artist := np.artist, album := np.album,
        image := np.image, upnpClass := np.classString.GetOr(""), duration := np.durationSeconds.GetOr(0),
        position := np.positionSeconds.GetOr(0),
        positionUpdatedAt := if Truthy(np.isPlaying) then Some(now) else old(positionUpdatedAt))
    {
      UpdateTrack(np);
      UpdatePosition(np, now);
    }

    /** Title, artist, album, cover and UPnP class. */
    method UpdateTrack(np: NowPlaying)
      modifies this
      ensures View() == old(View()).(title := np.track, artist := np.artist, album := np.album,
        image := np.image, upnpClass := np.classString.GetOr(""))
    {
      title := np.track;
      artist := np.artist;
      album := np.album;
      image := np.image;
      upnpClass := np.classString.GetOr("");
    }

    /** Duration and position; the timestamp moves only while playing. */
    method UpdatePosition(np: NowPlaying, now: int)
      modifies this
      ensures View() == old(View()).(duration := np.durationSeconds.GetOr(0),
        position := np.positionSeconds.GetOr(0),
        positionUpdatedAt := if Truthy(np.isPlaying) then Some(now) else old(positionUpdatedAt))
    {
      duration := np.durationSeconds.GetOr(0);
      position := np.positionSeconds.GetOr(0);
      if Truthy(np.isPlaying) {
        positionUpdatedAt := Some(now);
      }
    }

    /** The zone the room belongs to. */
    method UpdateZone(room: RoomData)
      modifies this
      ensures View() == old(View()).(zoneName := room.zoneName,
        zoneMembers := room.zoneMembers.GetOr([]), currentZoneUdn := room.currentZoneUdn)
    {
      zoneName := room.zoneName;
      zoneMembers := room.zoneMembers.GetOr([]);
      currentZoneUdn := room.currentZoneUdn;
    }

    /**
     * `_handle_event`: the first room of the message carrying this entity's
     * udn updates it, later ones are ignored; a room without a udn before it,
     * or a payload of the wrong shape, raises and leaves the entity as it was.
     */
    method HandleEvent(m: Message, now: int) returns (raised: bool)
      modifies this
      ensures raised <==> UpdateRooms(m).None? || FindRoom(UpdateRooms(m).value, udn) == MissingUdn
      ensures UpdateRooms(m).Some? && FindRoom(UpdateRooms(m).value, udn).Found? ==>
        View() == Project(FindRoom(UpdateRooms(m).value, udn).room, now, old(positionUpdatedAt))
      ensures UpdateRooms(m).None? || !FindRoom(UpdateRooms(m).value, udn).Found? ==>
        View() == old(View())
    {
      var rooms := UpdateRooms(m);
      if rooms.None? {
        return true;
      }
      var found := LocateRoom(rooms.value, udn);
      if found.Found? {
        UpdateState(found.room, now);
      }
      raised := found == MissingUdn;
    }

    /** `group_members`, resolving this room's zone members against the given states. */
    method GroupMembers(states: seq<EntityState>) returns (members: Option<seq<string>>)
      ensures members == GroupOf(zoneMembers, states)
    {
      if |zoneMembers| <= 1 {
        return None;
      }
      var ids: seq<string> := [];
      for i := 0 to |states|
        invariant ids == ZoneEntityIds(zoneMembers, states[..i])
      {
        ZoneEntityIdsAppend(zoneMembers, states[..i], [states[i]]);
        assert states[..i + 1] == states[..i] + [states[i]];
        if states[i].roomUdn.Some? && states[i].roomUdn.value in zoneMembers {
          ids := ids + [states[i].entityId];
        }
      }
      assert states[..|states|] == states;
      members := if ids == [] then None else Some(ids);
    }

    method MediaPlay() returns (raised: bool)
      modifies client
      ensures client.log == old(client.log) + [Play(udn, None)]
      ensures raised == client.fails(Play(udn, None))
    {
      raised := client.Send(Play(udn, None));
    }

    method MediaPause() returns (raised: bool)
      modifies client
      ensures client.log == old(client.log) + [Pause(udn)]
      ensures raised == client.fails(Pause(udn))
    {
      raised := client.Send(Pause(udn));
    }

    method MediaStop() returns (raised: bool)
      modifies client
      ensures client.log == old(client.log) + [Stop(udn)]
      ensures raised == client.fails(Stop(udn))
    {
      raised := client.Send(Stop(udn));
    }

    method MuteVolume(mute: bool) returns (raised: bool)
      modifies client
      ensures client.log == old(client.log) + [SetMute(udn, mute)]
      ensures raised == client.fails(SetMute(udn, mute))
    {
      raised := client.Send(SetMute(udn, mute));
    }

    /** Pause, then standby whether or not the pause failed; neither failure escapes. */
    method TurnOff()
      modifies client
      ensures client.log == old(client.log) + [Pause(udn), EnterStandby(udn)]
    {
      var _ := MediaPause();
      var _ := client.Send(EnterStandby(udn));
    }

    /** Wakes the room with a play call; its failure does not escape. */
    method TurnOn()
      modifies client
      ensures client.log == old(client.log) + [Play(udn, None)]
    {
      var _ := client.Send(Play(udn, None));
    }

    /** Skips forward; a failure is passed on to the caller. */
    method MediaNextTrack() returns (raised: bool)
      modifies client
      ensures client.log == old(client.log) + [Next(udn)]
      ensures raised == client.fails(Next(udn))
    {
      raised := client.Send(Next(udn));
    }

    /** Skips back; a failure is passed on to the caller. */
    method MediaPreviousTrack() returns (raised: bool)
      modifies client
      ensures client.log == old(client.log) + [Prev(udn)]
      ensures raised == client.fails(Prev(udn))
    {
      raised := client.Send(Prev(udn));
    }

    /**
     * `async_join_players`: joins each resolvable member, in order, to this
     * entity's zone (its own udn when it has none); the first failing call
     * ends the loop and is passed on.
     */
    method JoinPlayers(members: seq<string>, roomUdns: map<string, Option<string>>) returns (raised: bool)
      modifies client
      ensures client.log == old(client.log)
        + Attempted(JoinPlan(members, roomUdns, JoinTarget(udn, currentZoneUdn)), client.fails)
      ensures raised <==> AnyFails(JoinPlan(members, roomUdns, JoinTarget(udn, currentZoneUdn)), client.fails)
    {
      var target := currentZoneUdn.GetOr("");
      if target == "" {
        target := udn;
      }
      assert target == JoinTarget(udn, currentZoneUdn);
      ghost var log0 := client.log;
      ghost var fails := client.fails;
      ghost var done: seq<Command> := [];
      for i := 0 to |members|
        invariant done == JoinPlan(members[..i], roomUdns, target)
        invariant !AnyFails(done, fails)
        invariant client.log == log0 + done
      {
        JoinPlanSplit(members, i, roomUdns, target);
        var roomUdn := if members[i] in roomUdns then roomUdns[members[i]] else None;
        if roomUdn.Some? && roomUdn.value != "" {
          var call := JoinGroup(roomUdn.value, target);
          raised := client.Send(call);
          if raised {
            JoinStopsAt(members, i, roomUdns, target, done, fails);
            assert client.log == log0 + (done + [call]);
            return;
          }
          AnyFailsAppend(done, [call], fails);
          done := done + [call];
        }
      }
      JoinCompletes(members, roomUdns, target, done, fails);
      raised := false;
    }

    /** `async_unjoin_player`. */
    method UnjoinPlayer() returns (raised: bool)
      modifies client
      ensures client.log == old(client.log) + [LeaveGroup(udn)]
      ensures raised == client.fails(LeaveGroup(udn))
    {
      raised := client.Send(LeaveGroup(udn));
    }

    /** `async_play_media`: exactly one load call, chosen by the request. */
    method PlayMedia(mediaType: string, mediaId: string) returns (raised: bool)
      modifies client
      ensures client.log == old(client.log) + [LoadCommandFor(udn, mediaType, mediaId)]
      ensures raised == client.fails(LoadCommandFor(udn, mediaType, mediaId))
    {
      var command;
      if mediaType == HA.UrlType || StartsWith(mediaId, "http") || StartsWith(mediaId, "raumfeld-line-in") {
        command := LoadUri(udn, mediaId);
      } else if mediaType in {HA.PlaylistType, HA.AlbumType, HA.ArtistType, "container"} {
        command := LoadContainer(udn, mediaId);
      } else if mediaType in {HA.TrackType, HA.MusicType, "item"} {
        command := LoadSingle(udn, mediaId);
      } else {
        command := LoadContainer(udn, mediaId);
      }
      raised := client.Send(command);
    }

    /** The `play_system_sound` entity service. */
    method PlaySystemSound(soundId: string) returns (raised: bool)
      modifies client
      ensures client.log == old(client.log) + [Command.PlaySystemSound(udn, soundId)]
      ensures raised == client.fails(Command.PlaySystemSound(udn, soundId))
    {
      raised := client.Send(Command.PlaySystemSound(udn, soundId));
    }

    /**
     * `async_browse_media`: browses `contentId` ("0/Favorites" when absent) and
     * builds the tree from `reply`, the items the add-on answers with; nothing
     * when the browse call raises.
     */
    method BrowseMedia(contentId: Option<string>, reply: seq<BrowseItem>) returns (root: Option<BrowseNode>)
      modifies client
      ensures client.log == old(client.log) + [Browse(contentId.GetOr(DefaultObjectId))]
      ensures root.None? <==> client.fails(Browse(contentId.GetOr(DefaultObjectId)))
      ensures root.Some? ==> IsBrowseTree(root.value, contentId.GetOr(DefaultObjectId), reply)
    {
      var objectId := if contentId.None? then DefaultObjectId else contentId.value;
      var raised := client.Send(Browse(objectId));
      if raised {
        return None;
      }
      var tree := BuildBrowse(objectId, reply);
      root := Some(tree);
    }
  }

  /** Splitting the member list splits the plan the same way. */
  lemma {:induction false} JoinPlanAppend(a: seq<string>, b: seq<string>, roomUdns: map<string, Option<string>>, target: string)
    ensures JoinPlan(a + b, roomUdns, target) == JoinPlan(a, roomUdns, target) + JoinPlan(b, roomUdns, target)
  {
    if a != [] {
      assert (a + b)[1..] == a[1..] + b;
      JoinPlanAppend(a[1..], b, roomUdns, target);
    } else {
      assert a + b == b;
    }
  }

  /**
   * When the call for member `i` fails after the calls before it succeeded,
   * the loop has attempted exactly those calls and this one, and the plan fails.
   */
  lemma JoinStopsAt(members: seq<string>, i: nat, roomUdns: map<string, Option<string>>, target: string,
                    done: seq<Command>, fails: Command -> bool)
    requires i < |members| && Resolves(members[i], roomUdns)
    requires done == JoinPlan(members[..i], roomUdns, target) && !AnyFails(done, fails)
    requires fails(JoinGroup(roomUdns[members[i]].value, target))
    ensures var call := JoinGroup(roomUdns[members[i]].value, target);
      && Attempted(JoinPlan(members, roomUdns, target), fails) == done + [call]
      && AnyFails(JoinPlan(members, roomUdns, target), fails)
  {
    var call := JoinGroup(roomUdns[members[i]].value, target);
    JoinPlanSplit(members, i, roomUdns, target);
    AttemptedAfterSuccesses(done, [call], JoinPlan(members[i + 1..], roomUdns, target), fails);
  }

  /** When every call succeeded, the loop has attempted the whole plan, and the plan does not fail. */
  lemma JoinCompletes(members: seq<string>, roomUdns: map<string, Option<string>>, target: string,
                      done: seq<Command>, fails: Command -> bool)
    requires done == JoinPlan(members[..|members|], roomUdns, target) && !AnyFails(done, fails)
    ensures Attempted(JoinPlan(members, roomUdns, target), fails) == done
    ensures !AnyFails(JoinPlan(members, roomUdns, target), fails)
  {
    assert members[..|members|] == members;
    AttemptedAfterSuccesses(done, [], [], fails);
    assert done + [] + [] == done;
  }

  /** The plan of a member list is the plan before member `i`, its own call, and the plan after it. */
  lemma JoinPlanSplit(members: seq<string>, i: nat, roomUdns: map<string, Option<string>>, target: string)
    requires i < |members|
    ensures JoinPlan(members, roomUdns, target)
      == JoinPlan(members[..i], roomUdns, target) + JoinPlan([members[i]], roomUdns, target)
         + JoinPlan(members[i + 1..], roomUdns, target)
    ensures JoinPlan(members[..i + 1], roomUdns, target)
      == JoinPlan(members[..i], roomUdns, target) + JoinPlan([members[i]], roomUdns, target)
    ensures JoinPlan([members[i]], roomUdns, target)
      == if Resolves(members[i], roomUdns) then [JoinGroup(roomUdns[members[i]].value, target)] else []
  {
    assert members == members[..i] + [members[i]] + members[i + 1..];
    assert members[..i + 1] == members[..i] + [members[i]];
    JoinPlanAppend(members[..i], [members[i]], roomUdns, target);
    JoinPlanAppend(members[..i] + [members[i]], members[i + 1..], roomUdns, target);
    assert [members[i]][1..] == [];
  }

  lemma {:induction false} AnyFailsAppend(a: seq<Command>, b: seq<Command>, fails: Command -> bool)
    requires !AnyFails(a, fails) && !AnyFails(b, fails)
    ensures !AnyFails(a + b, fails)
  {
    forall k | 0 <= k < |a + b| ensures !fails((a + b)[k]) {
      if k < |a| {
        assert (a + b)[k] == a[k];
      } else {
        assert (a + b)[k] == b[k - |a|];
      }
    }
  }

  /**
   * After calls that all succeeded, the loop attempts them all and then what
   * the rest attempts; a single failing call ends it.
   */
  lemma {:induction false} AttemptedAfterSuccesses(done: seq<Command>, last: seq<Command>, rest: seq<Command>, fails: Command -> bool)
    requires !AnyFails(done, fails)
    requires last == [] ==> rest == []
    requires last != [] ==> |last| == 1 && fails(last[0])
    ensures Attempted(done + last + rest, fails) == done + last
    ensures AnyFails(done + last + rest, fails) <==> last != []
    decreases |done|
  {
    if done == [] {
      assert done + last + rest == last + rest;
      if last != [] {
        assert AnyFails(last + rest, fails) by {
          assert (last + rest)[0] == last[0];
        }
      }
    } else {
      assert !fails(done[0]);
      assert !AnyFails(done[1..], fails) by {
        forall k | 0 <= k < |done| - 1 ensures !fails(done[1..][k]) {
          assert done[1..][k] == done[k + 1];
        }
      }
      AttemptedAfterSuccesses(done[1..], last, rest, fails);
      assert (done + last + rest)[1..] == done[1..] + last + rest;
      if AnyFails(done + last + rest, fails) {
        var k :| 0 <= k < |done + last + rest| && fails((done + last + rest)[k]);
        assert k > 0;
        assert fails((done[1..] + last + rest)[k - 1]);
      }
      if last != [] {
        assert (done + last + rest)[|done|] == last[0];
      }
    }
  }

  // ---------------------------------------------------------------------------
  // The platform's setup handler

  /** The udns of a run of entities. */
  function PlayerUdns(players: seq<Player>): (r: seq<string>)
    ensures |r| == |players| && forall k :: 0 <= k < |players| ==> r[k] == players[k].udn
  {
    seq(|players|, k requires 0 <= k < |players| => players[k].udn)
  }

  /** The udns of each batch of entities. */
  function UdnBatches(batches: seq<seq<Player>>): (r: seq<seq<string>>)
    ensures |r| == |batches|
  {
    if batches == [] then []
    else UdnBatches(batches[..|batches| - 1]) + [PlayerUdns(batches[|batches| - 1])]
  }

  /** The entities for the first sightings of a scan, one per sighting, in order. */
  method NewPlayers(client: ApiClient, newRooms: seq<Sighting>, now: int) returns (batch: seq<Player>)
    requires forall x :: x in newRooms ==> x.room.udn == Some(x.udn)
    ensures PlayerUdns(batch) == UdnsOf(newRooms)
    ensures forall k :: 0 <= k < |newRooms| ==>
      fresh(batch[k]) && batch[k].client == client && batch[k].View() == Project(newRooms[k].room, now, None)
  {
    batch := [];
    for i := 0 to |newRooms|
      invariant |batch| == i
      invariant forall k :: 0 <= k < i ==> batch[k].udn == newRooms[k].udn
      invariant forall k :: 0 <= k < i ==>
        fresh(batch[k]) && batch[k].client == client && batch[k].View() == Project(newRooms[k].room, now, None)
    {
      assert newRooms[i] in newRooms;
      var player := new Player(client, newRooms[i].room, now);
      batch := batch + [player];
    }
  }

  /** The media player platform: `known_udns` and the batches added so far, in order. */
  class Platform {
    const client: ApiClient
    var known: set<string>
    var added: seq<seq<Player>>

    ghost predicate Valid()
      reads this
    {
      RegistryValid(known, UdnBatches(added))
    }

    constructor (client: ApiClient)
      ensures this.client == client && known == {} && added == [] && Valid()
    {
      this.client := client;
      known := {};
      added := [];
    }

    /**
     * `handle_message`: rooms from the list of a zones message or from
     * `availableRooms` of a full state update; each udn not yet known gets one
     * entity, and the new entities are added together when there are any. A
     * room without a udn raises: the batch is lost, the udns read before it
     * stay known.
     */
    method HandleMessage(m: Message, now: int) returns (raised: bool, batch: seq<Player>)
      requires Valid()
      modifies this
      ensures Valid()
      ensures added == old(added) + (if batch == [] then [] else [batch])
      ensures CreationRooms(m).None? ==> raised && known == old(known) && batch == []
      ensures CreationRooms(m).Some? ==>
        var s := Scan(old(known), CreationRooms(m).value);
        && known == s.known
        && raised == s.aborted
        && (raised ==> batch == [])
        && (!raised ==> PlayerUdns(batch) == UdnsOf(s.newRooms))
      ensures forall p :: p in batch ==> fresh(p) && p.client == client
      ensures CreationRooms(m).Some? && !raised ==>
        var s := Scan(old(known), CreationRooms(m).value);
        forall k :: 0 <= k < |s.newRooms| ==> batch[k].View() == Project(s.newRooms[k].room, now, None)
    {
      var rooms := CreationRooms(m);
      if rooms.None? {
        return true, [];
      }
      RegistryAfterScan(known, UdnBatches(added), rooms.value);
      var newRooms, known', aborted := ScanRooms(known, rooms.value);
      if aborted {
        known := known';
        return true, [];
      }
      SightingsCarryUdn(known, rooms.value);
      batch := NewPlayers(client, newRooms, now);
      if batch != [] {
        assert (added + [batch])[..|added|] == added;
        added := added + [batch];
      }
      known := known';
      raised := false;
    }
  }
}
