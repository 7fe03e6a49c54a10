/**
 * The media player of the stand-alone custom component: the same entity as
 * the add-on's copy, less seeking, grouping and the album, class and position
 * fields, and with a buffering state of its own.
 */
module CustomMediaPlayer {
  import opened Wrappers
  import opened Text
  import opened Seqs
  import opened Messages
  import opened Client
  import opened MediaBrowse
  import opened PlayMediaRule
  import HA = HomeAssistant

  // ---------------------------------------------------------------------------
  // The projection of a room record onto the entity

  /**
   * The player state: standby first, whatever the playback flags say; then
   * playing; then loading, which shows as buffering; everything else is paused.
   */
  function StateOf(np: NowPlaying): (r: HA.PlayerState)
    ensures r == HA.Idle <==> InStandby(np)
    ensures r == HA.Playing <==> !InStandby(np) && Truthy(np.isPlaying)
    ensures r == HA.Buffering <==> !InStandby(np) && !Truthy(np.isPlaying) && Truthy(np.isLoading)
  {
    if InStandby(np) then HA.Idle
    else if Truthy(np.isPlaying) then HA.Playing
    else if Truthy(np.isLoading) then HA.Buffering
    else HA.Paused
  }

  /** The supported features: the nine base flags, and the track skips the room allows. */
  function FeaturesOf(np: NowPlaying): (r: set<HA.Feature>)
    ensures HA.BaseFeatures <= r <= HA.BaseFeatures + {HA.NextTrack, HA.PreviousTrack}
    ensures HA.NextTrack in r <==> Truthy(np.canPlayNext)
    ensures HA.PreviousTrack in r <==> Truthy(np.canPlayPrev)
  {
    HA.BaseFeatures
    + (if Truthy(np.canPlayNext) then {HA.NextTrack} else {})
    + (if Truthy(np.canPlayPrev) then {HA.PreviousTrack} else {})
  }

  /** The flag word `update_state` builds with `|=`. */
  method SupportedFeatures(np: NowPlaying) returns (features: set<HA.Feature>)
    ensures features == FeaturesOf(np)
  {
    features := HA.BaseFeatures;
    if Truthy(np.canPlayNext) {
      features := features + {HA.NextTrack};
    }
    if Truthy(np.canPlayPrev) {
      features := features + {HA.PreviousTrack};
    }
  }

  /** Every entity field `update_state` writes. */
  datatype PlayerView = PlayerView(
    available: bool,
    state: HA.PlayerState,
    volume: int,
    muted: bool,
    title: Option<string>,
    artist: Option<string>,
    image: Option<string>,
    zoneName: Option<string>,
    zoneMembers: seq<string>,
    currentZoneUdn: Option<string>,
    features: set<HA.Feature>)

  /** The fields after `update_state(room)`. */
  function Project(room: RoomData): PlayerView {
    var np := NowPlayingOf(room);
    PlayerView(
      true,
      StateOf(np),
      np.volume.GetOr(0),
      np.isMuted.GetOr(false),
      np.track,
      np.artist,
      np.image,
      room.zoneName,
      room.zoneMembers.GetOr([]),
      room.currentZoneUdn,
      FeaturesOf(np))
  }

  // ---------------------------------------------------------------------------
  // The entity

  class Player {
    const client: ApiClient
    const udn: string
    const name: Option<string>

    var available: bool
    var state: HA.PlayerState
    var volume: int
    var muted: bool
    var title: Option<string>
    var artist: Option<string>
    var image: Option<string>
    var zoneName: Option<string>
    var zoneMembers: seq<string>
    var currentZoneUdn: Option<string>
    var features: set<HA.Feature>

    ghost function View(): PlayerView
      reads this
    {
      PlayerView(available, state, volume, muted, title, artist, image, zoneName, zoneMembers,
                 currentZoneUdn, features)
    }

    /** The entity for a room record; its unique id is the room's udn. */
    constructor (client: ApiClient, room: RoomData)
      requires room.udn.Some?
      ensures this.client == client && udn == room.udn.value && name == room.name
      ensures View() == Project(room)
    {
      this.client := client;
      udn := room.udn.value;
      name := room.name;
      new;
      UpdateState(room);
    }

    /** `update_state`: copies the room record onto the entity fields. */
    method UpdateState(room: RoomData)
      modifies this
      ensures View() == Project(room)
    {
      var np := NowPlayingOf(room);
      UpdatePlayback(np);
      UpdateMedia(np);
      UpdateZone(room);
      features := SupportedFeatures(np);
    }

    /** Availability, player state, volume and mute. */
    method UpdatePlayback(np: NowPlaying)
      modifies this
      ensures View() == old(View()).(available := true, state := StateOf(np),
        volume := np.volume.GetOr(0), muted := np.isMuted.GetOr(false))
    {
      available := true;
      if InStandby(np) {
        state := HA.Idle;
      } else if Truthy(np.isPlaying) {
        state := HA.Playing;
      } else if Truthy(np.isLoading) {
        state := HA.Buffering;
      } else {
        state := HA.Paused;
      }
      volume := np.volume.GetOr(0);
      muted := np.isMuted.GetOr(false);
    }

    /** What is playing. */
    method UpdateMedia(np: NowPlaying)
      modifies this
      ensures View() == old(View()).(title := np.track, artist := np.artist, image := np.image)
    {
      title := np.track;
      artist := np.artist;
      image := np.image;
    }

    /** The zone the room belongs to. */
    method UpdateZone(room: RoomData)
      modifies this
      ensures View() == old(View()).(zoneName := room.zoneName,
        zoneMembers := room.zoneMembers.GetOr([]), currentZoneUdn := room.currentZoneUdn)
    {
      zoneName := room.zoneName;
      zoneMembers := room.zoneMembers.GetOr([]);
      currentZoneUdn := room.currentZoneUdn;
    }

    /**
     * `_handle_event`: the first room of the message carrying this entity's
     * udn updates it, later ones are ignored; a room without a udn before it,
     * or a payload of the wrong shape, raises and leaves the entity as it was.
     */
    method HandleEvent(m: Message) returns (raised: bool)
      modifies this
      ensures raised <==> UpdateRooms(m).None? || FindRoom(UpdateRooms(m).value, udn) == MissingUdn
      ensures UpdateRooms(m).Some? && FindRoom(UpdateRooms(m).value, udn).Found? ==>
        View() == Project(FindRoom(UpdateRooms(m).value, udn).room)
      ensures UpdateRooms(m).None? || !FindRoom(UpdateRooms(m).value, udn).Found? ==>
        View() == old(View())
    {
      var rooms := UpdateRooms(m);
      if rooms.None? {
        return true;
      }
      var found := LocateRoom(rooms.value, udn);
      if found.Found? {
        UpdateState(found.room);
      }
      raised := found == MissingUdn;
    }

    method MediaPlay() returns (raised: bool)
      modifies client
      ensures client.log == old(client.log) + [Play(udn, None)]
      ensures raised == client.fails(Play(udn, None))
    {
      raised := client.Send(Play(udn, None));
    }

    method MediaPause() returns (raised: bool)
      modifies client
      ensures client.log == old(client.log) + [Pause(udn)]
      ensures raised == client.fails(Pause(udn))
    {
      raised := client.Send(Pause(udn));
    }

    method MediaStop() returns (raised: bool)
      modifies client
      ensures client.log == old(client.log) + [Stop(udn)]
      ensures raised == client.fails(Stop(udn))
    {
      raised := client.Send(Stop(udn));
    }

    method MuteVolume(mute: bool) returns (raised: bool)
      modifies client
      ensures client.log == old(client.log) + [SetMute(udn, mute)]
      ensures raised == client.fails(SetMute(udn, mute))
    {
      raised := client.Send(SetMute(udn, mute));
    }

    /** Pause, then standby whether or not the pause failed; neither failure escapes. */
    method TurnOff()
      modifies client
      ensures client.log == old(client.log) + [Pause(udn), EnterStandby(udn)]
    {
      var _ := MediaPause();
      var _ := client.Send(EnterStandby(udn));
    }

    /** Wakes the room with a play call; its failure does not escape. */
    method TurnOn()
      modifies client
      ensures client.log == old(client.log) + [Play(udn, None)]
    {
      var _ := client.Send(Play(udn, None));
    }

    /** Skips forward; a failure is passed on to the caller. */
    method MediaNextTrack() returns (raised: bool)
      modifies client
      ensures client.log == old(client.log) + [Next(udn)]
      ensures raised == client.fails(Next(udn))
    {
      raised := client.Send(Next(udn));
    }

    /** Skips back; a failure is passed on to the caller. */
    method MediaPreviousTrack() returns (raised: bool)
      modifies client
      ensures client.log == old(client.log) + [Prev(udn)]
      ensures raised == client.fails(Prev(udn))
    {
      raised := client.Send(Prev(udn));
    }

    /** `async_play_media`: exactly one load call, chosen by the request. */
    method PlayMedia(mediaType: string, mediaId: string) returns (raised: bool)
      modifies client
      ensures client.log == old(client.log) + [LoadCommandFor(udn, mediaType, mediaId)]
      ensures raised == client.fails(LoadCommandFor(udn, mediaType, mediaId))
    {
      var command;
      if mediaType == HA.UrlType || StartsWith(mediaId, "http") || StartsWith(mediaId, "raumfeld-line-in") {
        command := LoadUri(udn, mediaId);
      } else if mediaType in {HA.PlaylistType, HA.AlbumType, HA.ArtistType, "container"} {
        command := LoadContainer(udn, mediaId);
      } else if mediaType in {HA.TrackType, HA.MusicType, "item"} {
        command := LoadSingle(udn, mediaId);
      } else {
        command := LoadContainer(udn, mediaId);
      }
      raised := client.Send(command);
    }

    /** The `play_system_sound` entity service. */
    method PlaySystemSound(soundId: string) returns (raised: bool)
      modifies client
      ensures client.log == old(client.log) + [Command.PlaySystemSound(udn, soundId)]
      ensures raised == client.fails(Command.PlaySystemSound(udn, soundId))
    {
      raised := client.Send(Command.PlaySystemSound(udn, soundId));
    }

    /**
     * `async_browse_media`: browses `contentId` ("0/Favorites" when absent) and
     * builds the tree from `reply`, the items the add-on answers with; nothing
     * when the browse call raises.
     */
    method BrowseMedia(contentId: Option<string>, reply: seq<BrowseItem>) returns (root: Option<BrowseNode>)
      modifies client
      ensures client.log == old(client.log) + [Browse(contentId.GetOr(DefaultObjectId))]
      ensures root.None? <==> client.fails(Browse(contentId.GetOr(DefaultObjectId)))
      ensures root.Some? ==> IsBrowseTree(root.value, contentId.GetOr(DefaultObjectId), reply)
    {
      var objectId := if contentId.None? then DefaultObjectId else contentId.value;
      var raised := client.Send(Browse(objectId));
      if raised {
        return None;
      }
      var tree := BuildBrowse(objectId, reply);
      root := Some(tree);
    }
  }

  // ---------------------------------------------------------------------------
  // The platform's setup handler

  /**
   * The udns of a run of entities. This copy's `Player` is a class of its own,
   * distinct from the add-on copy's, so the projection is written for it here.
   */
  function PlayerUdns(players: seq<Player>): (r: seq<string>)
    ensures |r| == |players| && forall k :: 0 <= k < |players| ==> r[k] == players[k].udn
  {
    seq(|players|, k requires 0 <= k < |players| => players[k].udn)
  }

  /** The udns of each batch of this copy's entities. */
  function UdnBatches(batches: seq<seq<Player>>): (r: seq<seq<string>>)
    ensures |r| == |batches|
  {
    if batches == [] then []
    else UdnBatches(batches[..|batches| - 1]) + [PlayerUdns(batches[|batches| - 1])]
  }

  /** The entities for the first sightings of a scan, one per sighting, in order. */
  method NewPlayers(client: ApiClient, newRooms: seq<Sighting>) returns (batch: seq<Player>)
    requires forall x :: x in newRooms ==> x.room.udn == Some(x.udn)
    ensures PlayerUdns(batch) == UdnsOf(newRooms)
    ensures forall k :: 0 <= k < |newRooms| ==>
      fresh(batch[k]) && batch[k].client == client && batch[k].View() == Project(newRooms[k].room)
  {
    batch := [];
    for i := 0 to |newRooms|
      invariant |batch| == i
      invariant forall k :: 0 <= k < i ==> batch[k].udn == newRooms[k].udn
      invariant forall k :: 0 <= k < i ==>
        fresh(batch[k]) && batch[k].client == client && batch[k].View() == Project(newRooms[k].room)
    {
      assert newRooms[i] in newRooms;
      var player := new Player(client, newRooms[i].room);
      batch := batch + [player];
    }
  }

  /** The media player platform: `known_udns` and the batches added so far, in order. */
  class Platform {
    const client: ApiClient
    var known: set<string>
    var added: seq<seq<Player>>

    ghost predicate Valid()
      reads this
    {
      RegistryValid(known, UdnBatches(added))
    }

    constructor (client: ApiClient)
      ensures this.client == client && known == {} && added == [] && Valid()
    {
      this.client := client;
      known := {};
      added := [];
    }

    /**
     * `handle_message`: rooms from the list of a zones message or from
     * `availableRooms` of a full state update; each udn not yet known gets one
     * entity, and the new entities are added together when there are any. A
     * room without a udn raises: the batch is lost, the udns read before it
     * stay known.
     */
    method HandleMessage(m: Message) returns (raised: bool, batch: seq<Player>)
      requires Valid()
      modifies this
      ensures Valid()
      ensures added == old(added) + (if batch == [] then [] else [batch])
      ensures CreationRooms(m).None? ==> raised && known == old(known) && batch == []
      ensures CreationRooms(m).Some? ==>
        var s := Scan(old(known), CreationRooms(m).value);
        && known == s.known
        && raised == s.aborted
        && (raised ==> batch == [])
        && (!raised ==> PlayerUdns(batch) == UdnsOf(s.newRooms))
      ensures forall p :: p in batch ==> fresh(p) && p.client == client
      ensures CreationRooms(m).Some? && !raised ==>
        var s := Scan(old(known), CreationRooms(m).value);
        forall k :: 0 <= k < |s.newRooms| ==> batch[k].View() == Project(s.newRooms[k].room)
    {
      var rooms := CreationRooms(m);
      if rooms.None? {
        return true, [];
      }
      RegistryAfterScan(known, UdnBatches(added), rooms.value);
      var newRooms, known', aborted := ScanRooms(known, rooms.value);
      if aborted {
        known := known';
        return true, [];
      }
      SightingsCarryUdn(known, rooms.value);
      batch := NewPlayers(client, newRooms);
      if batch != [] {
        assert (added + [batch])[..|added|] == added;
        added := added + [batch];
      }
      known := known';
      raised := false;
    }
  }
}

/** How the two copies of the media player differ on the same room record. */
module MediaPlayerCopies {
  import opened Messages
  import HA = HomeAssistant
  import Addon = AddonMediaPlayer
  import Custom = CustomMediaPlayer

  /**
   * The copies agree on the state except for a room that loads without
   * playing: the custom component shows it as buffering, the add-on's copy as
   * playing.
   */
  lemma StatesDifferOnlyWhileLoading(np: NowPlaying)
    ensures Custom.StateOf(np) == HA.Buffering <==>
      Addon.StateOf(np) == HA.Playing && !Truthy(np.isPlaying)
    ensures Custom.StateOf(np) != HA.Buffering ==> Custom.StateOf(np) == Addon.StateOf(np)
  {
  }

  /** The custom component reports the add-on's features, less seeking and grouping. */
  lemma FeaturesDifferBySeekAndGrouping(np: NowPlaying)
    ensures Custom.FeaturesOf(np) == Addon.FeaturesOf(np) - {HA.Seek, HA.Grouping}
  {
  }
}
