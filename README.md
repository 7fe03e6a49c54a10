# Teufel Raumfeld for Home Assistant — a Dafny model

ha-raumkernel connects Teufel Raumfeld multi-room speakers to Home Assistant.
A Node add-on speaks to the Raumfeld system and forwards its state over a
websocket. The Python integration turns that state into Home Assistant
entities. This project models the Python integration:

- **The media player entity, in both copies.** The add-on ships one copy
  (`ha-raumkernel-addon/…/media_player.py`); the custom component ships a second
  copy (`custom_components/…/media_player.py`) without seek, grouping or a
  content type.
  - `update_state` projects a room's `nowPlaying` record onto the entity's
    fields, its playback state and its supported features.
  - The entity handles its own events, forwards commands to the add-on client,
    and resolves its zone into `group_members`.
  - It joins other players to its zone, picks the load command for
    `play_media`, and builds the browse tree with its media classes.
- **The setup handlers** of the media-player and button platforms. Each handler
  creates one entity per room udn the first time it sees the udn, and remembers
  the udn in `known_udns`.
- **The button platform**: one button that asks the add-on to remove the
  integration files, plus one reboot button per room.
- **The config flow's user step, in both copies.** It asks the Supervisor for a
  started Raumkernel add-on to learn its port, then shows the form. Once the
  form is submitted, it stores the input as it is.

The entities whose fields change are classes: `Player` in each copy and each
platform's `Platform`. Their methods state the new state as a function of the
old one. The buttons never change, so they are values.

The add-on client is an `ApiClient` object. It records every command sent, in
order. Which commands raise is fixed by a predicate given when the client is
made. Under that model the following hold:

- best-effort commands (`turn_off`, `turn_on`) swallow failures;
- next/previous re-raise them;
- a join loop stops at the first call that raises.

Modules:

- `Wrappers`, `Text` and `Seqs` are helpers.
- `Messages` holds the websocket messages and the two ways the source reads
  them. The setup handlers scan `availableRooms`; an entity's own handler looks
  for its room in `availableZones`.
- `Client` holds the commands and the recorded client.
- `HomeAssistant` holds the states, features and media type names.
- `MediaContent`, `MediaBrowse` and `PlayMediaRule` hold the media rules shared
  by both copies.
- `AddonMediaPlayer` and `CustomMediaPlayer` are the two copies.
  `MediaPlayerCopies` compares them.
- `Buttons` is the button platform.
- `ConfigFlow` is the config flow's user step.

## Model

| member | source | states |
|---|---|---|
| Messages.MissingPowerStateIsActive | ha-raumkernel-addon/teufel_raumfeld_raumkernel/media_player.py:130-132 | a room without `powerState` counts as `ACTIVE`, so it is not in standby |
| Messages.NamedStandbyStates | ha-raumkernel-addon/teufel_raumfeld_raumkernel/media_player.py:127-133 | `MANUAL_STANDBY` and `AUTOMATIC_STANDBY` both contain `STANDBY`, so both show as idle |
| Messages.ScanGuarantees | ha-raumkernel-addon/teufel_raumfeld_raumkernel/media_player.py:47-67 | a setup scan grows `known_udns` by exactly the udns of its new entities, which are exactly the udns read before the first room without one (`room["udn"]` raises there, so later rooms stay unread and unknown); each new udn was unknown before and comes from the first room carrying it, a readable room; no udn gets two entities even when a message repeats it; the scan raises exactly when some room lacks a udn |
| Messages.ScanSightsFirstRooms | ha-raumkernel-addon/teufel_raumfeld_raumkernel/media_player.py:50-54 | each new entity's room lies before the first room without a udn and is the first room carrying its udn |
| Messages.ScanKnowsReadUdns | ha-raumkernel-addon/teufel_raumfeld_raumkernel/media_player.py:50-53 | after a scan, `known_udns` holds the earlier udns plus exactly those read before the first room without one |
| Messages.ScanRooms | ha-raumkernel-addon/teufel_raumfeld_raumkernel/media_player.py:51-54 | the loop over the rooms computes exactly the scan: the new sightings, the new `known_udns`, and whether `room["udn"]` raised |
| Messages.ReadableRooms | ha-raumkernel-addon/teufel_raumfeld_raumkernel/media_player.py:51-53 | the rooms read before `room["udn"]` raises: a prefix of the list in which every room has a udn, ending at the first room without one |
| Messages.SightingsCarryUdn | ha-raumkernel-addon/teufel_raumfeld_raumkernel/media_player.py:52-54 | each new entity is built from a room whose `udn` is the udn added to `known_udns` |
| Messages.RegistryAfterScan | ha-raumkernel-addon/teufel_raumfeld_raumkernel/media_player.py:56-67 | a scan keeps the registry valid (no empty batch, no udn with two entities, every entity's udn known), both when it adds nothing and when its new entities are added as one batch |
| Messages.FreshUdnsAppend | custom_components/teufel_raumfeld_raumkernel/media_player.py:52-57 | proof helper for the registry invariant: appending a batch of distinct, newly known udns to the earlier ones keeps all of them distinct and known |
| Messages.SightingUdnsFresh | custom_components/teufel_raumfeld_raumkernel/media_player.py:52-54 | proof helper for the registry invariant: the udns of a scan's new sightings were unknown before it and are known after it |
| Messages.FindRoomFirstMatch | ha-raumkernel-addon/teufel_raumfeld_raumkernel/media_player.py:106-112 | an entity's handler updates from the first room carrying its udn when every room before it has another udn |
| Messages.FindRoomSound | ha-raumkernel-addon/teufel_raumfeld_raumkernel/media_player.py:113-119 | a room that is found carries the entity's udn, lies before any room without a udn, and is the first room carrying that udn; nothing is found exactly when every room has a udn and none is the entity's; the lookup raises exactly when a room without a udn comes before any room carrying the entity's udn |
| Messages.LocateRoom | ha-raumkernel-addon/teufel_raumfeld_raumkernel/media_player.py:107-112 | the loop that stops at the first matching room, and raises at a room without a udn, computes exactly `FindRoom` |
| Messages.AvailableRoomsNeverUpdate | ha-raumkernel-addon/teufel_raumfeld_raumkernel/media_player.py:59-119 | a full state update creates entities from `availableRooms` but updates them from `availableZones`: a room listed only under `availableRooms` (with every zone carrying some other udn) is among the creation rooms, yet its entity never finds it in an update |
| Client.ApiClient.Send | ha-raumkernel-addon/teufel_raumfeld_raumkernel/media_player.py:284-458 | any awaited client call of the entities and buttons (the player commands here, the button presses alike): it is appended to the log and raises exactly when the failure predicate says so |
| Client.AttemptedStopsAtFirstFailure | ha-raumkernel-addon/teufel_raumfeld_raumkernel/media_player.py:380-397 | a loop of awaited calls makes every call when none raises; otherwise it stops right after the first call that raises |
| MediaContent.ContentTypeOf | ha-raumkernel-addon/teufel_raumfeld_raumkernel/media_player.py:192-231 | for each result, exactly the classes that reach it down the rule chain: an empty class has no type; a music track is music whatever else it names; then `audiobroadcast` gives a channel, `musicalbum`/`albumcontainer` an album, `musicartist`/`musiccomposer` an artist, `playlistcontainer`/`favoritescontainer` a playlist, `musicgenre` a genre, `storagefolder` or the exact lower-cased `object.container` an app folder, `audioitem` music, each only when no earlier rule fits; a class no rule fits has no type |
| MediaContent.ContentTypeIgnoresCase | ha-raumkernel-addon/teufel_raumfeld_raumkernel/media_player.py:194 | a class and its lower-cased form have the same content type, since the rules only see the lower-cased class |
| MediaContent.BroadcastItemIsChannel | ha-raumkernel-addon/teufel_raumfeld_raumkernel/media_player.py:203-205 | the radio class `object.item.audioItem.audioBroadcast` is a channel, not music, although it is also an audio item |
| MediaContent.BroadcastClassSubstrings | ha-raumkernel-addon/teufel_raumfeld_raumkernel/media_player.py:194-229 | the lower-cased radio class contains `audioitem`, `audiobroadcast` and `broadcast`, and not `musictrack` |
| MediaContent.BareContainerIsApp | ha-raumkernel-addon/teufel_raumfeld_raumkernel/media_player.py:223-225 | the bare class `object.container` falls through every earlier rule and is an app folder |
| MediaBrowse.KnownPrefixesExclusive | ha-raumkernel-addon/teufel_raumfeld_raumkernel/media_player.py:444-451 | at most one of the four case-sensitive prefixes fits a class, so their order never matters |
| MediaBrowse.MediaClassOf | ha-raumkernel-addon/teufel_raumfeld_raumkernel/media_player.py:441-456 | for each class, exactly the classes that reach it: a class with one of the four case-sensitive prefixes gets that prefix's class; a class is a channel exactly when it has no known prefix and mentions radio or broadcast in any letter case; it is a directory exactly when it is absent or empty or, failing the earlier tests, starts with `object.container`; everything else is music |
| MediaBrowse.BroadcastItemIsBrowsedAsChannel | ha-raumkernel-addon/teufel_raumfeld_raumkernel/media_player.py:452-453 | the radio item class is browsed as a channel |
| MediaBrowse.BareContainerIsDirectory | ha-raumkernel-addon/teufel_raumfeld_raumkernel/media_player.py:454-455 | the bare container class is browsed as a directory |
| MediaBrowse.BroadcastItemHasNoKnownPrefix | custom_components/teufel_raumfeld_raumkernel/media_player.py:291-298 | the radio item class carries none of the four prefixes that are tested before the radio test |
| MediaBrowse.BuildBrowse | ha-raumkernel-addon/teufel_raumfeld_raumkernel/media_player.py:460-493 | the browse tree: a playable-never, expandable directory root for the object id, with one child per reply item in reply order; each child carries the item's title (`Unknown` when absent), media class, id and image, and is a container that can be expanded exactly when the item is one |
| PlayMediaRule.LoadCommandFor | ha-raumkernel-addon/teufel_raumfeld_raumkernel/media_player.py:404-425 | exactly one load command for the room and id: a URI load exactly for the URL type or an `http`/`raumfeld-line-in` id; otherwise a single-item load exactly for track, music and `item`; a container load for every other type |
| AddonMediaPlayer.StateOf | ha-raumkernel-addon/teufel_raumfeld_raumkernel/media_player.py:130-138 | never buffering; idle exactly in standby; paused exactly when neither in standby, playing nor loading, so loading shows as playing |
| AddonMediaPlayer.FeaturesOf | ha-raumkernel-addon/teufel_raumfeld_raumkernel/media_player.py:168-189 | the base features plus seek and grouping always; next track exactly when `canPlayNext`; previous track exactly when `canPlayPrev`; nothing else |
| AddonMediaPlayer.SupportedFeatures | ha-raumkernel-addon/teufel_raumfeld_raumkernel/media_player.py:168-189 | the successive unions compute exactly the feature set above |
| AddonMediaPlayer.ZoneEntityIdsMembership | ha-raumkernel-addon/teufel_raumfeld_raumkernel/media_player.py:262-272 | an entity id is in the group exactly when some `media_player` state with that id has a `room_udn` in the zone |
| AddonMediaPlayer.ZoneEntityIdsAppend | ha-raumkernel-addon/teufel_raumfeld_raumkernel/media_player.py:262-272 | the group keeps the order of the states: resolving two runs of states is resolving each in turn |
| AddonMediaPlayer.GroupOf | ha-raumkernel-addon/teufel_raumfeld_raumkernel/media_player.py:244-279 | no group for a zone of fewer than two rooms or with no resolved entity; otherwise the non-empty list of the entity ids whose `room_udn` lies in the zone, in state order (characterized by `ZoneEntityIdsMembership` and `ZoneEntityIdsAppend`) |
| AddonMediaPlayer.JoinTarget | ha-raumkernel-addon/teufel_raumfeld_raumkernel/media_player.py:370-377 | members join the master's `current_zone_udn` when it is set and non-empty, otherwise the master room's own udn |
| AddonMediaPlayer.JoinPlanCovers | ha-raumkernel-addon/teufel_raumfeld_raumkernel/media_player.py:380-397 | every join call puts a resolved member's room into the target zone, every resolved member gets a call, and there are never more calls than members |
| AddonMediaPlayer.JoinPlanSkipsUnresolved | ha-raumkernel-addon/teufel_raumfeld_raumkernel/media_player.py:381-389 | members without a state or without a `room_udn` cause no call |
| AddonMediaPlayer.Player.constructor | ha-raumkernel-addon/teufel_raumfeld_raumkernel/media_player.py:79-87 | the entity takes the room's udn and name, and its fields are the projection of the room with no position timestamp yet |
| AddonMediaPlayer.Player.UpdateState | ha-raumkernel-addon/teufel_raumfeld_raumkernel/media_player.py:121-189 | every field becomes the projection of the room; the position timestamp moves to `now` only while the room plays |
| AddonMediaPlayer.Player.UpdatePlayback | ha-raumkernel-addon/teufel_raumfeld_raumkernel/media_player.py:123-141 | availability, playback state, volume and mute change; nothing else does |
| AddonMediaPlayer.Player.UpdateMedia | ha-raumkernel-addon/teufel_raumfeld_raumkernel/media_player.py:143-160 | title, artist, album, image, class, duration, position and timestamp change; nothing else does |
| AddonMediaPlayer.Player.UpdateTrack | ha-raumkernel-addon/teufel_raumfeld_raumkernel/media_player.py:143-149 | title, artist, album and image come from the now-playing record and the class defaults to the empty string; nothing else changes |
| AddonMediaPlayer.Player.UpdatePosition | ha-raumkernel-addon/teufel_raumfeld_raumkernel/media_player.py:151-160 | duration and position default to 0, and the position timestamp moves to `now` only when the record says it is playing; nothing else changes |
| AddonMediaPlayer.Player.UpdateZone | ha-raumkernel-addon/teufel_raumfeld_raumkernel/media_player.py:162-165 | zone name, zone members and current zone change; nothing else does |
| AddonMediaPlayer.Player.ContentType | ha-raumkernel-addon/teufel_raumfeld_raumkernel/media_player.py:190-194 | the property reads the class stored by `update_state`: no type while nothing was stored, otherwise the type `MediaContent.ContentTypeOf` gives that class |
| AddonMediaPlayer.Player.HandleEvent | ha-raumkernel-addon/teufel_raumfeld_raumkernel/media_player.py:104-119 | the handler raises exactly when the payload has the wrong shape or a room before the entity's has no udn; it updates from the entity's room when found, and changes nothing otherwise |
| AddonMediaPlayer.Player.GroupMembers | ha-raumkernel-addon/teufel_raumfeld_raumkernel/media_player.py:244-279 | the loop over the states computes exactly `GroupOf` for the entity's zone |
| AddonMediaPlayer.Player.MediaPlay | ha-raumkernel-addon/teufel_raumfeld_raumkernel/media_player.py:281-284 | one play command for the room, raising when it fails |
| AddonMediaPlayer.Player.MediaPause | ha-raumkernel-addon/teufel_raumfeld_raumkernel/media_player.py:286-289 | one pause command for the room, raising when it fails |
| AddonMediaPlayer.Player.MediaStop | ha-raumkernel-addon/teufel_raumfeld_raumkernel/media_player.py:291-294 | one stop command for the room, raising when it fails |
| AddonMediaPlayer.Player.MuteVolume | ha-raumkernel-addon/teufel_raumfeld_raumkernel/media_player.py:333-335 | one mute command with the flag, raising when it fails |
| AddonMediaPlayer.Player.TurnOff | ha-raumkernel-addon/teufel_raumfeld_raumkernel/media_player.py:302-316 | a pause and then a standby command are both sent whatever fails, and nothing raises |
| AddonMediaPlayer.Player.TurnOn | ha-raumkernel-addon/teufel_raumfeld_raumkernel/media_player.py:318-327 | one play command wakes the room, and a failure does not raise |
| AddonMediaPlayer.Player.MediaNextTrack | ha-raumkernel-addon/teufel_raumfeld_raumkernel/media_player.py:337-344 | one next command; a failure is raised again |
| AddonMediaPlayer.Player.MediaPreviousTrack | ha-raumkernel-addon/teufel_raumfeld_raumkernel/media_player.py:346-353 | one previous command; a failure is raised again |
| AddonMediaPlayer.Player.JoinPlayers | ha-raumkernel-addon/teufel_raumfeld_raumkernel/media_player.py:355-397 | the calls made are the join plan up to and including its first failing call, and the method raises exactly when some planned call fails |
| AddonMediaPlayer.JoinStopsAt | ha-raumkernel-addon/teufel_raumfeld_raumkernel/media_player.py:380-397 | when every call before member `i` succeeded and member `i`'s call fails, the calls attempted are exactly those up to member `i`'s and the join raises |
| AddonMediaPlayer.JoinCompletes | ha-raumkernel-addon/teufel_raumfeld_raumkernel/media_player.py:380-397 | when no planned call fails, every planned call is attempted and the join does not raise |
| AddonMediaPlayer.Player.UnjoinPlayer | ha-raumkernel-addon/teufel_raumfeld_raumkernel/media_player.py:399-402 | one leave-group command for the room, raising when it fails |
| AddonMediaPlayer.Player.PlayMedia | ha-raumkernel-addon/teufel_raumfeld_raumkernel/media_player.py:404-425 | exactly the load command `LoadCommandFor` chooses, raising when it fails |
| AddonMediaPlayer.Player.PlaySystemSound | ha-raumkernel-addon/teufel_raumfeld_raumkernel/media_player.py:427-429 | one system-sound command for the room and sound, raising when it fails |
| AddonMediaPlayer.Player.BrowseMedia | ha-raumkernel-addon/teufel_raumfeld_raumkernel/media_player.py:431-493 | one browse of the given id, or `0/Favorites` without one; no tree when that call raises; otherwise the browse tree of the reply |
| AddonMediaPlayer.NewPlayers | ha-raumkernel-addon/teufel_raumfeld_raumkernel/media_player.py:51-54 | one fresh entity per new sighting, in order, with that udn and the projection of that room |
| AddonMediaPlayer.Platform.constructor | ha-raumkernel-addon/teufel_raumfeld_raumkernel/media_player.py:44 | the platform starts with no known udn and no entity |
| AddonMediaPlayer.Platform.HandleMessage | ha-raumkernel-addon/teufel_raumfeld_raumkernel/media_player.py:47-67 | the registry stays valid; `known_udns` becomes the scan's; new entities are added as one batch only when there are any and nothing raised; a wrong-shaped payload raises and changes nothing |
| CustomMediaPlayer.StateOf | custom_components/teufel_raumfeld_raumkernel/media_player.py:129-138 | idle exactly in standby; playing exactly when playing and not in standby; buffering exactly when loading but neither playing nor in standby |
| CustomMediaPlayer.FeaturesOf | custom_components/teufel_raumfeld_raumkernel/media_player.py:152-171 | the base features always, without seek or grouping; next and previous exactly when the room says it can |
| CustomMediaPlayer.SupportedFeatures | custom_components/teufel_raumfeld_raumkernel/media_player.py:152-171 | the successive unions compute exactly that feature set |
| CustomMediaPlayer.Player.constructor | custom_components/teufel_raumfeld_raumkernel/media_player.py:79-87 | the entity takes the room's udn and name, and its fields are the projection of the room |
| CustomMediaPlayer.Player.UpdateState | custom_components/teufel_raumfeld_raumkernel/media_player.py:120-171 | every field becomes the projection of the room |
| CustomMediaPlayer.Player.UpdatePlayback | custom_components/teufel_raumfeld_raumkernel/media_player.py:122-141 | availability, playback state, volume and mute change; nothing else does |
| CustomMediaPlayer.Player.UpdateMedia | custom_components/teufel_raumfeld_raumkernel/media_player.py:143-145 | title, artist and image change; nothing else does |
| CustomMediaPlayer.Player.UpdateZone | custom_components/teufel_raumfeld_raumkernel/media_player.py:147-150 | zone name, zone members and current zone change; nothing else does |
| CustomMediaPlayer.Player.HandleEvent | custom_components/teufel_raumfeld_raumkernel/media_player.py:103-118 | as in the add-on copy: raises on a wrong-shaped payload or a room without udn before the entity's, updates from the entity's room when found |
| CustomMediaPlayer.Player.MediaPlay | custom_components/teufel_raumfeld_raumkernel/media_player.py:183-186 | one play command, raising when it fails |
| CustomMediaPlayer.Player.MediaPause | custom_components/teufel_raumfeld_raumkernel/media_player.py:188-191 | one pause command, raising when it fails |
| CustomMediaPlayer.Player.MediaStop | custom_components/teufel_raumfeld_raumkernel/media_player.py:193-196 | one stop command, raising when it fails |
| CustomMediaPlayer.Player.MuteVolume | custom_components/teufel_raumfeld_raumkernel/media_player.py:229-231 | one mute command, raising when it fails |
| CustomMediaPlayer.Player.TurnOff | custom_components/teufel_raumfeld_raumkernel/media_player.py:198-212 | pause then standby, both sent whatever fails, nothing raised |
| CustomMediaPlayer.Player.TurnOn | custom_components/teufel_raumfeld_raumkernel/media_player.py:214-223 | one play command, a failure not raised |
| CustomMediaPlayer.Player.MediaNextTrack | custom_components/teufel_raumfeld_raumkernel/media_player.py:233-240 | one next command; a failure is raised again |
| CustomMediaPlayer.Player.MediaPreviousTrack | custom_components/teufel_raumfeld_raumkernel/media_player.py:242-249 | one previous command; a failure is raised again |
| CustomMediaPlayer.Player.PlayMedia | custom_components/teufel_raumfeld_raumkernel/media_player.py:251-272 | exactly the load command `LoadCommandFor` chooses |
| CustomMediaPlayer.Player.PlaySystemSound | custom_components/teufel_raumfeld_raumkernel/media_player.py:274-276 | one system-sound command for the room and sound |
| CustomMediaPlayer.Player.BrowseMedia | custom_components/teufel_raumfeld_raumkernel/media_player.py:278-340 | one browse of the given id or `0/Favorites`; the browse tree of the reply unless the call raises |
| CustomMediaPlayer.NewPlayers | custom_components/teufel_raumfeld_raumkernel/media_player.py:51-54 | one fresh entity per new sighting, in order, with that udn and the projection of that room |
| CustomMediaPlayer.Platform.constructor | custom_components/teufel_raumfeld_raumkernel/media_player.py:44 | no known udn and no entity at setup |
| CustomMediaPlayer.Platform.HandleMessage | custom_components/teufel_raumfeld_raumkernel/media_player.py:47-67 | the registry stays valid; `known_udns` becomes the scan's; new entities form one batch only when there are any and nothing raised |
| MediaPlayerCopies.StatesDifferOnlyWhileLoading | custom_components/teufel_raumfeld_raumkernel/media_player.py:131-138 | the custom copy shows buffering exactly when the add-on copy shows playing only because of `isLoading`; otherwise both copies agree |
| MediaPlayerCopies.FeaturesDifferBySeekAndGrouping | custom_components/teufel_raumfeld_raumkernel/media_player.py:152-171 | the custom copy's features are the add-on copy's without seek and grouping |
| Buttons.RebootButtonFor | custom_components/teufel_raumfeld_raumkernel/button.py:70-81 | a reboot button's unique id is the room udn followed by `_reboot`, and its device is identified by the domain and the udn |
| Buttons.UniqueIdsSeparateRooms | custom_components/teufel_raumfeld_raumkernel/button.py:75 | reboot buttons of different rooms have different unique ids, and none has the unique id of the remove button |
| Buttons.NewButtons | custom_components/teufel_raumfeld_raumkernel/button.py:38-41 | one reboot button per new sighting, in order, carrying that udn |
| Buttons.Platform.constructor | custom_components/teufel_raumfeld_raumkernel/button.py:26-31 | the remove button is added first and alone, before any udn is known |
| Buttons.Platform.HandleMessage | custom_components/teufel_raumfeld_raumkernel/button.py:34-54 | the remove button stays first and alone; later batches hold reboot buttons only, one per newly seen udn; `known_udns` becomes the scan's |
| Buttons.UniqueIdsUnique | custom_components/teufel_raumfeld_raumkernel/button.py:29-54 | across everything a valid platform has added, no two buttons share a unique id |
| Buttons.FlattenButtonUdns | custom_components/teufel_raumfeld_raumkernel/button.py:37-54 | the room udns of all batches, in order, are the room udns of all buttons added |
| Buttons.Press | custom_components/teufel_raumfeld_raumkernel/button.py:83-110 | pressing a reboot button sends one reboot of its room; pressing the remove button sends one remove request; either raises when its call fails |
| ConfigFlow.ProbeOf | custom_components/teufel_raumfeld_raumkernel/config_flow.py:53-60 | a slug finds the add-on exactly when its info says `started` and its options can be read; the port is the options' `PORT`, else 3000; a lookup that raises, including reading options that are not a dictionary, moves on to the next slug |
| ConfigFlow.FirstStartedIsFirstFound | custom_components/teufel_raumfeld_raumkernel/config_flow.py:52-60 | the discovered port is `p` exactly when some slug finds a started add-on with port `p` and no earlier slug finds one |
| ConfigFlow.ProbesStopAtFound | custom_components/teufel_raumfeld_raumkernel/config_flow.py:52-58 | slugs are asked up to and including the first that finds the add-on, every slug when none does |
| ConfigFlow.StoreAddonAfterLocal | custom_components/raumfeld/config_flow.py:51-59 | when the local slug finds nothing, or raises, the store add-on decides the port, and 3000 remains without it |
| ConfigFlow.DiscoverPort | custom_components/teufel_raumfeld_raumkernel/config_flow.py:48-60 | the loop with its `break` and `continue` gives exactly the discovered port, and asks exactly the slugs up to the first that finds the add-on; a started local add-on decides the port after one query, whatever the store add-on says |
| ConfigFlow.StepUser | custom_components/teufel_raumfeld_raumkernel/config_flow.py:39-71 | submitted input becomes an entry titled `Teufel Raumfeld (Raumkernel Addon)` with that data and no Supervisor query; otherwise the `user` form with host `localhost`, the discovered port (3000 off the Supervisor) and no errors |

The same `ConfigFlow.StepUser` models `custom_components/raumfeld/config_flow.py:40-70`
through its `Flow` argument. That copy differs only in the entry's title, `Raumfeld`.

## Left out

- Volume is the add-on's integer percentage. The division by 100 into a float volume level, `async_set_volume_level` and `async_media_seek` work on floats and are not part of this model.
- `dt_util.utcnow()` is the `now` argument, a plain integer timestamp, of the add-on copy's `Player.constructor`, `UpdateState`, `UpdateMedia`, `UpdatePosition`, `HandleEvent`, `NewPlayers` and `Platform.HandleMessage`.
- These are not part of this model:
  - `async_write_ha_state`;
  - the service registration of `async_setup_entry`;
  - the first `get_zones` request;
  - listener registration (`register_listener`, `async_added_to_hass`);
  - `extra_state_attributes`;
  - logging;
  - icons and entity categories.
- `device_info` is modelled for the buttons only: their device identifiers, names and models. The manufacturer is a constant and is left out. The media players' `device_info` is not modelled.
- `hass.states` is an input:
  - the sequence of `media_player` states with their `room_udn`, for `group_members`;
  - a map from entity id to `room_udn`, for `async_join_players`.
- The add-on client (`api.py`), the integration's setup (`__init__.py`) and the Node add-on are not part of this model. Client calls become recorded commands. Whether a call raises is a fixed predicate of the client.
- `const.py` is not part of this model. `DOMAIN` is taken to be `teufel_raumfeld_raumkernel`, the name of the component's directory.
- JSON `null` is not modelled. A value is present or missing.
  - A missing key falls back to its `get` default.
  - `volume or 0` and `classString or ""` therefore equal the plain defaults.
  - The add-on info is present or falsy.
- A payload of the wrong shape (a dict where a list is iterated, a list where `get` is called) is modelled as the handler raising. The handler then changes nothing. One case differs: iterating an empty dict `{}` raises nothing in Python and also changes nothing, but the payload type cannot tell `{}` from a dict with other keys, so the model reports it as raising.
- Lower-casing (`str.lower`) is modelled for ASCII letters only.
- Setup handlers create the new entities after the scan over the rooms rather than while scanning. No observable state differs: creating an entity reads only its room.
- AddonMediaPlayer.Player.HandleEvent, CustomMediaPlayer.Player.HandleEvent: the exception raised by a room without `udn` is a flag. What the event loop does with it is not modelled.
- Buttons.Press: `remove_integration` is one recorded command. The add-on's file removal it triggers is not part of this model.
- ConfigFlow.StepUser: the submitted input is stored as it is, as in the source. The schema's coercion of the form values is Home Assistant's and is not modelled.
