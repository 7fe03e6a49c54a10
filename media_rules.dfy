/** The Home Assistant media-player constants the entities report. */
module HomeAssistant {

  /** `MediaPlayerState` values the entities use. */
  datatype PlayerState = Idle | Playing | Buffering | Paused

  /** `MediaPlayerEntityFeature` flags; a flag word is a set of them. */
  datatype Feature =
    | Play | Pause | Stop | VolumeSet | VolumeMute | PlayMedia | BrowseMedia
    | TurnOff | TurnOn | Seek | Grouping | NextTrack | PreviousTrack

  /** The nine flags both media players always report. */
  const BaseFeatures: set<Feature> :=
    {Play, Pause, Stop, VolumeSet, VolumeMute, PlayMedia, BrowseMedia, TurnOff, TurnOn}

  /** `MediaType` strings a `play_media` call may carry. */
  const UrlType := "url"
  const PlaylistType := "playlist"
  const AlbumType := "album"
  const ArtistType := "artist"
  const TrackType := "track"
  const MusicType := "music"
}

/** `media_content_type`: the content type reported for the UPnP class now playing. */
module MediaContent {
  import opened Wrappers
  import opened Text

  /** `MediaType` values the property returns. */
  datatype MediaType = Music | Channel | Album | Artist | Playlist | Genre | App

  /** `part in upnp_class.lower()`. */
  predicate Mentions(upnpClass: string, part: string) {
    Contains(Lower(upnpClass), part)
  }

  /** The tests of the rule chain, in the order they are tried. */
  predicate TrackRule(c: string) { Mentions(c, "musictrack") }
  predicate BroadcastRule(c: string) { Mentions(c, "audiobroadcast") }
  predicate AlbumRule(c: string) { Mentions(c, "musicalbum") || Mentions(c, "albumcontainer") }
  predicate ArtistRule(c: string) { Mentions(c, "musicartist") || Mentions(c, "musiccomposer") }
  predicate PlaylistRule(c: string) { Mentions(c, "playlistcontainer") || Mentions(c, "favoritescontainer") }
  predicate GenreRule(c: string) { Mentions(c, "musicgenre") }
  predicate FolderRule(c: string) { Mentions(c, "storagefolder") || Lower(c) == "object.container" }
  predicate AudioItemRule(c: string) { Mentions(c, "audioitem") }

  /** None of the six rules that come before the folder rule fits. */
  predicate NoEarlierRule(c: string) {
    !TrackRule(c) && !BroadcastRule(c) && !AlbumRule(c) && !ArtistRule(c) && !PlaylistRule(c) && !GenreRule(c)
  }

  /**
   * Substring rules on the lower-cased class, tried in a fixed order; the first
   * that matches decides. An empty class, or one no rule matches, has no type.
   */
  function ContentTypeOf(upnpClass: string): (r: Option<MediaType>)
    ensures r == None <==>
      upnpClass == "" || (NoEarlierRule(upnpClass) && !FolderRule(upnpClass) && !AudioItemRule(upnpClass))
    ensures r == Some(Music) <==>
      upnpClass != "" &&
      (TrackRule(upnpClass) || (NoEarlierRule(upnpClass) && !FolderRule(upnpClass) && AudioItemRule(upnpClass)))
    ensures r == Some(Channel) <==> upnpClass != "" && !TrackRule(upnpClass) && BroadcastRule(upnpClass)
    ensures r == Some(Album) <==>
      upnpClass != "" && !TrackRule(upnpClass) && !BroadcastRule(upnpClass) && AlbumRule(upnpClass)
    ensures r == Some(Artist) <==>
      upnpClass != "" && !TrackRule(upnpClass) && !BroadcastRule(upnpClass) && !AlbumRule(upnpClass)
      && ArtistRule(upnpClass)
    ensures r == Some(Playlist) <==>
      upnpClass != "" && !TrackRule(upnpClass) && !BroadcastRule(upnpClass) && !AlbumRule(upnpClass)
      && !ArtistRule(upnpClass) && PlaylistRule(upnpClass)
    ensures r == Some(Genre) <==>
      upnpClass != "" && !TrackRule(upnpClass) && !BroadcastRule(upnpClass) && !AlbumRule(upnpClass)
      && !ArtistRule(upnpClass) && !PlaylistRule(upnpClass) && GenreRule(upnpClass)
    ensures r == Some(App) <==> upnpClass != "" && NoEarlierRule(upnpClass) && FolderRule(upnpClass)
  {
    var c := Lower(upnpClass);
    if c == "" then None
    else if Contains(c, "musictrack") then Some(Music)
    else if Contains(c, "audiobroadcast") then Some(Channel)
    else if Contains(c, "musicalbum") || Contains(c, "albumcontainer") then Some(Album)
    else if Contains(c, "musicartist") || Contains(c, "musiccomposer") then Some(Artist)
    else if Contains(c, "playlistcontainer") || Contains(c, "favoritescontainer") then Some(Playlist)
    else if Contains(c, "musicgenre") then Some(Genre)
    else if Contains(c, "storagefolder") || c == "object.container" then Some(App)
    else if Contains(c, "audioitem") then Some(Music)
    else None
  }

  /**
   * The content type ignores letter case: a class and its lower-cased form
   * have the same type.
   */
  lemma ContentTypeIgnoresCase(upnpClass: string)
    ensures ContentTypeOf(Lower(upnpClass)) == ContentTypeOf(upnpClass)
  {
    LowerIdempotent(upnpClass);
  }

  /**
   * The class of a radio broadcast item, `object.item.audioItem.audioBroadcast`,
   * written in the pieces the proofs about it take apart.
   */
  const BroadcastClass := "object.item." + "audioItem" + "." + "audioBroadcast"

  /** The lower-cased pieces of the broadcast class. */
  lemma LowerBroadcastPieces()
    ensures Lower("audioItem") == "audioitem"
    ensures Lower("audioBroadcast") == "audio" + "broadcast"
    ensures "audio" + "broadcast" == "audiobroadcast"
  {
  }

  /** The lower-cased broadcast class, piece by piece. */
  lemma LowerBroadcastClass()
    ensures Lower(BroadcastClass) == Lower("object.item.") + "audioitem" + Lower(".") + ("audio" + "broadcast")
  {
    LowerAppend("object.item.", "audioItem");
    LowerAppend("object.item." + "audioItem", ".");
    LowerAppend("object.item." + "audioItem" + ".", "audioBroadcast");
    LowerBroadcastPieces();
  }

  /**
   * The lower-cased broadcast class names an audio item and an audio
   * broadcast, but no music track.
   */
  lemma BroadcastClassSubstrings()
    ensures Contains(Lower(BroadcastClass), "audioitem")
    ensures Contains(Lower(BroadcastClass), "audiobroadcast")
    ensures Contains(Lower(BroadcastClass), "broadcast")
    ensures !Contains(Lower(BroadcastClass), "musictrack")
  {
    LowerBroadcastClass();
    LowerBroadcastPieces();
    ContainsPieces(Lower("object.item."), "audioitem", Lower("."), "audio", "broadcast");
    BroadcastClassLacksK();
    MissingCharExcludes(Lower(BroadcastClass), "musictrack", 'k');
  }

  /** No k of either case in the broadcast class. */
  lemma BroadcastClassLacksK()
    ensures 'k' !in Lower(BroadcastClass)
  {
    assert 'k' !in BroadcastClass && 'K' !in BroadcastClass;
    LowerLacks(BroadcastClass, 'k');
  }

  /**
   * A radio broadcast item is reported as a channel, although its class also
   * names an audio item, which on its own would mean music.
   */
  lemma BroadcastItemIsChannel(c: string)
    requires c == BroadcastClass
    ensures Contains(Lower(c), "audioitem")
    ensures ContentTypeOf(c) == Some(Channel)
  {
    BroadcastClassSubstrings();
    assert |Lower(c)| == |c| > 0;
  }

  /**
   * No substring rule before the folder rule fits a class lacking the letters
   * m, u, l, p and f: each of those rules needs one of them.
   */
  lemma NoEarlierRuleWithout(c: string)
    requires 'm' !in c && 'u' !in c && 'l' !in c && 'p' !in c && 'f' !in c
    ensures !Contains(c, "musictrack") && !Contains(c, "audiobroadcast")
    ensures !Contains(c, "musicalbum") && !Contains(c, "albumcontainer")
    ensures !Contains(c, "musicartist") && !Contains(c, "musiccomposer")
    ensures !Contains(c, "playlistcontainer") && !Contains(c, "favoritescontainer")
    ensures !Contains(c, "musicgenre")
  {
    MissingCharExcludes(c, "musictrack", 'm');
    MissingCharExcludes(c, "audiobroadcast", 'u');
    MissingCharExcludes(c, "musicalbum", 'm');
    MissingCharExcludes(c, "albumcontainer", 'l');
    MissingCharExcludes(c, "musicartist", 'm');
    MissingCharExcludes(c, "musiccomposer", 'm');
    MissingCharExcludes(c, "playlistcontainer", 'p');
    MissingCharExcludes(c, "favoritescontainer", 'f');
    MissingCharExcludes(c, "musicgenre", 'm');
  }

  /** The bare container class is an app folder, through the exact comparison. */
  lemma BareContainerIsApp(c: string)
    requires c == "object.container"
    ensures ContentTypeOf(c) == Some(App)
  {
    BareContainerLetters(c);
    NoEarlierRuleWithout(c);
  }

  /** The letters the bare container class lacks; it has no upper-case letter. */
  lemma BareContainerLetters(c: string)
    requires c == "object.container"
    ensures Lower(c) == c != ""
    ensures 'm' !in c && 'u' !in c && 'l' !in c && 'p' !in c && 'f' !in c
    ensures 'd' !in c && 'D' !in c && 's' !in c && 'S' !in c
  {
    BareContainerAlphabet(c);
    ContainerAlphabetLacks(c);
  }

  /** The characters `object.container` is spelt with. */
  const ContainerAlphabet := {'o', 'b', 'j', 'e', 'c', 't', '.', 'n', 'a', 'i', 'r'}

  lemma BareContainerAlphabet(c: string)
    requires c == "object.container"
    ensures DrawnFrom(c, ContainerAlphabet) && c != ""
  {
  }

  lemma ContainerAlphabetLacks(c: string)
    requires DrawnFrom(c, ContainerAlphabet)
    ensures Lower(c) == c
    ensures 'm' !in c && 'u' !in c && 'l' !in c && 'p' !in c && 'f' !in c
    ensures 'd' !in c && 'D' !in c && 's' !in c && 'S' !in c
  {
  }
}

/** `_get_media_class` and the tree `async_browse_media` returns. */
module MediaBrowse {
  import opened Wrappers
  import opened Text
  import opened Messages
  import MediaContent

  /** `MediaClass` values of browse nodes. */
  datatype MediaClass = Directory | Playlist | Album | Artist | Track | Channel | Music

  const PlaylistPrefix := "object.container.playlistContainer"
  const AlbumPrefix := "object.container.album.musicAlbum"
  const ArtistPrefix := "object.container.person.musicArtist"
  const TrackPrefix := "object.item.audioItem.musicTrack"
  const ContainerPrefix := "object.container"

  /** The class carries one of the four case-sensitive prefixes that decide first. */
  predicate HasKnownPrefix(c: string) {
    StartsWith(c, PlaylistPrefix) || StartsWith(c, AlbumPrefix)
    || StartsWith(c, ArtistPrefix) || StartsWith(c, TrackPrefix)
  }

  /** At most one of the four prefixes fits a class: they part at a fixed position. */
  lemma KnownPrefixesExclusive(c: string)
    ensures StartsWith(c, PlaylistPrefix) ==>
      !StartsWith(c, AlbumPrefix) && !StartsWith(c, ArtistPrefix) && !StartsWith(c, TrackPrefix)
    ensures StartsWith(c, AlbumPrefix) ==> !StartsWith(c, ArtistPrefix) && !StartsWith(c, TrackPrefix)
    ensures StartsWith(c, ArtistPrefix) ==> !StartsWith(c, TrackPrefix)
  {
    if StartsWith(c, PlaylistPrefix) {
      PrefixChar(c, PlaylistPrefix, 7);
      PrefixChar(c, PlaylistPrefix, 17);
      PrefixChar(c, PlaylistPrefix, 18);
      DifferAt(c, AlbumPrefix, 17);
      DifferAt(c, ArtistPrefix, 18);
      DifferAt(c, TrackPrefix, 7);
    }
    if StartsWith(c, AlbumPrefix) {
      PrefixChar(c, AlbumPrefix, 7);
      PrefixChar(c, AlbumPrefix, 17);
      DifferAt(c, ArtistPrefix, 17);
      DifferAt(c, TrackPrefix, 7);
    }
    if StartsWith(c, ArtistPrefix) {
      PrefixChar(c, ArtistPrefix, 7);
      DifferAt(c, TrackPrefix, 7);
    }
  }

  /** "radio" or "broadcast" anywhere in the class, in any letter case. */
  predicate MentionsRadio(c: string) {
    Contains(Lower(c), "radio") || Contains(Lower(c), "broadcast")
  }

  /**
   * An absent or empty class is a directory; then four case-sensitive prefixes;
   * then a case-insensitive radio/broadcast test; then any other container
   * prefix is a directory, and everything else is music.
   */
  function MediaClassOf(upnpClass: Option<string>): (r: MediaClass)
    ensures r == Directory <==>
      upnpClass.None? || upnpClass == Some("")
      || (&& upnpClass.Some? && !HasKnownPrefix(upnpClass.value) && !MentionsRadio(upnpClass.value)
          && StartsWith(upnpClass.value, ContainerPrefix))
    ensures r == Playlist <==> upnpClass.Some? && StartsWith(upnpClass.value, PlaylistPrefix)
    ensures r == Album <==> upnpClass.Some? && StartsWith(upnpClass.value, AlbumPrefix)
    ensures r == Artist <==> upnpClass.Some? && StartsWith(upnpClass.value, ArtistPrefix)
    ensures r == Track <==> upnpClass.Some? && StartsWith(upnpClass.value, TrackPrefix)
    ensures r == Channel <==>
      upnpClass.Some? && !HasKnownPrefix(upnpClass.value) && MentionsRadio(upnpClass.value)
    ensures r == Music <==>
      && upnpClass.Some? && upnpClass.value != ""
      && !HasKnownPrefix(upnpClass.value) && !MentionsRadio(upnpClass.value)
      && !StartsWith(upnpClass.value, ContainerPrefix)
  {
    match upnpClass
    case None => Directory
    case Some(c) =>
      KnownPrefixesExclusive(c);
      if c == "" then Directory
      else if StartsWith(c, PlaylistPrefix) then Playlist
      else if StartsWith(c, AlbumPrefix) then Album
      else if StartsWith(c, ArtistPrefix) then Artist
      else if StartsWith(c, TrackPrefix) then Track
      else if Contains(Lower(c), "radio") || Contains(Lower(c), "broadcast") then Channel
      else if StartsWith(c, ContainerPrefix) then Directory
      else Music
  }

  /** A class lacking the letters d and s mentions neither radio nor broadcast. */
  lemma NoRadioWithout(c: string)
    requires 'd' !in Lower(c) && 's' !in Lower(c)
    ensures !MentionsRadio(c)
  {
    MissingCharExcludes(Lower(c), "radio", 'd');
    MissingCharExcludes(Lower(c), "broadcast", 's');
  }

  /** The broadcast item class carries none of the four prefixes. */
  lemma BroadcastItemHasNoKnownPrefix(c: string)
    requires c == MediaContent.BroadcastClass
    ensures !HasKnownPrefix(c)
  {
    DifferAt(c, PlaylistPrefix, 7);
    DifferAt(c, AlbumPrefix, 7);
    DifferAt(c, ArtistPrefix, 7);
    DifferAt(c, TrackPrefix, 22);
  }

  /** A broadcast item is a channel: no prefix rule fits it and it mentions a broadcast. */
  lemma BroadcastItemIsBrowsedAsChannel(c: string)
    requires c == MediaContent.BroadcastClass
    ensures MediaClassOf(Some(c)) == Channel
  {
    BroadcastItemHasNoKnownPrefix(c);
    MediaContent.BroadcastClassSubstrings();
  }

  /** The bare container class, which mentions no radio, is a directory. */
  lemma BareContainerIsDirectory(c: string)
    requires c == "object.container"
    ensures MediaClassOf(Some(c)) == Directory
  {
    MediaContent.BareContainerLetters(c);
    LowerLacks(c, 'd');
    LowerLacks(c, 's');
    NoRadioWithout(c);
  }

  /** One item of a browse reply; every key may be absent. */
  datatype BrowseItem = BrowseItem(
    upnpClass: Option<string>,
    isContainer: Option<bool>,
    playable: Option<bool>,
    title: Option<string>,
    id: Option<string>,
    image: Option<string>)

  /** The field values of a `BrowseMedia` object. */
  datatype BrowseNode = BrowseNode(
    title: string,
    mediaClass: MediaClass,
    contentId: Option<string>,
    contentType: string,
    canPlay: bool,
    canExpand: bool,
    thumbnail: Option<string>,
    children: seq<BrowseNode>)

  /** The object browsed when no content id is given. */
  const DefaultObjectId := "0/Favorites"

  /** What one reply item becomes in the tree. */
  ghost predicate IsChildOf(node: BrowseNode, item: BrowseItem) {
    && node.title == item.title.GetOr("Unknown")
    && node.mediaClass == MediaClassOf(item.upnpClass)
    && node.contentId == item.id
    && node.canExpand == Truthy(item.isContainer)
    && node.contentType == (if node.canExpand then "container" else "item")
    && node.canPlay == Truthy(item.playable)
    && node.thumbnail == item.image
    && node.children == []
  }

  /**
   * The tree for `objectId` from the add-on's reply: a directory root that can
   * be expanded but not played, with one child per reply item, in reply order.
   */
  ghost predicate IsBrowseTree(root: BrowseNode, objectId: string, items: seq<BrowseItem>) {
    && root.title == "Teufel Raumfeld" && root.mediaClass == Directory
    && root.contentId == Some(objectId) && root.contentType == "container"
    && !root.canPlay && root.canExpand && root.thumbnail == None
    && |root.children| == |items|
    && forall k :: 0 <= k < |items| ==> IsChildOf(root.children[k], items[k])
  }

  /** The loop of `async_browse_media` that turns reply items into children. */
  method BuildBrowse(objectId: string, items: seq<BrowseItem>) returns (root: BrowseNode)
    ensures IsBrowseTree(root, objectId, items)
  {
    var children: seq<BrowseNode> := [];
    for i := 0 to |items|
      invariant |children| == i
      invariant forall k :: 0 <= k < i ==> IsChildOf(children[k], items[k])
    {
      var item := items[i];
      var isContainer := Truthy(item.isContainer);
      var child := BrowseNode(
        item.title.GetOr("Unknown"),
        MediaClassOf(item.upnpClass),
        item.id,
        if isContainer then "container" else "item",
        Truthy(item.playable),
        isContainer,
        item.image,
        []);
      children := children + [child];
    }
    root := BrowseNode("Teufel Raumfeld", Directory, Some(objectId), "container", false, true, None, children);
  }
}

/** The load command `async_play_media` chooses. */
module PlayMediaRule {
  import opened Text
  import opened Client
  import HA = HomeAssistant

  /** A URL type, or an id that is a web address or the line-in source, is loaded as a URI. */
  predicate IsUriRequest(mediaType: string, mediaId: string) {
    mediaType == HA.UrlType || StartsWith(mediaId, "http") || StartsWith(mediaId, "raumfeld-line-in")
  }

  predicate IsContainerType(mediaType: string) {
    mediaType in {HA.PlaylistType, HA.AlbumType, HA.ArtistType, "container"}
  }

  predicate IsSingleType(mediaType: string) {
    mediaType in {HA.TrackType, HA.MusicType, "item"}
  }

  /**
   * Exactly one load command for the room and the id: a URI load for URI
   * requests; otherwise a single-item load for track, music and item types; a
   * container load for container types and, by default, for every other type.
   */
  function LoadCommandFor(roomUdn: string, mediaType: string, mediaId: string): (c: Command)
    ensures c == LoadUri(roomUdn, mediaId) || c == LoadContainer(roomUdn, mediaId)
         || c == LoadSingle(roomUdn, mediaId)
    ensures c.LoadUri? <==> IsUriRequest(mediaType, mediaId)
    ensures c.LoadSingle? <==> !IsUriRequest(mediaType, mediaId) && IsSingleType(mediaType)
    ensures c.LoadContainer? <==> !IsUriRequest(mediaType, mediaId) && !IsSingleType(mediaType)
  {
    if IsUriRequest(mediaType, mediaId) then LoadUri(roomUdn, mediaId)
    else if IsContainerType(mediaType) then LoadContainer(roomUdn, mediaId)
    else if IsSingleType(mediaType) then LoadSingle(roomUdn, mediaId)
    else LoadContainer(roomUdn, mediaId)
  }
}
