/**
 * GlobalMapper: the projection of loaded entities onto the response DTOs. The mapper
 * reads the entity object graph, in which any reference and any collection may be
 * null; the graph is modelled as nodes whose collections are `Option<seq<...>>`, to
 * the depth the mapper reads. Collections of users are read only for their size, so
 * they are kept as lists of ids. Every `to*DTO` maps null to null; a list element is
 * never null, so each list is mapped with the mapper's non-null core.
 */
module GlobalMapper {
  import opened Wrappers
  import opened Model

  // ----- the entity graph as the mapper reads it -----

  datatype UserNode = UserNode(
    id: Id, username: Text, email: Text, password: Text,
    managedArtists: Option<seq<ArtistNode>>)

  datatype ArtistNode = ArtistNode(
    id: Id, artistName: Text, imageFilePath: Text, description: Text,
    subscribers: Option<seq<Id>>, albums: Option<seq<AlbumNode>>, tracks: Option<seq<TrackNode>>)

  datatype AlbumNode = AlbumNode(
    id: Id, title: Text, description: Text, imageFilePath: Text,
    artists: Option<seq<ArtistNode>>, tracks: Option<seq<TrackNode>>)

  datatype TrackNode = TrackNode(
    id: Id, title: Text, genre: Text, durationSeconds: int, audioFilePath: Text, isExplicit: bool,
    likedUsers: Option<seq<Id>>, artists: Option<seq<ArtistNode>>, album: Option<AlbumNode>)

  // ----- the DTOs -----

  /** The user as the API shows it: no password, no roles, no subscriptions. */
  datatype UserDTO = UserDTO(id: Id, username: Text, email: Text, managedArtists: seq<ArtistDTO>)

  datatype ArtistDTO = ArtistDTO(
    id: Id, artistName: Text, imageUrl: Text, description: Text, subscriberCount: nat,
    albums: seq<AlbumMinimalDTO>, tracks: seq<TrackMinimalDTO>)

  datatype ArtistMinimalDTO = ArtistMinimalDTO(id: Id, artistName: Text, imageUrl: Text)

  datatype AlbumDTO = AlbumDTO(
    id: Id, title: Text, description: Text, imageUrl: Text,
    artists: seq<ArtistMinimalDTO>, tracks: seq<TrackMinimalDTO>)

  datatype AlbumMinimalDTO = AlbumMinimalDTO(id: Id, title: Text, imageUrl: Text, trackCount: nat)

  datatype TrackDTO = TrackDTO(
    id: Id, title: Text, genre: Text, durationSeconds: int, audioUrl: Text,
    artists: seq<ArtistMinimalDTO>, album: Option<AlbumMinimalDTO>, isExplicit: bool, likeCount: nat)

  datatype TrackMinimalDTO = TrackMinimalDTO(id: Id, title: Text, durationSeconds: int, audioUrl: Text, isExplicit: bool)

  // ----- safeMap and safeSize -----

  /** `stream().map(f).collect(toList())`: element by element, in order. */
  function MapAll<T, R>(s: seq<T>, f: T -> R): (r: seq<R>)
    ensures |r| == |s|
    ensures forall i :: 0 <= i < |s| ==> r[i] == f(s[i])
  {
    if s == [] then [] else [f(s[0])] + MapAll(s[1..], f)
  }

  /** `safeMap`: a null collection maps to the empty list. */
  function SafeMap<T, R>(c: Option<seq<T>>, f: T -> R): (r: seq<R>)
    ensures c.None? ==> r == []
    ensures c.Some? ==> |r| == |c.value| && forall i :: 0 <= i < |r| ==> r[i] == f(c.value[i])
  {
    if c.None? then [] else MapAll(c.value, f)
  }

  /** `safeSize`: a null collection has size 0. */
  function SafeSize<T>(c: Option<seq<T>>): (n: nat)
    ensures c.None? ==> n == 0
    ensures c.Some? ==> n == |c.value|
  {
    if c.None? then 0 else |c.value|
  }

  /** The two helpers agree: the mapped list is as long as the collection is counted. */
  lemma SafeMapKeepsSize<T, R>(c: Option<seq<T>>, f: T -> R)
    ensures |SafeMap(c, f)| == SafeSize(c)
  {
  }

  /** Mapping a concatenation maps each part. */
  lemma {:induction false} MapAllAppend<T, R>(s: seq<T>, t: seq<T>, f: T -> R)
    ensures MapAll(s + t, f) == MapAll(s, f) + MapAll(t, f)
  {
    if s != [] {
      assert (s + t)[1..] == s[1..] + t;
      MapAllAppend(s[1..], t, f);
    }
  }

  // ----- the non-null cores -----

  function ArtistMinimalOf(a: ArtistNode): (d: ArtistMinimalDTO)
    ensures d.id == a.id && d.artistName == a.artistName && d.imageUrl == a.imageFilePath
  {
    ArtistMinimalDTO(a.id, a.artistName, a.imageFilePath)
  }

  function TrackMinimalOf(t: TrackNode): (d: TrackMinimalDTO)
    ensures d.id == t.id && d.title == t.title && d.durationSeconds == t.durationSeconds
    ensures d.audioUrl == t.audioFilePath && d.isExplicit == t.isExplicit
  {
    TrackMinimalDTO(t.id, t.title, t.durationSeconds, t.audioFilePath, t.isExplicit)
  }

  function AlbumMinimalOf(a: AlbumNode): (d: AlbumMinimalDTO)
    ensures d.id == a.id && d.title == a.title && d.imageUrl == a.imageFilePath
    ensures d.trackCount == SafeSize(a.tracks)
  {
    AlbumMinimalDTO(a.id, a.title, a.imageFilePath, SafeSize(a.tracks))
  }

  function ArtistOf(a: ArtistNode): (d: ArtistDTO)
    ensures d.id == a.id && d.artistName == a.artistName && d.imageUrl == a.imageFilePath && d.description == a.description
    ensures d.subscriberCount == SafeSize(a.subscribers)
    ensures d.albums == SafeMap(a.albums, AlbumMinimalOf) && d.tracks == SafeMap(a.tracks, TrackMinimalOf)
  {
    ArtistDTO(a.id, a.artistName, a.imageFilePath, a.description, SafeSize(a.subscribers),
              SafeMap(a.albums, AlbumMinimalOf), SafeMap(a.tracks, TrackMinimalOf))
  }

  function AlbumOf(a: AlbumNode): (d: AlbumDTO)
    ensures d.id == a.id && d.title == a.title && d.description == a.description && d.imageUrl == a.imageFilePath
    ensures d.artists == SafeMap(a.artists, ArtistMinimalOf) && d.tracks == SafeMap(a.tracks, TrackMinimalOf)
  {
    AlbumDTO(a.id, a.title, a.description, a.imageFilePath,
             SafeMap(a.artists, ArtistMinimalOf), SafeMap(a.tracks, TrackMinimalOf))
  }

  function TrackOf(t: TrackNode): (d: TrackDTO)
    ensures d.id == t.id && d.title == t.title && d.genre == t.genre && d.durationSeconds == t.durationSeconds
    ensures d.audioUrl == t.audioFilePath && d.isExplicit == t.isExplicit
    ensures d.artists == SafeMap(t.artists, ArtistMinimalOf)
    ensures d.album == ToAlbumMinimalDTO(t.album)
    ensures d.likeCount == SafeSize(t.likedUsers)
  {
    TrackDTO(t.id, t.title, t.genre, t.durationSeconds, t.audioFilePath,
             SafeMap(t.artists, ArtistMinimalOf), ToAlbumMinimalDTO(t.album), t.isExplicit, SafeSize(t.likedUsers))
  }

  function UserOf(u: UserNode): (d: UserDTO)
    ensures d.id == u.id && d.username == u.username && d.email == u.email
    ensures d.managedArtists == SafeMap(u.managedArtists, ArtistOf)
  {
    UserDTO(u.id, u.username, u.email, SafeMap(u.managedArtists, ArtistOf))
  }

  // ----- the public methods: null maps to null -----

  function ToUserDTO(u: Option<UserNode>): (r: Option<UserDTO>)
    ensures r.None? <==> u.None?
    ensures u.Some? ==> r == Some(UserOf(u.value))
  {
    if u.None? then None else Some(UserOf(u.value))
  }

  function ToArtistDTO(a: Option<ArtistNode>): (r: Option<ArtistDTO>)
    ensures r.None? <==> a.None?
    ensures a.Some? ==> r == Some(ArtistOf(a.value))
  {
    if a.None? then None else Some(ArtistOf(a.value))
  }

  function ToArtistMinimalDTO(a: Option<ArtistNode>): (r: Option<ArtistMinimalDTO>)
    ensures r.None? <==> a.None?
    ensures a.Some? ==> r == Some(ArtistMinimalOf(a.value))
  {
    if a.None? then None else Some(ArtistMinimalOf(a.value))
  }

  function ToAlbumDTO(a: Option<AlbumNode>): (r: Option<AlbumDTO>)
    ensures r.None? <==> a.None?
    ensures a.Some? ==> r == Some(AlbumOf(a.value))
  {
    if a.None? then None else Some(AlbumOf(a.value))
  }

  function ToAlbumMinimalDTO(a: Option<AlbumNode>): (r: Option<AlbumMinimalDTO>)
    ensures r.None? <==> a.None?
    ensures a.Some? ==> r == Some(AlbumMinimalOf(a.value))
  {
    if a.None? then None else Some(AlbumMinimalOf(a.value))
  }

  function ToTrackDTO(t: Option<TrackNode>): (r: Option<TrackDTO>)
    ensures r.None? <==> t.None?
    ensures t.Some? ==> r == Some(TrackOf(t.value))
  {
    if t.None? then None else Some(TrackOf(t.value))
  }

  function ToTrackMinimalDTO(t: Option<TrackNode>): (r: Option<TrackMinimalDTO>)
    ensures r.None? <==> t.None?
    ensures t.Some? ==> r == Some(TrackMinimalOf(t.value))
  {
    if t.None? then None else Some(TrackMinimalOf(t.value))
  }

  // ----- what the projections promise -----

  /** The password never reaches the DTO: users differing only in it map alike. */
  lemma UserDTOIgnoresPassword(u: UserNode, password: Text)
    ensures ToUserDTO(Some(u.(password := password))) == ToUserDTO(Some(u))
  {
  }

  /** A track's DTO lists its artists in the track's order, and counts its likes. */
  lemma TrackDTOListsArtistsInOrder(t: TrackNode)
    requires t.artists.Some? && t.likedUsers.Some?
    ensures var d := ToTrackDTO(Some(t)).value;
      && |d.artists| == |t.artists.value|
      && (forall i :: 0 <= i < |d.artists| ==> d.artists[i].id == t.artists.value[i].id)
      && d.likeCount == |t.likedUsers.value|
  {
  }

  /** The minimal album DTO counts exactly the tracks the full album DTO lists. */
  lemma AlbumMinimalCountsFullTracks(a: AlbumNode)
    ensures AlbumMinimalOf(a).trackCount == |AlbumOf(a).tracks|
  {
    SafeMapKeepsSize(a.tracks, TrackMinimalOf);
  }

  /** The minimal DTOs agree with the full ones in every field they share. */
  lemma MinimalAgreesWithFull(artist: ArtistNode, album: AlbumNode, track: TrackNode)
    ensures var m, f := ArtistMinimalOf(artist), ArtistOf(artist);
      m.id == f.id && m.artistName == f.artistName && m.imageUrl == f.imageUrl
    ensures var m, f := AlbumMinimalOf(album), AlbumOf(album);
      m.id == f.id && m.title == f.title && m.imageUrl == f.imageUrl
    ensures var m, f := TrackMinimalOf(track), TrackOf(track);
      m.id == f.id && m.title == f.title && m.durationSeconds == f.durationSeconds
      && m.audioUrl == f.audioUrl && m.isExplicit == f.isExplicit
  {
  }

  /** A user's DTO shows each managed artist with its subscriber count, in the user's order. */
  lemma UserDTOCountsSubscribers(u: UserNode)
    requires u.managedArtists.Some?
    ensures var d := UserOf(u);
      && |d.managedArtists| == |u.managedArtists.value|
      && forall i :: 0 <= i < |d.managedArtists| ==>
           d.managedArtists[i].id == u.managedArtists.value[i].id
           && d.managedArtists[i].subscriberCount == SafeSize(u.managedArtists.value[i].subscribers)
  {
  }
}
