/**
 * TrackService: creating, updating and deleting tracks, the artist list of a track,
 * likes, and the track queries, each with the cache entries it evicts.
 */
module TrackService {
  import opened Wrappers
  import opened Model
  import opened Membership
  import opened Cache
  import opened Store

  // ----- eviction sets: the regions cleared with `allEntries`, then the single keys -----

  /** The per-user entries most mutations list: `user.byId` under `#user.id` and `user.byEmail` under `#user.email`. */
  function UserKeys(user: User): set<CacheKey> {
    {CacheKey(UserById, IdKey(user.id)), CacheKey(UserByEmail, TextKey(user.email))}
  }

  /** `createTrack`'s annotations: the track listings, album and artist views, the caller's entries and the new track's. */
  function CreateTrackEvictions(trackId: Id, albumId: Id, user: User): (r: Evictions)
    ensures {TracksAll, TracksSearch, TracksLiked, AlbumsAll, AlbumsByArtist, AlbumsSearch, ArtistsAll, ArtistById, ArtistSearch, UsersAll} <= r.regions
    ensures Evicts(r, CacheKey(TrackById, IdKey(trackId))) && Evicts(r, CacheKey(TracksByAlbum, IdKey(albumId)))
    ensures Evicts(r, CacheKey(AlbumById, IdKey(albumId))) && Evicts(r, CacheKey(ArtistsByUserId, IdKey(user.id)))
    ensures UserKeys(user) <= r.keys
    ensures TrackLikedStatus !in r.regions && ArtistSubscribed !in r.regions
  {
    Evictions(
      {TracksAll, TracksSearch, TracksLiked, AlbumsAll, AlbumsByArtist, AlbumsSearch, ArtistsAll, ArtistById, ArtistSearch, UsersAll},
      {CacheKey(TrackById, IdKey(trackId)), CacheKey(TracksByAlbum, IdKey(albumId)), CacheKey(AlbumById, IdKey(albumId)),
       CacheKey(ArtistsByUserId, IdKey(user.id))} + UserKeys(user))
  }

  /** `updateTrack`; `albumId` is `#result.album.id`. */
  function UpdateTrackEvictions(trackId: Id, albumId: Id, user: User): (r: Evictions)
    ensures {TracksAll, TracksByAlbum, TracksSearch, TracksLiked, AlbumsAll, AlbumsByArtist, AlbumsSearch, ArtistsAll, ArtistById,
             ArtistSearch, UsersAll} <= r.regions
    ensures Evicts(r, CacheKey(TrackById, IdKey(trackId))) && Evicts(r, CacheKey(AlbumById, IdKey(albumId)))
    ensures Evicts(r, CacheKey(ArtistsByUserId, IdKey(user.id))) && UserKeys(user) <= r.keys
    ensures TrackLikedStatus !in r.regions && ArtistSubscribed !in r.regions
  {
    Evictions(
      {TracksAll, TracksByAlbum, TracksSearch, TracksLiked, AlbumsAll, AlbumsByArtist, AlbumsSearch, ArtistsAll, ArtistById,
       ArtistSearch, UsersAll},
      {CacheKey(TrackById, IdKey(trackId)), CacheKey(AlbumById, IdKey(albumId)), CacheKey(ArtistsByUserId, IdKey(user.id))}
        + UserKeys(user))
  }

  /** `deleteTrack`'s annotations: every listing and view a track appears in, and the track's own entry. */
  function DeleteTrackEvictions(trackId: Id, user: User): (r: Evictions)
    ensures {TracksAll, TracksByAlbum, TracksSearch, TracksLiked, AlbumsAll, AlbumsByArtist, AlbumById, AlbumsSearch, ArtistsAll,
             ArtistById, ArtistsByUserId, ArtistSearch, UsersAll} <= r.regions
    ensures Evicts(r, CacheKey(TrackById, IdKey(trackId))) && UserKeys(user) <= r.keys
    ensures TrackLikedStatus !in r.regions && ArtistSubscribed !in r.regions
  {
    Evictions(
      {TracksAll, TracksByAlbum, TracksSearch, TracksLiked, AlbumsAll, AlbumsByArtist, AlbumById, AlbumsSearch, ArtistsAll,
       ArtistById, ArtistsByUserId, ArtistSearch, UsersAll},
      {CacheKey(TrackById, IdKey(trackId))} + UserKeys(user))
  }

  /** The regions `deleteTracksByAlbum` clears whole; its only single key is the album's track listing. */
  const DeleteTracksByAlbumRegions: set<Region> :=
    {TracksAll, TrackById, TracksSearch, TracksLiked, AlbumsAll, AlbumsByArtist, AlbumById, AlbumsSearch, ArtistsAll,
     ArtistById, ArtistsByUserId, ArtistSearch, UsersAll, UserById, UserByEmail}

  function DeleteTracksByAlbumEvictions(albumId: Id): (r: Evictions)
    ensures DeleteTracksByAlbumRegions <= r.regions && Evicts(r, CacheKey(TracksByAlbum, IdKey(albumId)))
    ensures TrackLikedStatus !in r.regions && ArtistSubscribed !in r.regions
  {
    Evictions(DeleteTracksByAlbumRegions, {CacheKey(TracksByAlbum, IdKey(albumId))})
  }

  /** `addArtistToTrack` and `removeArtistFromTrack` list the same evictions; `albumId` is the track's album. */
  function TrackArtistEvictions(trackId: Id, albumId: Id, artistId: Id, user: User): (r: Evictions)
    ensures {TracksAll, TracksByAlbum, AlbumsAll, AlbumsByArtist, AlbumsSearch, ArtistsAll, ArtistSearch, UsersAll} <= r.regions
    ensures Evicts(r, CacheKey(TrackById, IdKey(trackId))) && Evicts(r, CacheKey(AlbumById, IdKey(albumId)))
    ensures Evicts(r, CacheKey(ArtistById, IdKey(artistId))) && Evicts(r, CacheKey(ArtistsByUserId, IdKey(user.id)))
    ensures UserKeys(user) <= r.keys
    ensures TrackLikedStatus !in r.regions && ArtistSubscribed !in r.regions
  {
    Evictions(
      {TracksAll, TracksByAlbum, AlbumsAll, AlbumsByArtist, AlbumsSearch, ArtistsAll, ArtistSearch, UsersAll},
      {CacheKey(TrackById, IdKey(trackId)), CacheKey(AlbumById, IdKey(albumId)), CacheKey(ArtistById, IdKey(artistId)),
       CacheKey(ArtistsByUserId, IdKey(user.id))} + UserKeys(user))
  }

  /** The evictions `likeTrack` and `unlikeTrack` list: nothing in `track.likedStatus`. */
  function LikeEvictionsAsWritten(trackId: Id, user: User): (r: Evictions)
    ensures UsersAll in r.regions && UserKeys(user) <= r.keys
    ensures Evicts(r, CacheKey(TrackById, IdKey(trackId))) && Evicts(r, CacheKey(TracksLiked, IdKey(user.id)))
    ensures !Evicts(r, LikedStatusKey(trackId, user.id))
  {
    Evictions({UsersAll}, {CacheKey(TrackById, IdKey(trackId)), CacheKey(TracksLiked, IdKey(user.id))} + UserKeys(user))
  }

  /** The cache key of `isTrackLikedByUser(trackId, userId)`: `{#trackId, #userId}`. */
  function LikedStatusKey(trackId: Id, userId: Id): CacheKey {
    CacheKey(TrackLikedStatus, PairKey(trackId, userId))
  }

  /** The corrected set the toggles should apply: the listed evictions plus the toggled pair's liked status. */
  function LikeEvictions(trackId: Id, user: User): (r: Evictions)
    ensures LikeEvictionsAsWritten(trackId, user).regions <= r.regions && LikeEvictionsAsWritten(trackId, user).keys <= r.keys
    ensures Evicts(r, LikedStatusKey(trackId, user.id))
  {
    Then(LikeEvictionsAsWritten(trackId, user), Evictions({}, {LikedStatusKey(trackId, user.id)}))
  }

  /** A toggle as written leaves a cached liked status in place, so `isTrackLikedByUser` keeps answering from before the toggle. */
  lemma LikeEvictionsAsWrittenKeepStatus(cache: map<CacheKey, CachedValue>, trackId: Id, user: User)
    requires LikedStatusKey(trackId, user.id) in cache
    ensures LikedStatusKey(trackId, user.id) in Evict(cache, LikeEvictionsAsWritten(trackId, user))
    ensures Evict(cache, LikeEvictionsAsWritten(trackId, user))[LikedStatusKey(trackId, user.id)] == cache[LikedStatusKey(trackId, user.id)]
  {
    assert !Evicts(LikeEvictionsAsWritten(trackId, user), LikedStatusKey(trackId, user.id));
  }

  /**
   * With the corrected set, every cached answer about the toggled pair is gone (the
   * track, the user's liked list and the liked status) while the liked status of
   * every other pair stays.
   */
  lemma LikeEvictionsDropPair(cache: map<CacheKey, CachedValue>, trackId: Id, user: User)
    ensures LikedStatusKey(trackId, user.id) !in Evict(cache, LikeEvictions(trackId, user))
    ensures CacheKey(TrackById, IdKey(trackId)) !in Evict(cache, LikeEvictions(trackId, user))
    ensures CacheKey(TracksLiked, IdKey(user.id)) !in Evict(cache, LikeEvictions(trackId, user))
    ensures forall k :: k in cache && k.region == TrackLikedStatus && k != LikedStatusKey(trackId, user.id) ==> k in Evict(cache, LikeEvictions(trackId, user))
  {
    EvictListed(cache, LikeEvictions(trackId, user));
  }

  // ----- queries -----

  /** `findAllByAlbumId`. */
  function TracksOfAlbum(tracks: map<Id, Track>, albumId: Id): (r: set<Id>)
    ensures forall id :: id in r <==> id in tracks && tracks[id].album == albumId
  {
    set id | id in tracks && tracks[id].album == albumId
  }

  /** `findByLikedUsersId`: the tracks whose `likedUsers` contain the user, i.e. the user's `likedTracks`. */
  function LikedTracks(tracks: map<Id, Track>, userId: Id): (r: set<Id>)
    ensures forall id :: id in r <==> id in tracks && userId in tracks[id].likedUsers
  {
    set id | id in tracks && userId in tracks[id].likedUsers
  }

  /** `existsByIdAndLikedUsersId`. */
  predicate IsLiked(tracks: map<Id, Track>, trackId: Id, userId: Id)
    ensures IsLiked(tracks, trackId, userId) <==> trackId in LikedTracks(tracks, userId)
    ensures trackId !in tracks ==> !IsLiked(tracks, trackId, userId)
  {
    trackId in tracks && userId in tracks[trackId].likedUsers
  }

  /** `searchTracks` computed: nothing for a null or blank title, else the case-insensitive title matches. */
  function SearchResult(tracks: map<Id, Track>, title: Text): (r: set<Id>)
    ensures NullOrBlank(title) ==> r == {}
    ensures !NullOrBlank(title) ==> forall id :: id in r <==> id in tracks && ContainsIgnoreCase(tracks[id].title, title)
  {
    if NullOrBlank(title) then {} else set id | id in tracks && ContainsIgnoreCase(tracks[id].title, title)
  }

  /** A track is found by its own non-blank title, and by the same title in lower case. */
  lemma {:induction false} SearchFindsOwnTitle(tracks: map<Id, Track>, id: Id)
    requires id in tracks && tracks[id].title.Some? && !IsBlank(tracks[id].title.value)
    ensures id in SearchResult(tracks, tracks[id].title)
    ensures id in SearchResult(tracks, Some(LowerString(tracks[id].title.value)))
  {
    var s := tracks[id].title.value;
    SubstringOfItself(LowerString(s));
    LowerStringIdempotent(s);
    LowerKeepsBlank(s);
  }

  // ----- ownership -----

  /** `checkTrackOwnership`: the check is made against the track's first artist. */
  function CheckTrackOwnership(artists: map<Id, Artist>, t: Track, user: User): (r: Outcome<Failure>)
    requires |t.artists| > 0 && t.artists[0] in artists
    ensures r.Pass? <==> MayModify(artists[t.artists[0]], user)
    ensures r.Fail? ==> r.error == Forbidden
  {
    CheckArtistOwnership(artists[t.artists[0]], user)
  }

  /** Under the invariant the creator of a stored track is a stored artist. */
  lemma CreatorStored(db: Catalogue, trackId: Id)
    requires db.Valid() && trackId in db.tracks
    ensures |db.tracks[trackId].artists| > 0 && db.tracks[trackId].artists[0] in db.artists
  {
    var t := db.tracks[trackId];
    assert TrackWellFormed(t, db.albums);
    assert AlbumWellFormed(db.albums[t.album], db.artists);
    assert db.albums[t.album].artists[0] in db.albums[t.album].artists;
  }

  // ----- record updates -----

  /** The track `createTrack` saves: fields from the request, the album, and the album's creator as its only artist. */
  function NewTrack(id: Id, req: TrackRequest, audio: Option<FileName>, album: Album): (r: Track)
    requires |album.artists| > 0
    ensures r.id == id && r.title == req.title && r.genre == req.genre && r.isExplicit == req.isExplicit && r.audioFilePath == audio
    ensures r.album == album.id && r.artists == [album.artists[0]] && r.likedUsers == []
    ensures forall albums: map<Id, Album> {:trigger TrackWellFormed(r, albums)} :: album.id in albums && albums[album.id] == album ==> TrackWellFormed(r, albums)
  {
    Track(id, req.title, req.genre, audio, req.isExplicit, album.id, [album.artists[0]], [])
  }

  /**
   * `updateTrack`'s partial update: a null title or genre keeps the stored value,
   * `isExplicit` is always overwritten and the audio path changes only when a file
   * was uploaded; relations are untouched.
   */
  function UpdatedTrack(t: Track, req: TrackRequest, upload: Option<FileName>): (r: Track)
    ensures r.title == (if req.title.Some? then req.title else t.title)
    ensures r.genre == (if req.genre.Some? then req.genre else t.genre)
    ensures r.isExplicit == req.isExplicit
    ensures r.audioFilePath == (if upload.Some? then upload else t.audioFilePath)
    ensures r.id == t.id && r.album == t.album && r.artists == t.artists && r.likedUsers == t.likedUsers
  {
    t.(title := if req.title != None then req.title else t.title,
       genre := if req.genre != None then req.genre else t.genre,
       isExplicit := req.isExplicit,
       audioFilePath := if upload.Some? then upload else t.audioFilePath)
  }

  /** Repeating an update without a file changes nothing more. */
  lemma UpdatedTrackIdempotent(t: Track, req: TrackRequest)
    ensures UpdatedTrack(UpdatedTrack(t, req, None), req, None) == UpdatedTrack(t, req, None)
  {
  }

  /** The audio files of a set of tracks. */
  function AudioFiles(tracks: map<Id, Track>, ids: set<Id>): set<FileName> {
    set id | id in ids && id in tracks && tracks[id].audioFilePath.Some? :: tracks[id].audioFilePath.value
  }

  lemma AudioFilesAdd(tracks: map<Id, Track>, ids: set<Id>, id: Id)
    ensures id in tracks ==> AudioFiles(tracks, ids + {id}) == AudioFiles(tracks, ids) + NameSet(tracks[id].audioFilePath)
    ensures id !in tracks ==> AudioFiles(tracks, ids + {id}) == AudioFiles(tracks, ids)
  {
  }

  lemma MinusUnion(a: set<FileName>, b: set<FileName>, c: set<FileName>)
    ensures a - (b + c) == (a - b) - c
  {
  }

  // ----- operations -----

  method CreateTrack(db: Catalogue, albumId: Id, user: User, req: TrackRequest, file: Option<MultipartFile>)
    returns (r: Result<Track, Failure>)
    requires db.Valid()
    modifies db`tracks, db`files, db`nextFile, db`nextId, db`cache
    ensures db.Valid()
    ensures albumId !in old(db.albums) ==> r == Err(NotFound)
    ensures albumId in old(db.albums) ==>
      var album := old(db.albums[albumId]);
      && |album.artists| > 0 && album.artists[0] in old(db.artists)
      && (!MayModify(old(db.artists[album.artists[0]]), user) ==> r == Err(Forbidden))
      && (MayModify(old(db.artists[album.artists[0]]), user) ==>
            && r == Ok(NewTrack(old(db.nextId), req, Uploaded(Audios, file, old(db.nextFile)), album))
            && db.tracks == old(db.tracks)[old(db.nextId) := r.value]
            && db.nextId == old(db.nextId) + 1
            && db.files == old(db.files) + NameSet(r.value.audioFilePath)
            && db.nextFile == (if Present(file) then old(db.nextFile) + 1 else old(db.nextFile))
            && db.cache == Evict(old(db.cache), CreateTrackEvictions(r.value.id, albumId, user)))
    ensures r.Err? ==> unchanged(db)
  {
    if albumId !in db.albums {
      return Err(NotFound);
    }
    var album := db.albums[albumId];
    assert AlbumWellFormed(album, db.artists);
    assert album.artists[0] in album.artists;
    // `artistRepository.findById(album.getArtists().getFirst().getId())` always finds the creator here.
    var artist := db.artists[album.artists[0]];
    var check := CheckArtistOwnership(artist, user);
    if check.Fail? {
      return Err(check.error);
    }
    var audio := db.UploadIfPresent(Audios, file);
    var id := db.NewId();
    var t := NewTrack(id, req, audio, album);
    assert album.id == albumId;
    assert NoDuplicates(t.artists) by { assert multiset(t.artists) == multiset{album.artists[0]}; }
    db.AddTrack(t);
    r := Ok(t);
    db.EvictAll(CreateTrackEvictions(id, albumId, user));
  }

  method UpdateTrack(db: Catalogue, trackId: Id, user: User, req: TrackRequest, file: Option<MultipartFile>)
    returns (r: Result<Track, Failure>)
    requires db.Valid()
    modifies db`tracks, db`files, db`nextFile, db`cache
    ensures db.Valid()
    ensures trackId !in old(db.tracks) ==> r == Err(NotFound)
    ensures trackId in old(db.tracks) ==>
      var t := old(db.tracks[trackId]);
      && |t.artists| > 0 && t.artists[0] in old(db.artists)
      && (!MayModify(old(db.artists[t.artists[0]]), user) ==> r == Err(Forbidden))
      && (MayModify(old(db.artists[t.artists[0]]), user) ==>
            && r == Ok(UpdatedTrack(t, req, Uploaded(Audios, file, old(db.nextFile))))
            && db.tracks == old(db.tracks)[trackId := r.value]
            && db.files == old(db.files) + NameSet(Uploaded(Audios, file, old(db.nextFile)))
            && db.nextFile == (if Present(file) then old(db.nextFile) + 1 else old(db.nextFile))
            && db.cache == Evict(old(db.cache), UpdateTrackEvictions(trackId, t.album, user)))
    ensures r.Err? ==> unchanged(db)
  {
    if trackId !in db.tracks {
      return Err(NotFound);
    }
    var t := db.tracks[trackId];
    CreatorStored(db, trackId);
    var check := CheckTrackOwnership(db.artists, t, user);
    if check.Fail? {
      return Err(check.error);
    }
    var audio := db.UploadIfPresent(Audios, file);
    var updated := UpdatedTrack(t, req, audio);
    assert TrackWellFormed(t, db.albums);
    db.SaveTrack(updated);
    r := Ok(updated);
    db.EvictAll(UpdateTrackEvictions(trackId, updated.album, user));
  }

  method DeleteTrack(db: Catalogue, trackId: Id, user: User) returns (r: Outcome<Failure>)
    requires db.Valid()
    modifies db`tracks, db`files, db`cache
    ensures db.Valid()
    ensures trackId !in old(db.tracks) ==> r == Fail(NotFound)
    ensures trackId in old(db.tracks) ==>
      var t := old(db.tracks[trackId]);
      && |t.artists| > 0 && t.artists[0] in old(db.artists)
      && (!MayModify(old(db.artists[t.artists[0]]), user) ==> r == Fail(Forbidden))
      && (MayModify(old(db.artists[t.artists[0]]), user) ==>
            && r == Pass
            && db.tracks == old(db.tracks) - {trackId}
            && db.files == old(db.files) - NameSet(t.audioFilePath)
            && db.cache == Evict(old(db.cache), DeleteTrackEvictions(trackId, user)))
    ensures r.Fail? ==> unchanged(db)
  {
    if trackId !in db.tracks {
      return Fail(NotFound);
    }
    var t := db.tracks[trackId];
    CreatorStored(db, trackId);
    r := CheckTrackOwnership(db.artists, t, user);
    if r.Fail? {
      return;
    }
    db.DeleteIfSet(t.audioFilePath);
    db.tracks := db.tracks - {trackId};
    db.EvictAll(DeleteTrackEvictions(trackId, user));
  }

  /**
   * `delete(trackId)`: no ownership check. It is only reached by self-invocation from
   * `deleteTracksByAlbum`, which bypasses the proxy, so its own `@CacheEvict` list never applies.
   */
  method Delete(db: Catalogue, trackId: Id) returns (r: Outcome<Failure>)
    requires db.Valid()
    modifies db`tracks, db`files
    ensures db.Valid()
    ensures trackId !in old(db.tracks) ==> r == Fail(NotFound) && unchanged(db)
    ensures trackId in old(db.tracks) ==>
      && r == Pass
      && db.tracks == old(db.tracks) - {trackId}
      && db.files == old(db.files) - NameSet(old(db.tracks[trackId].audioFilePath))
  {
    if trackId !in db.tracks {
      return Fail(NotFound);
    }
    var t := db.tracks[trackId];
    db.DeleteIfSet(t.audioFilePath);
    db.tracks := db.tracks - {trackId};
    r := Pass;
  }

  /** The `forEach(track -> delete(track.getId()))` loop over the given tracks. */
  method DeleteEach(db: Catalogue, ids: set<Id>)
    requires db.Valid()
    modifies db`tracks, db`files
    ensures db.Valid()
    ensures forall id :: id in db.tracks <==> id in old(db.tracks) && id !in ids
    ensures forall id :: id in db.tracks ==> db.tracks[id] == old(db.tracks[id])
    ensures db.files == old(db.files) - AudioFiles(old(db.tracks), ids)
  {
    var pending, done := ids, {};
    while pending != {}
      invariant db.Valid()
      invariant pending <= ids && done == ids - pending
      invariant forall id :: id in db.tracks <==> id in old(db.tracks) && id !in done
      invariant forall id :: id in db.tracks ==> db.tracks[id] == old(db.tracks[id])
      invariant db.files == old(db.files) - AudioFiles(old(db.tracks), done)
      decreases |pending|
    {
      var id :| id in pending;
      ghost var before := db.files;
      var r := Delete(db, id);
      ghost var gone := if id in old(db.tracks) then NameSet(old(db.tracks[id].audioFilePath)) else {};
      assert db.files == before - gone;
      AudioFilesAdd(old(db.tracks), done, id);
      MinusUnion(old(db.files), AudioFiles(old(db.tracks), done), gone);
      pending, done := pending - {id}, done + {id};
    }
  }

  /** `deleteTracksByAlbum`: every track of the album is deleted with its audio file; no track of the album remains. */
  method DeleteTracksByAlbum(db: Catalogue, albumId: Id)
    requires db.Valid()
    modifies db`tracks, db`files, db`cache
    ensures db.Valid()
    ensures forall id :: id in db.tracks <==> id in old(db.tracks) && old(db.tracks[id].album) != albumId
    ensures forall id :: id in db.tracks ==> db.tracks[id] == old(db.tracks[id])
    ensures db.files == old(db.files) - AudioFiles(old(db.tracks), TracksOfAlbum(old(db.tracks), albumId))
    ensures db.cache == Evict(old(db.cache), DeleteTracksByAlbumEvictions(albumId))
  {
    DeleteEach(db, TracksOfAlbum(db.tracks, albumId));
    db.EvictAll(DeleteTracksByAlbumEvictions(albumId));
  }

  method AddArtistToTrack(db: Catalogue, user: User, trackId: Id, artistId: Id) returns (r: Result<Track, Failure>)
    requires db.Valid()
    modifies db`tracks, db`cache
    ensures db.Valid()
    ensures trackId !in old(db.tracks) ==> r == Err(NotFound)
    ensures trackId in old(db.tracks) ==>
      var t := old(db.tracks[trackId]);
      && |t.artists| > 0 && t.artists[0] in old(db.artists)
      && (!MayModify(old(db.artists[t.artists[0]]), user) ==> r == Err(Forbidden))
      && (MayModify(old(db.artists[t.artists[0]]), user) && artistId !in old(db.artists) ==> r == Err(NotFound))
      && (MayModify(old(db.artists[t.artists[0]]), user) && artistId in old(db.artists) ==>
            match AddArtist(t.artists, artistId)
            case Err(e) => r == Err(e)
            case Ok(artists) =>
              && r == Ok(t.(artists := artists))
              && db.tracks == old(db.tracks)[trackId := r.value]
              && db.cache == Evict(old(db.cache), TrackArtistEvictions(trackId, t.album, artistId, user)))
    ensures r.Err? ==> unchanged(db)
  {
    if trackId !in db.tracks {
      return Err(NotFound);
    }
    var t := db.tracks[trackId];
    CreatorStored(db, trackId);
    var check := CheckTrackOwnership(db.artists, t, user);
    if check.Fail? {
      return Err(check.error);
    }
    if artistId !in db.artists {
      return Err(NotFound);
    }
    var added := AddArtist(t.artists, artistId);
    if added.Err? {
      return Err(added.error);
    }
    assert TrackWellFormed(t, db.albums);
    AddArtistKeepsCreator(t.artists, artistId);
    var updated := t.(artists := added.value);
    db.SaveTrack(updated);
    r := Ok(updated);
    db.EvictAll(TrackArtistEvictions(trackId, t.album, artistId, user));
  }

  /**
   * `removeArtistFromTrack` as evidently intended: the `album.byId` eviction, keyed by
   * `#result.album.id` on a void method, is keyed by the track's album instead, so the
   * call returns normally with all fourteen evictions applied.
   */
  method RemoveArtistFromTrack(db: Catalogue, user: User, trackId: Id, artistId: Id) returns (r: Outcome<Failure>)
    requires db.Valid()
    modifies db`tracks, db`cache
    ensures db.Valid()
    ensures trackId !in old(db.tracks) ==> r == Fail(NotFound)
    ensures trackId in old(db.tracks) ==>
      var t := old(db.tracks[trackId]);
      && |t.artists| > 0 && t.artists[0] in old(db.artists)
      && (!MayModify(old(db.artists[t.artists[0]]), user) ==> r == Fail(Forbidden))
      && (MayModify(old(db.artists[t.artists[0]]), user) && artistId !in old(db.artists) ==> r == Fail(NotFound))
      && (MayModify(old(db.artists[t.artists[0]]), user) && artistId in old(db.artists) ==>
            match RemoveArtist(t.artists, artistId)
            case Err(e) => r == Fail(e)
            case Ok(artists) =>
              && r == Pass
              && db.tracks == old(db.tracks)[trackId := t.(artists := artists)]
              && db.cache == Evict(old(db.cache), TrackArtistEvictions(trackId, t.album, artistId, user)))
    ensures r.Fail? ==> unchanged(db)
  {
    if trackId !in db.tracks {
      return Fail(NotFound);
    }
    var t := db.tracks[trackId];
    CreatorStored(db, trackId);
    r := CheckTrackOwnership(db.artists, t, user);
    if r.Fail? {
      return;
    }
    if artistId !in db.artists {
      return Fail(NotFound);
    }
    var removed := RemoveArtist(t.artists, artistId);
    if removed.Err? {
      return Fail(removed.error);
    }
    assert TrackWellFormed(t, db.albums);
    RemoveArtistKeepsCreator(t.artists, artistId);
    db.SaveTrack(t.(artists := removed.value));
    db.EvictAll(TrackArtistEvictions(trackId, t.album, artistId, user));
  }

  /**
   * The part of `removeArtistFromTrack`'s list Spring runs before the `album.byId` key,
   * `#result.album.id`, fails on the method's null result: the track's entry and four
   * listings. The nine evictions listed after that key never run.
   */
  function RemoveArtistEvictionsBeforeKeyFailure(trackId: Id): (r: Evictions)
    ensures {TracksAll, TracksByAlbum, AlbumsAll, AlbumsByArtist} <= r.regions && Evicts(r, CacheKey(TrackById, IdKey(trackId)))
    ensures forall k :: k in r.keys ==> k.region == TrackById
    ensures r.regions * SkippedAfterKeyFailure == {}
  {
    Evictions({TracksAll, TracksByAlbum, AlbumsAll, AlbumsByArtist}, {CacheKey(TrackById, IdKey(trackId))})
  }

  /** The regions of the failing `album.byId` eviction and of the evictions listed after it. */
  const SkippedAfterKeyFailure: set<Region> :=
    {AlbumById, AlbumsSearch, ArtistsAll, ArtistById, ArtistsByUserId, ArtistSearch, UsersAll, UserById, UserByEmail}

  /** After the failed removal every cached album view, artist entry and user entry is still there with its old value. */
  lemma RemoveArtistAsWrittenKeepsViews(cache: map<CacheKey, CachedValue>, trackId: Id)
    ensures forall k :: k in cache && k.region in SkippedAfterKeyFailure ==>
      k in Evict(cache, RemoveArtistEvictionsBeforeKeyFailure(trackId)) && Evict(cache, RemoveArtistEvictionsBeforeKeyFailure(trackId))[k] == cache[k]
  {
    var e := RemoveArtistEvictionsBeforeKeyFailure(trackId);
    forall k | k in cache && k.region in SkippedAfterKeyFailure
      ensures k in Evict(cache, e) && Evict(cache, e)[k] == cache[k]
    {
      assert k.region !in e.regions && k !in e.keys;
      EvictListed(cache, e);
    }
  }

  /**
   * `removeArtistFromTrack` as written. Every accepted removal ends in
   * `SpelEvaluationException`: `#result` is null on a void method, so the `album.byId`
   * key cannot be evaluated, after the evictions listed before it have run. Whether the
   * track's save survives depends on the order of the transaction and cache advice,
   * which the source does not fix: `rolledBack` says the transaction advice runs
   * outside and so rolls the save back.
   */
  method RemoveArtistFromTrackAsWritten(db: Catalogue, user: User, trackId: Id, artistId: Id, rolledBack: bool)
    returns (r: Outcome<Failure>)
    requires db.Valid()
    modifies db`tracks, db`cache
    ensures db.Valid()
    ensures trackId !in old(db.tracks) ==> r == Fail(NotFound)
    ensures trackId in old(db.tracks) ==>
      var t := old(db.tracks[trackId]);
      && |t.artists| > 0 && t.artists[0] in old(db.artists)
      && (!MayModify(old(db.artists[t.artists[0]]), user) ==> r == Fail(Forbidden))
      && (MayModify(old(db.artists[t.artists[0]]), user) && artistId !in old(db.artists) ==> r == Fail(NotFound))
      && (MayModify(old(db.artists[t.artists[0]]), user) && artistId in old(db.artists) ==>
            match RemoveArtist(t.artists, artistId)
            case Err(e) => r == Fail(e)
            case Ok(artists) =>
              && r == Fail(KeyEvaluation)
              && db.tracks == (if rolledBack then old(db.tracks) else old(db.tracks)[trackId := t.(artists := artists)])
              && db.cache == Evict(old(db.cache), RemoveArtistEvictionsBeforeKeyFailure(trackId)))
    ensures r != Fail(KeyEvaluation) ==> unchanged(db)
  {
    if trackId !in db.tracks {
      return Fail(NotFound);
    }
    var t := db.tracks[trackId];
    CreatorStored(db, trackId);
    r := CheckTrackOwnership(db.artists, t, user);
    if r.Fail? {
      return;
    }
    if artistId !in db.artists {
      return Fail(NotFound);
    }
    var removed := RemoveArtist(t.artists, artistId);
    if removed.Err? {
      return Fail(removed.error);
    }
    assert TrackWellFormed(t, db.albums);
    RemoveArtistKeepsCreator(t.artists, artistId);
    if !rolledBack {
      db.SaveTrack(t.(artists := removed.value));
    }
    db.EvictAll(RemoveArtistEvictionsBeforeKeyFailure(trackId));
    r := Fail(KeyEvaluation);
  }

  /** `likeTrack`: adds the caller to the track's `likedUsers` only when absent. */
  method LikeTrack(db: Catalogue, trackId: Id, user: User) returns (r: Outcome<Failure>)
    requires db.Valid()
    modifies db`tracks, db`cache
    ensures db.Valid()
    ensures trackId !in old(db.tracks) ==> r == Fail(NotFound) && unchanged(db)
    ensures trackId in old(db.tracks) ==>
      var t := old(db.tracks[trackId]);
      && r == Pass
      && db.tracks == old(db.tracks)[trackId := t.(likedUsers := AddIfAbsent(t.likedUsers, user.id))]
      && db.cache == Evict(old(db.cache), LikeEvictionsAsWritten(trackId, user))
      && (LikedStatusKey(trackId, user.id) in old(db.cache) ==>
            LikedStatusKey(trackId, user.id) in db.cache && db.cache[LikedStatusKey(trackId, user.id)] == old(db.cache)[LikedStatusKey(trackId, user.id)])
  {
    if trackId !in db.tracks {
      return Fail(NotFound);
    }
    var t := db.tracks[trackId];
    assert TrackWellFormed(t, db.albums);
    if user.id !in t.likedUsers {
      db.SaveTrack(t.(likedUsers := t.likedUsers + [user.id]));
    } else {
      assert AddIfAbsent(t.likedUsers, user.id) == t.likedUsers;
      assert db.tracks == db.tracks[trackId := t];
    }
    r := Pass;
    ghost var cache0 := db.cache;
    db.EvictAll(LikeEvictionsAsWritten(trackId, user));
    if LikedStatusKey(trackId, user.id) in cache0 {
      LikeEvictionsAsWrittenKeepStatus(cache0, trackId, user);
    }
  }

  /**
   * `unlikeTrack`: when the caller likes the track, the pair leaves `track.likedUsers`
   * and `user.likedTracks`, two views of the one `track_likes` row.
   */
  method UnlikeTrack(db: Catalogue, trackId: Id, user: User) returns (r: Outcome<Failure>)
    requires db.Valid() && db.IsStored(user)
    modifies db`tracks, db`cache
    ensures db.Valid()
    ensures trackId !in old(db.tracks) ==> r == Fail(NotFound) && unchanged(db)
    ensures trackId in old(db.tracks) ==>
      var t := old(db.tracks[trackId]);
      && r == Pass
      && db.tracks == old(db.tracks)[trackId := t.(likedUsers := RemoveFirst(t.likedUsers, user.id))]
      && db.cache == Evict(old(db.cache), LikeEvictionsAsWritten(trackId, user))
      && (LikedStatusKey(trackId, user.id) in old(db.cache) ==>
            LikedStatusKey(trackId, user.id) in db.cache && db.cache[LikedStatusKey(trackId, user.id)] == old(db.cache)[LikedStatusKey(trackId, user.id)])
  {
    if trackId !in db.tracks {
      return Fail(NotFound);
    }
    var t := db.tracks[trackId];
    assert TrackWellFormed(t, db.albums);
    RemoveFirstNoDuplicates(t.likedUsers, user.id);
    if user.id in t.likedUsers {
      db.SaveTrack(t.(likedUsers := RemoveFirst(t.likedUsers, user.id)));
    } else {
      RemoveFirstFacts(t.likedUsers, user.id);
      assert db.tracks == db.tracks[trackId := t];
    }
    r := Pass;
    ghost var cache0 := db.cache;
    db.EvictAll(LikeEvictionsAsWritten(trackId, user));
    if LikedStatusKey(trackId, user.id) in cache0 {
      LikeEvictionsAsWrittenKeepStatus(cache0, trackId, user);
    }
  }

  /** Liking then unliking a track the caller did not like restores its `likedUsers`. */
  lemma LikeThenUnlike(t: Track, userId: Id)
    requires userId !in t.likedUsers
    ensures RemoveFirst(AddIfAbsent(t.likedUsers, userId), userId) == t.likedUsers
  {
    RemoveFirstAfterAdd(t.likedUsers, userId);
  }

  /** After a like the pair is liked and after an unlike it is not, whatever it was before. */
  lemma LikeToggles(t: Track, userId: Id)
    requires NoDuplicates(t.likedUsers)
    ensures userId in AddIfAbsent(t.likedUsers, userId)
    ensures userId !in RemoveFirst(t.likedUsers, userId)
    ensures AddIfAbsent(AddIfAbsent(t.likedUsers, userId), userId) == AddIfAbsent(t.likedUsers, userId)
  {
    RemoveFirstNoDuplicates(t.likedUsers, userId);
    AddIfAbsentIdempotent(t.likedUsers, userId);
  }

  // ----- cached queries -----

  method GetTracksByAlbumId(db: Catalogue, albumId: Id) returns (ids: set<Id>)
    requires db.Valid()
    modifies db`cache
    ensures db.Valid()
    ensures var k := CacheKey(TracksByAlbum, IdKey(albumId));
      && (k in old(db.cache) ==> ids == old(db.cache[k]).ids && db.cache == old(db.cache))
      && (k !in old(db.cache) ==> ids == TracksOfAlbum(db.tracks, albumId) && db.cache == old(db.cache)[k := Listing(ids)])
  {
    var v := db.ReadListing(CacheKey(TracksByAlbum, IdKey(albumId)), Some(TracksOfAlbum(db.tracks, albumId)));
    ids := v.value;
  }

  method SearchTracks(db: Catalogue, title: Text) returns (ids: set<Id>)
    requires db.Valid()
    modifies db`cache
    ensures db.Valid()
    ensures var k := CacheKey(TracksSearch, TextKey(title));
      && (k in old(db.cache) ==> ids == old(db.cache[k]).ids && db.cache == old(db.cache))
      && (k !in old(db.cache) ==> ids == SearchResult(db.tracks, title) && db.cache == old(db.cache)[k := Listing(ids)])
  {
    var v := db.ReadListing(CacheKey(TracksSearch, TextKey(title)), Some(SearchResult(db.tracks, title)));
    ids := v.value;
  }

  method GetLikedTracks(db: Catalogue, user: User) returns (ids: set<Id>)
    requires db.Valid()
    modifies db`cache
    ensures db.Valid()
    ensures var k := CacheKey(TracksLiked, IdKey(user.id));
      && (k in old(db.cache) ==> ids == old(db.cache[k]).ids && db.cache == old(db.cache))
      && (k !in old(db.cache) ==> ids == LikedTracks(db.tracks, user.id) && db.cache == old(db.cache)[k := Listing(ids)])
  {
    var v := db.ReadListing(CacheKey(TracksLiked, IdKey(user.id)), Some(LikedTracks(db.tracks, user.id)));
    ids := v.value;
  }

  method IsTrackLikedByUser(db: Catalogue, trackId: Id, userId: Id) returns (liked: bool)
    requires db.Valid()
    modifies db`cache
    ensures db.Valid()
    ensures var k := LikedStatusKey(trackId, userId);
      && (k in old(db.cache) ==> old(db.cache[k]) == Flag(liked) && db.cache == old(db.cache))
      && (k !in old(db.cache) ==> liked == IsLiked(db.tracks, trackId, userId) && db.cache == old(db.cache)[k := Flag(liked)])
  {
    liked := db.ReadFlag(LikedStatusKey(trackId, userId), IsLiked(db.tracks, trackId, userId));
  }
}
