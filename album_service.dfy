/**
 * AlbumService: creating an album with its nested tracks, updating and deleting
 * albums (with their tracks), the artist list of an album, and the album queries.
 */
module AlbumService {
  import opened Wrappers
  import opened Model
  import opened Membership
  import opened Cache
  import opened Store
  import TrackService

  // ----- eviction sets -----

  /** `createAlbum`, `updateAlbum`, `deleteAlbum`, `delete`, `addArtistToAlbum` and `removeArtistFromAlbum` all list this set. */
  function AlbumEvictions(albumId: Id): (r: Evictions)
    ensures {AlbumsAll, AlbumsByArtist, AlbumsSearch} <= r.regions && Evicts(r, CacheKey(AlbumById, IdKey(albumId)))
    ensures TrackLikedStatus !in r.regions && ArtistSubscribed !in r.regions
  {
    Evictions({AlbumsAll, AlbumsByArtist, AlbumsSearch}, {CacheKey(AlbumById, IdKey(albumId))})
  }

  function DeleteAlbumsByArtistEvictions(): (r: Evictions)
    ensures {AlbumsAll, AlbumsByArtist, AlbumsSearch} <= r.regions && r.keys == {}
    ensures ArtistsByUserId !in r.regions
  {
    Evictions({AlbumsAll, AlbumsByArtist, AlbumsSearch}, {})
  }

  /**
   * The evictions of the `n` nested `createTrack` calls under album `albumId`, in order.
   * The model numbers all tables from one counter, so the album's tracks are `albumId + 1`, ..., `albumId + n`.
   */
  function NestedTrackEvictions(albumId: Id, n: nat, user: User): Evictions {
    if n == 0 then NoEvictions else Then(NestedTrackEvictions(albumId, n - 1, user), TrackService.CreateTrackEvictions(albumId + n, albumId, user))
  }

  /** One more nested `createTrack` extends the evictions of the ones before it. */
  lemma NestedTrackStep<V>(cache: map<CacheKey, V>, before: map<CacheKey, V>, after: map<CacheKey, V>,
                           albumId: Id, i: nat, j: nat, next: Id, user: User)
    requires j == i + 1 && next == albumId + j
    requires before == Evict(cache, NestedTrackEvictions(albumId, i, user))
    requires after == Evict(before, TrackService.CreateTrackEvictions(next, albumId, user))
    ensures after == Evict(cache, NestedTrackEvictions(albumId, j, user))
  {
    EvictThen(cache, NestedTrackEvictions(albumId, i, user), TrackService.CreateTrackEvictions(albumId + j, albumId, user));
  }

  /** The evictions of the `deleteTracksByAlbum` calls for the albums deleted in `order`. */
  function AlbumBatchEvictions(order: seq<Id>): Evictions {
    if order == [] then NoEvictions else Then(AlbumBatchEvictions(order[..|order| - 1]), TrackService.DeleteTracksByAlbumEvictions(order[|order| - 1]))
  }

  /**
   * The evictions of the `deleteTracksByAlbum` calls for the albums in `gone`, whatever
   * order they come in: the shared regions once any album is deleted, and each album's
   * track listing.
   */
  function AlbumSetEvictions(gone: set<Id>): Evictions {
    Evictions(if gone == {} then {} else TrackService.DeleteTracksByAlbumRegions,
              set id | id in gone :: CacheKey(TracksByAlbum, IdKey(id)))
  }

  /** One more album deleted by the loop extends the evictions of the ones before it. */
  lemma AlbumSetStep<V>(cache: map<CacheKey, V>, before: map<CacheKey, V>, after: map<CacheKey, V>,
                        done: set<Id>, id: Id, next: set<Id>)
    requires next == done + {id}
    requires before == Evict(cache, AlbumSetEvictions(done))
    requires after == Evict(before, TrackService.DeleteTracksByAlbumEvictions(id))
    ensures after == Evict(cache, AlbumSetEvictions(next))
  {
    EvictThen(cache, AlbumSetEvictions(done), TrackService.DeleteTracksByAlbumEvictions(id));
    assert Then(AlbumSetEvictions(done), TrackService.DeleteTracksByAlbumEvictions(id)) == AlbumSetEvictions(next);
  }

  /** The order in which the repository returns the albums does not matter to the cache. */
  lemma {:induction false} AlbumBatchAsSet(order: seq<Id>)
    ensures AlbumBatchEvictions(order) == AlbumSetEvictions(set id | id in order)
  {
    if order != [] {
      var p, last := order[..|order| - 1], order[|order| - 1];
      AlbumBatchAsSet(p);
      assert order == p + [last];
      assert (set id | id in order) == (set id | id in p) + {last};
    }
  }

  // ----- queries -----

  /** `findByArtistsId`: the albums whose artist list contains the artist, at any position. */
  function AlbumsOfArtist(albums: map<Id, Album>, artistId: Id): (r: set<Id>)
    ensures forall id :: id in r <==> id in albums && artistId in albums[id].artists
  {
    set id | id in albums && artistId in albums[id].artists
  }

  /** `getAlbumsByArtistId` computed: NotFound for an unknown artist. */
  function AlbumsByArtistResult(artists: map<Id, Artist>, albums: map<Id, Album>, artistId: Id): (r: Result<set<Id>, Failure>)
    ensures artistId !in artists <==> r == Err(NotFound)
    ensures r.Ok? ==> r.value == AlbumsOfArtist(albums, artistId)
  {
    if artistId !in artists then Err(NotFound) else Ok(AlbumsOfArtist(albums, artistId))
  }

  /** `searchAlbums` computed: a null or blank title gives `getAllAlbums`, otherwise the case-insensitive title matches. */
  function SearchResult(albums: map<Id, Album>, title: Text): (r: set<Id>)
    ensures NullOrBlank(title) ==> r == albums.Keys
    ensures !NullOrBlank(title) ==> forall id :: id in r <==> id in albums && ContainsIgnoreCase(albums[id].title, title)
  {
    if NullOrBlank(title) then albums.Keys else set id | id in albums && ContainsIgnoreCase(albums[id].title, title)
  }

  /** Searching never finds more than all albums, and a null title searches like a blank one: both list every album. */
  lemma SearchWithinAll(albums: map<Id, Album>, title: Text)
    ensures SearchResult(albums, title) <= albums.Keys
    ensures SearchResult(albums, None) == SearchResult(albums, Some(""))
  {
  }

  /** The new tracks of the albums in `gone`. */
  function TracksOfAlbums(tracks: map<Id, Track>, gone: set<Id>): (r: set<Id>)
    ensures forall id :: id in r <==> id in tracks && tracks[id].album in gone
  {
    set id | id in tracks && tracks[id].album in gone
  }

  function ImageFiles(albums: map<Id, Album>, ids: set<Id>): set<FileName> {
    set id | id in ids && id in albums && albums[id].imageFilePath.Some? :: albums[id].imageFilePath.value
  }

  /** Proof step of the album loop: one more album adds its cover, if any, to the removed images. */
  lemma ImageFilesAdd(albums: map<Id, Album>, ids: set<Id>, id: Id)
    ensures id in albums ==> ImageFiles(albums, ids + {id}) == ImageFiles(albums, ids) + NameSet(albums[id].imageFilePath)
    ensures id !in albums ==> ImageFiles(albums, ids + {id}) == ImageFiles(albums, ids)
  {
  }

  /** Proof step of the album loops: the audio files of two track sets are the union of each set's. */
  lemma AudioFilesUnion(tracks: map<Id, Track>, a: set<Id>, b: set<Id>)
    ensures TrackService.AudioFiles(tracks, a + b) == TrackService.AudioFiles(tracks, a) + TrackService.AudioFiles(tracks, b)
  {
  }

  // ----- record updates -----

  function TrackRequests(req: AlbumRequest): seq<TrackRequest> {
    if req.tracks.Some? then req.tracks.value else []
  }

  /** The album `createAlbum` saves: title and description from the request, the artist as its only (creator) artist. */
  function NewAlbum(id: Id, req: AlbumRequest, image: Option<FileName>, artistId: Id): (r: Album)
    ensures r.id == id && r.title == req.title && r.description == req.description && r.imageFilePath == image
    ensures r.artists == [artistId]
    ensures forall artists: map<Id, Artist> {:trigger AlbumWellFormed(r, artists)} :: artistId in artists ==> AlbumWellFormed(r, artists)
  {
    Album(id, req.title, req.description, image, [artistId])
  }

  /** The tracks the nested `createTrack` calls save for `reqs`, in order, under the ids that follow the album's. */
  function CreatedTracks(reqs: seq<TrackRequest>, album: Album): (r: map<Id, Track>)
    requires |album.artists| > 0
    ensures forall id :: id in r <==> album.id < id <= album.id + |reqs|
  {
    if reqs == [] then map[]
    else
      var n := |reqs|;
      CreatedTracks(reqs[..n - 1], album)[album.id + n := TrackService.NewTrack(album.id + n, reqs[n - 1], None, album)]
  }

  /** Each created track is a fresh track of the album, with its creator as the only artist, no audio and no likes. */
  lemma {:induction false} CreatedTracksShape(reqs: seq<TrackRequest>, album: Album)
    requires |album.artists| > 0
    ensures forall id :: id in CreatedTracks(reqs, album) ==>
      var t := CreatedTracks(reqs, album)[id];
      && t.id == id && t.album == album.id && t.artists == [album.artists[0]]
      && t.audioFilePath == None && t.likedUsers == []
  {
    if reqs != [] {
      CreatedTracksShape(reqs[..|reqs| - 1], album);
    }
  }

  /** Creating one more track extends the map by exactly that track. */
  lemma CreatedTracksStep(base: map<Id, Track>, before: map<Id, Track>, after: map<Id, Track>,
                          reqs: seq<TrackRequest>, i: nat, j: nat, next: Id, album: Album)
    requires |album.artists| > 0 && i < |reqs| && j == i + 1 && next == album.id + j
    requires before == base + CreatedTracks(reqs[..i], album)
    requires after == before[next := TrackService.NewTrack(next, reqs[i], None, album)]
    ensures after == base + CreatedTracks(reqs[..j], album)
  {
    assert reqs[..j][..i] == reqs[..i];
  }

  /** `updateAlbum`: null title or description keep the stored value; the image changes only when a file was uploaded. */
  function UpdatedAlbum(a: Album, req: AlbumRequest, upload: Option<FileName>): (r: Album)
    ensures r.title == (if req.title.Some? then req.title else a.title)
    ensures r.description == (if req.description.Some? then req.description else a.description)
    ensures r.imageFilePath == (if upload.Some? then upload else a.imageFilePath)
    ensures r.id == a.id && r.artists == a.artists
  {
    a.(title := if req.title != None then req.title else a.title,
       description := if req.description != None then req.description else a.description,
       imageFilePath := if upload.Some? then upload else a.imageFilePath)
  }

  /** An update whose fields are all null and that uploads nothing leaves the album as it was. */
  lemma EmptyUpdateKeepsAlbum(a: Album, tracks: Option<seq<TrackRequest>>)
    ensures UpdatedAlbum(a, AlbumRequest(None, None, tracks), None) == a
  {
  }

  /** Replacing an album by one with the same artist list keeps the invariants about albums and tracks. */
  lemma SameArtistsKeepValid(albums: map<Id, Album>, artists: map<Id, Artist>, tracks: map<Id, Track>, id: Id, a: Album)
    requires AlbumsWellFormed(albums, artists) && TracksWellFormed(tracks, albums)
    requires id in albums && a.artists == albums[id].artists
    ensures AlbumsWellFormed(albums[id := a], artists) && TracksWellFormed(tracks, albums[id := a])
  {
    forall x | x in albums ensures AlbumWellFormed(albums[id := a][x], artists) {
      assert AlbumWellFormed(albums[x], artists);
    }
    forall t | t in tracks ensures TrackWellFormed(tracks[t], albums[id := a]) {
      assert TrackWellFormed(tracks[t], albums);
    }
  }

  /**
   * Changing an album's artist list in a way that keeps its creator, its freedom from
   * duplicates and its artists stored keeps the invariants.
   */
  lemma SameCreatorKeepsValid(albums: map<Id, Album>, artists: map<Id, Artist>, tracks: map<Id, Track>, id: Id, list: seq<Id>)
    requires AlbumsWellFormed(albums, artists) && TracksWellFormed(tracks, albums)
    requires id in albums && AlbumWellFormed(albums[id], artists)
    requires |list| > 0 && list[0] == albums[id].artists[0] && NoDuplicates(list)
    requires forall x :: x in list ==> x in artists
    ensures AlbumsWellFormed(albums[id := albums[id].(artists := list)], artists)
    ensures TracksWellFormed(tracks, albums[id := albums[id].(artists := list)])
  {
    var albums' := albums[id := albums[id].(artists := list)];
    forall x | x in albums ensures AlbumWellFormed(albums'[x], artists) {
      assert AlbumWellFormed(albums[x], artists);
    }
    forall t | t in tracks ensures TrackWellFormed(tracks[t], albums') {
      assert TrackWellFormed(tracks[t], albums);
    }
  }

  // ----- ownership -----

  /** Under the invariant the creator of a stored album is a stored artist. */
  lemma CreatorStored(db: Catalogue, albumId: Id)
    requires db.Valid() && albumId in db.albums
    ensures |db.albums[albumId].artists| > 0 && db.albums[albumId].artists[0] in db.artists
  {
    assert AlbumWellFormed(db.albums[albumId], db.artists);
    assert db.albums[albumId].artists[0] in db.albums[albumId].artists;
  }

  // ----- operations -----

  /**
   * `createAlbum`: the album, then each nested track request through the track service,
   * whose own evictions apply after each call. The nested calls cannot fail: the album
   * exists and its creator is the artist the caller was just allowed to modify, so the
   * wrapping of their exceptions is unreachable.
   */
  method CreateAlbum(db: Catalogue, artistId: Id, user: User, req: AlbumRequest, file: Option<MultipartFile>)
    returns (r: Result<Album, Failure>)
    requires db.Valid()
    modifies db`albums, db`tracks, db`files, db`nextFile, db`nextId, db`cache
    ensures db.Valid()
    ensures artistId !in old(db.artists) ==> r == Err(NotFound)
    ensures artistId in old(db.artists) && !MayModify(old(db.artists[artistId]), user) ==> r == Err(Forbidden)
    ensures r.Err? ==> unchanged(db)
    ensures artistId in old(db.artists) && MayModify(old(db.artists[artistId]), user) ==>
      var id := old(db.nextId);
      var reqs := TrackRequests(req);
      && r == Ok(NewAlbum(id, req, Uploaded(Images, file, old(db.nextFile)), artistId))
      && db.albums == old(db.albums)[id := r.value]
      && db.nextId == id + 1 + |reqs|
      && db.tracks == old(db.tracks) + CreatedTracks(reqs, r.value)
      && db.files == old(db.files) + NameSet(r.value.imageFilePath)
      && db.nextFile == (if Present(file) then old(db.nextFile) + 1 else old(db.nextFile))
      && db.cache == Evict(old(db.cache), Then(NestedTrackEvictions(id, |reqs|, user), AlbumEvictions(id)))
  {
    if artistId !in db.artists {
      return Err(NotFound);
    }
    var check := CheckArtistOwnership(db.artists[artistId], user);
    if check.Fail? {
      return Err(check.error);
    }
    r := CreateOwnedAlbum(db, artistId, user, req, file);
  }

  /** `createAlbum` once the caller may modify the artist. */
  method CreateOwnedAlbum(db: Catalogue, artistId: Id, user: User, req: AlbumRequest, file: Option<MultipartFile>)
    returns (r: Result<Album, Failure>)
    requires db.Valid() && artistId in db.artists && MayModify(db.artists[artistId], user)
    modifies db`albums, db`tracks, db`files, db`nextFile, db`nextId, db`cache
    ensures db.Valid()
    ensures
      var id := old(db.nextId);
      var reqs := TrackRequests(req);
      && r == Ok(NewAlbum(id, req, Uploaded(Images, file, old(db.nextFile)), artistId))
      && db.albums == old(db.albums)[id := r.value]
      && db.nextId == id + 1 + |reqs|
      && db.tracks == old(db.tracks) + CreatedTracks(reqs, r.value)
      && db.files == old(db.files) + NameSet(r.value.imageFilePath)
      && db.nextFile == (if Present(file) then old(db.nextFile) + 1 else old(db.nextFile))
      && db.cache == Evict(old(db.cache), Then(NestedTrackEvictions(id, |reqs|, user), AlbumEvictions(id)))
  {
    var album := StoreNewAlbum(db, artistId, req, file);
    r := Ok(album);
    // The nested tracks are numbered from the id handed out after the album's.
    CreateTracks(db, album.id, user, TrackRequests(req));
    ghost var cache1 := db.cache;
    db.EvictAll(AlbumEvictions(album.id));
    EvictInSequence(old(db.cache), cache1, db.cache,
      NestedTrackEvictions(old(db.nextId), |TrackRequests(req)|, user), AlbumEvictions(old(db.nextId)));
  }

  /** The first half of `createAlbum`: the image, if one is sent, and the album under the next id. */
  method StoreNewAlbum(db: Catalogue, artistId: Id, req: AlbumRequest, file: Option<MultipartFile>) returns (album: Album)
    requires db.Valid() && artistId in db.artists
    modifies db`albums, db`files, db`nextFile, db`nextId
    ensures db.Valid()
    ensures album == NewAlbum(old(db.nextId), req, Uploaded(Images, file, old(db.nextFile)), artistId)
    ensures album.id == old(db.nextId) && album.artists == [artistId]
    ensures db.albums == old(db.albums)[album.id := album]
    ensures db.nextId == old(db.nextId) + 1
    ensures db.files == old(db.files) + NameSet(album.imageFilePath)
    ensures db.nextFile == (if Present(file) then old(db.nextFile) + 1 else old(db.nextFile))
  {
    var image := db.UploadIfPresent(Images, file);
    var id := db.NewId();
    album := NewAlbum(id, req, image, artistId);
    assert NoDuplicates(album.artists) by { assert multiset(album.artists) == multiset{artistId}; }
    NewAlbumKeepsValid(db.albums, db.artists, db.tracks, id, album);
    db.albums := db.albums[id := album];
  }

  /**
   * The `forEach` over the nested track requests of a new album: each is created through
   * the track service with no file. None of the calls can fail, since the caller may
   * modify the album's creator.
   */
  method CreateTracks(db: Catalogue, albumId: Id, user: User, reqs: seq<TrackRequest>)
    requires db.Valid() && albumId in db.albums && db.nextId == albumId + 1
    requires var a := db.albums[albumId]; |a.artists| > 0 && a.artists[0] in db.artists && MayModify(db.artists[a.artists[0]], user)
    modifies db`tracks, db`files, db`nextFile, db`nextId, db`cache
    ensures db.Valid()
    ensures db.files == old(db.files) && db.nextFile == old(db.nextFile)
    ensures db.nextId == albumId + 1 + |reqs|
    ensures db.tracks == old(db.tracks) + CreatedTracks(reqs, db.albums[albumId])
    ensures db.cache == Evict(old(db.cache), NestedTrackEvictions(albumId, |reqs|, user))
  {
    var i := 0;
    while i < |reqs|
      invariant 0 <= i <= |reqs|
      invariant db.Valid()
      invariant db.files == old(db.files) && db.nextFile == old(db.nextFile)
      invariant db.nextId == albumId + 1 + i
      invariant db.tracks == old(db.tracks) + CreatedTracks(reqs[..i], db.albums[albumId])
      invariant db.cache == Evict(old(db.cache), NestedTrackEvictions(albumId, i, user))
    {
      ghost var tracks0, cache0, next := db.tracks, db.cache, db.nextId;
      var j := i + 1;
      CreateNestedTrack(db, albumId, user, reqs[i]);
      CreatedTracksStep(old(db.tracks), tracks0, db.tracks, reqs, i, j, next, db.albums[albumId]);
      NestedTrackStep(old(db.cache), cache0, db.cache, albumId, i, j, next, user);
      i := j;
    }
    assert reqs[..i] == reqs;
  }

  /** One nested `trackService.createTrack(albumId, user, request, null)` call, which cannot fail here. */
  method CreateNestedTrack(db: Catalogue, albumId: Id, user: User, req: TrackRequest)
    requires db.Valid() && albumId in db.albums
    requires var a := db.albums[albumId]; |a.artists| > 0 && a.artists[0] in db.artists && MayModify(db.artists[a.artists[0]], user)
    modifies db`tracks, db`files, db`nextFile, db`nextId, db`cache
    ensures db.Valid()
    ensures db.tracks == old(db.tracks)[old(db.nextId) := TrackService.NewTrack(old(db.nextId), req, None, db.albums[albumId])]
    ensures db.nextId == old(db.nextId) + 1
    ensures db.files == old(db.files) && db.nextFile == old(db.nextFile)
    ensures db.cache == Evict(old(db.cache), TrackService.CreateTrackEvictions(old(db.nextId), albumId, user))
  {
    var t := TrackService.CreateTrack(db, albumId, user, req, None);
    assert t.Ok?;
  }

  method UpdateAlbum(db: Catalogue, albumId: Id, user: User, req: AlbumRequest, file: Option<MultipartFile>)
    returns (r: Result<Album, Failure>)
    requires db.Valid()
    modifies db`albums, db`files, db`nextFile, db`cache
    ensures db.Valid()
    ensures albumId !in old(db.albums) ==> r == Err(NotFound)
    ensures albumId in old(db.albums) ==>
      var a := old(db.albums[albumId]);
      && |a.artists| > 0 && a.artists[0] in old(db.artists)
      && (!MayModify(old(db.artists[a.artists[0]]), user) ==> r == Err(Forbidden))
      && (MayModify(old(db.artists[a.artists[0]]), user) ==>
            && r == Ok(UpdatedAlbum(a, req, Uploaded(Images, file, old(db.nextFile))))
            && db.albums == old(db.albums)[albumId := r.value]
            && db.files == old(db.files) + NameSet(Uploaded(Images, file, old(db.nextFile)))
            && db.nextFile == (if Present(file) then old(db.nextFile) + 1 else old(db.nextFile))
            && db.cache == Evict(old(db.cache), AlbumEvictions(albumId)))
    ensures r.Err? ==> unchanged(db)
  {
    if albumId !in db.albums {
      return Err(NotFound);
    }
    var a := db.albums[albumId];
    CreatorStored(db, albumId);
    var check := CheckArtistOwnership(db.artists[a.artists[0]], user);
    if check.Fail? {
      return Err(check.error);
    }
    var image := db.UploadIfPresent(Images, file);
    var updated := UpdatedAlbum(a, req, image);
    SameArtistsKeepValid(db.albums, db.artists, db.tracks, albumId, updated);
    db.albums := db.albums[albumId := updated];
    r := Ok(updated);
    db.EvictAll(AlbumEvictions(albumId));
  }

  /** Storing a well-formed album under a fresh id keeps the invariants about albums and tracks. */
  lemma NewAlbumKeepsValid(albums: map<Id, Album>, artists: map<Id, Artist>, tracks: map<Id, Track>, id: Id, a: Album)
    requires AlbumsWellFormed(albums, artists) && TracksWellFormed(tracks, albums)
    requires id !in albums && AlbumWellFormed(a, artists)
    ensures AlbumsWellFormed(albums[id := a], artists) && TracksWellFormed(tracks, albums[id := a])
  {
    forall x | x in albums ensures AlbumWellFormed(albums[id := a][x], artists) {
      assert AlbumWellFormed(albums[x], artists);
    }
    forall t | t in tracks ensures TrackWellFormed(tracks[t], albums[id := a]) {
      assert TrackWellFormed(tracks[t], albums);
    }
  }

  /** Removing an album none of whose tracks remain keeps the invariants. */
  lemma RemoveAlbumKeepsValid(albums: map<Id, Album>, artists: map<Id, Artist>, tracks: map<Id, Track>, albumId: Id)
    requires AlbumsWellFormed(albums, artists) && TracksWellFormed(tracks, albums)
    requires forall t :: t in tracks ==> tracks[t].album != albumId
    ensures AlbumsWellFormed(albums - {albumId}, artists) && TracksWellFormed(tracks, albums - {albumId})
  {
    forall x | x in albums - {albumId} ensures AlbumWellFormed((albums - {albumId})[x], artists) {
      assert AlbumWellFormed(albums[x], artists);
    }
    forall t | t in tracks ensures TrackWellFormed(tracks[t], albums - {albumId}) {
      assert TrackWellFormed(tracks[t], albums);
    }
  }

  /**
   * The body `deleteAlbum` and `delete` share: the album's tracks through the track
   * service (whose evictions apply), the image iff its path is set, then the album.
   */
  method RemoveAlbum(db: Catalogue, albumId: Id)
    requires db.Valid() && albumId in db.albums
    modifies db`albums, db`tracks, db`files, db`cache
    ensures db.Valid()
    ensures db.albums == old(db.albums) - {albumId}
    ensures forall id :: id in db.tracks <==> id in old(db.tracks) && old(db.tracks[id].album) != albumId
    ensures forall id :: id in db.tracks ==> db.tracks[id] == old(db.tracks[id])
    ensures db.files == old(db.files) - TrackService.AudioFiles(old(db.tracks), TrackService.TracksOfAlbum(old(db.tracks), albumId))
                                      - NameSet(old(db.albums[albumId].imageFilePath))
    ensures db.cache == Evict(old(db.cache), TrackService.DeleteTracksByAlbumEvictions(albumId))
  {
    var a := db.albums[albumId];
    TrackService.DeleteTracksByAlbum(db, albumId);
    db.DeleteIfSet(a.imageFilePath);
    RemoveAlbumKeepsValid(db.albums, db.artists, db.tracks, albumId);
    db.albums := db.albums - {albumId};
  }

  method DeleteAlbum(db: Catalogue, albumId: Id, user: User) returns (r: Outcome<Failure>)
    requires db.Valid()
    modifies db`albums, db`tracks, db`files, db`cache
    ensures db.Valid()
    ensures albumId !in old(db.albums) ==> r == Fail(NotFound)
    ensures albumId in old(db.albums) ==>
      var a := old(db.albums[albumId]);
      && |a.artists| > 0 && a.artists[0] in old(db.artists)
      && (!MayModify(old(db.artists[a.artists[0]]), user) ==> r == Fail(Forbidden))
      && (MayModify(old(db.artists[a.artists[0]]), user) ==>
            && r == Pass
            && db.albums == old(db.albums) - {albumId}
            && (forall id :: id in db.tracks <==> id in old(db.tracks) && old(db.tracks[id].album) != albumId)
            && (forall id :: id in db.tracks ==> db.tracks[id] == old(db.tracks[id]))
            && db.files == old(db.files) - TrackService.AudioFiles(old(db.tracks), TrackService.TracksOfAlbum(old(db.tracks), albumId))
                                         - NameSet(a.imageFilePath)
            && db.cache == Evict(old(db.cache), Then(TrackService.DeleteTracksByAlbumEvictions(albumId), AlbumEvictions(albumId))))
    ensures r.Fail? ==> unchanged(db)
  {
    if albumId !in db.albums {
      return Fail(NotFound);
    }
    var a := db.albums[albumId];
    CreatorStored(db, albumId);
    r := CheckArtistOwnership(db.artists[a.artists[0]], user);
    if r.Fail? {
      return;
    }
    ghost var cache0 := db.cache;
    RemoveAlbum(db, albumId);
    db.EvictAll(AlbumEvictions(albumId));
    EvictThen(cache0, TrackService.DeleteTracksByAlbumEvictions(albumId), AlbumEvictions(albumId));
  }

  /**
   * `delete(albumId)`: no ownership check; reached only by self-invocation from
   * `deleteAlbumsByArtist`, so its own `@CacheEvict` list never applies.
   */
  method Delete(db: Catalogue, albumId: Id) returns (r: Outcome<Failure>)
    requires db.Valid()
    modifies db`albums, db`tracks, db`files, db`cache
    ensures db.Valid()
    ensures albumId !in old(db.albums) ==> r == Fail(NotFound) && unchanged(db)
    ensures albumId in old(db.albums) ==>
      && r == Pass
      && db.albums == old(db.albums) - {albumId}
      && (forall id :: id in db.tracks <==> id in old(db.tracks) && old(db.tracks[id].album) != albumId)
      && (forall id :: id in db.tracks ==> db.tracks[id] == old(db.tracks[id]))
      && db.files == old(db.files) - TrackService.AudioFiles(old(db.tracks), TrackService.TracksOfAlbum(old(db.tracks), albumId))
                                   - NameSet(old(db.albums[albumId].imageFilePath))
      && db.cache == Evict(old(db.cache), TrackService.DeleteTracksByAlbumEvictions(albumId))
  {
    if albumId !in db.albums {
      return Fail(NotFound);
    }
    RemoveAlbum(db, albumId);
    r := Pass;
  }

  /**
   * `deleteAlbumsByArtist`: every album whose artist list contains the artist, at any
   * position, is deleted with its tracks and files, and the regions and track
   * listings their nested `deleteTracksByAlbum` calls list are evicted.
   */
  method DeleteAlbumsByArtist(db: Catalogue, artistId: Id)
    requires db.Valid()
    modifies db`albums, db`tracks, db`files, db`cache
    ensures db.Valid()
    ensures var gone := AlbumsOfArtist(old(db.albums), artistId);
      && (forall id :: id in db.albums <==> id in old(db.albums) && id !in gone)
      && (forall id :: id in db.albums ==> db.albums[id] == old(db.albums[id]))
      && (forall id :: id in db.tracks <==> id in old(db.tracks) && old(db.tracks[id].album) !in gone)
      && (forall id :: id in db.tracks ==> db.tracks[id] == old(db.tracks[id]))
      && db.files == old(db.files) - TrackService.AudioFiles(old(db.tracks), TracksOfAlbums(old(db.tracks), gone))
                                   - ImageFiles(old(db.albums), gone)
      && db.cache == Evict(old(db.cache), Then(AlbumSetEvictions(gone), DeleteAlbumsByArtistEvictions()))
    ensures forall id :: id in db.albums ==> artistId !in db.albums[id].artists
  {
    DeleteEach(db, AlbumsOfArtist(db.albums, artistId));
    db.EvictAll(DeleteAlbumsByArtistEvictions());
    EvictThen(old(db.cache), AlbumSetEvictions(AlbumsOfArtist(old(db.albums), artistId)), DeleteAlbumsByArtistEvictions());
  }

  /** The albums in `done` are gone with their tracks, and every other album and track is as it was. */
  ghost predicate DeletedAlbums(albums0: map<Id, Album>, albums: map<Id, Album>, tracks0: map<Id, Track>, tracks: map<Id, Track>, done: set<Id>) {
    && (forall id :: id in albums <==> id in albums0 && id !in done)
    && (forall id :: id in albums ==> albums[id] == albums0[id])
    && (forall id :: id in tracks <==> id in tracks0 && tracks0[id].album !in done)
    && (forall id :: id in tracks ==> tracks[id] == tracks0[id])
  }

  /** Deleting one more album with its tracks extends `done` by it. */
  lemma DeletedAlbumsStep(albums0: map<Id, Album>, albums1: map<Id, Album>, albums2: map<Id, Album>,
                          tracks0: map<Id, Track>, tracks1: map<Id, Track>, tracks2: map<Id, Track>,
                          done: set<Id>, id: Id, next: set<Id>)
    requires DeletedAlbums(albums0, albums1, tracks0, tracks1, done) && next == done + {id}
    requires albums2 == albums1 - {id}
    requires forall t :: t in tracks2 <==> t in tracks1 && tracks1[t].album != id
    requires forall t :: t in tracks2 ==> tracks2[t] == tracks1[t]
    ensures DeletedAlbums(albums0, albums2, tracks0, tracks2, next)
  {
  }

  /** The `forEach(album -> delete(album.getId()))` loop over the given albums. */
  method DeleteEach(db: Catalogue, ids: set<Id>)
    requires db.Valid() && ids <= db.albums.Keys
    modifies db`albums, db`tracks, db`files, db`cache
    ensures db.Valid()
    ensures DeletedAlbums(old(db.albums), db.albums, old(db.tracks), db.tracks, ids)
    ensures db.files == old(db.files) - TrackService.AudioFiles(old(db.tracks), TracksOfAlbums(old(db.tracks), ids))
                                      - ImageFiles(old(db.albums), ids)
    ensures db.cache == Evict(old(db.cache), AlbumSetEvictions(ids))
  {
    var pending := ids;
    ghost var done := {};
    while pending != {}
      invariant db.Valid()
      invariant done !! pending && done + pending == ids
      invariant DeletedAlbums(old(db.albums), db.albums, old(db.tracks), db.tracks, done)
      invariant db.files == old(db.files) - TrackService.AudioFiles(old(db.tracks), TracksOfAlbums(old(db.tracks), done))
                                          - ImageFiles(old(db.albums), done)
      invariant db.cache == Evict(old(db.cache), AlbumSetEvictions(done))
      decreases pending
    {
      var id :| id in pending;
      DeleteNext(db, old(db.albums), old(db.tracks), old(db.files), old(db.cache), done, id);
      pending, done := pending - {id}, done + {id};
    }
  }

  /** One turn of the album loop: the album's `delete`, with what it adds to the files and evictions gone so far. */
  method DeleteNext(db: Catalogue, ghost albums: map<Id, Album>, ghost tracks: map<Id, Track>, ghost files: set<FileName>,
                    ghost cache: map<CacheKey, CachedValue>, ghost done: set<Id>, id: Id)
    requires db.Valid() && id in db.albums
    requires DeletedAlbums(albums, db.albums, tracks, db.tracks, done)
    requires db.files == files - TrackService.AudioFiles(tracks, TracksOfAlbums(tracks, done)) - ImageFiles(albums, done)
    requires db.cache == Evict(cache, AlbumSetEvictions(done))
    modifies db`albums, db`tracks, db`files, db`cache
    ensures db.Valid()
    ensures DeletedAlbums(albums, db.albums, tracks, db.tracks, done + {id})
    ensures db.files == files - TrackService.AudioFiles(tracks, TracksOfAlbums(tracks, done + {id})) - ImageFiles(albums, done + {id})
    ensures db.cache == Evict(cache, AlbumSetEvictions(done + {id}))
  {
    var r := Delete(db, id);
    DeletedAlbumsStep(albums, old(db.albums), db.albums, tracks, old(db.tracks), db.tracks, done, id, done + {id});
    DeletedFilesStep(files, tracks, albums, old(db.tracks), old(db.albums), old(db.files), db.files, done, id, done + {id});
    AlbumSetStep(cache, old(db.cache), db.cache, done, id, done + {id});
  }

  /** Proof step of the album loop: removing two unions of files in turn, regrouped. */
  lemma MinusUnions(a: set<FileName>, b: set<FileName>, c: set<FileName>, d: set<FileName>, e: set<FileName>)
    ensures a - (b + c) - (d + e) == a - b - d - c - e
  {
  }

  /** One step of the album loop: the files it removes are those of the album just deleted. */
  lemma DeletedFilesStep(files: set<FileName>, tracks: map<Id, Track>, albums: map<Id, Album>,
                         tracks0: map<Id, Track>, albums0: map<Id, Album>, files0: set<FileName>, files1: set<FileName>,
                         done: set<Id>, id: Id, next: set<Id>)
    requires DeletedAlbums(albums, albums0, tracks, tracks0, done) && id in albums0 && next == done + {id}
    requires files0 == files - TrackService.AudioFiles(tracks, TracksOfAlbums(tracks, done)) - ImageFiles(albums, done)
    requires files1 == files0 - TrackService.AudioFiles(tracks0, TrackService.TracksOfAlbum(tracks0, id))
                              - NameSet(albums0[id].imageFilePath)
    ensures files1 == files - TrackService.AudioFiles(tracks, TracksOfAlbums(tracks, next)) - ImageFiles(albums, next)
  {
    var audio := TrackService.AudioFiles(tracks, TracksOfAlbums(tracks, {id}));
    assert TrackService.TracksOfAlbum(tracks0, id) == TracksOfAlbums(tracks, {id});
    assert TracksOfAlbums(tracks, next) == TracksOfAlbums(tracks, done) + TracksOfAlbums(tracks, {id});
    AudioFilesUnion(tracks, TracksOfAlbums(tracks, done), TracksOfAlbums(tracks, {id}));
    ImageFilesAdd(albums, done, id);
    MinusUnions(files, TrackService.AudioFiles(tracks, TracksOfAlbums(tracks, done)), audio,
                ImageFiles(albums, done), NameSet(albums[id].imageFilePath));
  }

  method AddArtistToAlbum(db: Catalogue, user: User, albumId: Id, artistId: Id) returns (r: Result<Album, Failure>)
    requires db.Valid()
    modifies db`albums, db`cache
    ensures db.Valid()
    ensures albumId !in old(db.albums) ==> r == Err(NotFound)
    ensures albumId in old(db.albums) ==>
      var a := old(db.albums[albumId]);
      && |a.artists| > 0 && a.artists[0] in old(db.artists)
      && (!MayModify(old(db.artists[a.artists[0]]), user) ==> r == Err(Forbidden))
      && (MayModify(old(db.artists[a.artists[0]]), user) && artistId !in old(db.artists) ==> r == Err(NotFound))
      && (MayModify(old(db.artists[a.artists[0]]), user) && artistId in old(db.artists) ==>
            match AddArtist(a.artists, artistId)
            case Err(e) => r == Err(e)
            case Ok(artists) =>
              && r == Ok(a.(artists := artists))
              && db.albums == old(db.albums)[albumId := r.value]
              && db.cache == Evict(old(db.cache), AlbumEvictions(albumId)))
    ensures r.Err? ==> unchanged(db)
  {
    if albumId !in db.albums {
      return Err(NotFound);
    }
    var a := db.albums[albumId];
    CreatorStored(db, albumId);
    var check := CheckArtistOwnership(db.artists[a.artists[0]], user);
    if check.Fail? {
      return Err(check.error);
    }
    if artistId !in db.artists {
      return Err(NotFound);
    }
    var added := AddArtist(a.artists, artistId);
    if added.Err? {
      return Err(added.error);
    }
    assert AlbumWellFormed(a, db.artists);
    AddArtistKeepsCreator(a.artists, artistId);
    SameCreatorKeepsValid(db.albums, db.artists, db.tracks, albumId, added.value);
    var updated := a.(artists := added.value);
    db.albums := db.albums[albumId := updated];
    r := Ok(updated);
    db.EvictAll(AlbumEvictions(albumId));
  }

  method RemoveArtistFromAlbum(db: Catalogue, user: User, albumId: Id, artistId: Id) returns (r: Outcome<Failure>)
    requires db.Valid()
    modifies db`albums, db`cache
    ensures db.Valid()
    ensures albumId !in old(db.albums) ==> r == Fail(NotFound)
    ensures albumId in old(db.albums) ==>
      var a := old(db.albums[albumId]);
      && |a.artists| > 0 && a.artists[0] in old(db.artists)
      && (!MayModify(old(db.artists[a.artists[0]]), user) ==> r == Fail(Forbidden))
      && (MayModify(old(db.artists[a.artists[0]]), user) && artistId !in old(db.artists) ==> r == Fail(NotFound))
      && (MayModify(old(db.artists[a.artists[0]]), user) && artistId in old(db.artists) ==>
            match RemoveArtist(a.artists, artistId)
            case Err(e) => r == Fail(e)
            case Ok(artists) =>
              && r == Pass
              && db.albums == old(db.albums)[albumId := a.(artists := artists)]
              && db.cache == Evict(old(db.cache), AlbumEvictions(albumId)))
    ensures r.Fail? ==> unchanged(db)
  {
    if albumId !in db.albums {
      return Fail(NotFound);
    }
    var a := db.albums[albumId];
    CreatorStored(db, albumId);
    r := CheckArtistOwnership(db.artists[a.artists[0]], user);
    if r.Fail? {
      return;
    }
    if artistId !in db.artists {
      return Fail(NotFound);
    }
    var removed := RemoveArtist(a.artists, artistId);
    if removed.Err? {
      return Fail(removed.error);
    }
    assert AlbumWellFormed(a, db.artists);
    RemoveArtistKeepsCreator(a.artists, artistId);
    SameCreatorKeepsValid(db.albums, db.artists, db.tracks, albumId, removed.value);
    db.albums := db.albums[albumId := a.(artists := removed.value)];
    db.EvictAll(AlbumEvictions(albumId));
  }

  // ----- cached queries -----

  method GetAlbumsByArtistId(db: Catalogue, artistId: Id) returns (r: Result<set<Id>, Failure>)
    requires db.Valid()
    modifies db`cache
    ensures db.Valid()
    ensures var k := CacheKey(AlbumsByArtist, IdKey(artistId));
      && (k in old(db.cache) ==> r == Ok(old(db.cache[k]).ids) && db.cache == old(db.cache))
      && (k !in old(db.cache) ==> r == AlbumsByArtistResult(db.artists, db.albums, artistId))
      && (k !in old(db.cache) && r.Ok? ==> db.cache == old(db.cache)[k := Listing(r.value)])
      && (k !in old(db.cache) && r.Err? ==> db.cache == old(db.cache))
  {
    var computed := AlbumsByArtistResult(db.artists, db.albums, artistId);
    var v := db.ReadListing(CacheKey(AlbumsByArtist, IdKey(artistId)), if computed.Ok? then Some(computed.value) else None);
    r := if v.Some? then Ok(v.value) else computed;
  }

  method SearchAlbums(db: Catalogue, title: Text) returns (ids: set<Id>)
    requires db.Valid()
    modifies db`cache
    ensures db.Valid()
    ensures var k := CacheKey(AlbumsSearch, TextKey(title));
      && (k in old(db.cache) ==> ids == old(db.cache[k]).ids && db.cache == old(db.cache))
      && (k !in old(db.cache) ==> ids == SearchResult(db.albums, title) && db.cache == old(db.cache)[k := Listing(ids)])
  {
    var v := db.ReadListing(CacheKey(AlbumsSearch, TextKey(title)), Some(SearchResult(db.albums, title)));
    ids := v.value;
  }
}
