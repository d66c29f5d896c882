/**
 * The state every service works on: the four repositories, the file store and the
 * cache, held by one `Catalogue` object whose fields the services update in place.
 */
module Store {
  import opened Wrappers
  import opened Model
  import opened Membership
  import opened Cache

  /**
   * A cached answer. Only the boolean queries are read through the cache in this
   * model; list and DTO answers are represented by the ids they were built from.
   */
  datatype CachedValue = Flag(holds: bool) | Listing(ids: set<Id>)

  /** Every record is stored under its own id, and ids are below the next one to hand out. */
  predicate Keyed(users: map<Id, User>, artists: map<Id, Artist>, albums: map<Id, Album>, tracks: map<Id, Track>, bound: nat) {
    && (forall id :: id in users ==> users[id].id == id && id < bound)
    && (forall id :: id in artists ==> artists[id].id == id && id < bound)
    && (forall id :: id in albums ==> albums[id].id == id && id < bound)
    && (forall id :: id in tracks ==> tracks[id].id == id && id < bound)
  }

  /** An album has a creator, lists no artist twice, and lists only stored artists. */
  predicate AlbumWellFormed(a: Album, artists: map<Id, Artist>) {
    && |a.artists| > 0
    && NoDuplicates(a.artists)
    && (forall x :: x in a.artists ==> x in artists)
  }

  predicate AlbumsWellFormed(albums: map<Id, Album>, artists: map<Id, Artist>) {
    forall id {:trigger AlbumWellFormed(albums[id], artists)} :: id in albums ==> AlbumWellFormed(albums[id], artists)
  }

  /**
   * A track belongs to a stored album, has a creator that is the album's creator,
   * lists no artist twice and is liked at most once by each user.
   */
  predicate TrackWellFormed(t: Track, albums: map<Id, Album>) {
    && t.album in albums
    && |t.artists| > 0
    && |albums[t.album].artists| > 0
    && t.artists[0] == albums[t.album].artists[0]
    && NoDuplicates(t.artists)
    && NoDuplicates(t.likedUsers)
  }

  predicate TracksWellFormed(tracks: map<Id, Track>, albums: map<Id, Album>) {
    forall id {:trigger TrackWellFormed(tracks[id], albums)} :: id in tracks ==> TrackWellFormed(tracks[id], albums)
  }

  /** `@Column(unique = true)` on User.email, with a null email counted as a value the way `existsByEmail(null)` does. */
  predicate EmailsUnique(users: map<Id, User>) {
    forall a, b :: a in users && b in users && users[a].email == users[b].email ==> a == b
  }

  /**
   * The hand-maintained inverse `Artist.subscribers` agrees with the owning side
   * `User.subscribedArtists` for every stored pair, neither side lists an id twice,
   * and every listed id was handed out already.
   */
  predicate SubscriptionsConsistent(users: map<Id, User>, artists: map<Id, Artist>, bound: nat) {
    && (forall u :: u in users ==> forall a :: a in users[u].subscribedArtists && a in artists ==> u in artists[a].subscribers)
    && (forall a :: a in artists ==> forall u :: u in artists[a].subscribers && u in users ==> a in users[u].subscribedArtists)
    && (forall u :: u in users ==> NoDuplicates(users[u].subscribedArtists) && forall x :: x in users[u].subscribedArtists ==> x < bound)
    && (forall a :: a in artists ==> NoDuplicates(artists[a].subscribers) && forall x :: x in artists[a].subscribers ==> x < bound)
  }

  /** The regions whose entries are booleans; every other region caches listings. */
  predicate FlagRegion(r: Region) {
    r == TrackLikedStatus || r == ArtistSubscribed
  }

  predicate CacheWellTyped(cache: map<CacheKey, CachedValue>) {
    forall k :: k in cache ==> (FlagRegion(k.region) <==> cache[k].Flag?)
  }

  /** Every stored file has a serial below the next one to hand out. */
  predicate FilesBelow(files: set<FileName>, bound: nat) {
    forall f :: f in files ==> f.serial < bound
  }

  /** `checkArtistOwnership`: the caller owns the artist or is an administrator. */
  predicate MayModify(artist: Artist, user: User)
    ensures artist.owner == user.id ==> MayModify(artist, user)
    ensures RoleAdmin in user.roles ==> MayModify(artist, user)
    ensures MayModify(artist, user) ==> artist.owner == user.id || RoleAdmin in user.roles
  {
    artist.owner == user.id || RoleAdmin in user.roles
  }

  /** The name an upload under `present(file)` hands out, or `None` when no part is supplied. */
  function Uploaded(folder: Folder, file: Option<MultipartFile>, serial: nat): Option<FileName> {
    if Present(file) then Some(FileName(folder, serial)) else None
  }

  function NameSet(name: Option<FileName>): set<FileName> {
    if name.Some? then {name.value} else {}
  }

  /** The private `checkArtistOwnership` of the track, album and artist services. */
  function CheckArtistOwnership(artist: Artist, user: User): (r: Outcome<Failure>)
    ensures r.Pass? <==> MayModify(artist, user)
    ensures r.Fail? ==> r.error == Forbidden
  {
    if artist.owner != user.id && RoleAdmin !in user.roles then Fail(Forbidden) else Pass
  }

  /** Every artist's subscribers once the join rows of a deleted user are gone. */
  function WithoutSubscriber(artists: map<Id, Artist>, userId: Id): (r: map<Id, Artist>)
    ensures r.Keys == artists.Keys
    ensures forall id :: id in r ==> r[id] == artists[id].(subscribers := Without(artists[id].subscribers, userId))
  {
    map id | id in artists :: artists[id].(subscribers := Without(artists[id].subscribers, userId))
  }

  /** Every track's likes once the `track_likes` rows of a deleted user are gone. */
  function WithoutLiker(tracks: map<Id, Track>, userId: Id): (r: map<Id, Track>)
    ensures r.Keys == tracks.Keys
    ensures forall id :: id in r ==> r[id] == tracks[id].(likedUsers := Without(tracks[id].likedUsers, userId))
  {
    map id | id in tracks :: tracks[id].(likedUsers := Without(tracks[id].likedUsers, userId))
  }

  /** Dropping the subscription rows of a user no longer stored keeps the two sides of the table in agreement. */
  lemma RemoveUserKeepsConsistent(users: map<Id, User>, artists: map<Id, Artist>, bound: nat, userId: Id)
    requires SubscriptionsConsistent(users, artists, bound) && userId !in users
    ensures SubscriptionsConsistent(users, WithoutSubscriber(artists, userId), bound)
  {
    var users', artists' := users, WithoutSubscriber(artists, userId);
    forall u | u in users' ensures forall a :: a in users'[u].subscribedArtists && a in artists' ==> u in artists'[a].subscribers {
      assert users'[u] == users[u];
    }
    forall a | a in artists' ensures forall u :: u in artists'[a].subscribers && u in users' ==> a in users'[u].subscribedArtists {
      assert forall u :: u in artists'[a].subscribers ==> u in artists[a].subscribers;
    }
    forall u | u in users' ensures NoDuplicates(users'[u].subscribedArtists) && forall x :: x in users'[u].subscribedArtists ==> x < bound {
      assert users'[u] == users[u];
    }
    forall a | a in artists' ensures NoDuplicates(artists'[a].subscribers) && forall x :: x in artists'[a].subscribers ==> x < bound {
      assert NoDuplicates(artists[a].subscribers);
    }
  }

  /** Dropping a user whose id no subscriber list needs keeps the table in agreement. */
  lemma RemoveConsistent(users: map<Id, User>, artists: map<Id, Artist>, bound: nat, userId: Id)
    requires SubscriptionsConsistent(users, artists, bound)
    ensures SubscriptionsConsistent(users - {userId}, artists, bound)
  {
  }

  lemma DropSubscriptionsKeepsAlbums(artists: map<Id, Artist>, albums: map<Id, Album>, userId: Id)
    requires AlbumsWellFormed(albums, artists)
    ensures AlbumsWellFormed(albums, WithoutSubscriber(artists, userId))
  {
    forall x | x in albums ensures AlbumWellFormed(albums[x], WithoutSubscriber(artists, userId)) {
      assert AlbumWellFormed(albums[x], artists);
    }
  }

  lemma DropLikesKeepsTracks(albums: map<Id, Album>, tracks: map<Id, Track>, userId: Id)
    requires TracksWellFormed(tracks, albums)
    ensures TracksWellFormed(WithoutLiker(tracks, userId), albums)
  {
    var tracks' := WithoutLiker(tracks, userId);
    forall x | x in tracks' ensures TrackWellFormed(tracks'[x], albums) {
      assert TrackWellFormed(tracks[x], albums);
    }
  }

  lemma DropSubscriptionsKeepsKeyed(users: map<Id, User>, artists: map<Id, Artist>, albums: map<Id, Album>, tracks: map<Id, Track>, bound: nat, userId: Id)
    requires Keyed(users, artists, albums, tracks, bound)
    ensures Keyed(users, WithoutSubscriber(artists, userId), albums, tracks, bound)
  {
  }

  lemma DropLikesKeepsKeyed(users: map<Id, User>, artists: map<Id, Artist>, albums: map<Id, Album>, tracks: map<Id, Track>, bound: nat, userId: Id)
    requires Keyed(users, artists, albums, tracks, bound)
    ensures Keyed(users, artists, albums, WithoutLiker(tracks, userId), bound)
  {
  }

  // Map and set algebra for the frame proofs of the services. They sit here because
  // both ArtistService and UserService use them.

  /**
   * Joining maps one after another is joining the last two first. Proof step of the
   * nested-creation loops: `ArtistService.NestedTracksStep`, `UserService.ManagedAlbumsStep`
   * and `UserService.ManagedTracksStep`.
   */
  lemma UnionAssociates<K, V>(a: map<K, V>, b: map<K, V>, c: map<K, V>)
    ensures a + b + c == a + (b + c)
  {
  }

  /** Re-storing a key's old record after replacing it gives back the map. Proof step of `ArtistService.UnsubscribeUndoesSubscribe`. */
  lemma UpdateRestores<K, V>(m: map<K, V>, k: K, v: V)
    requires k in m
    ensures m[k := v][k := m[k]] == m
  {
  }

  /** Storing a key's own record again changes nothing. Proof step of `ArtistService.SubscribePresent` and `ArtistService.UnsubscribeAbsent`. */
  lemma UpdateSame<K, V>(m: map<K, V>, k: K, v: V)
    requires k in m && v == m[k]
    ensures m[k := v] == m
  {
  }

  /**
   * Deleting three groups of files and then three more is deleting each group
   * together with its counterpart. Proof step of `ArtistService.CascadeFilesStep`.
   */
  lemma DeleteFilesInTwoRounds(a: set<FileName>, b: set<FileName>, c: set<FileName>, d: set<FileName>,
                               b': set<FileName>, c': set<FileName>, d': set<FileName>)
    ensures a - b - c - d - b' - c' - d' == a - (b + b') - (c + c') - (d + d')
  {
  }

  class Catalogue {
    var users: map<Id, User>
    var artists: map<Id, Artist>
    var albums: map<Id, Album>
    var tracks: map<Id, Track>
    var files: set<FileName>
    var cache: map<CacheKey, CachedValue>
    var nextId: nat
    var nextFile: nat

    ghost predicate Valid()
      reads this
      ensures Valid() ==> nextId !in users && nextId !in artists && nextId !in albums && nextId !in tracks
      ensures Valid() ==> forall f :: f in files ==> f.serial < nextFile
    {
      && Keyed(users, artists, albums, tracks, nextId)
      && AlbumsWellFormed(albums, artists)
      && TracksWellFormed(tracks, albums)
      && EmailsUnique(users)
      && SubscriptionsConsistent(users, artists, nextId)
      && FilesBelow(files, nextFile)
      && CacheWellTyped(cache)
    }

    constructor ()
      ensures Valid()
      ensures users == map[] && artists == map[] && albums == map[] && tracks == map[]
      ensures files == {} && cache == map[] && nextId == 0 && nextFile == 0
    {
      users, artists, albums, tracks := map[], map[], map[], map[];
      files, cache, nextId, nextFile := {}, map[], 0, 0;
    }

    /** The caller object handed in by the controller is the stored record. */
    predicate IsStored(user: User)
      reads this
    {
      user.id in users && users[user.id] == user
    }

    /** `FileService.uploadFile`: the part is stored under a fresh name, which is returned. */
    method Upload(folder: Folder) returns (name: FileName)
      requires FilesBelow(files, nextFile)
      modifies this`files, this`nextFile
      ensures name == FileName(folder, old(nextFile)) && name !in old(files)
      ensures files == old(files) + {name} && nextFile == old(nextFile) + 1
      ensures FilesBelow(files, nextFile)
    {
      name := FileName(folder, nextFile);
      files := files + {name};
      nextFile := nextFile + 1;
    }

    /** `if (file != null && !file.isEmpty()) fileService.uploadFile(...)`, as every service writes it. */
    method UploadIfPresent(folder: Folder, file: Option<MultipartFile>) returns (name: Option<FileName>)
      requires FilesBelow(files, nextFile)
      modifies this`files, this`nextFile
      ensures name == Uploaded(folder, file, old(nextFile))
      ensures name.Some? ==> name.value !in old(files)
      ensures files == old(files) + NameSet(name)
      ensures nextFile == if name.Some? then old(nextFile) + 1 else old(nextFile)
      ensures FilesBelow(files, nextFile)
      ensures old(Valid()) ==> Valid()
    {
      name := None;
      if Present(file) {
        var n := Upload(folder);
        name := Some(n);
      }
    }

    /** `if (path != null) fileService.deleteFile(...)`. */
    method DeleteIfSet(path: Option<FileName>)
      modifies this`files
      ensures files == old(files) - NameSet(path)
    {
      if path.Some? {
        DeleteFile(path.value);
      }
    }

    /** `FileService.deleteFile`: `Files.deleteIfExists`, so deleting a missing file is harmless. */
    method DeleteFile(name: FileName)
      modifies this`files
      ensures files == old(files) - {name}
    {
      files := files - {name};
    }

    /**
     * Every save of a new record gets a fresh id. The program has one identity column per
     * table; the model draws the ids of every table from this one counter, which keeps
     * each table's ids fresh and in addition makes ids unique across tables.
     */
    method NewId() returns (id: Id)
      modifies this`nextId
      ensures id == old(nextId) && nextId == id + 1
      ensures old(Valid()) ==> Valid()
    {
      id := nextId;
      nextId := nextId + 1;
    }

    /** `trackRepository.save` of a new track under a fresh id whose links are valid. */
    method AddTrack(t: Track)
      requires Valid() && t.id !in tracks && t.id < nextId && TrackWellFormed(t, albums)
      modifies this`tracks
      ensures tracks == old(tracks)[t.id := t]
      ensures Valid()
    {
      forall x | x in tracks ensures TrackWellFormed(tracks[t.id := t][x], albums) {
        assert TrackWellFormed(tracks[x], albums);
      }
      tracks := tracks[t.id := t];
    }

    /** `trackRepository.save` of a track that is already stored, with its links still valid. */
    method SaveTrack(t: Track)
      requires Valid() && t.id in tracks && TrackWellFormed(t, albums)
      modifies this`tracks
      ensures tracks == old(tracks)[t.id := t]
      ensures Valid()
    {
      forall x | x in tracks ensures TrackWellFormed(tracks[t.id := t][x], albums) {
        assert TrackWellFormed(tracks[x], albums);
      }
      tracks := tracks[t.id := t];
    }

    /** `artistRepository.save` of a stored artist whose subscribers are as they were. */
    method SaveArtist(a: Artist)
      requires Valid() && a.id in artists && a.subscribers == artists[a.id].subscribers
      modifies this`artists
      ensures artists == old(artists)[a.id := a]
      ensures Valid()
    {
      forall x | x in albums ensures AlbumWellFormed(albums[x], artists[a.id := a]) {
        assert AlbumWellFormed(albums[x], artists);
      }
      artists := artists[a.id := a];
    }

    /**
     * `userRepository.save(user)` then `artistRepository.save(artist)` for a stored user
     * and artist whose two sides of the subscription table agree again afterwards.
     */
    method SaveSubscription(u: User, a: Artist)
      requires Valid() && u.id in users && u.email == users[u.id].email && a.id in artists
      requires SubscriptionsConsistent(users[u.id := u], artists[a.id := a], nextId)
      modifies this`users, this`artists
      ensures users == old(users)[u.id := u] && artists == old(artists)[a.id := a]
      ensures Valid()
    {
      forall x | x in albums ensures AlbumWellFormed(albums[x], artists[a.id := a]) {
        assert AlbumWellFormed(albums[x], artists);
      }
      users, artists := users[u.id := u], artists[a.id := a];
    }

    /** `userRepository.save` of a new user: the next id, a fresh email and no subscriptions. */
    method AddUser(u: User)
      requires Valid() && u.id == nextId && u.subscribedArtists == []
      requires forall id :: id in users ==> users[id].email != u.email
      modifies this`users, this`nextId
      ensures users == old(users)[u.id := u] && nextId == old(nextId) + 1
      ensures Valid()
    {
      assert NoDuplicates(u.subscribedArtists) by { assert multiset(u.subscribedArtists) == multiset{}; }
      users, nextId := users[u.id := u], nextId + 1;
    }

    /** `userRepository.save` of a stored user whose subscriptions are as they were and whose email stays unique. */
    method SaveUser(u: User)
      requires Valid() && u.id in users && u.subscribedArtists == users[u.id].subscribedArtists
      requires EmailsUnique(users[u.id := u])
      modifies this`users
      ensures users == old(users)[u.id := u]
      ensures Valid()
    {
      users := users[u.id := u];
    }

    /**
     * `userRepository.delete` of a stored user that manages no artist: the user's rows
     * in the two join tables it owns (its subscriptions and its likes) go with it.
     */
    method RemoveUser(userId: Id)
      requires Valid() && userId in users
      modifies this`users, this`artists, this`tracks
      ensures users == old(users) - {userId}
      ensures artists == WithoutSubscriber(old(artists), userId)
      ensures tracks == WithoutLiker(old(tracks), userId)
      ensures Valid()
    {
      RemoveConsistent(users, artists, nextId, userId);
      users := users - {userId};
      DropSubscriptions(userId);
      DropLikes(userId);
    }

    /** The subscription rows owned by a deleted user go: its id leaves every subscriber list. */
    method DropSubscriptions(userId: Id)
      requires Valid() && userId !in users
      modifies this`artists
      ensures artists == WithoutSubscriber(old(artists), userId)
      ensures Valid()
    {
      RemoveUserKeepsConsistent(users, artists, nextId, userId);
      DropSubscriptionsKeepsKeyed(users, artists, albums, tracks, nextId, userId);
      DropSubscriptionsKeepsAlbums(artists, albums, userId);
      artists := WithoutSubscriber(artists, userId);
    }

    /** The `track_likes` rows owned by a deleted user go: its id leaves every like list. */
    method DropLikes(userId: Id)
      requires Valid()
      modifies this`tracks
      ensures tracks == WithoutLiker(old(tracks), userId)
      ensures Valid()
    {
      DropLikesKeepsKeyed(users, artists, albums, tracks, nextId, userId);
      DropLikesKeepsTracks(albums, tracks, userId);
      tracks := WithoutLiker(tracks, userId);
    }

    /** Applies the `@CacheEvict` annotations of a method that returned normally. */
    method EvictAll(e: Evictions)
      modifies this`cache
      ensures cache == Evict(old(cache), e)
      ensures CacheWellTyped(old(cache)) ==> CacheWellTyped(cache)
      ensures old(Valid()) ==> Valid()
    {
      cache := Evict(cache, e);
    }

    /** `@Cacheable` around a body that computed `computed` (`None` when it threw). */
    method Read(k: CacheKey, computed: Option<CachedValue>) returns (v: Option<CachedValue>)
      modifies this`cache
      ensures (v, cache) == ReadThrough(old(cache), k, computed)
    {
      var r := ReadThrough(cache, k, computed);
      v, cache := r.0, r.1;
    }

    /** A boolean query read through the cache. */
    method ReadFlag(k: CacheKey, computed: bool) returns (b: bool)
      requires Valid() && FlagRegion(k.region)
      modifies this`cache
      ensures Valid()
      ensures k in old(cache) ==> Some(Flag(b)) == Some(old(cache)[k]) && cache == old(cache)
      ensures k !in old(cache) ==> b == computed && cache == old(cache)[k := Flag(computed)]
    {
      var v := Read(k, Some(Flag(computed)));
      b := v.value.holds;
    }

    /** A listing query read through the cache; `None` is a body that threw. */
    method ReadListing(k: CacheKey, computed: Option<set<Id>>) returns (ids: Option<set<Id>>)
      requires Valid() && !FlagRegion(k.region)
      modifies this`cache
      ensures Valid()
      ensures k in old(cache) ==> ids == Some(old(cache)[k].ids) && cache == old(cache)
      ensures k !in old(cache) ==> ids == computed
      ensures k !in old(cache) && computed.Some? ==> cache == old(cache)[k := Listing(computed.value)]
      ensures k !in old(cache) && computed.None? ==> cache == old(cache)
    {
      var v := Read(k, if computed.Some? then Some(Listing(computed.value)) else None);
      ids := if v.Some? then Some(v.value.ids) else None;
    }
  }
}
