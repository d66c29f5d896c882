/**
 * UserService: creating users (with the artists they manage, created through
 * ArtistService.createArtist), updating, deleting (through
 * ArtistService.deleteAllArtistsByUser), granting the administrator role and the
 * lookup by email. The password encoder is a parameter: the services only pass
 * passwords through it.
 */
module UserService {
  import opened Wrappers
  import opened Model
  import opened Membership
  import opened Cache
  import opened Store
  import TrackService
  import AlbumService
  import ArtistService

  // ----- evictions -----

  /** `createUser`: `users.all` entirely, `user.byId` of the new id and `user.byEmail` of the requested email. */
  function CreateUserEvictions(userId: Id, req: UserRequest): (r: Evictions)
    ensures UsersAll in r.regions && Evicts(r, CacheKey(UserById, IdKey(userId))) && Evicts(r, CacheKey(UserByEmail, TextKey(req.email)))
  {
    Evictions({UsersAll}, {CacheKey(UserById, IdKey(userId)), CacheKey(UserByEmail, TextKey(req.email))})
  }

  function EmailKey(email: Text): CacheKey {
    CacheKey(UserByEmail, TextKey(email))
  }

  /** `updateUser` as written: `user.byEmail` is evicted under `#userUpdates.email`, the new email only. */
  function UpdateUserEvictionsAsWritten(user: User, req: UserRequest): (r: Evictions)
    ensures UsersAll in r.regions && UserByEmail !in r.regions
    ensures Evicts(r, CacheKey(UserById, IdKey(user.id))) && Evicts(r, EmailKey(req.email))
    ensures req.email != user.email ==> !Evicts(r, EmailKey(user.email))
  {
    Evictions({UsersAll}, {CacheKey(UserById, IdKey(user.id)), EmailKey(req.email)})
  }

  /** The corrected set: the entry under the email the user had before is evicted as well. */
  function UpdateUserEvictions(user: User, req: UserRequest): (r: Evictions)
    ensures UpdateUserEvictionsAsWritten(user, req).regions <= r.regions && UpdateUserEvictionsAsWritten(user, req).keys <= r.keys
    ensures Evicts(r, EmailKey(user.email)) && Evicts(r, EmailKey(req.email))
  {
    Then(UpdateUserEvictionsAsWritten(user, req), Evictions({}, {EmailKey(user.email)}))
  }

  /**
   * A user who changes their email leaves the cached `getUserByEmail` entry of the old
   * email in place, so the old email keeps finding the user.
   */
  lemma UpdateUserAsWrittenKeepsOldEmail(cache: map<CacheKey, CachedValue>, user: User, req: UserRequest)
    requires req.email != user.email && EmailKey(user.email) in cache
    ensures var after := Evict(cache, UpdateUserEvictionsAsWritten(user, req));
      EmailKey(user.email) in after && after[EmailKey(user.email)] == cache[EmailKey(user.email)]
  {
    assert !Evicts(UpdateUserEvictionsAsWritten(user, req), EmailKey(user.email));
  }

  /** With the corrected set neither the old nor the new email's entry survives an update. */
  lemma UpdateUserEvictionsDropEmails(cache: map<CacheKey, CachedValue>, user: User, req: UserRequest)
    ensures var after := Evict(cache, UpdateUserEvictions(user, req));
      EmailKey(user.email) !in after && EmailKey(req.email) !in after
  {
    EvictListed(cache, UpdateUserEvictions(user, req));
  }

  /** `deleteUser`: `users.all` and `user.byEmail` entirely, `user.byId` of the user. */
  function DeleteUserEvictions(userId: Id): (r: Evictions)
    ensures {UsersAll, UserByEmail} <= r.regions && Evicts(r, CacheKey(UserById, IdKey(userId)))
  {
    Evictions({UsersAll, UserByEmail}, {CacheKey(UserById, IdKey(userId))})
  }

  // ----- records -----

  /** `existsByEmail`. */
  predicate EmailTaken(users: map<Id, User>, email: Text)
    ensures EmailTaken(users, email) <==> email in (set id | id in users :: users[id].email)
  {
    exists id :: id in users && users[id].email == email
  }

  /** The user `createUser` builds: the encoded password, the role USER only, no subscriptions. */
  function NewUser(id: Id, req: UserRequest, password: string): (u: User)
    ensures u.id == id && u.roles == {RoleUser} && u.subscribedArtists == []
    ensures u.username == req.username && u.email == req.email && u.password == password
  {
    User(id, req.username, req.email, password, {RoleUser}, [])
  }

  function ArtistRequests(req: UserRequest): seq<ArtistRequest> {
    if req.managedArtists.Some? then req.managedArtists.value else []
  }

  // ----- the managed artists of `createUser` -----

  /** The ids one nested `createArtist` call hands out: the artist's, then its nested albums' and tracks'. */
  function ArtistCost(req: ArtistRequest): nat {
    1 + ArtistService.Span(ArtistService.AlbumRequests(req))
  }

  /** The ids the nested `createArtist` calls hand out together. */
  function Reach(reqs: seq<ArtistRequest>): nat {
    if reqs == [] then 0 else Reach(reqs[..|reqs| - 1]) + ArtistCost(reqs[|reqs| - 1])
  }

  /**
   * The artists the nested `createArtist(savedUser, request, null)` calls save after user
   * `userId`: each gets the id after those its predecessors used, no image and the user
   * as owner.
   */
  function ManagedArtists(reqs: seq<ArtistRequest>, userId: Id): (r: map<Id, Artist>)
    ensures forall id :: id in r ==>
      && userId < id <= userId + Reach(reqs)
      && r[id].id == id && r[id].owner == userId && r[id].subscribers == [] && r[id].imageFilePath == None
  {
    if reqs == [] then map[]
    else
      var p := reqs[..|reqs| - 1];
      var id := userId + 1 + Reach(p);
      ManagedArtists(p, userId)[id := ArtistService.NewArtist(id, reqs[|reqs| - 1], None, userId)]
  }

  /** The albums those calls save: each artist's nested albums. */
  function ManagedAlbums(reqs: seq<ArtistRequest>, userId: Id): (r: map<Id, Album>)
    ensures forall id :: id in r ==> userId < id <= userId + Reach(reqs) && r[id].id == id
  {
    if reqs == [] then map[]
    else
      var p := reqs[..|reqs| - 1];
      ManagedAlbums(p, userId) + ArtistCreationAlbums(reqs[|reqs| - 1], userId + 1 + Reach(p))
  }

  /** The albums one nested `createArtist` call saves for artist `id`. */
  function ArtistCreationAlbums(req: ArtistRequest, id: Id): map<Id, Album> {
    ArtistService.NestedAlbums(ArtistService.AlbumRequests(req), id)
  }

  /** The tracks one nested `createArtist` call saves for artist `id`. */
  function ArtistCreationTracks(req: ArtistRequest, id: Id): map<Id, Track> {
    ArtistService.NestedAlbumTracks(ArtistService.AlbumRequests(req), id)
  }

  /** The tracks those calls save: the nested tracks of each artist's nested albums. */
  function ManagedTracks(reqs: seq<ArtistRequest>, userId: Id): (r: map<Id, Track>)
    ensures forall id :: id in r ==> userId < id <= userId + Reach(reqs) && r[id].id == id
  {
    if reqs == [] then map[]
    else
      var p := reqs[..|reqs| - 1];
      ManagedTracks(p, userId) + ArtistCreationTracks(reqs[|reqs| - 1], userId + 1 + Reach(p))
  }

  /** The evictions of one nested `createArtist` call that saves artist `id`. */
  function ArtistCreationEvictions(req: ArtistRequest, id: Id, user: User): Evictions {
    Then(ArtistService.NestedAlbumEvictions(ArtistService.AlbumRequests(req), id, user), ArtistService.CreateArtistEvictions(id, user))
  }

  /** The evictions of the nested `createArtist` calls, in order. */
  function ManagedEvictions(reqs: seq<ArtistRequest>, user: User): Evictions {
    if reqs == [] then NoEvictions
    else
      var p := reqs[..|reqs| - 1];
      Then(ManagedEvictions(p, user), ArtistCreationEvictions(reqs[|reqs| - 1], user.id + 1 + Reach(p), user))
  }

  /** Every artist a new user manages is listed as theirs by `getUserArtists`, next to those listed before. */
  lemma ManagedArtistsOwned(artists: map<Id, Artist>, reqs: seq<ArtistRequest>, userId: Id)
    requires forall id :: id in artists ==> id <= userId
    ensures ArtistService.ArtistsOfUser(artists + ManagedArtists(reqs, userId), userId)
            == ArtistService.ArtistsOfUser(artists, userId) + ManagedArtists(reqs, userId).Keys
  {
  }

  lemma ReachStep(p: seq<ArtistRequest>, q: seq<ArtistRequest>, req: ArtistRequest)
    requires q == p + [req]
    ensures Reach(q) == Reach(p) + ArtistCost(req)
  {
    assert q[..|q| - 1] == p;
  }

  lemma ManagedArtistsStep(base: map<Id, Artist>, before: map<Id, Artist>, after: map<Id, Artist>,
                           p: seq<ArtistRequest>, q: seq<ArtistRequest>, req: ArtistRequest, id: Id, userId: Id)
    requires q == p + [req] && id == userId + 1 + Reach(p)
    requires before == base + ManagedArtists(p, userId)
    requires after == before[id := ArtistService.NewArtist(id, req, None, userId)]
    ensures after == base + ManagedArtists(q, userId)
  {
    assert q[..|q| - 1] == p;
  }

  lemma ManagedAlbumsStep(base: map<Id, Album>, before: map<Id, Album>, after: map<Id, Album>,
                          p: seq<ArtistRequest>, q: seq<ArtistRequest>, req: ArtistRequest, id: Id, userId: Id)
    requires q == p + [req] && id == userId + 1 + Reach(p)
    requires before == base + ManagedAlbums(p, userId)
    requires after == before + ArtistCreationAlbums(req, id)
    ensures after == base + ManagedAlbums(q, userId)
  {
    assert q[..|q| - 1] == p;
    UnionAssociates(base, ManagedAlbums(p, userId), ArtistCreationAlbums(req, id));
  }

  lemma ManagedTracksStep(base: map<Id, Track>, before: map<Id, Track>, after: map<Id, Track>,
                          p: seq<ArtistRequest>, q: seq<ArtistRequest>, req: ArtistRequest, id: Id, userId: Id)
    requires q == p + [req] && id == userId + 1 + Reach(p)
    requires before == base + ManagedTracks(p, userId)
    requires after == before + ArtistCreationTracks(req, id)
    ensures after == base + ManagedTracks(q, userId)
  {
    assert q[..|q| - 1] == p;
    UnionAssociates(base, ManagedTracks(p, userId), ArtistCreationTracks(req, id));
  }

  lemma ManagedEvictionsStep<V>(cache: map<CacheKey, V>, before: map<CacheKey, V>, after: map<CacheKey, V>,
                                p: seq<ArtistRequest>, q: seq<ArtistRequest>, req: ArtistRequest, id: Id, user: User)
    requires q == p + [req] && id == user.id + 1 + Reach(p)
    requires before == Evict(cache, ManagedEvictions(p, user))
    requires after == Evict(before, ArtistCreationEvictions(req, id, user))
    ensures after == Evict(cache, ManagedEvictions(q, user))
  {
    assert q[..|q| - 1] == p;
    EvictThen(cache, ManagedEvictions(p, user), ArtistCreationEvictions(req, id, user));
  }

  // ----- updateUser -----

  /**
   * `updateUser` computed on the stored user: the username when one is given; the email
   * when one is given and differs, failing when another user has it, and with a
   * NullPointerException when the stored email is null; the password when a non-blank
   * one is given.
   */
  function UpdateUserResult(users: map<Id, User>, u: User, req: UserRequest, encode: Text -> string): (r: Result<User, Failure>)
    ensures r.Err? <==> req.email.Some? && (u.email.None? || (u.email != req.email && EmailTaken(users, req.email)))
    ensures r.Err? ==> r.error == (if u.email.None? then NullPointer else IllegalArgument(EmailInUse))
    ensures r.Ok? ==> r.value.id == u.id && r.value.roles == u.roles && r.value.subscribedArtists == u.subscribedArtists
    ensures r.Ok? ==> r.value.username == (if req.username.Some? then req.username else u.username)
    ensures r.Ok? ==> r.value.email == (if req.email.Some? then req.email else u.email)
    ensures r.Ok? ==> r.value.password == (if req.password.Some? && !IsBlank(req.password.value) then encode(req.password) else u.password)
  {
    var named := if req.username.Some? then u.(username := req.username) else u;
    if req.email.Some? && u.email.None? then Err(NullPointer)
    else if req.email.Some? && u.email != req.email && EmailTaken(users, req.email) then Err(IllegalArgument(EmailInUse))
    else
      var mailed := if req.email.Some? && u.email != req.email then named.(email := req.email) else named;
      Ok(if req.password.Some? && !IsBlank(req.password.value) then mailed.(password := encode(req.password)) else mailed)
  }

  /** A successful update keeps emails unique. */
  lemma UpdateKeepsEmailsUnique(users: map<Id, User>, u: User, req: UserRequest, encode: Text -> string)
    requires EmailsUnique(users) && u.id in users && users[u.id] == u
    requires UpdateUserResult(users, u, req, encode).Ok?
    ensures EmailsUnique(users[u.id := UpdateUserResult(users, u, req, encode).value])
  {
    var v := UpdateUserResult(users, u, req, encode).value;
    var users' := users[u.id := v];
    forall a, b | a in users' && b in users' && users'[a].email == users'[b].email ensures a == b {
      if a != u.id && b != u.id {
        assert users[a].email == users[b].email;
      } else if v.email != u.email {
        assert !EmailTaken(users, v.email);
      }
    }
  }

  /** Applying the same update twice is applying it once. */
  lemma UpdateUserIdempotent(users: map<Id, User>, u: User, req: UserRequest, encode: Text -> string)
    requires u.id in users && UpdateUserResult(users, u, req, encode).Ok?
    ensures var v := UpdateUserResult(users, u, req, encode).value;
      UpdateUserResult(users[u.id := v], v, req, encode) == Ok(v)
  {
  }

  // ----- deleteUser -----

  /** The tracks that remain when the albums in `gone` are deleted with theirs. */
  function Surviving(tracks: map<Id, Track>, gone: set<Id>): (r: map<Id, Track>)
    ensures forall id :: id in r <==> id in tracks && tracks[id].album !in gone
    ensures forall id :: id in r ==> r[id] == tracks[id]
  {
    map id | id in tracks && tracks[id].album !in gone :: tracks[id]
  }

  lemma DeletedAlbumsAsMaps(albums0: map<Id, Album>, albums: map<Id, Album>, tracks0: map<Id, Track>, tracks: map<Id, Track>, gone: set<Id>)
    requires AlbumService.DeletedAlbums(albums0, albums, tracks0, tracks, gone)
    ensures albums == albums0 - gone && tracks == Surviving(tracks0, gone)
  {
  }

  // ----- addAdminRole -----

  /** The repository after `addAdminRole`: ADMIN joins the user's roles and nothing else changes. */
  function WithAdminRole(users: map<Id, User>, userId: Id): (r: map<Id, User>)
    requires userId in users
    ensures r.Keys == users.Keys
    ensures r[userId].roles == users[userId].roles + {RoleAdmin}
    ensures r[userId].(roles := users[userId].roles) == users[userId]
    ensures forall id :: id in users && id != userId ==> r[id] == users[id]
  {
    users[userId := users[userId].(roles := users[userId].roles + {RoleAdmin})]
  }

  lemma WithAdminRoleIdempotent(users: map<Id, User>, userId: Id)
    requires userId in users
    ensures WithAdminRole(WithAdminRole(users, userId), userId) == WithAdminRole(users, userId)
  {
    var r := WithAdminRole(users, userId);
    assert r[userId].roles + {RoleAdmin} == r[userId].roles;
    assert WithAdminRole(r, userId)[userId] == r[userId];
  }

  /** Once an administrator, the user passes every artist ownership check. */
  lemma AdminPassesOwnership(users: map<Id, User>, userId: Id, artist: Artist)
    requires userId in users
    ensures MayModify(artist, WithAdminRole(users, userId)[userId])
    ensures CheckArtistOwnership(artist, WithAdminRole(users, userId)[userId]) == Pass
  {
  }

  // ----- operations -----

  /**
   * `createUser`: IllegalArgument when the email is taken, with nothing created;
   * otherwise the user is saved under the next id and each managed-artist request is
   * created with the new user as owner.
   */
  method CreateUser(db: Catalogue, req: UserRequest, encode: Text -> string) returns (r: Result<User, Failure>)
    requires db.Valid()
    modifies db`users, db`artists, db`albums, db`tracks, db`files, db`nextFile, db`nextId, db`cache
    ensures db.Valid()
    ensures EmailTaken(old(db.users), req.email) ==> r == Err(IllegalArgument(EmailAlreadyExists)) && unchanged(db)
    ensures !EmailTaken(old(db.users), req.email) ==>
      var id := old(db.nextId);
      var reqs := ArtistRequests(req);
      && r == Ok(NewUser(id, req, encode(req.password)))
      && db.users == old(db.users)[id := r.value]
      && db.artists == old(db.artists) + ManagedArtists(reqs, id)
      && db.albums == old(db.albums) + ManagedAlbums(reqs, id)
      && db.tracks == old(db.tracks) + ManagedTracks(reqs, id)
      && db.nextId == id + 1 + Reach(reqs)
      && db.files == old(db.files) && db.nextFile == old(db.nextFile)
      && db.cache == Evict(old(db.cache), Then(ManagedEvictions(reqs, r.value), CreateUserEvictions(id, req)))
  {
    if EmailTaken(db.users, req.email) {
      return Err(IllegalArgument(EmailAlreadyExists));
    }
    var id := db.nextId;
    var user := NewUser(id, req, encode(req.password));
    db.AddUser(user);
    CreateManagedArtists(db, user, ArtistRequests(req));
    ghost var cache1 := db.cache;
    db.EvictAll(CreateUserEvictions(id, req));
    EvictInSequence(old(db.cache), cache1, db.cache, ManagedEvictions(ArtistRequests(req), user), CreateUserEvictions(id, req));
    r := Ok(user);
  }

  /** The `forEach` over the managed-artist requests of a user just saved. */
  method CreateManagedArtists(db: Catalogue, user: User, reqs: seq<ArtistRequest>)
    requires db.Valid() && db.nextId == user.id + 1
    modifies db`artists, db`albums, db`tracks, db`files, db`nextFile, db`nextId, db`cache
    ensures db.Valid()
    ensures db.artists == old(db.artists) + ManagedArtists(reqs, user.id)
    ensures db.albums == old(db.albums) + ManagedAlbums(reqs, user.id)
    ensures db.tracks == old(db.tracks) + ManagedTracks(reqs, user.id)
    ensures db.nextId == user.id + 1 + Reach(reqs)
    ensures db.files == old(db.files) && db.nextFile == old(db.nextFile)
    ensures db.cache == Evict(old(db.cache), ManagedEvictions(reqs, user))
  {
    var i := 0;
    while i < |reqs|
      invariant 0 <= i <= |reqs|
      invariant db.Valid()
      invariant db.nextId == user.id + 1 + Reach(reqs[..i])
      invariant db.artists == old(db.artists) + ManagedArtists(reqs[..i], user.id)
      invariant db.albums == old(db.albums) + ManagedAlbums(reqs[..i], user.id)
      invariant db.tracks == old(db.tracks) + ManagedTracks(reqs[..i], user.id)
      invariant db.files == old(db.files) && db.nextFile == old(db.nextFile)
      invariant db.cache == Evict(old(db.cache), ManagedEvictions(reqs[..i], user))
    {
      ghost var artists0, albums0, tracks0, cache0 := db.artists, db.albums, db.tracks, db.cache;
      var id := db.nextId;
      var j := i + 1;
      ArtistService.PrefixStep(reqs, i, j);
      CreateManagedArtist(db, user, reqs[i]);
      ReachStep(reqs[..i], reqs[..j], reqs[i]);
      ManagedArtistsStep(old(db.artists), artists0, db.artists, reqs[..i], reqs[..j], reqs[i], id, user.id);
      ManagedAlbumsStep(old(db.albums), albums0, db.albums, reqs[..i], reqs[..j], reqs[i], id, user.id);
      ManagedTracksStep(old(db.tracks), tracks0, db.tracks, reqs[..i], reqs[..j], reqs[i], id, user.id);
      ManagedEvictionsStep(old(db.cache), cache0, db.cache, reqs[..i], reqs[..j], reqs[i], id, user);
      i := j;
    }
    assert reqs[..i] == reqs;
  }

  /** One nested `artistService.createArtist(savedUser, request, null)` call. */
  method CreateManagedArtist(db: Catalogue, user: User, req: ArtistRequest)
    requires db.Valid()
    modifies db`artists, db`albums, db`tracks, db`files, db`nextFile, db`nextId, db`cache
    ensures db.Valid()
    ensures var id := old(db.nextId);
      && db.artists == old(db.artists)[id := ArtistService.NewArtist(id, req, None, user.id)]
      && db.albums == old(db.albums) + ArtistCreationAlbums(req, id)
      && db.tracks == old(db.tracks) + ArtistCreationTracks(req, id)
      && db.nextId == id + ArtistCost(req)
      && db.files == old(db.files) && db.nextFile == old(db.nextFile)
      && db.cache == Evict(old(db.cache), ArtistCreationEvictions(req, id, user))
  {
    var a := ArtistService.CreateArtist(db, user, req, None);
  }

  /**
   * `updateUser` on the stored caller: on success the record is saved with the changes
   * and the cache entries are evicted; on failure nothing is saved.
   */
  method UpdateUser(db: Catalogue, user: User, req: UserRequest, encode: Text -> string) returns (r: Result<User, Failure>)
    requires db.Valid() && db.IsStored(user)
    modifies db`users, db`cache
    ensures db.Valid()
    ensures r == UpdateUserResult(old(db.users), user, req, encode)
    ensures r.Ok? ==> db.users == old(db.users)[user.id := r.value] && db.cache == Evict(old(db.cache), UpdateUserEvictionsAsWritten(user, req))
    ensures r.Ok? && req.email != user.email && EmailKey(user.email) in old(db.cache) ==>
      EmailKey(user.email) in db.cache && db.cache[EmailKey(user.email)] == old(db.cache)[EmailKey(user.email)]
    ensures r.Err? ==> unchanged(db)
  {
    r := UpdateUserResult(db.users, user, req, encode);
    if r.Err? {
      return;
    }
    UpdateKeepsEmailsUnique(db.users, user, req, encode);
    db.SaveUser(r.value);
    ghost var cache0 := db.cache;
    db.EvictAll(UpdateUserEvictionsAsWritten(user, req));
    if req.email != user.email && EmailKey(user.email) in cache0 {
      UpdateUserAsWrittenKeepsOldEmail(cache0, user, req);
    }
  }

  /**
   * `deleteUser`: NotFound for an unknown id; otherwise every artist the user manages is
   * deleted with its albums, tracks and files, then the user with its subscription and
   * like rows.
   */
  method DeleteUser(db: Catalogue, userId: Id) returns (r: Outcome<Failure>)
    requires db.Valid()
    modifies db`users, db`artists, db`albums, db`tracks, db`files, db`cache
    ensures db.Valid()
    ensures userId !in old(db.users) ==> r == Fail(NotFound) && unchanged(db)
    ensures userId in old(db.users) ==>
      var gone := ArtistService.ArtistsOfUser(old(db.artists), userId);
      var albumsGone := ArtistService.AlbumsOfArtists(old(db.albums), gone);
      && r == Pass
      && db.users == old(db.users) - {userId}
      && db.artists == WithoutSubscriber(old(db.artists) - gone, userId)
      && db.albums == old(db.albums) - albumsGone
      && db.tracks == WithoutLiker(Surviving(old(db.tracks), albumsGone), userId)
      && db.files == old(db.files) - ArtistService.ArtistImages(old(db.artists), gone)
                                   - TrackService.AudioFiles(old(db.tracks), AlbumService.TracksOfAlbums(old(db.tracks), albumsGone))
                                   - AlbumService.ImageFiles(old(db.albums), albumsGone)
      && db.cache == Evict(old(db.cache), Then(ArtistService.CascadeEvictions(gone, albumsGone), DeleteUserEvictions(userId)))
    ensures userId in old(db.users) ==>
      && (forall id :: id in db.artists ==> db.artists[id].owner != userId && userId !in db.artists[id].subscribers)
      && TrackService.LikedTracks(db.tracks, userId) == {}
  {
    if userId !in db.users {
      return Fail(NotFound);
    }
    ArtistService.DeleteAllArtistsByUser(db, userId);
    DeletedAlbumsAsMaps(old(db.albums), db.albums, old(db.tracks), db.tracks,
                        ArtistService.AlbumsOfArtists(old(db.albums), ArtistService.ArtistsOfUser(old(db.artists), userId)));
    db.RemoveUser(userId);
    ghost var cache1 := db.cache;
    db.EvictAll(DeleteUserEvictions(userId));
    EvictInSequence(old(db.cache), cache1, db.cache,
      ArtistService.CascadeEvictions(ArtistService.ArtistsOfUser(old(db.artists), userId),
                                     ArtistService.AlbumsOfArtists(old(db.albums), ArtistService.ArtistsOfUser(old(db.artists), userId))),
      DeleteUserEvictions(userId));
    r := Pass;
  }

  /** `addAdminRole`: NotFound for an unknown id; otherwise ADMIN joins the user's roles. */
  method AddAdminRole(db: Catalogue, userId: Id) returns (r: Outcome<Failure>)
    requires db.Valid()
    modifies db`users
    ensures db.Valid()
    ensures userId !in old(db.users) ==> r == Fail(NotFound) && unchanged(db)
    ensures userId in old(db.users) ==> r == Pass && db.users == WithAdminRole(old(db.users), userId)
  {
    if userId !in db.users {
      return Fail(NotFound);
    }
    var u := db.users[userId];
    assert db.users[userId := u.(roles := u.roles + {RoleAdmin})] == WithAdminRole(db.users, userId);
    forall a, b | a in WithAdminRole(db.users, userId) && b in WithAdminRole(db.users, userId)
                  && WithAdminRole(db.users, userId)[a].email == WithAdminRole(db.users, userId)[b].email
      ensures a == b
    {
      assert db.users[a].email == db.users[b].email;
    }
    db.SaveUser(u.(roles := u.roles + {RoleAdmin}));
    r := Pass;
  }

  /** `getUserEntityByEmail`: the one stored user with that email, or NotFound. */
  method GetUserEntityByEmail(db: Catalogue, email: Text) returns (r: Result<User, Failure>)
    requires db.Valid()
    ensures r.Err? <==> !EmailTaken(db.users, email)
    ensures r.Err? ==> r.error == NotFound
    ensures r.Ok? ==> db.IsStored(r.value) && r.value.email == email
    ensures r.Ok? ==> forall id :: id in db.users && db.users[id].email == email ==> id == r.value.id
  {
    if !EmailTaken(db.users, email) {
      return Err(NotFound);
    }
    var id :| id in db.users && db.users[id].email == email;
    r := Ok(db.users[id]);
  }
}
