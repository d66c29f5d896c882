/**
 * ArtistService: creating an artist with its nested albums, updating and deleting
 * artists (with their albums and tracks), deleting every artist of a user,
 * subscriptions, and the artist queries.
 */
module ArtistService {
  import opened Wrappers
  import opened Model
  import opened Membership
  import opened Cache
  import opened Store
  import TrackService
  import AlbumService

  // ----- eviction sets -----

  /** `createArtist`; the `artist.byId` entry is keyed by `#result.id`, the new artist's id. */
  function CreateArtistEvictions(artistId: Id, user: User): (r: Evictions)
    ensures {ArtistsAll, ArtistSearch} <= r.regions && Evicts(r, CacheKey(ArtistById, IdKey(artistId)))
    ensures Evicts(r, CacheKey(ArtistsByUserId, IdKey(user.id))) && Evicts(r, CacheKey(ArtistSubscriptions, IdKey(user.id)))
  {
    Evictions({ArtistsAll, ArtistSearch},
              {CacheKey(ArtistById, IdKey(artistId)), CacheKey(ArtistsByUserId, IdKey(user.id)),
               CacheKey(ArtistSubscriptions, IdKey(user.id))})
  }

  function UpdateArtistEvictions(artistId: Id): (r: Evictions)
    ensures {ArtistsAll, ArtistsByUserId, ArtistSearch} <= r.regions && Evicts(r, CacheKey(ArtistById, IdKey(artistId)))
  {
    Evictions({ArtistsAll, ArtistsByUserId, ArtistSearch}, {CacheKey(ArtistById, IdKey(artistId))})
  }

  /** The cache key of `getUserArtists(userId)`. */
  function UserArtistsKey(userId: Id): CacheKey {
    CacheKey(ArtistsByUserId, IdKey(userId))
  }

  /** `deleteArtist` as written: the `artists.byUserId` entry is keyed by `#user.id`, the caller. */
  function DeleteArtistEvictionsAsWritten(artistId: Id, user: User): (r: Evictions)
    ensures {ArtistsAll, ArtistSearch, ArtistSubscriptions} <= r.regions && ArtistsByUserId !in r.regions
    ensures Evicts(r, CacheKey(ArtistById, IdKey(artistId))) && Evicts(r, CacheKey(ArtistSubscribers, IdKey(artistId)))
    ensures Evicts(r, UserArtistsKey(user.id))
    ensures forall id :: id != user.id ==> !Evicts(r, UserArtistsKey(id))
  {
    Evictions({ArtistsAll, ArtistSearch, ArtistSubscriptions},
              {CacheKey(ArtistById, IdKey(artistId)), UserArtistsKey(user.id), CacheKey(ArtistSubscribers, IdKey(artistId))})
  }

  /** The corrected set: the listing evicted is the one of the artist's owner, whoever deletes it. */
  function DeleteArtistEvictions(artistId: Id, owner: Id): (r: Evictions)
    ensures {ArtistsAll, ArtistSearch, ArtistSubscriptions} <= r.regions && ArtistsByUserId !in r.regions
    ensures Evicts(r, CacheKey(ArtistById, IdKey(artistId))) && Evicts(r, CacheKey(ArtistSubscribers, IdKey(artistId)))
    ensures Evicts(r, UserArtistsKey(owner))
    ensures forall id :: id != owner ==> !Evicts(r, UserArtistsKey(id))
  {
    Evictions({ArtistsAll, ArtistSearch, ArtistSubscriptions},
              {CacheKey(ArtistById, IdKey(artistId)), UserArtistsKey(owner), CacheKey(ArtistSubscribers, IdKey(artistId))})
  }

  /**
   * An administrator who deletes another user's artist that has no albums leaves the
   * owner's cached `getUserArtists` listing in place, so it keeps listing the deleted artist.
   */
  lemma DeleteArtistAsWrittenKeepsOwnerListing(cache: map<CacheKey, CachedValue>, artistId: Id, admin: User, owner: Id)
    requires admin.id != owner && UserArtistsKey(owner) in cache
    ensures var e := Then(Then(AlbumService.AlbumSetEvictions({}), AlbumService.DeleteAlbumsByArtistEvictions()),
                          DeleteArtistEvictionsAsWritten(artistId, admin));
      UserArtistsKey(owner) in Evict(cache, e) && Evict(cache, e)[UserArtistsKey(owner)] == cache[UserArtistsKey(owner)]
  {
    var e := Then(Then(AlbumService.AlbumSetEvictions({}), AlbumService.DeleteAlbumsByArtistEvictions()),
                  DeleteArtistEvictionsAsWritten(artistId, admin));
    assert !Evicts(e, UserArtistsKey(owner));
  }

  /** With the corrected set the owner's listing is gone after every successful delete, with or without albums. */
  lemma DeleteArtistEvictionsDropOwnerListing(cache: map<CacheKey, CachedValue>, artistId: Id, owner: Id, gone: set<Id>)
    ensures var e := Then(Then(AlbumService.AlbumSetEvictions(gone), AlbumService.DeleteAlbumsByArtistEvictions()),
                          DeleteArtistEvictions(artistId, owner));
      UserArtistsKey(owner) !in Evict(cache, e) && CacheKey(ArtistById, IdKey(artistId)) !in Evict(cache, e)
  {
    var e := Then(Then(AlbumService.AlbumSetEvictions(gone), AlbumService.DeleteAlbumsByArtistEvictions()),
                  DeleteArtistEvictions(artistId, owner));
    EvictListed(cache, e);
  }

  /** The evictions `subscribeToArtist` and `unsubscribeFromArtist` list: nothing in `artist.subscribed`. */
  function SubscribeEvictionsAsWritten(artistId: Id, user: User): (r: Evictions)
    ensures r.regions == {}
    ensures Evicts(r, CacheKey(ArtistSubscribers, IdKey(artistId))) && Evicts(r, CacheKey(ArtistSubscriptions, IdKey(user.id)))
    ensures Evicts(r, CacheKey(ArtistById, IdKey(artistId)))
    ensures !Evicts(r, SubscribedKey(user.id, artistId))
  {
    Evictions({}, {CacheKey(ArtistSubscribers, IdKey(artistId)), CacheKey(ArtistSubscriptions, IdKey(user.id)),
                   CacheKey(ArtistById, IdKey(artistId))})
  }

  /** The cache key of `isUserSubscribed(user, artistId)`: `{#user.id, #artistId}`. */
  function SubscribedKey(userId: Id, artistId: Id): CacheKey {
    CacheKey(ArtistSubscribed, PairKey(userId, artistId))
  }

  /** The corrected set the toggles should apply: the listed evictions plus the toggled pair's subscription status. */
  function SubscribeEvictions(artistId: Id, user: User): (r: Evictions)
    ensures SubscribeEvictionsAsWritten(artistId, user).regions <= r.regions && SubscribeEvictionsAsWritten(artistId, user).keys <= r.keys
    ensures Evicts(r, SubscribedKey(user.id, artistId))
  {
    Then(SubscribeEvictionsAsWritten(artistId, user), Evictions({}, {SubscribedKey(user.id, artistId)}))
  }

  /** A toggle as written leaves a cached subscription status in place, so `isUserSubscribed` keeps answering from before it. */
  lemma SubscribeEvictionsAsWrittenKeepStatus(cache: map<CacheKey, CachedValue>, artistId: Id, user: User)
    requires SubscribedKey(user.id, artistId) in cache
    ensures SubscribedKey(user.id, artistId) in Evict(cache, SubscribeEvictionsAsWritten(artistId, user))
    ensures Evict(cache, SubscribeEvictionsAsWritten(artistId, user))[SubscribedKey(user.id, artistId)] == cache[SubscribedKey(user.id, artistId)]
  {
    assert !Evicts(SubscribeEvictionsAsWritten(artistId, user), SubscribedKey(user.id, artistId));
  }

  /**
   * With the corrected set, the cached answers about the toggled pair are gone (the
   * artist, its subscribers, the user's subscriptions and the status) while the
   * status of every other pair stays.
   */
  lemma SubscribeEvictionsDropPair(cache: map<CacheKey, CachedValue>, artistId: Id, user: User)
    ensures SubscribedKey(user.id, artistId) !in Evict(cache, SubscribeEvictions(artistId, user))
    ensures CacheKey(ArtistSubscribers, IdKey(artistId)) !in Evict(cache, SubscribeEvictions(artistId, user))
    ensures CacheKey(ArtistSubscriptions, IdKey(user.id)) !in Evict(cache, SubscribeEvictions(artistId, user))
    ensures CacheKey(ArtistById, IdKey(artistId)) !in Evict(cache, SubscribeEvictions(artistId, user))
    ensures forall k :: k in cache && k.region == ArtistSubscribed && k != SubscribedKey(user.id, artistId) ==> k in Evict(cache, SubscribeEvictions(artistId, user))
  {
    EvictListed(cache, SubscribeEvictions(artistId, user));
  }

  /**
   * What a run of `delete` calls evicts: nothing of its own (the calls are
   * self-invocations), and the evictions of the nested `deleteAlbumsByArtist` calls,
   * which delete the albums in `albumsGone`.
   */
  function CascadeEvictions(artistsGone: set<Id>, albumsGone: set<Id>): Evictions {
    if artistsGone == {} then NoEvictions
    else Then(AlbumService.AlbumSetEvictions(albumsGone), AlbumService.DeleteAlbumsByArtistEvictions())
  }

  // ----- queries -----

  /** `findByUserId`: the artists the user manages. */
  function ArtistsOfUser(artists: map<Id, Artist>, userId: Id): (r: set<Id>)
    ensures forall id :: id in r <==> id in artists && artists[id].owner == userId
  {
    set id | id in artists && artists[id].owner == userId
  }

  /** `getUserArtists` computed: NotFound for an unknown user. */
  function UserArtistsResult(users: map<Id, User>, artists: map<Id, Artist>, userId: Id): (r: Result<set<Id>, Failure>)
    ensures userId !in users <==> r == Err(NotFound)
    ensures r.Ok? ==> r.value == ArtistsOfUser(artists, userId)
  {
    if userId !in users then Err(NotFound) else Ok(ArtistsOfUser(artists, userId))
  }

  /** `findByArtistNameContainingIgnoreCase`: unlike the track and album searches, a blank name is not special. */
  function SearchResult(artists: map<Id, Artist>, name: Text): (r: set<Id>)
    ensures r <= artists.Keys
    ensures forall id :: id in r <==> id in artists && ContainsIgnoreCase(artists[id].artistName, name)
  {
    set id | id in artists && ContainsIgnoreCase(artists[id].artistName, name)
  }

  /** A null name finds no artist, and the empty name finds every artist that has a name. */
  lemma {:induction false} SearchEdgeCases(artists: map<Id, Artist>)
    ensures SearchResult(artists, None) == {}
    ensures forall id :: id in SearchResult(artists, Some("")) <==> id in artists && artists[id].artistName.Some?
  {
    forall id | id in artists && artists[id].artistName.Some? ensures id in SearchResult(artists, Some("")) {
      assert OccursAt(LowerString(""), LowerString(artists[id].artistName.value), 0);
    }
  }

  /** `existsByIdAndSubscribersId`. */
  predicate IsSubscribed(artists: map<Id, Artist>, artistId: Id, userId: Id)
    ensures artistId !in artists ==> !IsSubscribed(artists, artistId, userId)
    ensures IsSubscribed(artists, artistId, userId) ==> userId in multiset(artists[artistId].subscribers)
  {
    artistId in artists && userId in artists[artistId].subscribers
  }

  /** `getArtistSubscribers` computed: NotFound for an unknown artist. */
  function SubscribersResult(artists: map<Id, Artist>, artistId: Id): (r: Result<set<Id>, Failure>)
    ensures artistId !in artists <==> r == Err(NotFound)
    ensures r.Ok? ==> forall u :: u in r.value <==> IsSubscribed(artists, artistId, u)
  {
    if artistId !in artists then Err(NotFound) else Ok(set u | u in artists[artistId].subscribers)
  }

  /** `getUserSubscriptions`: the artists on the caller object's own subscription list. */
  function Subscriptions(user: User): (r: set<Id>)
    ensures forall a :: a in r <==> a in user.subscribedArtists
  {
    set a | a in user.subscribedArtists
  }

  /**
   * Under the invariant both sides of the subscription table agree: a stored user
   * lists a stored artist exactly when the artist lists the user, so the status query
   * and the user's subscription list give the same answer.
   */
  lemma SubscriptionSidesAgree(users: map<Id, User>, artists: map<Id, Artist>, bound: nat, userId: Id, artistId: Id)
    requires SubscriptionsConsistent(users, artists, bound) && userId in users && artistId in artists
    ensures IsSubscribed(artists, artistId, userId) <==> artistId in users[userId].subscribedArtists
    ensures IsSubscribed(artists, artistId, userId) <==> artistId in Subscriptions(users[userId])
  {
  }

  // ----- record updates -----

  function AlbumRequests(req: ArtistRequest): seq<AlbumRequest> {
    if req.albums.Some? then req.albums.value else []
  }

  /** The artist `createArtist` saves: name and description from the request, the caller as its owner, no subscribers. */
  function NewArtist(id: Id, req: ArtistRequest, image: Option<FileName>, owner: Id): (r: Artist)
    ensures r.id == id && r.owner == owner && r.imageFilePath == image
    ensures r.artistName == req.artistName && r.description == req.description
    ensures r.subscribers == []
  {
    Artist(id, req.artistName, image, req.description, owner, [])
  }

  /**
   * `updateArtistById`: a null name keeps the stored one, the description is always
   * overwritten (a null description clears it), and the image changes only when a
   * file was uploaded.
   */
  function UpdatedArtist(a: Artist, req: ArtistRequest, upload: Option<FileName>): (r: Artist)
    ensures r.artistName == (if req.artistName.Some? then req.artistName else a.artistName)
    ensures r.description == req.description
    ensures r.imageFilePath == (if upload.Some? then upload else a.imageFilePath)
    ensures r.id == a.id && r.owner == a.owner && r.subscribers == a.subscribers
  {
    a.(artistName := if req.artistName != None then req.artistName else a.artistName,
       description := req.description,
       imageFilePath := if upload.Some? then upload else a.imageFilePath)
  }

  /** Repeating an update without a file changes nothing more. */
  lemma UpdatedArtistIdempotent(a: Artist, req: ArtistRequest)
    ensures UpdatedArtist(UpdatedArtist(a, req, None), req, None) == UpdatedArtist(a, req, None)
  {
  }

  /** The image files of a set of artists. */
  function ArtistImages(artists: map<Id, Artist>, ids: set<Id>): set<FileName> {
    set id | id in ids && id in artists && artists[id].imageFilePath.Some? :: artists[id].imageFilePath.value
  }

  // ----- the nested albums of `createArtist` -----

  /**
   * How many ids the nested `createAlbum` calls hand out: one per album and one per
   * nested track, all from the model's one id counter.
   */
  function Span(reqs: seq<AlbumRequest>): nat {
    if reqs == [] then 0
    else Span(reqs[..|reqs| - 1]) + 1 + |AlbumService.TrackRequests(reqs[|reqs| - 1])|
  }

  /**
   * The albums the nested `createAlbum(artistId, user, request, null)` calls save: each
   * gets the id after the ones its predecessors used, and the artist as its creator.
   */
  function NestedAlbums(reqs: seq<AlbumRequest>, artistId: Id): (r: map<Id, Album>)
    ensures forall id :: id in r ==>
      && artistId < id <= artistId + Span(reqs)
      && r[id].id == id && r[id].artists == [artistId] && r[id].imageFilePath == None
  {
    if reqs == [] then map[]
    else
      var p := reqs[..|reqs| - 1];
      var id := artistId + 1 + Span(p);
      NestedAlbums(p, artistId)[id := AlbumService.NewAlbum(id, reqs[|reqs| - 1], None, artistId)]
  }

  /** The tracks one nested `createAlbum` call saves for album `id`, numbered after it. */
  function AlbumCreationTracks(req: AlbumRequest, id: Id, artistId: Id): map<Id, Track> {
    AlbumService.CreatedTracks(AlbumService.TrackRequests(req), AlbumService.NewAlbum(id, req, None, artistId))
  }

  /** The tracks those calls save: those of each album, numbered after it. */
  function NestedAlbumTracks(reqs: seq<AlbumRequest>, artistId: Id): (r: map<Id, Track>)
    ensures forall id :: id in r ==>
      && artistId < id <= artistId + Span(reqs)
      && r[id].id == id && r[id].artists == [artistId] && r[id].album in NestedAlbums(reqs, artistId)
      && r[id].album < id && r[id].audioFilePath == None && r[id].likedUsers == []
  {
    if reqs == [] then map[]
    else
      var p := reqs[..|reqs| - 1];
      var id := artistId + 1 + Span(p);
      AlbumService.CreatedTracksShape(AlbumService.TrackRequests(reqs[|reqs| - 1]), AlbumService.NewAlbum(id, reqs[|reqs| - 1], None, artistId));
      NestedAlbumTracks(p, artistId) + AlbumCreationTracks(reqs[|reqs| - 1], id, artistId)
  }

  /** In the model's single numbering no nested track shares an id with a nested album. */
  lemma {:induction false} NestedIdsDistinct(reqs: seq<AlbumRequest>, artistId: Id)
    ensures forall id :: id in NestedAlbums(reqs, artistId) ==> id !in NestedAlbumTracks(reqs, artistId)
  {
    if reqs != [] {
      var p := reqs[..|reqs| - 1];
      var id := artistId + 1 + Span(p);
      var album := AlbumService.NewAlbum(id, reqs[|reqs| - 1], None, artistId);
      NestedIdsDistinct(p, artistId);
      AlbumService.CreatedTracksShape(AlbumService.TrackRequests(reqs[|reqs| - 1]), album);
    }
  }

  /** The evictions of one nested `createAlbum` call that saves album `id`: its nested tracks', then its own. */
  function AlbumCreationEvictions(req: AlbumRequest, id: Id, user: User): Evictions {
    Then(AlbumService.NestedTrackEvictions(id, |AlbumService.TrackRequests(req)|, user), AlbumService.AlbumEvictions(id))
  }

  /** The evictions of the nested `createAlbum` calls, in order. */
  function NestedAlbumEvictions(reqs: seq<AlbumRequest>, artistId: Id, user: User): Evictions {
    if reqs == [] then NoEvictions
    else
      var p := reqs[..|reqs| - 1];
      Then(NestedAlbumEvictions(p, artistId, user), AlbumCreationEvictions(reqs[|reqs| - 1], artistId + 1 + Span(p), user))
  }

  /** Every nested album's `album.byId` entry is among the evictions. */
  lemma {:induction false} NestedAlbumEvictionsCover(reqs: seq<AlbumRequest>, artistId: Id, user: User)
    ensures forall id :: id in NestedAlbums(reqs, artistId) ==> Evicts(NestedAlbumEvictions(reqs, artistId, user), CacheKey(AlbumById, IdKey(id)))
  {
    if reqs != [] {
      NestedAlbumEvictionsCover(reqs[..|reqs| - 1], artistId, user);
    }
  }

  /** Proof step of the nested-creation loops: one more request, and the prefix grows by it. */
  lemma PrefixStep<T>(reqs: seq<T>, i: nat, j: nat)
    requires i < |reqs| && j == i + 1
    ensures reqs[..j] == reqs[..i] + [reqs[i]]
  {
  }

  /** One more nested album: the ids in use afterwards. */
  lemma SpanStep(p: seq<AlbumRequest>, q: seq<AlbumRequest>, req: AlbumRequest)
    requires q == p + [req]
    ensures Span(q) == Span(p) + 1 + |AlbumService.TrackRequests(req)|
  {
    assert q[..|q| - 1] == p;
  }

  lemma NestedAlbumsStep(base: map<Id, Album>, before: map<Id, Album>, after: map<Id, Album>,
                         p: seq<AlbumRequest>, q: seq<AlbumRequest>, req: AlbumRequest, id: Id, artistId: Id)
    requires q == p + [req] && id == artistId + 1 + Span(p)
    requires before == base + NestedAlbums(p, artistId)
    requires after == before[id := AlbumService.NewAlbum(id, req, None, artistId)]
    ensures after == base + NestedAlbums(q, artistId)
  {
    assert q[..|q| - 1] == p;
  }

  lemma NestedTracksStep(base: map<Id, Track>, before: map<Id, Track>, after: map<Id, Track>,
                         p: seq<AlbumRequest>, q: seq<AlbumRequest>, req: AlbumRequest, id: Id, artistId: Id)
    requires q == p + [req] && id == artistId + 1 + Span(p)
    requires before == base + NestedAlbumTracks(p, artistId)
    requires after == before + AlbumCreationTracks(req, id, artistId)
    ensures after == base + NestedAlbumTracks(q, artistId)
  {
    assert q[..|q| - 1] == p;
    UnionAssociates(base, NestedAlbumTracks(p, artistId), AlbumCreationTracks(req, id, artistId));
  }

  lemma NestedEvictionsStep<V>(cache: map<CacheKey, V>, before: map<CacheKey, V>, after: map<CacheKey, V>,
                               p: seq<AlbumRequest>, q: seq<AlbumRequest>, req: AlbumRequest, id: Id, artistId: Id, user: User)
    requires q == p + [req] && id == artistId + 1 + Span(p)
    requires before == Evict(cache, NestedAlbumEvictions(p, artistId, user))
    requires after == Evict(before, AlbumCreationEvictions(req, id, user))
    ensures after == Evict(cache, NestedAlbumEvictions(q, artistId, user))
  {
    assert q[..|q| - 1] == p;
    EvictThen(cache, NestedAlbumEvictions(p, artistId, user), AlbumCreationEvictions(req, id, user));
  }

  // ----- invariants -----

  /** A new artist without subscribers under the next id keeps the subscription table consistent. */
  lemma NewArtistKeepsConsistent(users: map<Id, User>, artists: map<Id, Artist>, bound: nat, a: Artist)
    requires SubscriptionsConsistent(users, artists, bound) && a.id == bound && a.subscribers == []
    ensures SubscriptionsConsistent(users, artists[a.id := a], bound + 1)
  {
    assert NoDuplicates(a.subscribers) by { assert multiset(a.subscribers) == multiset{}; }
  }

  /** Adding a stored artist keeps every album well formed. */
  lemma MoreArtistsKeepAlbums(albums: map<Id, Album>, artists: map<Id, Artist>, a: Artist)
    requires AlbumsWellFormed(albums, artists)
    ensures AlbumsWellFormed(albums, artists[a.id := a])
  {
    forall x | x in albums ensures AlbumWellFormed(albums[x], artists[a.id := a]) {
      assert AlbumWellFormed(albums[x], artists);
    }
  }

  /** Removing an artist no album lists keeps the invariants about albums and subscriptions. */
  lemma RemoveArtistKeepsValid(users: map<Id, User>, artists: map<Id, Artist>, albums: map<Id, Album>, bound: nat, artistId: Id)
    requires AlbumsWellFormed(albums, artists) && SubscriptionsConsistent(users, artists, bound)
    requires forall id :: id in albums ==> artistId !in albums[id].artists
    ensures AlbumsWellFormed(albums, artists - {artistId}) && SubscriptionsConsistent(users, artists - {artistId}, bound)
  {
    forall x | x in albums ensures AlbumWellFormed(albums[x], artists - {artistId}) {
      assert AlbumWellFormed(albums[x], artists);
    }
  }

  /**
   * Editing one user's subscription list and one artist's subscriber list so that both
   * keep every other entry, both list the pair or neither does, and neither lists
   * anything twice, keeps the subscription table consistent.
   */
  lemma PairEditKeepsConsistent(users: map<Id, User>, artists: map<Id, Artist>, bound: nat, userId: Id, artistId: Id,
                                subs: seq<Id>, fans: seq<Id>, linked: bool)
    requires SubscriptionsConsistent(users, artists, bound) && userId in users && artistId in artists
    requires forall y :: y != artistId ==> (y in subs <==> y in users[userId].subscribedArtists)
    requires forall y :: y != userId ==> (y in fans <==> y in artists[artistId].subscribers)
    requires (artistId in subs <==> linked) && (userId in fans <==> linked)
    requires NoDuplicates(subs) && NoDuplicates(fans)
    requires (forall x :: x in subs ==> x < bound) && (forall x :: x in fans ==> x < bound)
    ensures SubscriptionsConsistent(users[userId := users[userId].(subscribedArtists := subs)],
                                    artists[artistId := artists[artistId].(subscribers := fans)], bound)
  {
    var users', artists' := users[userId := users[userId].(subscribedArtists := subs)], artists[artistId := artists[artistId].(subscribers := fans)];
    forall v, b | v in users' && b in users'[v].subscribedArtists && b in artists' ensures v in artists'[b].subscribers {
      if v != userId && b != artistId {
        assert users'[v] == users[v] && artists'[b] == artists[b];
      }
    }
    forall b, v | b in artists' && v in artists'[b].subscribers && v in users' ensures b in users'[v].subscribedArtists {
      if v != userId && b != artistId {
        assert users'[v] == users[v] && artists'[b] == artists[b];
      }
    }
    forall v | v in users' ensures NoDuplicates(users'[v].subscribedArtists) && forall x :: x in users'[v].subscribedArtists ==> x < bound {
      if v != userId {
        assert users'[v] == users[v];
      }
    }
    forall b | b in artists' ensures NoDuplicates(artists'[b].subscribers) && forall x :: x in artists'[b].subscribers ==> x < bound {
      if b != artistId {
        assert artists'[b] == artists[b];
      }
    }
  }

  /** The state after a subscription: both sides list the pair, each once. */
  lemma SubscribeKeepsConsistent(users: map<Id, User>, artists: map<Id, Artist>, bound: nat, userId: Id, artistId: Id)
    requires SubscriptionsConsistent(users, artists, bound) && userId in users && artistId in artists
    requires userId < bound && artistId < bound
    ensures var u, a := users[userId], artists[artistId];
      SubscriptionsConsistent(users[userId := u.(subscribedArtists := AddIfAbsent(u.subscribedArtists, artistId))],
                              artists[artistId := a.(subscribers := AddIfAbsent(a.subscribers, userId))], bound)
  {
    var u, a := users[userId], artists[artistId];
    PairEditKeepsConsistent(users, artists, bound, userId, artistId,
      AddIfAbsent(u.subscribedArtists, artistId), AddIfAbsent(a.subscribers, userId), true);
  }

  /** The state after an unsubscription: neither side lists the pair any more. */
  lemma UnsubscribeKeepsConsistent(users: map<Id, User>, artists: map<Id, Artist>, bound: nat, userId: Id, artistId: Id)
    requires SubscriptionsConsistent(users, artists, bound) && userId in users && artistId in artists
    ensures var u, a := users[userId], artists[artistId];
      SubscriptionsConsistent(users[userId := u.(subscribedArtists := RemoveFirst(u.subscribedArtists, artistId))],
                              artists[artistId := a.(subscribers := RemoveFirst(a.subscribers, userId))], bound)
  {
    var u, a := users[userId], artists[artistId];
    var subs, fans := RemoveFirst(u.subscribedArtists, artistId), RemoveFirst(a.subscribers, userId);
    RemoveFirstFacts(u.subscribedArtists, artistId);
    RemoveFirstFacts(a.subscribers, userId);
    RemoveFirstNoDuplicates(u.subscribedArtists, artistId);
    RemoveFirstNoDuplicates(a.subscribers, userId);
    assert forall x :: x in u.subscribedArtists ==> x < bound;
    assert forall x :: x in a.subscribers ==> x < bound;
    assert forall x :: x in subs ==> x in u.subscribedArtists;
    assert forall x :: x in fans ==> x in a.subscribers;
    PairEditKeepsConsistent(users, artists, bound, userId, artistId, subs, fans, false);
  }

  // ----- operations -----

  /**
   * `createArtist`: the image, if one is sent, the artist owned by the caller, then each
   * nested album request through the album service with no file. The nested calls
   * cannot fail: the caller owns the artist just saved, so the wrapping of their
   * exceptions is unreachable.
   */
  method CreateArtist(db: Catalogue, user: User, req: ArtistRequest, file: Option<MultipartFile>) returns (r: Artist)
    requires db.Valid()
    modifies db`artists, db`albums, db`tracks, db`files, db`nextFile, db`nextId, db`cache
    ensures db.Valid()
    ensures var id := old(db.nextId);
      var reqs := AlbumRequests(req);
      && r == NewArtist(id, req, Uploaded(Images, file, old(db.nextFile)), user.id)
      && db.artists == old(db.artists)[id := r]
      && db.albums == old(db.albums) + NestedAlbums(reqs, id)
      && db.tracks == old(db.tracks) + NestedAlbumTracks(reqs, id)
      && db.nextId == id + 1 + Span(reqs)
      && db.files == old(db.files) + NameSet(r.imageFilePath)
      && db.nextFile == (if Present(file) then old(db.nextFile) + 1 else old(db.nextFile))
      && db.cache == Evict(old(db.cache), Then(NestedAlbumEvictions(reqs, id, user), CreateArtistEvictions(id, user)))
  {
    r := StoreNewArtist(db, user, req, file);
    CreateAlbums(db, r.id, user, AlbumRequests(req));
    ghost var cache1 := db.cache;
    db.EvictAll(CreateArtistEvictions(r.id, user));
    EvictInSequence(old(db.cache), cache1, db.cache,
      NestedAlbumEvictions(AlbumRequests(req), old(db.nextId), user), CreateArtistEvictions(old(db.nextId), user));
  }

  /** The first half of `createArtist`: the image, if one is sent, and the artist under the next id. */
  method StoreNewArtist(db: Catalogue, user: User, req: ArtistRequest, file: Option<MultipartFile>) returns (artist: Artist)
    requires db.Valid()
    modifies db`artists, db`files, db`nextFile, db`nextId
    ensures db.Valid()
    ensures artist == NewArtist(old(db.nextId), req, Uploaded(Images, file, old(db.nextFile)), user.id)
    ensures artist.id == old(db.nextId) && artist.owner == user.id
    ensures db.artists == old(db.artists)[artist.id := artist]
    ensures db.nextId == old(db.nextId) + 1
    ensures db.files == old(db.files) + NameSet(artist.imageFilePath)
    ensures db.nextFile == (if Present(file) then old(db.nextFile) + 1 else old(db.nextFile))
  {
    var image := db.UploadIfPresent(Images, file);
    NewArtistKeepsConsistent(db.users, db.artists, db.nextId, NewArtist(db.nextId, req, image, user.id));
    var id := db.NewId();
    artist := NewArtist(id, req, image, user.id);
    MoreArtistsKeepAlbums(db.albums, db.artists, artist);
    db.artists := db.artists[id := artist];
  }

  /** The `forEach` over the nested album requests of a new artist the caller owns. */
  method CreateAlbums(db: Catalogue, artistId: Id, user: User, reqs: seq<AlbumRequest>)
    requires db.Valid() && artistId in db.artists && db.artists[artistId].owner == user.id && db.nextId == artistId + 1
    modifies db`albums, db`tracks, db`files, db`nextFile, db`nextId, db`cache
    ensures db.Valid()
    ensures db.albums == old(db.albums) + NestedAlbums(reqs, artistId)
    ensures db.tracks == old(db.tracks) + NestedAlbumTracks(reqs, artistId)
    ensures db.nextId == artistId + 1 + Span(reqs)
    ensures db.files == old(db.files) && db.nextFile == old(db.nextFile)
    ensures db.cache == Evict(old(db.cache), NestedAlbumEvictions(reqs, artistId, user))
  {
    var i := 0;
    while i < |reqs|
      invariant 0 <= i <= |reqs|
      invariant db.Valid()
      invariant db.nextId == artistId + 1 + Span(reqs[..i])
      invariant db.albums == old(db.albums) + NestedAlbums(reqs[..i], artistId)
      invariant db.tracks == old(db.tracks) + NestedAlbumTracks(reqs[..i], artistId)
      invariant db.files == old(db.files) && db.nextFile == old(db.nextFile)
      invariant db.cache == Evict(old(db.cache), NestedAlbumEvictions(reqs[..i], artistId, user))
    {
      ghost var albums0, tracks0, cache0 := db.albums, db.tracks, db.cache;
      var id := db.nextId;
      var j := i + 1;
      PrefixStep(reqs, i, j);
      CreateNestedAlbum(db, artistId, user, reqs[i]);
      SpanStep(reqs[..i], reqs[..j], reqs[i]);
      NestedAlbumsStep(old(db.albums), albums0, db.albums, reqs[..i], reqs[..j], reqs[i], id, artistId);
      NestedTracksStep(old(db.tracks), tracks0, db.tracks, reqs[..i], reqs[..j], reqs[i], id, artistId);
      NestedEvictionsStep(old(db.cache), cache0, db.cache, reqs[..i], reqs[..j], reqs[i], id, artistId, user);
      i := j;
    }
    assert reqs[..i] == reqs;
  }

  /** One nested `albumService.createAlbum(artistId, user, request, null)` call, which cannot fail here. */
  method CreateNestedAlbum(db: Catalogue, artistId: Id, user: User, req: AlbumRequest)
    requires db.Valid() && artistId in db.artists && db.artists[artistId].owner == user.id
    modifies db`albums, db`tracks, db`files, db`nextFile, db`nextId, db`cache
    ensures db.Valid()
    ensures db.albums == old(db.albums)[old(db.nextId) := AlbumService.NewAlbum(old(db.nextId), req, None, artistId)]
    ensures db.tracks == old(db.tracks) + AlbumCreationTracks(req, old(db.nextId), artistId)
    ensures db.nextId == old(db.nextId) + 1 + |AlbumService.TrackRequests(req)|
    ensures db.files == old(db.files) && db.nextFile == old(db.nextFile)
    ensures db.cache == Evict(old(db.cache), AlbumCreationEvictions(req, old(db.nextId), user))
  {
    var r := AlbumService.CreateAlbum(db, artistId, user, req, None);
    assert r.Ok?;
  }

  method UpdateArtistById(db: Catalogue, artistId: Id, user: User, req: ArtistRequest, file: Option<MultipartFile>)
    returns (r: Result<Artist, Failure>)
    requires db.Valid()
    modifies db`artists, db`files, db`nextFile, db`cache
    ensures db.Valid()
    ensures artistId !in old(db.artists) ==> r == Err(NotFound)
    ensures artistId in old(db.artists) && !MayModify(old(db.artists[artistId]), user) ==> r == Err(Forbidden)
    ensures artistId in old(db.artists) && MayModify(old(db.artists[artistId]), user) ==>
      var upload := Uploaded(Images, file, old(db.nextFile));
      && r == Ok(UpdatedArtist(old(db.artists[artistId]), req, upload))
      && db.artists == old(db.artists)[artistId := r.value]
      && db.files == old(db.files) + NameSet(upload)
      && db.nextFile == (if Present(file) then old(db.nextFile) + 1 else old(db.nextFile))
      && db.cache == Evict(old(db.cache), UpdateArtistEvictions(artistId))
    ensures r.Err? ==> unchanged(db)
  {
    if artistId !in db.artists {
      return Err(NotFound);
    }
    var a := db.artists[artistId];
    var check := CheckArtistOwnership(a, user);
    if check.Fail? {
      return Err(check.error);
    }
    var image := db.UploadIfPresent(Images, file);
    var updated := UpdatedArtist(a, req, image);
    db.SaveArtist(updated);
    r := Ok(updated);
    db.EvictAll(UpdateArtistEvictions(artistId));
  }

  /**
   * The body `deleteArtist` and `delete` share: the image iff its path is set, every
   * album listing the artist through the album service (whose evictions apply), then
   * the artist.
   */
  method DeleteCascade(db: Catalogue, artistId: Id)
    requires db.Valid() && artistId in db.artists
    modifies db`artists, db`albums, db`tracks, db`files, db`cache
    ensures db.Valid()
    ensures var gone := AlbumService.AlbumsOfArtist(old(db.albums), artistId);
      && db.artists == old(db.artists) - {artistId}
      && AlbumService.DeletedAlbums(old(db.albums), db.albums, old(db.tracks), db.tracks, gone)
      && db.files == old(db.files) - NameSet(old(db.artists[artistId].imageFilePath))
                                   - TrackService.AudioFiles(old(db.tracks), AlbumService.TracksOfAlbums(old(db.tracks), gone))
                                   - AlbumService.ImageFiles(old(db.albums), gone)
      && db.cache == Evict(old(db.cache), Then(AlbumService.AlbumSetEvictions(gone), AlbumService.DeleteAlbumsByArtistEvictions()))
    ensures forall id :: id in db.albums ==> artistId !in db.albums[id].artists
  {
    var a := db.artists[artistId];
    db.DeleteIfSet(a.imageFilePath);
    AlbumService.DeleteAlbumsByArtist(db, artistId);
    RemoveArtistKeepsValid(db.users, db.artists, db.albums, db.nextId, artistId);
    db.artists := db.artists - {artistId};
  }

  method DeleteArtist(db: Catalogue, artistId: Id, user: User) returns (r: Outcome<Failure>)
    requires db.Valid()
    modifies db`artists, db`albums, db`tracks, db`files, db`cache
    ensures db.Valid()
    ensures artistId !in old(db.artists) ==> r == Fail(NotFound)
    ensures artistId in old(db.artists) && !MayModify(old(db.artists[artistId]), user) ==> r == Fail(Forbidden)
    ensures artistId in old(db.artists) && MayModify(old(db.artists[artistId]), user) ==>
      var a := old(db.artists[artistId]);
      var gone := AlbumService.AlbumsOfArtist(old(db.albums), artistId);
      && r == Pass
      && db.artists == old(db.artists) - {artistId}
      && AlbumService.DeletedAlbums(old(db.albums), db.albums, old(db.tracks), db.tracks, gone)
      && db.files == old(db.files) - NameSet(a.imageFilePath)
                                   - TrackService.AudioFiles(old(db.tracks), AlbumService.TracksOfAlbums(old(db.tracks), gone))
                                   - AlbumService.ImageFiles(old(db.albums), gone)
      && db.cache == Evict(old(db.cache), Then(Then(AlbumService.AlbumSetEvictions(gone), AlbumService.DeleteAlbumsByArtistEvictions()),
                                               DeleteArtistEvictionsAsWritten(artistId, user)))
      && (user.id != a.owner && gone == {} && UserArtistsKey(a.owner) in old(db.cache) ==>
            UserArtistsKey(a.owner) in db.cache && db.cache[UserArtistsKey(a.owner)] == old(db.cache)[UserArtistsKey(a.owner)])
    ensures r.Fail? ==> unchanged(db)
  {
    if artistId !in db.artists {
      return Fail(NotFound);
    }
    var a := db.artists[artistId];
    r := CheckArtistOwnership(a, user);
    if r.Fail? {
      return;
    }
    DeleteCascade(db, artistId);
    ghost var cache1 := db.cache;
    db.EvictAll(DeleteArtistEvictionsAsWritten(artistId, user));
    EvictInSequence(old(db.cache), cache1, db.cache,
      Then(AlbumService.AlbumSetEvictions(AlbumService.AlbumsOfArtist(old(db.albums), artistId)), AlbumService.DeleteAlbumsByArtistEvictions()),
      DeleteArtistEvictionsAsWritten(artistId, user));
    if user.id != a.owner && AlbumService.AlbumsOfArtist(old(db.albums), artistId) == {} && UserArtistsKey(a.owner) in old(db.cache) {
      DeleteArtistAsWrittenKeepsOwnerListing(old(db.cache), artistId, user, a.owner);
    }
  }

  /**
   * `delete(id)`: no ownership check; reached only by self-invocation from
   * `deleteAllArtistsByUser`, so its own `@CacheEvict` list never applies.
   */
  method Delete(db: Catalogue, artistId: Id) returns (r: Outcome<Failure>)
    requires db.Valid()
    modifies db`artists, db`albums, db`tracks, db`files, db`cache
    ensures db.Valid()
    ensures artistId !in old(db.artists) ==> r == Fail(NotFound) && unchanged(db)
    ensures artistId in old(db.artists) ==>
      var gone := AlbumService.AlbumsOfArtist(old(db.albums), artistId);
      && r == Pass
      && db.artists == old(db.artists) - {artistId}
      && AlbumService.DeletedAlbums(old(db.albums), db.albums, old(db.tracks), db.tracks, gone)
      && db.files == old(db.files) - NameSet(old(db.artists[artistId].imageFilePath))
                                   - TrackService.AudioFiles(old(db.tracks), AlbumService.TracksOfAlbums(old(db.tracks), gone))
                                   - AlbumService.ImageFiles(old(db.albums), gone)
      && db.cache == Evict(old(db.cache), Then(AlbumService.AlbumSetEvictions(gone), AlbumService.DeleteAlbumsByArtistEvictions()))
  {
    if artistId !in db.artists {
      return Fail(NotFound);
    }
    DeleteCascade(db, artistId);
    r := Pass;
  }

  /** The albums that list at least one of the artists, at any position. */
  function AlbumsOfArtists(albums: map<Id, Album>, ids: set<Id>): (r: set<Id>)
    ensures forall id :: id in r <==> id in albums && exists x :: x in ids && x in albums[id].artists
  {
    set id | id in albums && exists x :: x in ids && x in albums[id].artists
  }

  /**
   * `deleteAllArtistsByUser`: every artist the user manages is deleted through the
   * self-invoked `delete`, with its albums, their tracks and all their files; afterwards
   * the user manages no artist and no album lists a deleted artist.
   */
  method DeleteAllArtistsByUser(db: Catalogue, userId: Id)
    requires db.Valid()
    modifies db`artists, db`albums, db`tracks, db`files, db`cache
    ensures db.Valid()
    ensures var gone := ArtistsOfUser(old(db.artists), userId);
      var albumsGone := AlbumsOfArtists(old(db.albums), gone);
      && db.artists == old(db.artists) - gone
      && AlbumService.DeletedAlbums(old(db.albums), db.albums, old(db.tracks), db.tracks, albumsGone)
      && db.files == old(db.files) - ArtistImages(old(db.artists), gone)
                                   - TrackService.AudioFiles(old(db.tracks), AlbumService.TracksOfAlbums(old(db.tracks), albumsGone))
                                   - AlbumService.ImageFiles(old(db.albums), albumsGone)
      && db.cache == Evict(old(db.cache), CascadeEvictions(gone, albumsGone))
    ensures forall id :: id in db.artists ==> db.artists[id].owner != userId
    ensures forall id, x :: id in db.albums && x in db.albums[id].artists ==> x in db.artists && db.artists[x].owner != userId
  {
    DeleteArtists(db, ArtistsOfUser(db.artists, userId));
    assert db.artists == old(db.artists) - ArtistsOfUser(old(db.artists), userId);
    forall id, x | id in db.albums && x in db.albums[id].artists ensures x in db.artists {
      assert AlbumWellFormed(db.albums[id], db.artists);
    }
  }

  /** The records, files and cache once the artists `done` have been deleted, in terms of those before. */
  ghost predicate Cascaded(artists0: map<Id, Artist>, albums0: map<Id, Album>, tracks0: map<Id, Track>,
                           files0: set<FileName>, cache0: map<CacheKey, CachedValue>,
                           artists: map<Id, Artist>, albums: map<Id, Album>, tracks: map<Id, Track>,
                           files: set<FileName>, cache: map<CacheKey, CachedValue>, done: set<Id>)
  {
    && artists == artists0 - done
    && AlbumService.DeletedAlbums(albums0, albums, tracks0, tracks, AlbumsOfArtists(albums0, done))
    && files == files0 - ArtistImages(artists0, done)
                       - TrackService.AudioFiles(tracks0, AlbumService.TracksOfAlbums(tracks0, AlbumsOfArtists(albums0, done)))
                       - AlbumService.ImageFiles(albums0, AlbumsOfArtists(albums0, done))
    && cache == Evict(cache0, CascadeEvictions(done, AlbumsOfArtists(albums0, done)))
  }

  /** The self-invoked `delete` of each of the artists, in any order, with everything it takes along. */
  method DeleteArtists(db: Catalogue, ids: set<Id>)
    requires db.Valid() && ids <= db.artists.Keys
    modifies db`artists, db`albums, db`tracks, db`files, db`cache
    ensures db.Valid()
    ensures Cascaded(old(db.artists), old(db.albums), old(db.tracks), old(db.files), old(db.cache),
                     db.artists, db.albums, db.tracks, db.files, db.cache, ids)
  {
    var pending := ids;
    ghost var done := {};
    while pending != {}
      invariant db.Valid()
      invariant done !! pending && done + pending == ids
      invariant Cascaded(old(db.artists), old(db.albums), old(db.tracks), old(db.files), old(db.cache),
                         db.artists, db.albums, db.tracks, db.files, db.cache, done)
      decreases pending
    {
      var id :| id in pending;
      DeleteNextArtist(db, old(db.artists), old(db.albums), old(db.tracks), old(db.files), old(db.cache), done, id);
      pending, done := pending - {id}, done + {id};
    }
  }

  /** One turn of the artist loop: the artist's `delete`, with what it adds to the records, files and evictions gone so far. */
  method DeleteNextArtist(db: Catalogue, ghost artists: map<Id, Artist>, ghost albums: map<Id, Album>, ghost tracks: map<Id, Track>,
                          ghost files: set<FileName>, ghost cache: map<CacheKey, CachedValue>, ghost done: set<Id>, id: Id)
    requires db.Valid() && id in artists - done
    requires Cascaded(artists, albums, tracks, files, cache, db.artists, db.albums, db.tracks, db.files, db.cache, done)
    modifies db`artists, db`albums, db`tracks, db`files, db`cache
    ensures db.Valid()
    ensures Cascaded(artists, albums, tracks, files, cache, db.artists, db.albums, db.tracks, db.files, db.cache, done + {id})
  {
    ghost var here := AlbumService.AlbumsOfArtist(db.albums, id);
    ghost var next := done + {id};
    var r := Delete(db, id);
    CascadeAlbumsStep(albums, old(db.albums), db.albums, tracks, old(db.tracks), db.tracks, done, id, next);
    CascadeFilesStep(files, artists, albums, tracks, old(db.artists), old(db.albums), old(db.tracks), old(db.files), db.files,
                     AlbumsOfArtists(albums, done), here, done, id, next);
    CascadeCacheStep(cache, old(db.cache), db.cache, done, AlbumsOfArtists(albums, done), here, id, next,
                     AlbumsOfArtists(albums, next));
  }

  /** The albums one more deleted artist takes with it are those that list it and no artist deleted before. */
  lemma CascadeAlbumsStep(albums0: map<Id, Album>, albums1: map<Id, Album>, albums2: map<Id, Album>,
                          tracks0: map<Id, Track>, tracks1: map<Id, Track>, tracks2: map<Id, Track>,
                          done: set<Id>, id: Id, next: set<Id>)
    requires next == done + {id}
    requires AlbumService.DeletedAlbums(albums0, albums1, tracks0, tracks1, AlbumsOfArtists(albums0, done))
    requires AlbumService.DeletedAlbums(albums1, albums2, tracks1, tracks2, AlbumService.AlbumsOfArtist(albums1, id))
    ensures AlbumsOfArtists(albums0, next) == AlbumsOfArtists(albums0, done) + AlbumService.AlbumsOfArtist(albums1, id)
    ensures AlbumService.DeletedAlbums(albums0, albums2, tracks0, tracks2, AlbumsOfArtists(albums0, next))
  {
    var g, h := AlbumsOfArtists(albums0, done), AlbumService.AlbumsOfArtist(albums1, id);
    assert AlbumsOfArtists(albums0, next) == g + h;
  }

  /** The files one more deleted artist takes with it: its image and those of the albums it takes. */
  lemma CascadeFilesStep(files: set<FileName>, artists: map<Id, Artist>, albums: map<Id, Album>, tracks: map<Id, Track>,
                         artists1: map<Id, Artist>, albums1: map<Id, Album>, tracks1: map<Id, Track>,
                         files1: set<FileName>, files2: set<FileName>, g: set<Id>, h: set<Id>, done: set<Id>, id: Id, next: set<Id>)
    requires next == done + {id} && artists1 == artists - done && id in artists1
    requires AlbumService.DeletedAlbums(albums, albums1, tracks, tracks1, g) && h <= albums1.Keys
    requires files1 == files - ArtistImages(artists, done)
                             - TrackService.AudioFiles(tracks, AlbumService.TracksOfAlbums(tracks, g))
                             - AlbumService.ImageFiles(albums, g)
    requires files2 == files1 - NameSet(artists1[id].imageFilePath)
                              - TrackService.AudioFiles(tracks1, AlbumService.TracksOfAlbums(tracks1, h))
                              - AlbumService.ImageFiles(albums1, h)
    ensures files2 == files - ArtistImages(artists, next)
                            - TrackService.AudioFiles(tracks, AlbumService.TracksOfAlbums(tracks, g + h))
                            - AlbumService.ImageFiles(albums, g + h)
  {
    var ai, ai' := ArtistImages(artists, done), NameSet(artists[id].imageFilePath);
    var au, au' := TrackService.AudioFiles(tracks, AlbumService.TracksOfAlbums(tracks, g)),
                   TrackService.AudioFiles(tracks, AlbumService.TracksOfAlbums(tracks1, h));
    var im, im' := AlbumService.ImageFiles(albums, g), AlbumService.ImageFiles(albums, h);
    assert ArtistImages(artists, next) == ai + ai';
    assert AlbumService.TracksOfAlbums(tracks, g + h) == AlbumService.TracksOfAlbums(tracks, g) + AlbumService.TracksOfAlbums(tracks1, h);
    assert TrackService.AudioFiles(tracks1, AlbumService.TracksOfAlbums(tracks1, h)) == au';
    AlbumService.AudioFilesUnion(tracks, AlbumService.TracksOfAlbums(tracks, g), AlbumService.TracksOfAlbums(tracks1, h));
    assert AlbumService.ImageFiles(albums1, h) == im';
    assert AlbumService.ImageFiles(albums, g + h) == im + im';
    DeleteFilesInTwoRounds(files, ai, au, im, ai', au', im');
  }

  /** The evictions of one more deleted artist join those of the artists deleted before it. */
  lemma CascadeCacheStep<V>(cache: map<CacheKey, V>, cache1: map<CacheKey, V>, cache2: map<CacheKey, V>,
                            done: set<Id>, g: set<Id>, h: set<Id>, id: Id, next: set<Id>, g': set<Id>)
    requires next == done + {id} && g' == g + h && (done == {} ==> g == {})
    requires cache1 == Evict(cache, CascadeEvictions(done, g))
    requires cache2 == Evict(cache1, Then(AlbumService.AlbumSetEvictions(h), AlbumService.DeleteAlbumsByArtistEvictions()))
    ensures cache2 == Evict(cache, CascadeEvictions(next, g'))
  {
    var step := Then(AlbumService.AlbumSetEvictions(h), AlbumService.DeleteAlbumsByArtistEvictions());
    EvictThen(cache, CascadeEvictions(done, g), step);
    assert Then(CascadeEvictions(done, g), step) == CascadeEvictions(next, g');
  }

  // Subscriptions: both sides of the pair are edited together and saved.

  /** The two repositories after `subscribeToArtist` found the artist: the pair joins both lists unless already there. */
  function Subscribed(users: map<Id, User>, artists: map<Id, Artist>, userId: Id, artistId: Id): (r: (map<Id, User>, map<Id, Artist>))
    requires userId in users && artistId in artists
    ensures r.0.Keys == users.Keys && r.1.Keys == artists.Keys
    ensures IsSubscribed(r.1, artistId, userId) && artistId in r.0[userId].subscribedArtists
    ensures forall id :: id in users && id != userId ==> r.0[id] == users[id]
    ensures forall id :: id in artists && id != artistId ==> r.1[id] == artists[id]
  {
    var u, a := users[userId], artists[artistId];
    (users[userId := u.(subscribedArtists := AddIfAbsent(u.subscribedArtists, artistId))],
     artists[artistId := a.(subscribers := AddIfAbsent(a.subscribers, userId))])
  }

  /** The two repositories after `unsubscribeFromArtist` found the artist: the first copy of the pair leaves both lists. */
  function Unsubscribed(users: map<Id, User>, artists: map<Id, Artist>, userId: Id, artistId: Id): (r: (map<Id, User>, map<Id, Artist>))
    requires userId in users && artistId in artists
    ensures r.0.Keys == users.Keys && r.1.Keys == artists.Keys
    ensures forall id :: id in users && id != userId ==> r.0[id] == users[id]
    ensures forall id :: id in artists && id != artistId ==> r.1[id] == artists[id]
  {
    var u, a := users[userId], artists[artistId];
    (users[userId := u.(subscribedArtists := RemoveFirst(u.subscribedArtists, artistId))],
     artists[artistId := a.(subscribers := RemoveFirst(a.subscribers, userId))])
  }

  /** With lists free of duplicates, unsubscribing leaves the pair unsubscribed on both sides. */
  lemma UnsubscribedLeavesNoPair(users: map<Id, User>, artists: map<Id, Artist>, bound: nat, userId: Id, artistId: Id)
    requires SubscriptionsConsistent(users, artists, bound) && userId in users && artistId in artists
    ensures var r := Unsubscribed(users, artists, userId, artistId);
      !IsSubscribed(r.1, artistId, userId) && artistId !in r.0[userId].subscribedArtists
  {
    RemoveFirstNoDuplicates(users[userId].subscribedArtists, artistId);
    RemoveFirstNoDuplicates(artists[artistId].subscribers, userId);
  }

  /** Subscribing twice is subscribing once. */
  lemma SubscribedIdempotent(users: map<Id, User>, artists: map<Id, Artist>, userId: Id, artistId: Id)
    requires userId in users && artistId in artists
    ensures var r := Subscribed(users, artists, userId, artistId);
      Subscribed(r.0, r.1, userId, artistId) == r
  {
    var r := Subscribed(users, artists, userId, artistId);
    var r' := Subscribed(r.0, r.1, userId, artistId);
    assert r'.0[userId] == r.0[userId];
    assert r'.1[artistId] == r.1[artistId];
    assert r'.0 == r.0 && r'.1 == r.1;
  }

  /** Unsubscribing right after subscribing a pair that was not subscribed restores both repositories. */
  lemma {:induction false} UnsubscribeUndoesSubscribe(users: map<Id, User>, artists: map<Id, Artist>, bound: nat, userId: Id, artistId: Id)
    requires SubscriptionsConsistent(users, artists, bound) && userId in users && artistId in artists
    requires !IsSubscribed(artists, artistId, userId)
    ensures var r := Subscribed(users, artists, userId, artistId);
      Unsubscribed(r.0, r.1, userId, artistId) == (users, artists)
  {
    SubscriptionSidesAgree(users, artists, bound, userId, artistId);
    var u, a := users[userId], artists[artistId];
    RemoveFirstAfterAdd(u.subscribedArtists, artistId);
    RemoveFirstAfterAdd(a.subscribers, userId);
    UpdateRestores(users, userId, u.(subscribedArtists := AddIfAbsent(u.subscribedArtists, artistId)));
    UpdateRestores(artists, artistId, a.(subscribers := AddIfAbsent(a.subscribers, userId)));
  }

  /** Subscribing a pair that is already subscribed changes neither repository. */
  lemma SubscribePresent(users: map<Id, User>, artists: map<Id, Artist>, bound: nat, userId: Id, artistId: Id)
    requires SubscriptionsConsistent(users, artists, bound) && userId in users && artistId in artists
    requires artistId in users[userId].subscribedArtists
    ensures Subscribed(users, artists, userId, artistId) == (users, artists)
  {
    SubscriptionSidesAgree(users, artists, bound, userId, artistId);
    var u, a := users[userId], artists[artistId];
    UpdateSame(users, userId, u.(subscribedArtists := AddIfAbsent(u.subscribedArtists, artistId)));
    UpdateSame(artists, artistId, a.(subscribers := AddIfAbsent(a.subscribers, userId)));
  }

  /** Unsubscribing a pair that is not subscribed changes neither repository. */
  lemma UnsubscribeAbsent(users: map<Id, User>, artists: map<Id, Artist>, bound: nat, userId: Id, artistId: Id)
    requires SubscriptionsConsistent(users, artists, bound) && userId in users && artistId in artists
    requires artistId !in users[userId].subscribedArtists
    ensures Unsubscribed(users, artists, userId, artistId) == (users, artists)
  {
    SubscriptionSidesAgree(users, artists, bound, userId, artistId);
    var u, a := users[userId], artists[artistId];
    RemoveFirstAbsent(u.subscribedArtists, artistId);
    RemoveFirstAbsent(a.subscribers, userId);
    UpdateSame(users, userId, u.(subscribedArtists := RemoveFirst(u.subscribedArtists, artistId)));
    UpdateSame(artists, artistId, a.(subscribers := RemoveFirst(a.subscribers, userId)));
  }

  /** `subscribeToArtist`: NotFound for an unknown artist; otherwise the pair is subscribed on both sides. */
  method SubscribeToArtist(db: Catalogue, user: User, artistId: Id) returns (r: Outcome<Failure>)
    requires db.Valid() && db.IsStored(user)
    modifies db`users, db`artists, db`cache
    ensures db.Valid()
    ensures artistId !in old(db.artists) ==> r == Fail(NotFound) && unchanged(db)
    ensures artistId in old(db.artists) ==>
      && r == Pass
      && (db.users, db.artists) == Subscribed(old(db.users), old(db.artists), user.id, artistId)
      && db.cache == Evict(old(db.cache), SubscribeEvictionsAsWritten(artistId, user))
      && (SubscribedKey(user.id, artistId) in old(db.cache) ==>
            SubscribedKey(user.id, artistId) in db.cache && db.cache[SubscribedKey(user.id, artistId)] == old(db.cache)[SubscribedKey(user.id, artistId)])
  {
    if artistId !in db.artists {
      return Fail(NotFound);
    }
    var a := db.artists[artistId];
    SubscriptionSidesAgree(db.users, db.artists, db.nextId, user.id, artistId);
    if artistId !in user.subscribedArtists {
      SubscribeKeepsConsistent(db.users, db.artists, db.nextId, user.id, artistId);
      db.SaveSubscription(user.(subscribedArtists := user.subscribedArtists + [artistId]),
                          a.(subscribers := a.subscribers + [user.id]));
    } else {
      SubscribePresent(db.users, db.artists, db.nextId, user.id, artistId);
    }
    ghost var cache0 := db.cache;
    db.EvictAll(SubscribeEvictionsAsWritten(artistId, user));
    if SubscribedKey(user.id, artistId) in cache0 {
      SubscribeEvictionsAsWrittenKeepStatus(cache0, artistId, user);
    }
    r := Pass;
  }

  /** `unsubscribeFromArtist`: NotFound for an unknown artist; otherwise the pair is unsubscribed on both sides. */
  method UnsubscribeFromArtist(db: Catalogue, user: User, artistId: Id) returns (r: Outcome<Failure>)
    requires db.Valid() && db.IsStored(user)
    modifies db`users, db`artists, db`cache
    ensures db.Valid()
    ensures artistId !in old(db.artists) ==> r == Fail(NotFound) && unchanged(db)
    ensures artistId in old(db.artists) ==>
      && r == Pass
      && (db.users, db.artists) == Unsubscribed(old(db.users), old(db.artists), user.id, artistId)
      && db.cache == Evict(old(db.cache), SubscribeEvictionsAsWritten(artistId, user))
      && (SubscribedKey(user.id, artistId) in old(db.cache) ==>
            SubscribedKey(user.id, artistId) in db.cache && db.cache[SubscribedKey(user.id, artistId)] == old(db.cache)[SubscribedKey(user.id, artistId)])
  {
    if artistId !in db.artists {
      return Fail(NotFound);
    }
    var a := db.artists[artistId];
    SubscriptionSidesAgree(db.users, db.artists, db.nextId, user.id, artistId);
    if artistId in user.subscribedArtists {
      UnsubscribeKeepsConsistent(db.users, db.artists, db.nextId, user.id, artistId);
      db.SaveSubscription(user.(subscribedArtists := RemoveFirst(user.subscribedArtists, artistId)),
                          a.(subscribers := RemoveFirst(a.subscribers, user.id)));
    } else {
      UnsubscribeAbsent(db.users, db.artists, db.nextId, user.id, artistId);
    }
    ghost var cache0 := db.cache;
    db.EvictAll(SubscribeEvictionsAsWritten(artistId, user));
    if SubscribedKey(user.id, artistId) in cache0 {
      SubscribeEvictionsAsWrittenKeepStatus(cache0, artistId, user);
    }
    r := Pass;
  }

  // Cached queries.

  /** `getUserArtists`, read through `artists.byUserId`; NotFound for an unknown user is not cached. */
  method GetUserArtists(db: Catalogue, userId: Id) returns (r: Result<set<Id>, Failure>)
    requires db.Valid()
    modifies db`cache
    ensures db.Valid()
    ensures var k := UserArtistsKey(userId);
      && (k in old(db.cache) ==> r == Ok(old(db.cache[k]).ids) && db.cache == old(db.cache))
      && (k !in old(db.cache) ==> r == UserArtistsResult(db.users, db.artists, userId))
      && (k !in old(db.cache) && r.Ok? ==> db.cache == old(db.cache)[k := Listing(r.value)])
      && (k !in old(db.cache) && r.Err? ==> db.cache == old(db.cache))
  {
    var computed := UserArtistsResult(db.users, db.artists, userId);
    var v := db.ReadListing(UserArtistsKey(userId), if computed.Ok? then Some(computed.value) else None);
    r := if v.Some? then Ok(v.value) else computed;
  }

  /** `searchArtistsByName`, read through `artists.search`. */
  method SearchArtistsByName(db: Catalogue, name: Text) returns (ids: set<Id>)
    requires db.Valid()
    modifies db`cache
    ensures db.Valid()
    ensures var k := CacheKey(ArtistSearch, TextKey(name));
      && (k in old(db.cache) ==> ids == old(db.cache[k]).ids && db.cache == old(db.cache))
      && (k !in old(db.cache) ==> ids == SearchResult(db.artists, name) && db.cache == old(db.cache)[k := Listing(ids)])
  {
    var v := db.ReadListing(CacheKey(ArtistSearch, TextKey(name)), Some(SearchResult(db.artists, name)));
    ids := v.value;
  }

  /** `isUserSubscribed`, read through `artist.subscribed` under the pair key. */
  method IsUserSubscribed(db: Catalogue, user: User, artistId: Id) returns (b: bool)
    requires db.Valid()
    modifies db`cache
    ensures db.Valid()
    ensures var k := SubscribedKey(user.id, artistId);
      && (k in old(db.cache) ==> old(db.cache[k]) == Flag(b) && db.cache == old(db.cache))
      && (k !in old(db.cache) ==> b == IsSubscribed(db.artists, artistId, user.id) && db.cache == old(db.cache)[k := Flag(b)])
  {
    b := db.ReadFlag(SubscribedKey(user.id, artistId), IsSubscribed(db.artists, artistId, user.id));
  }

  /** `getArtistSubscribers`, read through `artist.subscribers`; NotFound is not cached. */
  method GetArtistSubscribers(db: Catalogue, artistId: Id) returns (r: Result<set<Id>, Failure>)
    requires db.Valid()
    modifies db`cache
    ensures db.Valid()
    ensures var k := CacheKey(ArtistSubscribers, IdKey(artistId));
      && (k in old(db.cache) ==> r == Ok(old(db.cache[k]).ids) && db.cache == old(db.cache))
      && (k !in old(db.cache) ==> r == SubscribersResult(db.artists, artistId))
      && (k !in old(db.cache) && r.Ok? ==> db.cache == old(db.cache)[k := Listing(r.value)])
      && (k !in old(db.cache) && r.Err? ==> db.cache == old(db.cache))
  {
    var computed := SubscribersResult(db.artists, artistId);
    var v := db.ReadListing(CacheKey(ArtistSubscribers, IdKey(artistId)), if computed.Ok? then Some(computed.value) else None);
    r := if v.Some? then Ok(v.value) else computed;
  }

  /** `getUserSubscriptions`, read through `artist.subscriptions`: the artists of the caller's own list. */
  method GetUserSubscriptions(db: Catalogue, user: User) returns (ids: set<Id>)
    requires db.Valid()
    modifies db`cache
    ensures db.Valid()
    ensures var k := CacheKey(ArtistSubscriptions, IdKey(user.id));
      && (k in old(db.cache) ==> ids == old(db.cache[k]).ids && db.cache == old(db.cache))
      && (k !in old(db.cache) ==> ids == Subscriptions(user) && db.cache == old(db.cache)[k := Listing(ids)])
  {
    var v := db.ReadListing(CacheKey(ArtistSubscriptions, IdKey(user.id)), Some(Subscriptions(user)));
    ids := v.value;
  }
}
