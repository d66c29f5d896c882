/**
 * The process-wide cache behind `@Cacheable` / `@CacheEvict`: named regions, each
 * mapping a key computed from the call's arguments to a previously computed value.
 * A read returns the cached value when present and otherwise stores what the
 * method body computed (nothing is stored when the body throws). A mutation
 * lists the `(region, key)` pairs or whole regions it evicts; Spring applies the
 * `@CacheEvict` annotations one after the other once the method has returned
 * normally.
 */
module Cache {
  import opened Wrappers
  import opened Model

  /** One region per cache name used in the services. */
  datatype Region =
    | TracksAll              // "tracks.all"
    | TrackById              // "track.byId"
    | TracksByAlbum          // "tracks.byAlbum"
    | TracksSearch           // "tracks.search"
    | TracksLiked            // "tracks.liked"
    | TrackLikedStatus       // "track.likedStatus"
    | AlbumsAll              // "albums.all"
    | AlbumsByArtist         // "albums.byArtist"
    | AlbumById              // "album.byId"
    | AlbumsSearch           // "albums.search"
    | ArtistsAll             // "artists.all"
    | ArtistById             // "artist.byId"
    | ArtistsByUserId        // "artists.byUserId"
    | ArtistSearch           // "artist.search"
    | ArtistSubscriptions    // "artist.subscriptions"
    | ArtistSubscribers      // "artist.subscribers"
    | ArtistSubscribed       // "artist.subscribed"
    | ArtistSubscribersCount // "artist.subscribers.count"
    | UsersAll               // "users.all"
    | UserById               // "user.byId"
    | UserByEmail            // "user.byEmail"

  /**
   * The value of a `key` expression: no arguments (`SimpleKey.EMPTY`), an id
   * (`#id`, `#user.id`), a nullable string (`#title`, `#user.email`) or a
   * two-id list (`{#user.id, #artistId}`).
   */
  datatype Key = NoArgs | IdKey(id: Id) | TextKey(text: Text) | PairKey(first: Id, second: Id)

  datatype CacheKey = CacheKey(region: Region, key: Key)

  /**
   * What a method's `@CacheEvict` annotations remove once it returns normally: every
   * entry of the regions listed with `allEntries = true`, and the single entries
   * listed with a `key`. Spring applies the annotations one after the other; the
   * result does not depend on their order, so a method's list is kept as these two sets.
   */
  datatype Evictions = Evictions(regions: set<Region>, keys: set<CacheKey>)

  /** A method without `@CacheEvict` annotations. */
  const NoEvictions := Evictions({}, {})

  predicate Evicts(e: Evictions, k: CacheKey) {
    k.region in e.regions || k in e.keys
  }

  /** The evictions of two calls made one after the other. */
  function Then(a: Evictions, b: Evictions): (r: Evictions)
    ensures forall k :: Evicts(r, k) <==> Evicts(a, k) || Evicts(b, k)
  {
    Evictions(a.regions + b.regions, a.keys + b.keys)
  }

  /** An entry survives iff no annotation matches it, and it keeps its value. */
  function Evict<V>(cache: map<CacheKey, V>, e: Evictions): map<CacheKey, V> {
    map k | k in cache && !Evicts(e, k) :: cache[k]
  }

  /** Evicting is idempotent: a second application of the same annotations removes nothing more. */
  lemma EvictIdempotent<V>(cache: map<CacheKey, V>, e: Evictions)
    ensures Evict(Evict(cache, e), e) == Evict(cache, e)
  {
  }

  /** Two calls' evictions applied one after the other act as their union, in either order. */
  lemma EvictThen<V>(cache: map<CacheKey, V>, a: Evictions, b: Evictions)
    ensures Evict(Evict(cache, a), b) == Evict(cache, Then(a, b))
    ensures Evict(Evict(cache, a), b) == Evict(Evict(cache, b), a)
  {
    var x, y, z := Evict(Evict(cache, a), b), Evict(cache, Then(a, b)), Evict(Evict(cache, b), a);
    assert x.Keys == y.Keys;
    assert x.Keys == z.Keys;
  }

  /** `EvictThen` over the states a caller holds before, between and after the two calls. */
  lemma EvictInSequence<V>(c0: map<CacheKey, V>, c1: map<CacheKey, V>, c2: map<CacheKey, V>, a: Evictions, b: Evictions)
    requires c1 == Evict(c0, a) && c2 == Evict(c1, b)
    ensures c2 == Evict(c0, Then(a, b))
  {
    EvictThen(c0, a, b);
  }

  /**
   * A listed key is gone, a listed region is empty, and every entry no annotation
   * matches is still there with its value.
   */
  lemma EvictListed<V>(cache: map<CacheKey, V>, e: Evictions)
    ensures forall k :: k in e.keys ==> k !in Evict(cache, e)
    ensures forall k :: k in Evict(cache, e) ==> k.region !in e.regions
    ensures forall k :: k in cache && !Evicts(e, k) ==> k in Evict(cache, e) && Evict(cache, e)[k] == cache[k]
  {
  }

  /**
   * `@Cacheable`: a present entry is returned as it is and the computed value is
   * ignored; on a miss a computed value (`Some`) is stored and returned, and a
   * throwing body (`None`) stores nothing.
   */
  function ReadThrough<V>(cache: map<CacheKey, V>, k: CacheKey, computed: Option<V>): (r: (Option<V>, map<CacheKey, V>))
    ensures k in cache ==> r == (Some(cache[k]), cache)
    ensures k !in cache ==> r.0 == computed
    ensures r.0.Some? ==> k in r.1 && r.1[k] == r.0.value
    ensures r.0.None? ==> r.1 == cache
    ensures forall k' :: k' != k ==> (k' in r.1 <==> k' in cache) && (k' in cache ==> r.1[k'] == cache[k'])
  {
    if k in cache then (Some(cache[k]), cache)
    else if computed.Some? then (computed, cache[k := computed.value])
    else (None, cache)
  }

  /**
   * Once a read has stored a value, every later read of the same key returns that
   * value whatever the body would compute then, until an eviction removes it.
   */
  lemma ReadThroughSticks<V>(cache: map<CacheKey, V>, k: CacheKey, first: Option<V>, later: Option<V>)
    requires ReadThrough(cache, k, first).0.Some?
    ensures ReadThrough(ReadThrough(cache, k, first).1, k, later) == ReadThrough(cache, k, first)
  {
  }
}
