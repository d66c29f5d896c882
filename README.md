# alkify-music-api: the service layer in Dafny

This project models the domain services of the alkify music API: `TrackService`,
`AlbumService`, `ArtistService` and `UserService`, plus the `GlobalMapper` that turns
entities into response DTOs. The model covers what each service reads and writes in the
repositories, the file store and the Spring cache, including the error cases. It then
proves what the services promise about that state.

The model has these parts:

- **State.** One object, `Store.Catalogue`, holds the four repositories as maps from id to
  record (`User`, `Artist`, `Album`, `Track`). It also holds the uploaded files as a set of
  file names, the cache as a map from `CacheKey` to a cached value, one identity counter
  from which the model numbers every table, and a serial for fresh file names.
- **Invariant.** `Catalogue.Valid` holds:
  - every record sits under its own id;
  - every album has a creator (its first artist) and lists only stored artists, none twice;
  - every track belongs to a stored album and has that album's creator as its first artist;
  - emails are unique;
  - the two sides of the `users_subscribed_artists` join table agree (`User.subscribedArtists` and
    the inverse `Artist.subscribers`);
  - every cached entry has the value type its region holds.
- **Services.** Each service is a module whose operations are methods on the catalogue. A
  failure (`NotFound`, `Forbidden`, `IllegalArgument`, `NullPointer`) changes nothing. The one
  exception is the `SpelEvaluationException` (`KeyEvaluation`) of `removeArtistFromTrack` as
  written, which is thrown after the save and part of the evictions.
  `@CacheEvict` annotations are values (`Cache.Evictions`: regions cleared whole plus
  single keys), applied after a normal return. Nested service calls apply their own
  evictions. A self-invoked `delete` goes around the Spring proxy, so its annotations do
  not fire.
- **Cached queries.** `@Cacheable` methods read through the cache (`Cache.ReadThrough`).
  A cached listing is kept as the set of ids it lists.
- **Mapper.** `GlobalMapper` works on its own node graph. Any reference or collection in
  that graph may be null, as the mapper expects.

The password encoder is a function parameter. File contents and the file system are
abstracted to the set of stored names.

## Model

| member | source | states |
|---|---|---|
| Cache.Then | src/main/java/com/alkmanistik/alkify_music_api/service/TrackService.java:59-76 | Two calls' annotation lists together clear the regions and keys of either. |
| Cache.EvictIdempotent | src/main/java/com/alkmanistik/alkify_music_api/service/TrackService.java:59-76 | Applying the same annotations twice removes nothing more than applying them once. |
| Cache.EvictThen | src/main/java/com/alkmanistik/alkify_music_api/service/AlbumService.java:68-78 | Evicting for two calls in sequence is evicting their union, in either order (nested calls' evictions compose). |
| Cache.EvictInSequence | src/main/java/com/alkmanistik/alkify_music_api/service/AlbumService.java:68-78 | The same composition over the states observed before, between and after the two calls. |
| Cache.EvictListed | src/main/java/com/alkmanistik/alkify_music_api/service/TrackService.java:59-76 | After eviction every listed key is gone, every cleared region is empty, and every unmatched entry is present with its value. |
| Cache.ReadThrough | src/main/java/com/alkmanistik/alkify_music_api/service/TrackService.java:230-235 | `@Cacheable`: a hit returns the cached value and ignores the body; a miss stores and returns what the body computed; a throwing body stores nothing. |
| Cache.ReadThroughSticks | src/main/java/com/alkmanistik/alkify_music_api/service/TrackService.java:359-362 | Once stored, a key answers every later read with the same value, whatever the body would compute, until an eviction removes it. |
| Membership.AddIfAbsent | src/main/java/com/alkmanistik/alkify_music_api/service/TrackService.java:331-335 | `if (!list.contains(x)) list.add(x)`: the result contains `x`; it equals the list when `x` was there and the list plus `[x]` otherwise. |
| Membership.RemoveFirst | src/main/java/com/alkmanistik/alkify_music_api/service/TrackService.java:350-356 | `List.remove(Object)`: as a multiset the result is the list minus one copy of `x` (nothing when absent), and a head other than `x` stays first. |
| Membership.FirstIndex | src/main/java/com/alkmanistik/alkify_music_api/service/TrackService.java:350-356 | The position `List.remove(Object)` looks for: an occurrence of `x` with no copy of `x` before it. |
| Membership.RemoveFirstCutsFirst | src/main/java/com/alkmanistik/alkify_music_api/service/TrackService.java:350-356 | `List.remove(Object)` cuts out exactly the first occurrence of a present `x`; the elements before and after it keep their order. |
| Membership.Without | src/main/java/com/alkmanistik/alkify_music_api/model/Track.java:33-37 | Deleting every join row of a user: no copy of `x` is left, every other element keeps its multiplicity, and a list without `x` is unchanged. |
| Membership.WithoutAppend | src/main/java/com/alkmanistik/alkify_music_api/model/Track.java:33-37 | Deletion goes element by element: it splits over a concatenation, removes a lone `x` and keeps a lone other element, so the remaining elements keep their order. |
| Membership.RemoveFirstFacts | src/main/java/com/alkmanistik/alkify_music_api/service/TrackService.java:350-356 | An absent `x` leaves the list unchanged, a present one makes it one shorter, and every other element keeps its membership. |
| Membership.RemoveFirstAbsent | src/main/java/com/alkmanistik/alkify_music_api/service/ArtistService.java:214-220 | Removing an absent element leaves the list as it is. |
| Membership.RemoveFirstNoDuplicates | src/main/java/com/alkmanistik/alkify_music_api/service/ArtistService.java:214-220 | Removing from a duplicate-free list leaves it duplicate-free with no copy of `x`. |
| Membership.AddIfAbsentIdempotent | src/main/java/com/alkmanistik/alkify_music_api/service/TrackService.java:331-335 | Adding twice is adding once. |
| Membership.RemoveFirstAfterAdd | src/main/java/com/alkmanistik/alkify_music_api/service/TrackService.java:331-356 | Removing right after adding an absent element restores the list. |
| Membership.RemoveFirstAppend | src/main/java/com/alkmanistik/alkify_music_api/service/ArtistService.java:195-220 | Removing an element just appended to a list that lacked it gives back that list. |
| Membership.AddArtist | src/main/java/com/alkmanistik/alkify_music_api/service/TrackService.java:273-279 | IllegalArgument when the artist is already listed; otherwise the artist appended. |
| Membership.RemoveArtist | src/main/java/com/alkmanistik/alkify_music_api/service/TrackService.java:308-316 | IllegalArgument when the artist is absent, then when it is the creator (first artist); otherwise the artist removed. |
| Membership.AddArtistKeepsCreator | src/main/java/com/alkmanistik/alkify_music_api/service/AlbumService.java:198-203 | An accepted addition keeps the creator first, keeps the list duplicate-free and grows it by exactly the new artist. |
| Membership.RemoveArtistKeepsCreator | src/main/java/com/alkmanistik/alkify_music_api/service/AlbumService.java:223-232 | An accepted removal keeps the creator first and drops exactly the artist: the result is the list with that one position cut out, so the others keep their order. |
| Model.LowerStringIdempotent | src/main/java/com/alkmanistik/alkify_music_api/repository/TrackRepository.java:12 | Lower-casing twice is lower-casing once. |
| Model.LowerKeepsBlank | src/main/java/com/alkmanistik/alkify_music_api/service/TrackService.java:239-244 | Lower-casing keeps a string blank or non-blank. |
| Model.SubstringOfItself | src/main/java/com/alkmanistik/alkify_music_api/repository/AlbumRepository.java:14 | Every string contains itself. |
| Model.ContainsIgnoresPatternCase | src/main/java/com/alkmanistik/alkify_music_api/repository/ArtistRepository.java:12 | The `ContainingIgnoreCase` filter gives the same answer for a pattern and its lower-case form. |
| Model.Present | src/main/java/com/alkmanistik/alkify_music_api/service/TrackService.java:89 | `file != null && !file.isEmpty()`: false for a missing part and for an empty one, true for a non-empty one. |
| Model.IsBlank | src/main/java/com/alkmanistik/alkify_music_api/service/TrackService.java:239 | `String.isBlank`: true exactly when every character is whitespace, so the empty string is blank. |
| Model.Lower | src/main/java/com/alkmanistik/alkify_music_api/repository/TrackRepository.java:12 | The case fold of `IgnoreCase` on one character: `A`-`Z` move 32 code points down to `a`-`z`, every other character stays, and no capital is left. |
| Model.LowerString | src/main/java/com/alkmanistik/alkify_music_api/repository/TrackRepository.java:12 | The fold on a string: the same length, no capital left, and every non-capital character in place. |
| Model.ContainsIgnoreCase | src/main/java/com/alkmanistik/alkify_music_api/repository/AlbumRepository.java:14 | A null column or a null pattern matches nothing; a match means the pattern is no longer than the column. |
| Store.CheckArtistOwnership | src/main/java/com/alkmanistik/alkify_music_api/service/TrackService.java:371-376 | Pass exactly when the caller owns the artist or holds ADMIN; Forbidden otherwise. |
| Store.WithoutSubscriber | src/main/java/com/alkmanistik/alkify_music_api/model/User.java:34-35 | The same artists, each with every copy of the user gone from its subscribers and every other field unchanged. |
| Store.WithoutLiker | src/main/java/com/alkmanistik/alkify_music_api/model/User.java:37-41 | The same tracks, each with every copy of the user gone from its likes and every other field unchanged. |
| Store.RemoveUserKeepsConsistent | src/main/java/com/alkmanistik/alkify_music_api/model/User.java:34-35 | Deleting a user together with its subscription rows keeps the two sides of the subscription table in agreement. |
| Store.RemoveConsistent | src/main/java/com/alkmanistik/alkify_music_api/model/User.java:34-35 | Dropping a user whom no subscriber list names keeps the subscription table consistent. |
| Store.DropSubscriptionsKeepsAlbums | src/main/java/com/alkmanistik/alkify_music_api/model/Artist.java:31-35 | Deleting subscription rows leaves every album well formed. |
| Store.DropLikesKeepsTracks | src/main/java/com/alkmanistik/alkify_music_api/model/Track.java:33-44 | Deleting like rows leaves every track well formed. |
| Store.Catalogue.Upload | src/main/java/com/alkmanistik/alkify_music_api/service/FileService.java:18-44 | A name not yet stored is returned and added to the store, and the serial advances. |
| Store.Catalogue.UploadIfPresent | src/main/java/com/alkmanistik/alkify_music_api/service/TrackService.java:89-92 | Uploads exactly when a non-empty part is sent and returns its name, else `None` with the store untouched. |
| Store.Catalogue.DeleteIfSet | src/main/java/com/alkmanistik/alkify_music_api/service/AlbumService.java:153-155 | Removes the named file exactly when a path is set. |
| Store.Catalogue.DeleteFile | src/main/java/com/alkmanistik/alkify_music_api/service/FileService.java:61-74 | `deleteIfExists`: the name leaves the store, and a missing name leaves the store as it was. |
| Store.Catalogue.NewId | src/main/java/com/alkmanistik/alkify_music_api/model/Track.java:22-23 | A new record gets the counter's value and the counter advances, so the id is unused in its table (the model shares one counter among all tables, see Left out). |
| Store.Catalogue.AddTrack | src/main/java/com/alkmanistik/alkify_music_api/service/TrackService.java:95 | Saving a new, well-formed track under a fresh id adds exactly that record and keeps the invariant. |
| Store.Catalogue.SaveTrack | src/main/java/com/alkmanistik/alkify_music_api/service/TrackService.java:95 | Saving a stored track whose links stay valid replaces exactly that record and keeps the invariant. |
| Store.Catalogue.SaveArtist | src/main/java/com/alkmanistik/alkify_music_api/service/ArtistService.java:168 | Saving a stored artist with unchanged subscribers replaces exactly that record. |
| Store.Catalogue.SaveSubscription | src/main/java/com/alkmanistik/alkify_music_api/service/ArtistService.java:198-199 | Saving the user and the artist of one subscription edit replaces exactly those two records and keeps the table consistent. |
| Store.Catalogue.AddUser | src/main/java/com/alkmanistik/alkify_music_api/service/UserService.java:45-51 | A new user with a fresh email is stored under the next id. |
| Store.Catalogue.SaveUser | src/main/java/com/alkmanistik/alkify_music_api/service/UserService.java:111 | Saving a stored user with unchanged subscriptions and a still-unique email replaces exactly that record. |
| Store.Catalogue.RemoveUser | src/main/java/com/alkmanistik/alkify_music_api/service/UserService.java:126 | The user leaves the table, and its subscription and like rows leave every artist and track. |
| Store.Catalogue.DropSubscriptions | src/main/java/com/alkmanistik/alkify_music_api/model/User.java:34-35 | Every artist's subscriber list loses the user's id. |
| Store.Catalogue.DropLikes | src/main/java/com/alkmanistik/alkify_music_api/model/User.java:37-41 | Every track's like list loses the user's id. |
| Store.Catalogue.EvictAll | src/main/java/com/alkmanistik/alkify_music_api/service/TrackService.java:59-76 | Applies a method's `@CacheEvict` list to the cache and changes nothing else. |
| Store.Catalogue.Read | src/main/java/com/alkmanistik/alkify_music_api/service/AlbumService.java:89-98 | A cached read: the value and the cache after the call are `ReadThrough` of the cache before. |
| Store.Catalogue.ReadFlag | src/main/java/com/alkmanistik/alkify_music_api/service/TrackService.java:359-362 | A boolean `@Cacheable` read: the cached flag on a hit, else the computed one, which is then cached. |
| Store.Catalogue.ReadListing | src/main/java/com/alkmanistik/alkify_music_api/service/TrackService.java:230-235 | A listing `@Cacheable` read: the cached ids on a hit, else the computed ids, which are cached unless the body threw. |
| Store.MayModify | src/main/java/com/alkmanistik/alkify_music_api/service/TrackService.java:371-376 | The caller may modify an artist exactly when they own it or hold ADMIN. |
| Store.Catalogue.Valid | src/main/java/com/alkmanistik/alkify_music_api/model/Track.java:22-23 | Under the invariant the next generated id is used in no table, and every stored file's serial is below the next one handed out. |
| TrackService.LikeEvictionsAsWrittenKeepStatus | src/main/java/com/alkmanistik/alkify_music_api/service/TrackService.java:320-362 | A toggle as written leaves a cached liked status in place with its old value. |
| TrackService.LikeEvictionsDropPair | src/main/java/com/alkmanistik/alkify_music_api/service/TrackService.java:320-362 | With the corrected set the pair's liked status, the track and the user's liked list are gone, and every other pair's status is kept. |
| TrackService.TracksOfAlbum | src/main/java/com/alkmanistik/alkify_music_api/repository/TrackRepository.java:10 | Exactly the stored tracks whose album is the given one. |
| TrackService.LikedTracks | src/main/java/com/alkmanistik/alkify_music_api/repository/TrackRepository.java:16 | Exactly the stored tracks whose `likedUsers` contain the user. |
| TrackService.SearchResult | src/main/java/com/alkmanistik/alkify_music_api/service/TrackService.java:237-245 | Nothing for a null or blank title; otherwise exactly the stored tracks whose title contains it, ignoring case. |
| TrackService.SearchFindsOwnTitle | src/main/java/com/alkmanistik/alkify_music_api/service/TrackService.java:237-245 | A stored track with a non-blank title is found by that title and by its lower-case form. |
| TrackService.CheckTrackOwnership | src/main/java/com/alkmanistik/alkify_music_api/service/TrackService.java:378-380 | The track check is the artist check applied to the track's first artist. |
| TrackService.CreatorStored | src/main/java/com/alkmanistik/alkify_music_api/service/TrackService.java:378-380 | Under the invariant a stored track's first artist is stored, so the check's lookup succeeds. |
| TrackService.UpdatedTrack | src/main/java/com/alkmanistik/alkify_music_api/service/TrackService.java:125-135 | A null title or genre keeps the old one, `isExplicit` is always overwritten, the audio path changes only on upload, and id, album, artists and likes are kept. |
| TrackService.UpdatedTrackIdempotent | src/main/java/com/alkmanistik/alkify_music_api/service/TrackService.java:125-135 | Repeating an update with no file changes nothing more. |
| TrackService.AudioFilesAdd | src/main/java/com/alkmanistik/alkify_music_api/service/TrackService.java:194-201 | The audio files of a set of tracks plus one are those of the set plus that track's. |
| TrackService.CreateTrack | src/main/java/com/alkmanistik/alkify_music_api/service/TrackService.java:58-98 | NotFound for an unknown album; Forbidden unless the caller may modify the album's creator; otherwise the new track (request fields, uploaded audio, the album, its creator as the only artist) under the next id, with the listed evictions. |
| TrackService.UpdateTrack | src/main/java/com/alkmanistik/alkify_music_api/service/TrackService.java:100-139 | NotFound, then Forbidden per the first artist; otherwise the stored track becomes `UpdatedTrack` and the listed evictions apply. |
| TrackService.DeleteTrack | src/main/java/com/alkmanistik/alkify_music_api/service/TrackService.java:141-172 | NotFound, then Forbidden; otherwise the track and its audio file are gone and the listed evictions apply. |
| TrackService.Delete | src/main/java/com/alkmanistik/alkify_music_api/service/TrackService.java:174-203 | No ownership check; the track and its audio file are gone, and no eviction fires (self-invocation). |
| TrackService.DeleteEach | src/main/java/com/alkmanistik/alkify_music_api/service/TrackService.java:225-227 | The loop deletes exactly the given tracks and their audio files. |
| TrackService.DeleteTracksByAlbum | src/main/java/com/alkmanistik/alkify_music_api/service/TrackService.java:205-228 | Every track of the album and its audio file are gone, the others are untouched, and the listed evictions apply. |
| TrackService.AddArtistToTrack | src/main/java/com/alkmanistik/alkify_music_api/service/TrackService.java:247-280 | NotFound, Forbidden, NotFound for an unknown artist, IllegalArgument when already listed; otherwise the artist is appended and the evictions apply. |
| TrackService.RemoveArtistFromTrack | src/main/java/com/alkmanistik/alkify_music_api/service/TrackService.java:282-317 | As evidently intended, with the `album.byId` key taken as the track's album: NotFound, Forbidden, NotFound, IllegalArgument for an unlisted artist or the creator; otherwise the artist is removed, the call returns normally and all fourteen evictions apply. |
| TrackService.RemoveArtistFromTrackAsWritten | src/main/java/com/alkmanistik/alkify_music_api/service/TrackService.java:282-317 | As written: the same failures before the removal; every accepted removal ends in `SpelEvaluationException` (`KeyEvaluation`) after only the first five evictions, with the save kept or rolled back according to the advice order. |
| TrackService.LikeTrack | src/main/java/com/alkmanistik/alkify_music_api/service/TrackService.java:319-336 | NotFound for an unknown track; otherwise the caller is in `likedUsers` once, the annotated evictions apply, and a cached liked status of the pair survives with its old value. |
| TrackService.UnlikeTrack | src/main/java/com/alkmanistik/alkify_music_api/service/TrackService.java:338-357 | NotFound for an unknown track; otherwise the caller's first copy leaves `likedUsers` (a no-op when absent), the annotated evictions apply, and a cached liked status of the pair survives with its old value. |
| TrackService.LikeThenUnlike | src/main/java/com/alkmanistik/alkify_music_api/service/TrackService.java:319-357 | Liking then unliking a track the caller did not like restores its likes. |
| TrackService.LikeToggles | src/main/java/com/alkmanistik/alkify_music_api/service/TrackService.java:319-357 | After a like the pair is liked, after an unlike it is not, and liking twice is liking once. |
| TrackService.GetTracksByAlbumId | src/main/java/com/alkmanistik/alkify_music_api/service/TrackService.java:230-235 | The cached listing on a hit; otherwise the album's tracks, which are then cached. |
| TrackService.SearchTracks | src/main/java/com/alkmanistik/alkify_music_api/service/TrackService.java:237-245 | The cached listing on a hit; otherwise `SearchResult`, which is then cached. |
| TrackService.GetLikedTracks | src/main/java/com/alkmanistik/alkify_music_api/service/TrackService.java:364-369 | The cached listing on a hit; otherwise the tracks the user likes, which are then cached. |
| TrackService.IsTrackLikedByUser | src/main/java/com/alkmanistik/alkify_music_api/service/TrackService.java:359-362 | The cached flag on a hit; otherwise whether the track's likes contain the user, which is then cached. |
| TrackService.CreateTrackEvictions | src/main/java/com/alkmanistik/alkify_music_api/service/TrackService.java:59-76 | `createTrack`'s list clears the track listings, album and artist views and `users.all` whole, plus the new track's entry, its album's track listing and view, and the caller's artist listing and user entries; it touches neither liked-status nor subscribed flags. |
| TrackService.UpdateTrackEvictions | src/main/java/com/alkmanistik/alkify_music_api/service/TrackService.java:101-118 | `updateTrack`'s list clears its regions whole, plus the track's entry, its album's view and the caller's artist listing and user entries; no flag region. |
| TrackService.DeleteTrackEvictions | src/main/java/com/alkmanistik/alkify_music_api/service/TrackService.java:142-159 | `deleteTrack`'s list clears every listing and view a track appears in, plus the track's entry and the caller's user entries; no flag region. |
| TrackService.DeleteTracksByAlbumEvictions | src/main/java/com/alkmanistik/alkify_music_api/service/TrackService.java:206-223 | `deleteTracksByAlbum`'s list clears its regions whole and the album's track listing; no flag region. |
| TrackService.TrackArtistEvictions | src/main/java/com/alkmanistik/alkify_music_api/service/TrackService.java:248-263 | `addArtistToTrack` and `removeArtistFromTrack` clear their regions whole, plus the track's entry, the album's and the artist's views and the caller's artist listing and user entries; no flag region. |
| TrackService.RemoveArtistEvictionsBeforeKeyFailure | src/main/java/com/alkmanistik/alkify_music_api/service/TrackService.java:284-289 | The evictions that run before the `#result.album.id` key fails: the track's entry and four listings, and none of the regions listed from `album.byId` on. |
| TrackService.RemoveArtistAsWrittenKeepsViews | src/main/java/com/alkmanistik/alkify_music_api/service/TrackService.java:289-297 | After the failed removal every cached album view and artist and user entry keeps its old value. |
| TrackService.LikeEvictionsAsWritten | src/main/java/com/alkmanistik/alkify_music_api/service/TrackService.java:320-326 | The toggles' list clears `users.all`, the track's entry, the caller's liked listing and user entries, but not the toggled pair's liked status. |
| TrackService.LikeEvictions | src/main/java/com/alkmanistik/alkify_music_api/service/TrackService.java:320-362 | The corrected toggle set clears everything the written list does, plus the pair's `track.likedStatus` entry. |
| TrackService.NewTrack | src/main/java/com/alkmanistik/alkify_music_api/service/TrackService.java:85-94 | The new track has the request's title, genre and explicit flag, the uploaded audio, the album, the album's creator as its only artist and no likes, and it is well formed wherever the album is stored. |
| TrackService.IsLiked | src/main/java/com/alkmanistik/alkify_music_api/repository/TrackRepository.java:14 | `existsByIdAndLikedUsersId`: true exactly when the track is among the user's liked tracks, so never for an unknown track. |
| AlbumService.AlbumBatchAsSet | src/main/java/com/alkmanistik/alkify_music_api/service/AlbumService.java:246-255 | The evictions of the nested `deleteTracksByAlbum` calls do not depend on the order the repository returns the albums in. |
| AlbumService.AlbumsOfArtist | src/main/java/com/alkmanistik/alkify_music_api/repository/AlbumRepository.java:12 | Exactly the stored albums whose artist list contains the artist, at any position. |
| AlbumService.AlbumsByArtistResult | src/main/java/com/alkmanistik/alkify_music_api/service/AlbumService.java:89-98 | NotFound for an unknown artist; otherwise the artist's albums. |
| AlbumService.SearchResult | src/main/java/com/alkmanistik/alkify_music_api/service/AlbumService.java:235-244 | Every album for a null or blank title; otherwise exactly the albums whose title contains it, ignoring case. |
| AlbumService.SearchWithinAll | src/main/java/com/alkmanistik/alkify_music_api/service/AlbumService.java:235-244 | A search never finds more than all albums, and a null title lists every album as a blank one does. |
| AlbumService.TracksOfAlbums | src/main/java/com/alkmanistik/alkify_music_api/model/Album.java:32-33 | Exactly the tracks whose album is among those given. |
| AlbumService.CreatedTracks | src/main/java/com/alkmanistik/alkify_music_api/service/AlbumService.java:68-78 | One nested track per request; in the model's single numbering their ids are `album + 1`, ..., `album + n` (see Left out). |
| AlbumService.CreatedTracksShape | src/main/java/com/alkmanistik/alkify_music_api/service/AlbumService.java:68-78 | Each nested track belongs to the new album, has its creator as the only artist, no audio and no likes. |
| AlbumService.UpdatedAlbum | src/main/java/com/alkmanistik/alkify_music_api/service/AlbumService.java:120-131 | A null title or description keeps the old one, the image changes only on upload, and id and relations are kept. |
| AlbumService.EmptyUpdateKeepsAlbum | src/main/java/com/alkmanistik/alkify_music_api/service/AlbumService.java:120-131 | An all-null update without a file leaves the album unchanged. |
| AlbumService.SameArtistsKeepValid | src/main/java/com/alkmanistik/alkify_music_api/service/AlbumService.java:115-133 | Replacing an album by one with the same artist list keeps the invariants. |
| AlbumService.SameCreatorKeepsValid | src/main/java/com/alkmanistik/alkify_music_api/service/AlbumService.java:198-232 | A new artist list that keeps the creator, lists no artist twice and lists only stored ones keeps the invariants. |
| AlbumService.CreatorStored | src/main/java/com/alkmanistik/alkify_music_api/service/AlbumService.java:257-262 | Under the invariant a stored album's first artist is stored. |
| AlbumService.CreateAlbum | src/main/java/com/alkmanistik/alkify_music_api/service/AlbumService.java:42-80 | NotFound, then Forbidden; otherwise the album (its image, the artist as creator) under the next id, its nested tracks after it, and the nested calls' evictions followed by its own. |
| AlbumService.CreateOwnedAlbum | src/main/java/com/alkmanistik/alkify_music_api/service/AlbumService.java:56-79 | The success path of `createAlbum` once ownership passed. |
| AlbumService.StoreNewAlbum | src/main/java/com/alkmanistik/alkify_music_api/service/AlbumService.java:58-66 | The album with the optional image under the next id. |
| AlbumService.CreateTracks | src/main/java/com/alkmanistik/alkify_music_api/service/AlbumService.java:68-78 | The nested `createTrack` loop stores exactly `CreatedTracks` and applies their evictions in order. |
| AlbumService.CreateNestedTrack | src/main/java/com/alkmanistik/alkify_music_api/service/AlbumService.java:69-77 | One nested `createTrack` with no file stores the new track and applies its evictions. |
| AlbumService.UpdateAlbum | src/main/java/com/alkmanistik/alkify_music_api/service/AlbumService.java:107-136 | NotFound, then Forbidden per the creator; otherwise the album becomes `UpdatedAlbum` and the evictions apply. |
| AlbumService.NewAlbumKeepsValid | src/main/java/com/alkmanistik/alkify_music_api/service/AlbumService.java:65-66 | Storing a well-formed album under a fresh id keeps the invariants. |
| AlbumService.RemoveAlbumKeepsValid | src/main/java/com/alkmanistik/alkify_music_api/service/AlbumService.java:157 | Removing an album once its tracks are gone keeps the invariants. |
| AlbumService.RemoveAlbum | src/main/java/com/alkmanistik/alkify_music_api/service/AlbumService.java:151-157 | The album, its tracks, their audio files and its image are gone, and `deleteTracksByAlbum`'s evictions apply. |
| AlbumService.DeleteAlbum | src/main/java/com/alkmanistik/alkify_music_api/service/AlbumService.java:138-159 | NotFound, then Forbidden; otherwise `RemoveAlbum` plus `deleteAlbum`'s own evictions. |
| AlbumService.Delete | src/main/java/com/alkmanistik/alkify_music_api/service/AlbumService.java:161-180 | No ownership check; like `RemoveAlbum`, and its own annotations do not fire. |
| AlbumService.DeleteAlbumsByArtist | src/main/java/com/alkmanistik/alkify_music_api/service/AlbumService.java:246-255 | Every album listing the artist is gone with its tracks and files, nothing else is, no remaining album lists the artist, and the nested evictions apply. |
| AlbumService.DeleteEach | src/main/java/com/alkmanistik/alkify_music_api/service/AlbumService.java:253-254 | The loop deletes exactly the given albums with their tracks, audio files and images. |
| AlbumService.AddArtistToAlbum | src/main/java/com/alkmanistik/alkify_music_api/service/AlbumService.java:182-205 | NotFound, Forbidden, NotFound for an unknown artist, IllegalArgument when listed; otherwise the artist is appended and the evictions apply. |
| AlbumService.RemoveArtistFromAlbum | src/main/java/com/alkmanistik/alkify_music_api/service/AlbumService.java:207-233 | NotFound, Forbidden, NotFound, IllegalArgument for an unlisted artist or the creator; otherwise removed, with the evictions. |
| AlbumService.GetAlbumsByArtistId | src/main/java/com/alkmanistik/alkify_music_api/service/AlbumService.java:89-98 | The cached listing on a hit; otherwise `AlbumsByArtistResult`, cached only on success. |
| AlbumService.SearchAlbums | src/main/java/com/alkmanistik/alkify_music_api/service/AlbumService.java:235-244 | The cached listing on a hit; otherwise `SearchResult`, which is then cached. |
| AlbumService.AlbumEvictions | src/main/java/com/alkmanistik/alkify_music_api/service/AlbumService.java:43-48 | The list six album operations share clears the album listings and search whole and the album's view; no flag region. |
| AlbumService.DeleteAlbumsByArtistEvictions | src/main/java/com/alkmanistik/alkify_music_api/service/AlbumService.java:247-251 | `deleteAlbumsByArtist` clears the album listings and search whole and names no single key and no artist listing. |
| AlbumService.NewAlbum | src/main/java/com/alkmanistik/alkify_music_api/service/AlbumService.java:58-65 | The new album has the request's fields, the uploaded cover and the artist as its only artist, and it is well formed wherever that artist is stored. |
| ArtistService.DeleteArtistAsWrittenKeepsOwnerListing | src/main/java/com/alkmanistik/alkify_music_api/service/ArtistService.java:100-122 | An administrator deleting another user's artist that has no albums leaves the owner's cached artist listing in place. |
| ArtistService.DeleteArtistEvictionsDropOwnerListing | src/main/java/com/alkmanistik/alkify_music_api/service/ArtistService.java:100-122 | With the corrected set the owner's listing is always gone. |
| ArtistService.SubscribeEvictionsAsWrittenKeepStatus | src/main/java/com/alkmanistik/alkify_music_api/service/ArtistService.java:186-226 | A toggle as written leaves a cached subscription status with its old value. |
| ArtistService.SubscribeEvictionsDropPair | src/main/java/com/alkmanistik/alkify_music_api/service/ArtistService.java:186-226 | With the corrected set the pair's status, the artist (`artist.byId`), its subscribers and the user's subscriptions are gone, and other pairs' statuses are kept. |
| ArtistService.ArtistsOfUser | src/main/java/com/alkmanistik/alkify_music_api/repository/ArtistRepository.java:16 | Exactly the stored artists the user owns. |
| ArtistService.UserArtistsResult | src/main/java/com/alkmanistik/alkify_music_api/service/ArtistService.java:75-83 | NotFound for an unknown user; otherwise the user's artists. |
| ArtistService.SearchResult | src/main/java/com/alkmanistik/alkify_music_api/repository/ArtistRepository.java:12 | Exactly the artists whose name contains the pattern ignoring case; a blank pattern is not special. |
| ArtistService.SearchEdgeCases | src/main/java/com/alkmanistik/alkify_music_api/service/ArtistService.java:172-177 | A null name finds nothing; the empty name finds every artist that has a name. |
| ArtistService.SubscribersResult | src/main/java/com/alkmanistik/alkify_music_api/service/ArtistService.java:233-241 | NotFound for an unknown artist; otherwise its subscribers. |
| ArtistService.Subscriptions | src/main/java/com/alkmanistik/alkify_music_api/service/ArtistService.java:243-248 | Exactly the artists on the caller object's subscription list. |
| ArtistService.SubscriptionSidesAgree | src/main/java/com/alkmanistik/alkify_music_api/model/Artist.java:31-32 | Under the invariant a stored user lists a stored artist exactly when the artist lists the user. |
| ArtistService.UpdatedArtist | src/main/java/com/alkmanistik/alkify_music_api/service/ArtistService.java:160-167 | A null name keeps the old one, the description is always overwritten, the image changes only on upload, and owner and subscribers are kept. |
| ArtistService.UpdatedArtistIdempotent | src/main/java/com/alkmanistik/alkify_music_api/service/ArtistService.java:160-167 | Repeating an update without a file changes nothing more. |
| ArtistService.NestedAlbums | src/main/java/com/alkmanistik/alkify_music_api/service/ArtistService.java:61-71 | One album per request with the artist as creator and no image; in the model's single numbering each takes the id after those its predecessors and their tracks used (see Left out). |
| ArtistService.NestedAlbumTracks | src/main/java/com/alkmanistik/alkify_music_api/service/ArtistService.java:61-71 | The nested tracks of those albums, each in one of them with the artist as only artist; in the model's single numbering each is numbered after its album (see Left out). |
| ArtistService.NestedIdsDistinct | src/main/java/com/alkmanistik/alkify_music_api/service/ArtistService.java:61-71 | In the model's single numbering no nested track shares an id with a nested album; the program numbers the two tables apart (see Left out). |
| ArtistService.NestedAlbumEvictionsCover | src/main/java/com/alkmanistik/alkify_music_api/service/ArtistService.java:61-71 | Every nested album's `album.byId` entry is evicted. |
| ArtistService.NewArtistKeepsConsistent | src/main/java/com/alkmanistik/alkify_music_api/service/ArtistService.java:51-59 | A new artist with no subscribers under the next id keeps the subscription table consistent. |
| ArtistService.RemoveArtistKeepsValid | src/main/java/com/alkmanistik/alkify_music_api/service/ArtistService.java:120 | Removing an artist no album lists keeps the invariants. |
| ArtistService.PairEditKeepsConsistent | src/main/java/com/alkmanistik/alkify_music_api/service/ArtistService.java:195-220 | Editing one user's and one artist's lists so both agree on the pair and keep all else keeps the table consistent. |
| ArtistService.SubscribeKeepsConsistent | src/main/java/com/alkmanistik/alkify_music_api/service/ArtistService.java:195-201 | After a subscription both sides list the pair once and the table stays consistent. |
| ArtistService.UnsubscribeKeepsConsistent | src/main/java/com/alkmanistik/alkify_music_api/service/ArtistService.java:214-220 | After an unsubscription neither side lists the pair and the table stays consistent. |
| ArtistService.CreateArtist | src/main/java/com/alkmanistik/alkify_music_api/service/ArtistService.java:42-73 | The artist (optional image, the caller as owner) under the next id, then its nested albums and tracks, with the nested and own evictions. |
| ArtistService.StoreNewArtist | src/main/java/com/alkmanistik/alkify_music_api/service/ArtistService.java:51-59 | The artist with the optional image under the next id. |
| ArtistService.CreateAlbums | src/main/java/com/alkmanistik/alkify_music_api/service/ArtistService.java:61-71 | The nested `createAlbum` loop stores exactly `NestedAlbums`/`NestedAlbumTracks` with their evictions in order. |
| ArtistService.CreateNestedAlbum | src/main/java/com/alkmanistik/alkify_music_api/service/ArtistService.java:63-69 | One nested `createAlbum`, which cannot fail since the caller owns the artist. |
| ArtistService.UpdateArtistById | src/main/java/com/alkmanistik/alkify_music_api/service/ArtistService.java:147-170 | NotFound, then Forbidden; otherwise the artist becomes `UpdatedArtist` and the evictions apply. |
| ArtistService.DeleteCascade | src/main/java/com/alkmanistik/alkify_music_api/service/ArtistService.java:114-120 | The image, every album listing the artist (with tracks and files) and the artist are gone; no album lists it any more. |
| ArtistService.DeleteArtist | src/main/java/com/alkmanistik/alkify_music_api/service/ArtistService.java:99-122 | NotFound, then Forbidden; otherwise `DeleteCascade` plus the annotated evictions, keyed by the caller; when an administrator deletes another user's artist without albums, the owner's cached listing survives. |
| ArtistService.Delete | src/main/java/com/alkmanistik/alkify_music_api/service/ArtistService.java:124-145 | No ownership check; `DeleteCascade`, and its own annotations do not fire. |
| ArtistService.AlbumsOfArtists | src/main/java/com/alkmanistik/alkify_music_api/service/ArtistService.java:179-183 | Exactly the albums that list at least one of the given artists. |
| ArtistService.DeleteAllArtistsByUser | src/main/java/com/alkmanistik/alkify_music_api/service/ArtistService.java:179-183 | Every artist the user owns is gone with its albums, tracks and files; none is left; surviving albums list only stored artists. |
| ArtistService.DeleteArtists | src/main/java/com/alkmanistik/alkify_music_api/service/ArtistService.java:181-182 | The loop over `delete` removes exactly the given artists and what they take along, in any order. |
| ArtistService.Subscribed | src/main/java/com/alkmanistik/alkify_music_api/service/ArtistService.java:195-201 | The pair joins the user's list and the artist's subscriber list unless already there; nothing else changes. |
| ArtistService.Unsubscribed | src/main/java/com/alkmanistik/alkify_music_api/service/ArtistService.java:214-220 | The first copy of the pair leaves both lists; nothing else changes. |
| ArtistService.UnsubscribedLeavesNoPair | src/main/java/com/alkmanistik/alkify_music_api/service/ArtistService.java:214-220 | With duplicate-free lists, neither side lists the pair afterwards. |
| ArtistService.SubscribedIdempotent | src/main/java/com/alkmanistik/alkify_music_api/service/ArtistService.java:195-201 | Subscribing twice is subscribing once. |
| ArtistService.UnsubscribeUndoesSubscribe | src/main/java/com/alkmanistik/alkify_music_api/service/ArtistService.java:195-220 | Unsubscribing right after subscribing a new pair restores both repositories. |
| ArtistService.SubscribePresent | src/main/java/com/alkmanistik/alkify_music_api/service/ArtistService.java:195-201 | Subscribing an already subscribed pair changes nothing. |
| ArtistService.UnsubscribeAbsent | src/main/java/com/alkmanistik/alkify_music_api/service/ArtistService.java:214-220 | Unsubscribing a pair that is not subscribed changes nothing. |
| ArtistService.SubscribeToArtist | src/main/java/com/alkmanistik/alkify_music_api/service/ArtistService.java:185-202 | NotFound for an unknown artist; otherwise `Subscribed`, the annotated evictions apply, and a cached subscription status of the pair survives with its old value. |
| ArtistService.UnsubscribeFromArtist | src/main/java/com/alkmanistik/alkify_music_api/service/ArtistService.java:204-221 | NotFound for an unknown artist; otherwise `Unsubscribed`, the annotated evictions apply, and a cached subscription status of the pair survives with its old value. |
| ArtistService.GetUserArtists | src/main/java/com/alkmanistik/alkify_music_api/service/ArtistService.java:75-83 | The cached listing on a hit; otherwise `UserArtistsResult`, cached only on success. |
| ArtistService.SearchArtistsByName | src/main/java/com/alkmanistik/alkify_music_api/service/ArtistService.java:172-177 | The cached listing on a hit; otherwise `SearchResult`, which is then cached. |
| ArtistService.IsUserSubscribed | src/main/java/com/alkmanistik/alkify_music_api/service/ArtistService.java:223-226 | The cached flag on a hit; otherwise whether the artist's subscribers contain the user. |
| ArtistService.GetArtistSubscribers | src/main/java/com/alkmanistik/alkify_music_api/service/ArtistService.java:233-241 | The cached listing on a hit; otherwise `SubscribersResult`, cached only on success. |
| ArtistService.GetUserSubscriptions | src/main/java/com/alkmanistik/alkify_music_api/service/ArtistService.java:243-248 | The cached listing on a hit; otherwise the caller's own subscription list. |
| ArtistService.CreateArtistEvictions | src/main/java/com/alkmanistik/alkify_music_api/service/ArtistService.java:43-49 | `createArtist` clears the artist listing and search whole, plus the new artist's view and the caller's artist listing and subscriptions. |
| ArtistService.UpdateArtistEvictions | src/main/java/com/alkmanistik/alkify_music_api/service/ArtistService.java:148-153 | `updateArtistById` clears the artist listings, per-user listings and search whole, plus the artist's view. |
| ArtistService.DeleteArtistEvictionsAsWritten | src/main/java/com/alkmanistik/alkify_music_api/service/ArtistService.java:100-107 | `deleteArtist` as written clears the caller's artist listing and no other user's, besides the artist's view and subscribers and the listing regions. |
| ArtistService.DeleteArtistEvictions | src/main/java/com/alkmanistik/alkify_music_api/service/ArtistService.java:100-107 | The corrected set clears the owner's artist listing and no other user's, with the same other entries. |
| ArtistService.SubscribeEvictionsAsWritten | src/main/java/com/alkmanistik/alkify_music_api/service/ArtistService.java:186-190 | The subscription toggles clear no region, only the artist's subscribers and view and the caller's subscriptions, and not the pair's subscribed flag. |
| ArtistService.SubscribeEvictions | src/main/java/com/alkmanistik/alkify_music_api/service/ArtistService.java:186-225 | The corrected toggle set clears everything the written list does, plus the pair's `artist.subscribed` entry. |
| ArtistService.NewArtist | src/main/java/com/alkmanistik/alkify_music_api/service/ArtistService.java:51-58 | The new artist has the request's fields, the uploaded image, the caller as owner and no subscribers. |
| ArtistService.IsSubscribed | src/main/java/com/alkmanistik/alkify_music_api/repository/ArtistRepository.java:24 | `existsByIdAndSubscribersId`: false for an unknown artist, and true only when the user is among the artist's subscribers. |
| UserService.UpdateUserAsWrittenKeepsOldEmail | src/main/java/com/alkmanistik/alkify_music_api/service/UserService.java:89-113 | A user who changes email leaves the old email's cached entry in place. |
| UserService.UpdateUserEvictionsDropEmails | src/main/java/com/alkmanistik/alkify_music_api/service/UserService.java:89-113 | With the corrected set neither email's entry survives. |
| UserService.NewUser | src/main/java/com/alkmanistik/alkify_music_api/service/UserService.java:45-50 | The request's username and email, the encoded password, the USER role only, no subscriptions. |
| UserService.ManagedArtists | src/main/java/com/alkmanistik/alkify_music_api/service/UserService.java:54-62 | One artist per request with no image and the new user as owner; in the model's single numbering each takes the id after those before it used (see Left out). |
| UserService.ManagedAlbums | src/main/java/com/alkmanistik/alkify_music_api/service/UserService.java:54-62 | The nested albums of the managed artists, numbered after the user in the model's single numbering (see Left out). |
| UserService.ManagedTracks | src/main/java/com/alkmanistik/alkify_music_api/service/UserService.java:54-62 | The nested tracks of those albums, numbered after the user in the model's single numbering (see Left out). |
| UserService.ManagedArtistsOwned | src/main/java/com/alkmanistik/alkify_music_api/service/UserService.java:54-62 | The new user's artist listing is the managed artists. |
| UserService.UpdateUserResult | src/main/java/com/alkmanistik/alkify_music_api/service/UserService.java:94-112 | Username set when given; email set when given and different, IllegalArgument when another user has it, NullPointer when the stored email is null; password re-encoded when non-blank; all else kept. |
| UserService.UpdateKeepsEmailsUnique | src/main/java/com/alkmanistik/alkify_music_api/service/UserService.java:100-105 | A successful update keeps emails unique. |
| UserService.UpdateUserIdempotent | src/main/java/com/alkmanistik/alkify_music_api/service/UserService.java:94-112 | Applying the same update again succeeds and changes nothing, for an encoder that is a function (a salted encoder re-hashes; see Left out). |
| UserService.Surviving | src/main/java/com/alkmanistik/alkify_music_api/model/Album.java:32-33 | Exactly the tracks whose album was not deleted, unchanged. |
| UserService.WithAdminRole | src/main/java/com/alkmanistik/alkify_music_api/service/UserService.java:135-142 | ADMIN joins the user's roles; every other field and user is unchanged. |
| UserService.WithAdminRoleIdempotent | src/main/java/com/alkmanistik/alkify_music_api/service/UserService.java:135-142 | Granting ADMIN twice is granting it once. |
| UserService.AdminPassesOwnership | src/main/java/com/alkmanistik/alkify_music_api/service/TrackService.java:371-376 | Once ADMIN, the user passes every artist ownership check. |
| UserService.CreateUser | src/main/java/com/alkmanistik/alkify_music_api/service/UserService.java:34-65 | IllegalArgument with no change when the email is taken; otherwise the user under the next id, its managed artists with their albums and tracks, and the nested and own evictions. |
| UserService.CreateManagedArtists | src/main/java/com/alkmanistik/alkify_music_api/service/UserService.java:54-62 | The loop stores exactly the managed artists, albums and tracks and applies their evictions in order. |
| UserService.CreateManagedArtist | src/main/java/com/alkmanistik/alkify_music_api/service/UserService.java:56-60 | One nested `createArtist` with the new user as owner. |
| UserService.UpdateUser | src/main/java/com/alkmanistik/alkify_music_api/service/UserService.java:88-113 | The result is `UpdateUserResult`; on success the user is saved and the annotated evictions apply, so a cached entry under the old email survives an email change; on failure nothing changes. |
| UserService.DeleteUser | src/main/java/com/alkmanistik/alkify_music_api/service/UserService.java:115-128 | NotFound for an unknown id; otherwise every owned artist is gone with its albums, tracks and files, then the user with its subscription and like rows; afterwards no artist is owned by or subscribed by the user and no track is liked by them. |
| UserService.AddAdminRole | src/main/java/com/alkmanistik/alkify_music_api/service/UserService.java:135-142 | NotFound for an unknown id; otherwise the users become `WithAdminRole`. |
| UserService.GetUserEntityByEmail | src/main/java/com/alkmanistik/alkify_music_api/service/UserService.java:130-133 | NotFound exactly when no user has the email; otherwise the one stored user with it. |
| UserService.CreateUserEvictions | src/main/java/com/alkmanistik/alkify_music_api/service/UserService.java:35-39 | `createUser` clears `users.all` whole, plus the new user's entry and the request email's entry. |
| UserService.UpdateUserEvictionsAsWritten | src/main/java/com/alkmanistik/alkify_music_api/service/UserService.java:89-93 | `updateUser` as written clears `users.all`, the user's entry and the new email's entry only, so a changed email leaves the old email's entry in place. |
| UserService.UpdateUserEvictions | src/main/java/com/alkmanistik/alkify_music_api/service/UserService.java:89-93 | The corrected set clears everything the written list does, plus the old email's entry. |
| UserService.DeleteUserEvictions | src/main/java/com/alkmanistik/alkify_music_api/service/UserService.java:116-120 | `deleteUser` clears `users.all` and `user.byEmail` whole, plus the user's entry. |
| UserService.EmailTaken | src/main/java/com/alkmanistik/alkify_music_api/repository/UserRepository.java:13 | `existsByEmail`: true exactly when a stored user has that email. |
| GlobalMapper.MapAll | src/main/java/com/alkmanistik/alkify_music_api/mapper/GlobalMapper.java:20-26 | Element by element, in order, the same length. |
| GlobalMapper.SafeMap | src/main/java/com/alkmanistik/alkify_music_api/mapper/GlobalMapper.java:20-26 | A null collection maps to the empty list; otherwise element by element. |
| GlobalMapper.SafeSize | src/main/java/com/alkmanistik/alkify_music_api/mapper/GlobalMapper.java:28-32 | Zero for a null collection, else its size. |
| GlobalMapper.SafeMapKeepsSize | src/main/java/com/alkmanistik/alkify_music_api/mapper/GlobalMapper.java:20-32 | The mapped list is as long as the collection is counted. |
| GlobalMapper.MapAllAppend | src/main/java/com/alkmanistik/alkify_music_api/mapper/GlobalMapper.java:20-26 | Mapping a concatenation maps each part. |
| GlobalMapper.ArtistMinimalOf | src/main/java/com/alkmanistik/alkify_music_api/mapper/GlobalMapper.java:59-67 | Id, name and image path copied. |
| GlobalMapper.TrackMinimalOf | src/main/java/com/alkmanistik/alkify_music_api/mapper/GlobalMapper.java:112-122 | Id, title, duration, audio path and explicit flag copied. |
| GlobalMapper.AlbumMinimalOf | src/main/java/com/alkmanistik/alkify_music_api/mapper/GlobalMapper.java:83-93 | Id, title and image copied; the track count is the null-safe size of the tracks. |
| GlobalMapper.ArtistOf | src/main/java/com/alkmanistik/alkify_music_api/mapper/GlobalMapper.java:45-57 | Scalar fields copied, subscriber count null-safe, albums and tracks mapped to minimal DTOs. |
| GlobalMapper.AlbumOf | src/main/java/com/alkmanistik/alkify_music_api/mapper/GlobalMapper.java:69-81 | Scalar fields copied, artists and tracks mapped to minimal DTOs. |
| GlobalMapper.TrackOf | src/main/java/com/alkmanistik/alkify_music_api/mapper/GlobalMapper.java:95-110 | Scalar fields copied, artists mapped, album mapped null-safely, like count null-safe. |
| GlobalMapper.UserOf | src/main/java/com/alkmanistik/alkify_music_api/mapper/GlobalMapper.java:34-43 | Id, username and email copied, managed artists mapped to full artist DTOs. |
| GlobalMapper.ToUserDTO | src/main/java/com/alkmanistik/alkify_music_api/mapper/GlobalMapper.java:34-35 | Null exactly for null; otherwise `UserOf`. |
| GlobalMapper.ToArtistDTO | src/main/java/com/alkmanistik/alkify_music_api/mapper/GlobalMapper.java:45-46 | Null exactly for null; otherwise `ArtistOf`. |
| GlobalMapper.ToArtistMinimalDTO | src/main/java/com/alkmanistik/alkify_music_api/mapper/GlobalMapper.java:59-60 | Null exactly for null; otherwise `ArtistMinimalOf`. |
| GlobalMapper.ToAlbumDTO | src/main/java/com/alkmanistik/alkify_music_api/mapper/GlobalMapper.java:69-70 | Null exactly for null; otherwise `AlbumOf`. |
| GlobalMapper.ToAlbumMinimalDTO | src/main/java/com/alkmanistik/alkify_music_api/mapper/GlobalMapper.java:83-84 | Null exactly for null; otherwise `AlbumMinimalOf`. |
| GlobalMapper.ToTrackDTO | src/main/java/com/alkmanistik/alkify_music_api/mapper/GlobalMapper.java:95-96 | Null exactly for null; otherwise `TrackOf`. |
| GlobalMapper.ToTrackMinimalDTO | src/main/java/com/alkmanistik/alkify_music_api/mapper/GlobalMapper.java:112-113 | Null exactly for null; otherwise `TrackMinimalOf`. |
| GlobalMapper.UserDTOIgnoresPassword | src/main/java/com/alkmanistik/alkify_music_api/mapper/GlobalMapper.java:34-43 | The password never reaches the user DTO. |
| GlobalMapper.TrackDTOListsArtistsInOrder | src/main/java/com/alkmanistik/alkify_music_api/mapper/GlobalMapper.java:105-108 | The track DTO lists the track's artists in order and counts its likes. |
| GlobalMapper.AlbumMinimalCountsFullTracks | src/main/java/com/alkmanistik/alkify_music_api/mapper/GlobalMapper.java:79-91 | The minimal album's track count equals the number of tracks the full album DTO lists. |
| GlobalMapper.MinimalAgreesWithFull | src/main/java/com/alkmanistik/alkify_music_api/mapper/GlobalMapper.java:45-122 | Minimal and full DTOs agree on every field they share. |
| GlobalMapper.UserDTOCountsSubscribers | src/main/java/com/alkmanistik/alkify_music_api/mapper/GlobalMapper.java:41-53 | A user DTO shows each managed artist in order with its subscriber count. |

## Left out

- `getAllTracks`, `getById`, `getAllAlbums`, `getAlbumById`, `getAllArtists`, `getArtistById`, `getUserById`, `getAllUsers`, `getUserByEmail` and `getYourself`: they only read and map one record or all records through the cache. Their keys take part in the evictions, but the reads themselves are not separate members.
- `getSubscriberCount`: its meaning rests on how Spring Data derives `countSubscribersById`, which is not in the source.
- Cached listings contain DTOs; the model keeps only the set of ids a listing lists, not its order or the DTO contents.
- The mapper's node graph is not derived from the catalogue: the two describe the same entities, but no lemma links them.
- Entity equality is id equality. The source's `contains` and `remove` compare Lombok `@Data` entities field by field, which agrees with this while the caller object is the stored one.
- Database constraints are not modelled. Deleting an artist that still has subscribers, or one that other albums' tracks list, succeeds in the model.
- Transactions and rollback are left out. A failure in the model happens before any write, as in the source's checks, so no partial state arises.
- On a failed `updateUser`, the in-memory changes to the caller object are not modelled.
- File contents, directory creation and upload errors (filename without an extension, I/O exceptions) are left out. An upload always succeeds with a fresh name.
- Timestamps (`createdAt`, `updatedAt`) and the DTOs' `releaseDate` are left out.
- Logging is left out.
- `sync = true` on `@Cacheable`, and concurrency in general, are left out.
- The password encoder is a function parameter. Authentication, `AuthenticationService` and `CustomUserDetailsService` are not part of this model.
- src/main/java/com/alkmanistik/alkify_music_api/model/User.java declares neither a `roles` field nor a `@Builder`. The model takes both from their uses: the builder call in UserService.java:45-49, `addAdminRole` in UserService.java:139, and the ownership checks in TrackService.java:373, AlbumService.java:259 and ArtistService.java:252.
- src/main/java/com/alkmanistik/alkify_music_api/dto/UserDTO.java is not part of this model. Its fields are taken from what `toUserDTO` sets.
- Store.Catalogue.NewId: the model draws the ids of every table from one counter. The program has one IDENTITY column per entity, so only an id's freshness within its own table is the program's.
- AlbumService.CreatedTracks: the ids `album + 1`, ..., `album + n` follow from the model's one counter; the program numbers tracks in their own column.
- ArtistService.NestedAlbums: the album ids after `artistId` follow from the model's one counter, not from the albums' own column.
- ArtistService.NestedAlbumTracks: the track ids after each album's follow from the model's one counter, not from the tracks' own column.
- ArtistService.NestedIdsDistinct: a fact of the model's one counter only; in the program an album and a track can have the same id.
- UserService.ManagedArtists: the artist ids after the user's follow from the model's one counter, not from the artists' own column.
- UserService.ManagedAlbums: the nested album ids follow from the model's one counter.
- UserService.ManagedTracks: the nested track ids follow from the model's one counter.
- TrackService.SearchResult: the case fold is `Model.Lower`, which folds only `A`-`Z`. The database's `IgnoreCase` folds every letter, so a non-ASCII title such as "Ёлка" searched as "ёлка" is found by the program and missed by the model.
- AlbumService.SearchResult: the same ASCII-only fold as `TrackService.SearchResult`.
- ArtistService.SearchResult: the same ASCII-only fold as `TrackService.SearchResult`.
- TrackService.RemoveArtistFromTrackAsWritten: the order of the transaction and cache advice is configuration outside the source, so it is a parameter. When the transaction advice runs outside, the exception rolls the save back; otherwise the save is committed before the exception.
- TrackService.SearchTracks: a null title is cached under `TextKey(None)`. Spring refuses a null cache key; the model does not. The same holds for `AlbumService.SearchAlbums` and `ArtistService.SearchArtistsByName`.
- UserService.UpdateUserIdempotent: it holds because the encoder is a function. A salted `PasswordEncoder` gives a new hash on every call, so re-applying an update with a password changes the stored hash.
## Findings

| source | as written | input that shows it | evidently intended | confidence | as-written member | corrected member |
|---|---|---|---|---|---|---|
| src/main/java/com/alkmanistik/alkify_music_api/service/ArtistService.java:186-190 | subscribe and unsubscribe never evict `artist.subscribed` | `isUserSubscribed(u, a)` caches false, then `subscribeToArtist(u, a)`: later reads still answer false | evict the pair's `{#user.id, #artistId}` entry | not executed | ArtistService.SubscribeEvictionsAsWrittenKeepStatus | ArtistService.SubscribeEvictionsDropPair |
| src/main/java/com/alkmanistik/alkify_music_api/service/TrackService.java:320-326 | like and unlike never evict `track.likedStatus` | `isTrackLikedByUser(t, u)` caches false, then `likeTrack(t, u)`: later reads still answer false | evict the pair's `{#trackId, #userId}` entry | not executed | TrackService.LikeEvictionsAsWrittenKeepStatus | TrackService.LikeEvictionsDropPair |
| src/main/java/com/alkmanistik/alkify_music_api/service/UserService.java:89-93 | `user.byEmail` is evicted under `#userUpdates.email` only | `getUserByEmail(old)` is cached, then the user changes email to `new`: `getUserByEmail(old)` still returns the user | evict the old email's entry as well | not executed | UserService.UpdateUserAsWrittenKeepsOldEmail | UserService.UpdateUserEvictionsDropEmails |
| src/main/java/com/alkmanistik/alkify_music_api/service/TrackService.java:289 | `album.byId` is keyed by `#result.album.id` on the void `removeArtistFromTrack` | the owner removes a listed artist other than the creator: `#result` is null, so the key throws `SpelEvaluationException` after five evictions, the caller gets an error and the remaining nine evictions are skipped | key the eviction by the track's album | not executed | TrackService.RemoveArtistFromTrackAsWritten | TrackService.RemoveArtistFromTrack |
| src/main/java/com/alkmanistik/alkify_music_api/service/ArtistService.java:100-107 | `artists.byUserId` is evicted under `#user.id`, the caller | an administrator deletes another user's artist that has no albums: the owner's cached `getUserArtists` still lists it | evict the owner's listing | not executed | ArtistService.DeleteArtistAsWrittenKeepsOwnerListing | ArtistService.DeleteArtistEvictionsDropOwnerListing |
