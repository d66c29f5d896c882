/**
 * The persistent entities of the catalogue (the model package), the request payloads
 * (the request package) and the failures the services raise.
 *
 * Relations are stored as lists of ids, the way the join tables hold them; the
 * inverse (`mappedBy`) collections -- Artist.albums, Artist.tracks, Album.tracks,
 * User.managedArtists -- are not stored but derived from the owning side.
 * Artist.subscribers is an inverse collection too, but the services update it by
 * hand next to User.subscribedArtists, so both lists are kept and their agreement
 * is an invariant. User.likedTracks and Track.likedUsers are two mappings of the
 * same join table `track_likes`; the table is stored once, as Track.likedUsers,
 * and a user's liked tracks are derived from it.
 */
module Model {
  import opened Wrappers

  /** A database id (`Long`, assigned by the identity column on first save). */
  type Id = nat

  /** A nullable Java `String`. */
  type Text = Option<string>

  datatype Role = RoleUser | RoleAdmin

  /** The two directories of the file store (`project.images`, `project.audios`). */
  datatype Folder = Images | Audios

  /** A stored file: the store hands out a fresh serial for every upload. */
  datatype FileName = FileName(folder: Folder, serial: nat)

  /** An uploaded multipart part; only whether it is empty matters to the services. */
  datatype MultipartFile = MultipartFile(isEmpty: bool)

  datatype User = User(
    id: Id,
    username: Text,
    email: Text,
    password: string,
    roles: set<Role>,
    subscribedArtists: seq<Id>)

  /** `owner` is the id of `Artist.user`, the managing user. */
  datatype Artist = Artist(
    id: Id,
    artistName: Text,
    imageFilePath: Option<FileName>,
    description: Text,
    owner: Id,
    subscribers: seq<Id>)

  /** `artists[0]` is the creator of the album. */
  datatype Album = Album(
    id: Id,
    title: Text,
    description: Text,
    imageFilePath: Option<FileName>,
    artists: seq<Id>)

  /** `artists[0]` is the creator of the track; `album` is the id of `Track.album`. */
  datatype Track = Track(
    id: Id,
    title: Text,
    genre: Text,
    audioFilePath: Option<FileName>,
    isExplicit: bool,
    album: Id,
    artists: seq<Id>,
    likedUsers: seq<Id>)

  datatype TrackRequest = TrackRequest(title: Text, genre: Text, isExplicit: bool)

  datatype AlbumRequest = AlbumRequest(title: Text, description: Text, tracks: Option<seq<TrackRequest>>)

  datatype ArtistRequest = ArtistRequest(artistName: Text, description: Text, albums: Option<seq<AlbumRequest>>)

  datatype UserRequest = UserRequest(username: Text, email: Text, password: Text, managedArtists: Option<seq<ArtistRequest>>)

  /** Why an `IllegalArgumentException` was thrown. */
  datatype Reason =
    | ArtistAlreadyPresent   // "Artist already exists in this track/album"
    | ArtistNotPresent       // "Artist not found in this track/album"
    | CreatorNotRemovable    // "Artist, who created the track/album, can't be removed"
    | EmailAlreadyExists     // createUser
    | EmailInUse             // updateUser

  datatype Failure =
    | NotFound                        // EntityNotFoundException
    | Forbidden                       // ForbiddenException
    | IllegalArgument(reason: Reason) // IllegalArgumentException
    | NullPointer                     // NullPointerException
    | KeyEvaluation                   // SpelEvaluationException from a cache key expression

  /** `present(file)`: the services' test `file != null && !file.isEmpty()`. */
  predicate Present(file: Option<MultipartFile>)
    ensures file.None? ==> !Present(file)
    ensures file.Some? && file.value.isEmpty ==> !Present(file)
    ensures file.Some? && !file.value.isEmpty ==> Present(file)
  {
    file.Some? && !file.value.isEmpty
  }

  /** `Character.isWhitespace`. */
  predicate IsWhitespace(c: char) {
    || c == ' '
    || '\t' <= c <= '\r'
    || '\U{001C}' <= c <= '\U{001F}'
    || c == '\U{1680}'
    || '\U{2000}' <= c <= '\U{2006}'
    || '\U{2008}' <= c <= '\U{200A}'
    || c == '\U{2028}' || c == '\U{2029}' || c == '\U{205F}' || c == '\U{3000}'
  }

  /** `String.isBlank`: empty or whitespace only. */
  predicate IsBlank(s: string)
    ensures IsBlank(s) <==> forall c :: c in s ==> IsWhitespace(c)
    ensures s == [] ==> IsBlank(s)
  {
    forall i :: 0 <= i < |s| ==> IsWhitespace(s[i])
  }

  /** `title == null || title.isBlank()` */
  predicate NullOrBlank(t: Text) {
    t.None? || IsBlank(t.value)
  }

  /** `Character.toLowerCase` on the letters `A`-`Z`; every other character is kept. */
  function Lower(c: char): (r: char)
    ensures !('A' <= r <= 'Z')
    ensures 'A' <= c <= 'Z' ==> 'a' <= r <= 'z' && r as int - c as int == 32
    ensures !('A' <= c <= 'Z') ==> r == c
  {
    if 'A' <= c <= 'Z' then (c as int + 32) as char else c
  }

  function LowerString(s: string): (r: string)
    ensures |r| == |s|
    ensures forall i :: 0 <= i < |r| ==> !('A' <= r[i] <= 'Z')
    ensures forall i :: 0 <= i < |s| && !('A' <= s[i] <= 'Z') ==> r[i] == s[i]
  {
    seq(|s|, i requires 0 <= i < |s| => Lower(s[i]))
  }

  predicate OccursAt(p: string, s: string, i: nat) {
    i + |p| <= |s| && s[i..i + |p|] == p
  }

  predicate IsSubstring(p: string, s: string) {
    exists i: nat | i <= |s| :: OccursAt(p, s, i)
  }

  /**
   * The `...ContainingIgnoreCase` repository filter: the column is non-null and
   * contains the pattern, ignoring ASCII case. A null pattern matches nothing.
   */
  predicate ContainsIgnoreCase(column: Text, pattern: Text)
    ensures column.None? || pattern.None? ==> !ContainsIgnoreCase(column, pattern)
    ensures ContainsIgnoreCase(column, pattern) ==> |pattern.value| <= |column.value|
  {
    column.Some? && pattern.Some? && IsSubstring(LowerString(pattern.value), LowerString(column.value))
  }

  /** Lower-casing twice is lower-casing once. */
  lemma LowerStringIdempotent(s: string)
    ensures LowerString(LowerString(s)) == LowerString(s)
  {
  }

  /** Lower-casing changes only ASCII letters, so it keeps a string blank or non-blank. */
  lemma LowerKeepsBlank(s: string)
    ensures IsBlank(LowerString(s)) <==> IsBlank(s)
  {
    if IsBlank(LowerString(s)) {
      forall i | 0 <= i < |s| ensures IsWhitespace(s[i]) {
        assert LowerString(s)[i] == Lower(s[i]);
      }
    }
  }

  /** Every string occurs in itself, at index 0. */
  lemma SubstringOfItself(s: string)
    ensures IsSubstring(s, s)
  {
    assert OccursAt(s, s, 0);
  }

  /** The search predicate does not depend on the case of the pattern. */
  lemma ContainsIgnoresPatternCase(column: Text, p: string)
    ensures ContainsIgnoreCase(column, Some(LowerString(p))) == ContainsIgnoreCase(column, Some(p))
  {
    LowerStringIdempotent(p);
  }
}
