/**
 * The list operations the services apply in place to relation lists
 * (`getArtists()`, `getLikedUsers()`, `getSubscribedArtists()`, ...), and the
 * artist-membership rules shared by tracks and albums: the first artist of the
 * list is the creator; adding a present artist and removing an absent artist or
 * the creator are rejected.
 */
module Membership {
  import opened Wrappers
  import opened Model

  /** No element occurs twice. */
  predicate NoDuplicates(s: seq<Id>) {
    forall y :: y in multiset(s) ==> multiset(s)[y] == 1
  }

  /** `if (!list.contains(x)) list.add(x)` */
  function AddIfAbsent(s: seq<Id>, x: Id): (r: seq<Id>)
    ensures x in r
    ensures forall y :: y in r <==> y in s || y == x
    ensures x in s ==> r == s
    ensures x !in s ==> r == s + [x]
    ensures NoDuplicates(s) ==> NoDuplicates(r)
  {
    if x in s then s
    else
      assert multiset(s + [x]) == multiset(s) + multiset{x};
      assert x !in multiset(s);
      s + [x]
  }

  /** `List.indexOf(Object)` of a present element: the position of its first occurrence. */
  function FirstIndex(s: seq<Id>, x: Id): (i: nat)
    requires x in s
    ensures i < |s| && s[i] == x && x !in s[..i]
  {
    if s[0] == x then 0
    else
      assert s == [s[0]] + s[1..];
      var j := FirstIndex(s[1..], x);
      assert s[..j + 1] == [s[0]] + s[1..][..j];
      j + 1
  }

  /** `List.remove(Object)`: drops the first occurrence of `x`, if any, and keeps the others in order. */
  function RemoveFirst(s: seq<Id>, x: Id): (r: seq<Id>)
    ensures multiset(r) == multiset(s) - multiset{x}
    ensures |s| > 0 && s[0] != x ==> |r| > 0 && r[0] == s[0]
  {
    if s == [] then []
    else if s[0] == x then
      assert s == [s[0]] + s[1..];
      s[1..]
    else
      assert s == [s[0]] + s[1..];
      [s[0]] + RemoveFirst(s[1..], x)
  }

  /** `List.remove(Object)` cuts out exactly the first occurrence: the elements before and after it stay in order. */
  lemma {:induction false} RemoveFirstCutsFirst(s: seq<Id>, x: Id)
    requires x in s
    ensures RemoveFirst(s, x) == s[..FirstIndex(s, x)] + s[FirstIndex(s, x) + 1..]
  {
    if s[0] == x {
      assert FirstIndex(s, x) == 0 && s[..0] == [];
    } else {
      var t := s[1..];
      var j := FirstIndex(t, x);
      assert FirstIndex(s, x) == j + 1;
      RemoveFirstCutsFirst(t, x);
      assert RemoveFirst(s, x) == [s[0]] + (t[..j] + t[j + 1..]);
      assert s == [s[0]] + t;
      ConsCut(s[0], t, j);
    }
  }

  /** Proof step of `RemoveFirstCutsFirst`: cutting one position commutes with putting an element in front. */
  lemma ConsCut(a: Id, t: seq<Id>, j: nat)
    requires j < |t|
    ensures [a] + (t[..j] + t[j + 1..]) == ([a] + t)[..j + 1] + ([a] + t)[j + 2..]
  {
    assert ([a] + t)[..j + 1] == [a] + t[..j];
    assert ([a] + t)[j + 2..] == t[j + 1..];
  }

  /** Deleting every join row of `x`: all its occurrences leave the list, the rest keep their order. */
  function Without(s: seq<Id>, x: Id): (r: seq<Id>)
    ensures multiset(r) == multiset(s)[x := 0]
    ensures forall y :: y in r <==> y in s && y != x
    ensures NoDuplicates(s) ==> NoDuplicates(r)
    ensures x !in s ==> r == s
  {
    if s == [] then []
    else
      assert s == [s[0]] + s[1..];
      if s[0] == x then Without(s[1..], x) else [s[0]] + Without(s[1..], x)
  }

  /**
   * `Without` works element by element: on a concatenation it is the concatenation of
   * the parts, a lone `x` vanishes and a lone other element stays. So the elements other
   * than `x` keep their order.
   */
  lemma {:induction false} WithoutAppend(s: seq<Id>, t: seq<Id>, x: Id)
    ensures Without(s + t, x) == Without(s, x) + Without(t, x)
    ensures Without([x], x) == [] && forall y :: y != x ==> Without([y], x) == [y]
  {
    if s == [] {
      assert s + t == t;
    } else {
      var u := s + t;
      assert u[0] == s[0] && u[1..] == s[1..] + t;
      WithoutAppend(s[1..], t, x);
      if s[0] == x {
        calc {
          Without(u, x);
          Without(s[1..] + t, x);
          Without(s[1..], x) + Without(t, x);
        }
      } else {
        calc {
          Without(u, x);
          [s[0]] + Without(s[1..] + t, x);
          [s[0]] + (Without(s[1..], x) + Without(t, x));
          ([s[0]] + Without(s[1..], x)) + Without(t, x);
        }
      }
    }
    forall y | y != x ensures Without([y], x) == [y] {
      assert [y][1..] == [];
    }
    assert [x][1..] == [];
  }

  /** What `List.remove(Object)` does to membership and length. */
  lemma RemoveFirstFacts(s: seq<Id>, x: Id)
    ensures var r := RemoveFirst(s, x);
      && (x !in s ==> r == s)
      && (x in s ==> |r| == |s| - 1)
      && (forall y :: y != x ==> (y in r <==> y in s))
  {
    var r := RemoveFirst(s, x);
    assert |r| == |multiset(r)| && |s| == |multiset(s)|;
    if x !in s {
      RemoveFirstAbsent(s, x);
    }
    forall y | y != x ensures y in r <==> y in s {
      assert y in r <==> y in multiset(r);
      assert y in s <==> y in multiset(s);
    }
  }

  lemma {:induction false} RemoveFirstAbsent(s: seq<Id>, x: Id)
    requires x !in s
    ensures RemoveFirst(s, x) == s
  {
    if s != [] {
      assert s[0] != x && x !in s[1..];
      RemoveFirstAbsent(s[1..], x);
      assert RemoveFirst(s, x) == [s[0]] + RemoveFirst(s[1..], x);
      assert s == [s[0]] + s[1..];
    }
  }

  /** Removing from a duplicate-free list keeps it duplicate-free and leaves no copy of the element. */
  lemma RemoveFirstNoDuplicates(s: seq<Id>, x: Id)
    requires NoDuplicates(s)
    ensures NoDuplicates(RemoveFirst(s, x)) && x !in RemoveFirst(s, x)
  {
    var r := RemoveFirst(s, x);
    assert x in r <==> x in multiset(r);
    forall y | y in multiset(r) ensures multiset(r)[y] == 1 {
      assert y in multiset(s);
    }
  }

  lemma {:induction false} AddIfAbsentIdempotent(s: seq<Id>, x: Id)
    ensures AddIfAbsent(AddIfAbsent(s, x), x) == AddIfAbsent(s, x)
  {
  }

  lemma {:induction false} RemoveFirstAfterAdd(s: seq<Id>, x: Id)
    requires x !in s
    ensures RemoveFirst(AddIfAbsent(s, x), x) == s
  {
    RemoveFirstAppend(s, x);
  }

  lemma {:induction false} RemoveFirstAppend(s: seq<Id>, x: Id)
    requires x !in s
    ensures RemoveFirst(s + [x], x) == s
  {
    if s != [] {
      assert (s + [x])[1..] == s[1..] + [x];
      RemoveFirstAppend(s[1..], x);
    }
  }

  /**
   * `addArtistToTrack` / `addArtistToAlbum` after the lookups: a present artist is
   * rejected, otherwise the artist is appended.
   */
  function AddArtist(artists: seq<Id>, artist: Id): (r: Result<seq<Id>, Failure>)
    ensures r.Err? <==> artist in artists
    ensures r.Err? ==> r.error == IllegalArgument(ArtistAlreadyPresent)
    ensures r.Ok? ==> r.value == artists + [artist]
  {
    if artist in artists then Err(IllegalArgument(ArtistAlreadyPresent)) else Ok(artists + [artist])
  }

  /**
   * `removeArtistFromTrack` / `removeArtistFromAlbum` after the lookups: an absent
   * artist is rejected first, then the creator; otherwise the artist is removed.
   */
  function RemoveArtist(artists: seq<Id>, artist: Id): (r: Result<seq<Id>, Failure>)
    ensures r.Err? <==> artist !in artists || artists[0] == artist
    ensures r.Err? && artist !in artists ==> r.error == IllegalArgument(ArtistNotPresent)
    ensures r.Err? && artist in artists ==> r.error == IllegalArgument(CreatorNotRemovable)
    ensures r.Ok? ==> r.value == RemoveFirst(artists, artist)
  {
    if artist !in artists then Err(IllegalArgument(ArtistNotPresent))
    else if artists[0] == artist then Err(IllegalArgument(CreatorNotRemovable))
    else Ok(RemoveFirst(artists, artist))
  }

  /** An accepted addition keeps the creator, keeps the list duplicate-free and adds exactly one artist. */
  lemma AddArtistKeepsCreator(artists: seq<Id>, artist: Id)
    requires |artists| > 0 && NoDuplicates(artists)
    ensures var r := AddArtist(artists, artist);
      r.Ok? ==> r.value[0] == artists[0] && NoDuplicates(r.value) && multiset(r.value) == multiset(artists) + multiset{artist}
  {
    if artist !in artists {
      assert (artists + [artist])[0] == artists[0];
      assert AddIfAbsent(artists, artist) == artists + [artist];
    }
  }

  /** An accepted removal keeps the creator and the other artists in order, keeps the list duplicate-free and drops exactly `artist`. */
  lemma RemoveArtistKeepsCreator(artists: seq<Id>, artist: Id)
    requires |artists| > 0 && NoDuplicates(artists)
    ensures var r := RemoveArtist(artists, artist);
      r.Ok? ==> && r.value[0] == artists[0] && NoDuplicates(r.value)
                && artist !in r.value && multiset(r.value) == multiset(artists) - multiset{artist}
                && forall y :: y in r.value <==> y in artists && y != artist
    ensures var r := RemoveArtist(artists, artist);
      r.Ok? ==> r.value == artists[..FirstIndex(artists, artist)] + artists[FirstIndex(artists, artist) + 1..]
  {
    if artist in artists {
      RemoveFirstCutsFirst(artists, artist);
    }
    RemoveFirstFacts(artists, artist);
    RemoveFirstNoDuplicates(artists, artist);
  }
}
