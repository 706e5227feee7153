/** The platform selection of the compose form (CreatePost.handlePlatformToggle):
    clicking a platform removes it when it is selected and appends it when it
    is not. */
module Selection {
  import opened Domain

  /** `platforms.filter(q => q !== p)`: every occurrence of `p` removed, the
      other entries kept with their multiplicities. */
  function RemoveAll(platforms: seq<Platform>, p: Platform): (r: seq<Platform>)
    ensures p !in r
    ensures forall q :: q != p ==> multiset(r)[q] == multiset(platforms)[q]
    ensures |r| <= |platforms|
  {
    if platforms == [] then []
    else
      assert platforms == [platforms[0]] + platforms[1..];
      if platforms[0] == p then RemoveAll(platforms[1..], p)
      else [platforms[0]] + RemoveAll(platforms[1..], p)
  }

  /** The new selection after clicking `p`. */
  function Toggle(platforms: seq<Platform>, p: Platform): (r: seq<Platform>)
    ensures p in r <==> p !in platforms
    ensures p !in platforms ==> r == platforms + [p]
    ensures p in platforms ==> r == RemoveAll(platforms, p)
    ensures forall q :: q != p ==> multiset(r)[q] == multiset(platforms)[q]
  {
    if p in platforms then RemoveAll(platforms, p) else platforms + [p]
  }

  /** No platform is selected twice. */
  predicate NoDuplicates(platforms: seq<Platform>) {
    forall i, j :: 0 <= i < j < |platforms| ==> platforms[i] != platforms[j]
  }

  /** Removal keeps the order of what remains: it distributes over concatenation. */
  lemma {:induction false} RemoveAllAppend(a: seq<Platform>, b: seq<Platform>, p: Platform)
    ensures RemoveAll(a + b, p) == RemoveAll(a, p) + RemoveAll(b, p)
  {
    if a == [] {
      assert a + b == b;
    } else {
      assert (a + b)[0] == a[0];
      assert (a + b)[1..] == a[1..] + b;
      RemoveAllAppend(a[1..], b, p);
    }
  }

  /** Removing a platform that is not there changes nothing. */
  lemma {:induction false} RemoveAllAbsent(platforms: seq<Platform>, p: Platform)
    requires p !in platforms
    ensures RemoveAll(platforms, p) == platforms
  {
    if platforms != [] {
      assert platforms == [platforms[0]] + platforms[1..];
      RemoveAllAbsent(platforms[1..], p);
    }
  }

  /** Clicking a platform that is not selected twice gives back the selection
      exactly, order included. */
  lemma ToggleTwiceRestores(platforms: seq<Platform>, p: Platform)
    requires p !in platforms
    ensures Toggle(Toggle(platforms, p), p) == platforms
  {
    RemoveAllAppend(platforms, [p], p);
    RemoveAllAbsent(platforms, p);
    assert RemoveAll([p], p) == [];
  }

  /** A removal keeps a selection free of duplicates. */
  lemma {:induction false} RemoveAllNoDuplicates(platforms: seq<Platform>, p: Platform)
    requires NoDuplicates(platforms)
    ensures NoDuplicates(RemoveAll(platforms, p))
  {
    if platforms != [] {
      RemoveAllNoDuplicates(platforms[1..], p);
      if platforms[0] != p {
        var rest := RemoveAll(platforms[1..], p);
        assert platforms[0] !in platforms[1..];
        assert multiset(rest)[platforms[0]] == 0;
        assert platforms[0] !in rest;
      }
    }
  }

  /** Toggling keeps a selection free of duplicates, so a selection built by
      clicks alone never names a platform twice. */
  lemma ToggleNoDuplicates(platforms: seq<Platform>, p: Platform)
    requires NoDuplicates(platforms)
    ensures NoDuplicates(Toggle(platforms, p))
  {
    if p in platforms {
      RemoveAllNoDuplicates(platforms, p);
    }
  }
}
