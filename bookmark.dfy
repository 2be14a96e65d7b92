/** Bookmarks (bookmark.go): listing the notes of the user's NIP-51
    bookmark list. Adding a bookmark is not implemented in the client. */
module Bookmarks {
  import opened Nostr

  /** The user's bookmark lists: kind 30001 with `d` = "bookmark". */
  function BookmarkFilter(pub: string, n: int): Filter {
    Filter([KindCategorizedBookmarksList], [pub], [], map["d" := ["bookmark"]], "", n)
  }

  /** An `e` tag with at least one value. */
  predicate IsETag(t: Tag) {
    |t| > 1 && t[0] == "e"
  }

  /** What a tag list contributes: every element after the name of each
      `e` tag, relay hints included, in order. */
  function ETagValues(tags: seq<Tag>): seq<string> {
    if tags == [] then []
    else ETagValues(tags[..|tags| - 1]) + (if IsETag(tags[|tags| - 1]) then tags[|tags| - 1][1..] else [])
  }

  /** The ids `doBMList` collects from the lists. */
  function BookmarkIds(evs: seq<Event>): seq<string> {
    if evs == [] then []
    else BookmarkIds(evs[..|evs| - 1]) + ETagValues(evs[|evs| - 1].tags)
  }

  /** Collecting distributes over concatenation: each tag contributes on
      its own. */
  lemma {:induction false} ETagValuesAppend(a: seq<Tag>, b: seq<Tag>)
    ensures ETagValues(a + b) == ETagValues(a) + ETagValues(b)
  {
    if b == [] {
      assert a + b == a;
    } else {
      assert (a + b)[..|a + b| - 1] == a + b[..|b| - 1];
      assert (a + b)[|a + b| - 1] == b[|b| - 1];
      ETagValuesAppend(a, b[..|b| - 1]);
    }
  }

  /** A tag that is not an `e` tag with a value contributes nothing. */
  lemma OtherTagsContributeNothing(tags: seq<Tag>, t: Tag)
    requires !IsETag(t)
    ensures ETagValues(tags + [t]) == ETagValues(tags)
  {
    assert (tags + [t])[..|tags|] == tags;
  }

  /** An id is collected exactly when some `e` tag of some list holds it
      after its name. */
  lemma {:induction false} ETagValuesMembers(tags: seq<Tag>, x: string)
    ensures x in ETagValues(tags) <==>
              exists j, k :: 0 <= j < |tags| && IsETag(tags[j]) && 1 <= k < |tags[j]| && tags[j][k] == x
  {
    if tags != [] {
      var init := tags[..|tags| - 1];
      var t := tags[|tags| - 1];
      ETagValuesMembers(init, x);
      if x in ETagValues(tags) {
        if x in ETagValues(init) {
          var j, k :| 0 <= j < |init| && IsETag(init[j]) && 1 <= k < |init[j]| && init[j][k] == x;
          assert tags[j] == init[j];
        } else {
          var k :| 0 <= k < |t[1..]| && t[1..][k] == x;
          assert tags[|tags| - 1][k + 1] == x;
        }
      }
      if exists j, k :: 0 <= j < |tags| && IsETag(tags[j]) && 1 <= k < |tags[j]| && tags[j][k] == x {
        var j, k :| 0 <= j < |tags| && IsETag(tags[j]) && 1 <= k < |tags[j]| && tags[j][k] == x;
        if j < |init| {
          assert init[j] == tags[j];
        } else {
          assert t[1..][k - 1] == x;
        }
      }
    }
  }

  /** The nested loop of `doBMList`. */
  method CollectBookmarkIds(evs: seq<Event>) returns (be: seq<string>)
    ensures be == BookmarkIds(evs)
  {
    be := [];
    for i := 0 to |evs|
      invariant be == BookmarkIds(evs[..i])
    {
      assert evs[..i + 1][..i] == evs[..i];
      ghost var before := be;
      var tags := evs[i].tags;
      for j := 0 to |tags|
        invariant be == before + ETagValues(tags[..j])
      {
        assert tags[..j + 1][..j] == tags[..j];
        var tag := tags[j];
        if |tag| > 1 && tag[0] == "e" {
          be := be + tag[1..];
        }
      }
      assert tags[..|tags|] == tags;
    }
    assert evs[..|evs|] == evs;
  }

  /** The notes query: text notes with the collected ids. */
  function BookmarkedNotes(ids: seq<string>): Filter {
    Filter([KindTextNote], [], ids, map[], "", 0)
  }

  /** `doBMList`: keys, the bookmark lists, then the bookmarked notes;
      either query's error is returned unchanged. */
  method BookmarkList(privateKey: string, kc: KeyCodec, n: int, query: seq<Filter> -> Result<seq<Event>>)
    returns (r: Result<seq<Event>>)
    ensures OwnKeys(privateKey, kc).Fail? ==> r == Fail(OwnKeys(privateKey, kc).error)
    ensures OwnKeys(privateKey, kc).Ok? ==>
              var lists := query([BookmarkFilter(OwnKeys(privateKey, kc).value.pub, n)]);
              && (lists.Fail? ==> r == lists)
              && (lists.Ok? ==> r == query([BookmarkedNotes(BookmarkIds(lists.value))]))
  {
    var keys := OwnKeys(privateKey, kc);
    if keys.Fail? {
      return Fail(keys.error);
    }
    var lists := query([BookmarkFilter(keys.value.pub, n)]);
    if lists.Fail? {
      return Fail(lists.error);
    }
    var be := CollectBookmarkIds(lists.value);
    var notes := query([BookmarkedNotes(be)]);
    if notes.Fail? {
      return Fail(notes.error);
    }
    return notes;
  }

  /** `doBMPost`. */
  method BookmarkPost() returns (err: Option<Error>)
    ensures err == Some(NotImplemented)
  {
    return Some(NotImplemented);
  }
}
