/** The older `timeline` command kept under src/: it refreshes the follow
    cache from every contact list the read relay returns, then streams the
    text notes of the followed keys and renders them as JSON or as display
    lines.

    The relay is the one `Config.FindRelay` picks for reading; what it
    answers to a query is `query(url, filter)`, and what its subscription
    streams is `stream(url, filter)`. The wall clock is `now`, the outcome
    of writing the configuration file is `disk`, and JSON decoding of a
    metadata event is `parse`. */
module LegacyTimeline {
  import opened Nostr
  import opened Client

  /** The contact-list query of the legacy refresh: every kind-3 event the
      relay holds, with no author and no limit. */
  function AllContactLists(): Filter {
    Filter([KindContactList], [], [], map[], "", 0)
  }

  /** The subscription of the legacy timeline: up to `n` text notes by the
      followed keys. */
  function NotesBy(follows: seq<string>, n: int): Filter {
    Filter([KindTextNote], follows, [], map[], "", n)
  }

  /** The follow list the legacy refresh builds: the author of each
      contact-list event, in the order the relay returned them. */
  function Authors(evs: seq<Event>): seq<string> {
    if evs == [] then [] else Authors(evs[..|evs| - 1]) + [evs[|evs| - 1].pubkey]
  }

  /** The refresh follows the AUTHORS of the contact lists, one per event,
      and not the `p` tags inside them. */
  lemma {:induction false} AuthorsAreContactAuthors(evs: seq<Event>)
    ensures |Authors(evs)| == |evs|
    ensures forall i :: 0 <= i < |evs| ==> Authors(evs)[i] == evs[i].pubkey
  {
    if evs != [] {
      var init := evs[..|evs| - 1];
      AuthorsAreContactAuthors(init);
      forall i | 0 <= i < |evs|
        ensures Authors(evs)[i] == evs[i].pubkey
      {
        if i < |init| {
          assert Authors(evs)[i] == Authors(init)[i];
        }
      }
    }
  }

  /** The loop that appends `ev.PubKey` for every contact-list event. */
  method CollectAuthors(evs: seq<Event>) returns (follows: seq<string>)
    ensures follows == Authors(evs)
  {
    follows := [];
    var i := 0;
    while i < |evs|
      invariant 0 <= i <= |evs|
      invariant follows == Authors(evs[..i])
    {
      assert evs[..i + 1][..i] == evs[..i];
      follows := follows + [evs[i].pubkey];
      i := i + 1;
    }
    assert evs[..i] == evs;
  }

  /** What the command writes for one streamed event. */
  datatype Output =
    | JsonEvent(ev: Event)                     // the event as JSON
    | JsonExtra(ev: Event, profile: Profile)   // the event with its author's cached profile
    | Line(prefix: string, pubkey: string, content: string)  // "<prefix>: <pubkey>" then the content

  /** The output for one event: with `--json --extra` only events whose
      author has a cached profile, with `--json` every event, otherwise a
      display line led by the cached name or, failing that, the pubkey. */
  function Emit(e: Event, follows: map<string, Profile>, json: bool, extra: bool): seq<Output> {
    if json then
      if extra then
        if e.pubkey in follows then [JsonExtra(e, follows[e.pubkey])] else []
      else [JsonEvent(e)]
    else
      [Line(if e.pubkey in follows then follows[e.pubkey].name else e.pubkey, e.pubkey, e.content)]
  }

  /** The output for the streamed events, in the order they arrive. */
  function Rendered(evs: seq<Event>, follows: map<string, Profile>, json: bool, extra: bool): seq<Output> {
    if evs == [] then []
    else Rendered(evs[..|evs| - 1], follows, json, extra) + Emit(evs[|evs| - 1], follows, json, extra)
  }

  /** In extra-JSON mode an event is written exactly when its author has a
      cached profile, and it is written with that profile. */
  lemma {:induction false} ExtraOnlyCachedAuthors(evs: seq<Event>, follows: map<string, Profile>)
    ensures forall o :: o in Rendered(evs, follows, true, true) ==>
              o.JsonExtra? && o.ev in evs && o.ev.pubkey in follows && o.profile == follows[o.ev.pubkey]
    ensures forall e :: e in evs && e.pubkey in follows ==> JsonExtra(e, follows[e.pubkey]) in Rendered(evs, follows, true, true)
  {
    if evs != [] {
      var init := evs[..|evs| - 1];
      ExtraOnlyCachedAuthors(init, follows);
      assert evs == init + [evs[|evs| - 1]];
    }
  }

  /** Plain JSON mode writes every streamed event, one for one. */
  lemma {:induction false} JsonWritesEveryEvent(evs: seq<Event>, follows: map<string, Profile>)
    ensures |Rendered(evs, follows, true, false)| == |evs|
    ensures forall i :: 0 <= i < |evs| ==> Rendered(evs, follows, true, false)[i] == JsonEvent(evs[i])
  {
    if evs != [] {
      var init := evs[..|evs| - 1];
      JsonWritesEveryEvent(init, follows);
      forall i | 0 <= i < |evs|
        ensures Rendered(evs, follows, true, false)[i] == JsonEvent(evs[i])
      {
        if i < |init| {
          assert Rendered(evs, follows, true, false)[i] == Rendered(init, follows, true, false)[i];
        }
      }
    }
  }

  /** Display mode writes one line per event, led by the cached profile's
      name when the author is cached and by the raw pubkey otherwise. */
  lemma {:induction false} LinesNameCachedAuthors(evs: seq<Event>, follows: map<string, Profile>)
    ensures |Rendered(evs, follows, false, false)| == |evs|
    ensures forall i :: 0 <= i < |evs| ==>
              Rendered(evs, follows, false, false)[i].Line?
              && Rendered(evs, follows, false, false)[i].pubkey == evs[i].pubkey
              && Rendered(evs, follows, false, false)[i].content == evs[i].content
              && (evs[i].pubkey in follows ==> Rendered(evs, follows, false, false)[i].prefix == follows[evs[i].pubkey].name)
              && (evs[i].pubkey !in follows ==> Rendered(evs, follows, false, false)[i].prefix == evs[i].pubkey)
  {
    if evs != [] {
      var init := evs[..|evs| - 1];
      LinesNameCachedAuthors(init, follows);
      forall i | 0 <= i < |evs|
        ensures Rendered(evs, follows, false, false)[i] == Emit(evs[i], follows, false, false)[0]
      {
        if i < |init| {
          assert Rendered(evs, follows, false, false)[i] == Rendered(init, follows, false, false)[i];
        }
      }
    }
  }

  /** The two loops over `sub.Events`. */
  method Render(evs: seq<Event>, follows: map<string, Profile>, json: bool, extra: bool) returns (out: seq<Output>)
    ensures out == Rendered(evs, follows, json, extra)
  {
    out := [];
    var i := 0;
    while i < |evs|
      invariant 0 <= i <= |evs|
      invariant out == Rendered(evs[..i], follows, json, extra)
    {
      assert evs[..i + 1][..i] == evs[..i];
      var ev := evs[i];
      if json {
        if extra {
          if ev.pubkey in follows {
            out := out + [JsonExtra(ev, follows[ev.pubkey])];
          }
        } else {
          out := out + [JsonEvent(ev)];
        }
      } else if ev.pubkey in follows {
        out := out + [Line(follows[ev.pubkey].name, ev.pubkey, ev.content)];
      } else {
        out := out + [Line(ev.pubkey, ev.pubkey, ev.content)];
      }
      i := i + 1;
    }
    assert evs[..i] == evs;
  }

  /** The cache a refresh rebuilds: the profiles parsed from the followed
      keys' metadata, or nothing when no contact list was found. */
  function RebuiltCache(authors: seq<string>, metadata: seq<Event>, parse: string -> Option<Profile>): map<string, Profile> {
    if |authors| > 0 then ProfilesFrom(metadata, parse) else map[]
  }

  /** The refresh branch of `doTimeline`: reset the cache, follow the
      author of every contact list, cache the parsed metadata of those
      authors, stamp the cache with `now` and save the configuration. */
  method RefreshFollows(cfg: Config, u: string, profile: string, now: int,
                        query: (string, Filter) -> seq<Event>, parse: string -> Option<Profile>,
                        disk: Option<Error>)
    returns (follows: seq<string>, err: Option<Error>)
    modifies cfg`follows, cfg`updated, cfg`written
    ensures follows == Authors(query(u, AllContactLists()))
    ensures cfg.follows == RebuiltCache(follows, query(u, MetadataFilter(follows)), parse)
    ensures cfg.updated == now
    ensures cfg.tempRelay ==> err.None? && cfg.written == old(cfg.written)
    ensures !cfg.tempRelay ==> err == disk
    ensures !cfg.tempRelay && disk.None? ==> cfg.written == old(cfg.written) + [ConfigFileName(profile)]
    ensures !cfg.tempRelay && disk.Some? ==> cfg.written == old(cfg.written)
  {
    cfg.follows := map[];
    follows := CollectAuthors(query(u, AllContactLists()));
    if |follows| > 0 {
      var evs := query(u, MetadataFilter(follows));
      var i := 0;
      while i < |evs|
        invariant 0 <= i <= |evs|
        invariant cfg.follows == ProfilesFrom(evs[..i], parse)
        invariant cfg.written == old(cfg.written)
      {
        assert evs[..i + 1][..i] == evs[..i];
        var p := parse(evs[i].content);
        if p.Some? {
          cfg.follows := cfg.follows[evs[i].pubkey := p.value];
        }
        i := i + 1;
      }
      assert evs[..i] == evs;
    }
    cfg.updated := now;
    err := cfg.Save(profile, disk);
  }

  /** `doTimeline` of src/timeline.go. It returns the relay it read from
      (none when no read relay connects) and the rendered output, or the
      error: "cannot connect relays", or that of saving the refreshed
      configuration. */
  method DoTimeline(cfg: Config, profile: string, n: int, json: bool, extra: bool, now: int,
                    order: seq<string>, connects: string -> bool, cacheOrder: seq<string>,
                    query: (string, Filter) -> seq<Event>, stream: (string, Filter) -> seq<Event>,
                    parse: string -> Option<Profile>, disk: Option<Error>)
    returns (relay: Option<string>, r: Result<seq<Output>>)
    requires Enumerates(order, cfg.relays)
    requires Enumerates(cacheOrder, cfg.follows)
    modifies cfg`follows, cfg`updated, cfg`written
    ensures relay.None? <==> forall u :: u in cfg.relays && Candidate(ReadRequest, cfg.relays[u], cfg.tempRelay) ==> !connects(u)
    ensures relay.Some? ==> relay.value in cfg.relays && Candidate(ReadRequest, cfg.relays[relay.value], cfg.tempRelay)
                            && connects(relay.value)
    ensures relay.None? ==> r == Fail(CannotConnect) && cfg.follows == old(cfg.follows)
                            && cfg.updated == old(cfg.updated) && cfg.written == old(cfg.written)
    ensures relay.Some? && !NeedsRefresh(old(cfg.updated), now, |old(cfg.follows)|) ==>
              cfg.follows == old(cfg.follows) && cfg.updated == old(cfg.updated) && cfg.written == old(cfg.written)
              && r == Ok(Rendered(stream(relay.value, NotesBy(cacheOrder, n)), cfg.follows, json, extra))
    ensures relay.Some? && NeedsRefresh(old(cfg.updated), now, |old(cfg.follows)|) ==>
              cfg.follows == RebuiltCache(Authors(query(relay.value, AllContactLists())),
                                          query(relay.value, MetadataFilter(Authors(query(relay.value, AllContactLists())))), parse)
              && cfg.updated == now
              && (cfg.tempRelay ==> cfg.written == old(cfg.written))
              && (!cfg.tempRelay && disk.None? ==> cfg.written == old(cfg.written) + [ConfigFileName(profile)])
              && (!cfg.tempRelay && disk.Some? ==> cfg.written == old(cfg.written) && r == Fail(disk.value))
              && (cfg.tempRelay || disk.None? ==>
                    r == Ok(Rendered(stream(relay.value, NotesBy(Authors(query(relay.value, AllContactLists())), n)),
                                     cfg.follows, json, extra)))
  {
    relay := cfg.FindRelay(ReadRequest, order, connects);
    if relay.None? {
      return relay, Fail(CannotConnect);
    }
    ghost var i0 :| 0 <= i0 < |order| && order[i0] == relay.value
                    && Candidate(ReadRequest, cfg.relays[relay.value], cfg.tempRelay) && connects(relay.value);
    var u := relay.value;

    var follows: seq<string> := [];
    if cfg.updated + FollowCacheLifetime < now || |cfg.follows| == 0 {
      var err;
      follows, err := RefreshFollows(cfg, u, profile, now, query, parse, disk);
      if err.Some? {
        return relay, Fail(err.value);
      }
    } else {
      var k := 0;
      while k < |cacheOrder|
        invariant 0 <= k <= |cacheOrder|
        invariant follows == cacheOrder[..k]
      {
        follows := follows + [cacheOrder[k]];
        k := k + 1;
      }
      assert cacheOrder[..k] == cacheOrder;
    }

    var out := Render(stream(u, NotesBy(follows, n)), cfg.follows, json, extra);
    return relay, Ok(out);
  }
}
