/** The configuration object of main.go and the decisions built on it: which
    relays a call may use, NIP-04 direct-message decoding, the multi-relay
    query that deduplicates and sorts events, the follow cache with its
    3-hour refresh, the per-profile configuration file and the `--relays`
    session override.

    Relay connections and queries are parameters: `connects(url)` says
    whether `nostr.RelayConnect` succeeds, and a query function gives what a
    relay answers to a filter. Go's `range` over the relay map visits each
    key once in an order the program does not choose; that order is the
    parameter `order`, and nothing proved here depends on it except where a
    contract says "first in iteration order". */
module Client {
  import opened Nostr
  import opened Text
  import opened Ordering

  /** A configured relay and what it may be used for. main.go reads the
      first three flags; the newer command files also read `dm` and
      `global`. */
  datatype Relay = Relay(read: bool, write: bool, search: bool, dm: bool, global: bool)

  /** The request the reading commands hand to `FindRelay`. */
  const ReadRequest := Relay(true, false, false, false, false)

  /** The NIP-04 collaborators: `nip04.ComputeSharedSecret(counterparty, sk)`
      and `nip04.Decrypt(ciphertext, secret)`. */
  datatype Nip04 = Nip04(
    sharedSecret: (string, string) -> Result<string>,
    decrypt: (string, string) -> Result<string>)

  /** Seconds after which the follow cache is refreshed (3 hours). */
  const FollowCacheLifetime := 3 * 60 * 60

  /** `order` lists every key of `m` exactly once: how Go's `range` visits a map. */
  ghost predicate Enumerates<V>(order: seq<string>, m: map<string, V>) {
    Distinct(order) && forall k :: k in m <==> k in order
  }

  /** `Config.Do`'s filter: a relay serves a request unless the request
      writes and the relay does not, the request searches and the relay does
      not, or the request reads and the relay does not. */
  predicate Serves(req: Relay, v: Relay) {
    (!req.write || v.write) && (!req.search || v.search) && (req.write || v.read)
  }

  /** The relays `Config.Do` runs its callback on, in iteration order. */
  function Used(order: seq<string>, relays: map<string, Relay>, req: Relay, connects: string -> bool): seq<string>
    requires forall u :: u in order ==> u in relays
  {
    if order == [] then []
    else
      var u := order[|order| - 1];
      Used(order[..|order| - 1], relays, req, connects) + (if Serves(req, relays[u]) && connects(u) then [u] else [])
  }

  /** `Do` reaches exactly the configured relays that serve the request and
      connect, each once. */
  lemma {:induction false} UsedExactly(order: seq<string>, relays: map<string, Relay>, req: Relay, connects: string -> bool)
    requires forall u :: u in order ==> u in relays
    requires Distinct(order)
    ensures Distinct(Used(order, relays, req, connects))
    ensures forall u :: u in Used(order, relays, req, connects) <==> u in order && Serves(req, relays[u]) && connects(u)
  {
    if order != [] {
      var init := order[..|order| - 1];
      assert forall u :: u in init ==> u in order;
      UsedExactly(init, relays, req, connects);
      assert order == init + [order[|order| - 1]];
    }
  }

  /** `Config.FindRelay`'s filter: as `Serves`, except that the search
      requirement is dropped while a `--relays` override is in force. */
  predicate Candidate(req: Relay, v: Relay, tempRelay: bool) {
    (!req.write || v.write) && (tempRelay || !req.search || v.search) && (req.write || v.read)
  }

  lemma CandidateIsServesWithoutOverride(req: Relay, v: Relay)
    ensures Candidate(req, v, false) == Serves(req, v)
    ensures Candidate(req, v, true) == Serves(req.(search := false), v)
  {
  }

  // ---------------------------------------------------------------------
  // NIP-04 decoding (Config.Decode)

  /** Whose key the shared secret is derived from, given the user's public
      key `pub`, the event's author and the value `sp` of its first `p` tag.
      An event the user neither wrote nor received, and one the user sent to
      themself, are refused with "is not author". */
  function Counterparty(pub: string, author: string, sp: string): (r: Result<string>)
    ensures r.Fail? ==> r.error == NotAuthor
    ensures r.Fail? <==> (sp != pub && author != pub) || (sp == pub && author == pub)
    ensures r.Ok? ==> r.value != pub
  {
    if sp != pub then
      if author != pub then Fail(NotAuthor) else Ok(sp)
    else
      if sp == author then Fail(NotAuthor) else Ok(author)
  }

  /** The two sides of a decodable message are the user and the
      counterparty, and they are exactly the author and the recipient: a
      message from Y to X is read by X with Y's key, never with X's own. */
  lemma CounterpartyIsTheOtherSide(pub: string, author: string, sp: string)
    requires Counterparty(pub, author, sp).Ok?
    ensures {pub, Counterparty(pub, author, sp).value} == {author, sp}
    ensures author != sp
  {
  }

  /** What `Config.Decode(ev)` leaves behind: the event after the call and
      the error it returned. */
  datatype Decoded = Decoded(ev: Event, err: Option<Error>)

  /** `Config.Decode`: derive the user's keys, resolve the counterparty,
      compute the shared secret, decrypt; the content is overwritten only
      when every step succeeded. An event without a `p` tag makes Go panic
      (main.go:240); here its `p` value reads as "". */
  function Decode(ev: Event, privateKey: string, kc: KeyCodec, n4: Nip04): (r: Decoded)
    ensures r.ev.(content := ev.content) == ev
    ensures r.err.Some? ==> r.ev == ev
    ensures r.err.None? <==>
      && OwnKeys(privateKey, kc).Ok?
      && var keys := OwnKeys(privateKey, kc).value;
      && var cp := Counterparty(keys.pub, ev.pubkey, FirstTagValue(ev.tags, "p"));
      && cp.Ok?
      && n4.sharedSecret(cp.value, keys.sk).Ok?
      && n4.decrypt(ev.content, n4.sharedSecret(cp.value, keys.sk).value).Ok?
    ensures r.err.None? ==>
      var keys := OwnKeys(privateKey, kc).value;
      var cp := Counterparty(keys.pub, ev.pubkey, FirstTagValue(ev.tags, "p")).value;
      r.ev.content == n4.decrypt(ev.content, n4.sharedSecret(cp, keys.sk).value).value
  {
    match OwnKeys(privateKey, kc)
    case Fail(e) => Decoded(ev, Some(e))
    case Ok(keys) =>
      match Counterparty(keys.pub, ev.pubkey, FirstTagValue(ev.tags, "p"))
      case Fail(e) => Decoded(ev, Some(e))
      case Ok(sp) =>
        match n4.sharedSecret(sp, keys.sk)
        case Fail(e) => Decoded(ev, Some(e))
        case Ok(ss) =>
          match n4.decrypt(ev.content, ss)
          case Fail(e) => Decoded(ev, Some(e))
          case Ok(content) => Decoded(ev.(content := content), None)
  }

  // ---------------------------------------------------------------------
  // Aggregation over relays (Config.Events)

  /** What one relay contributes: nothing when the connection fails. */
  function Answer(url: string, query: (string, Filter) -> Option<seq<Event>>, filter: Filter): seq<Event> {
    match query(url, filter)
    case None => []
    case Some(evs) => evs
  }

  /** Every relay's answer, one relay after the other, in iteration order. */
  function Gathered(order: seq<string>, query: (string, Filter) -> Option<seq<Event>>, filter: Filter): seq<Event> {
    if order == [] then []
    else Gathered(order[..|order| - 1], query, filter) + Answer(order[|order| - 1], query, filter)
  }

  /** An event is in the gathered stream exactly when some configured relay
      that could be reached returned it. */
  lemma {:induction false} GatheredFrom(order: seq<string>, query: (string, Filter) -> Option<seq<Event>>, filter: Filter, e: Event)
    ensures e in Gathered(order, query, filter) <==>
            exists i :: 0 <= i < |order| && query(order[i], filter).Some? && e in query(order[i], filter).value
  {
    if order != [] {
      var init := order[..|order| - 1];
      GatheredFrom(init, query, filter, e);
      assert forall i :: 0 <= i < |init| ==> init[i] == order[i];
    }
  }

  /** What the loop body does with one event before `LoadOrStore`: kind-4
      events go through `Decode` and are dropped when it fails; every other
      kind is kept as it is. */
  function Accept(e: Event, privateKey: string, kc: KeyCodec, n4: Nip04): (r: Option<Event>)
    ensures r.Some? ==> r.value.id == e.id
    ensures e.kind != KindEncryptedDirectMessage ==> r == Some(e)
  {
    if e.kind == KindEncryptedDirectMessage then
      var d := Decode(e, privateKey, kc, n4);
      if d.err.None? then Some(d.ev) else None
    else Some(e)
  }

  /** The id-keyed map after feeding it the stream `s`: `LoadOrStore` keeps
      the first value stored under an id. */
  function Stored(s: seq<Event>, privateKey: string, kc: KeyCodec, n4: Nip04): (m: map<string, Event>)
    ensures forall k :: k in m ==> m[k].id == k
  {
    if s == [] then map[]
    else
      var m := Stored(s[..|s| - 1], privateKey, kc, n4);
      var e := s[|s| - 1];
      match Accept(e, privateKey, kc, n4)
      case None => m
      case Some(d) => if e.id in m then m else m[e.id := d]
  }

  /** An id is stored exactly when some event carrying it was accepted, and
      the value stored is the accepted form of the FIRST such event. */
  lemma {:induction false} StoredIsFirstAccepted(s: seq<Event>, privateKey: string, kc: KeyCodec, n4: Nip04, k: string)
    ensures k in Stored(s, privateKey, kc, n4) <==>
            exists i :: 0 <= i < |s| && s[i].id == k && Accept(s[i], privateKey, kc, n4).Some?
    ensures k in Stored(s, privateKey, kc, n4) ==>
            exists i :: 0 <= i < |s| && s[i].id == k
                        && Accept(s[i], privateKey, kc, n4) == Some(Stored(s, privateKey, kc, n4)[k])
                        && forall j :: 0 <= j < i ==> !(s[j].id == k && Accept(s[j], privateKey, kc, n4).Some?)
  {
    if s != [] {
      var init := s[..|s| - 1];
      StoredIsFirstAccepted(init, privateKey, kc, n4, k);
      assert forall i :: 0 <= i < |init| ==> init[i] == s[i];
    }
  }

  /** A kind-4 event whose every copy fails to decode is absent. */
  lemma UndecodableIsDropped(s: seq<Event>, privateKey: string, kc: KeyCodec, n4: Nip04, k: string)
    requires forall i :: 0 <= i < |s| && s[i].id == k ==>
               s[i].kind == KindEncryptedDirectMessage && Decode(s[i], privateKey, kc, n4).err.Some?
    ensures k !in Stored(s, privateKey, kc, n4)
  {
    StoredIsFirstAccepted(s, privateKey, kc, n4, k);
  }

  /** Two relays answering with the same events in some order, overlapping
      or not, never yield an id twice, and every event of another kind than
      4 comes out unchanged. */
  lemma PlainEventsAreKept(s: seq<Event>, privateKey: string, kc: KeyCodec, n4: Nip04, i: nat)
    requires i < |s| && s[i].kind != KindEncryptedDirectMessage
    ensures s[i].id in Stored(s, privateKey, kc, n4)
  {
    StoredIsFirstAccepted(s, privateKey, kc, n4, s[i].id);
  }

  // ---------------------------------------------------------------------
  // The follow cache (GetFollows)

  /** The cache is stale 3 hours after the last refresh, or when empty. */
  predicate NeedsRefresh(updated: int, now: int, cached: nat) {
    updated + FollowCacheLifetime < now || cached == 0
  }

  /** The followed keys of a contact list: `tag[1]` of every tag with at
      least two elements named "p", event by event, tag by tag. */
  function FollowKeys(evs: seq<Event>): seq<string> {
    if evs == [] then []
    else FollowKeys(evs[..|evs| - 1]) + PTagValues(evs[|evs| - 1].tags)
  }

  function PTagValues(tags: seq<Tag>): seq<string> {
    if tags == [] then []
    else PTagValues(tags[..|tags| - 1]) + (if IsPTag(tags[|tags| - 1]) then [tags[|tags| - 1][1]] else [])
  }

  predicate IsPTag(t: Tag) {
    |t| >= 2 && t[0] == "p"
  }

  lemma {:induction false} PTagValuesSpec(tags: seq<Tag>, x: string)
    ensures x in PTagValues(tags) <==> exists j :: 0 <= j < |tags| && IsPTag(tags[j]) && tags[j][1] == x
  {
    if tags != [] {
      var init := tags[..|tags| - 1];
      PTagValuesSpec(init, x);
      assert forall j :: 0 <= j < |init| ==> init[j] == tags[j];
    }
  }

  /** A key is followed exactly when some contact-list event has a `p` tag
      naming it. */
  lemma {:induction false} FollowKeysSpec(evs: seq<Event>, x: string)
    ensures x in FollowKeys(evs) <==>
            exists i, j :: 0 <= i < |evs| && 0 <= j < |evs[i].tags| && IsPTag(evs[i].tags[j]) && evs[i].tags[j][1] == x
  {
    if evs != [] {
      var init := evs[..|evs| - 1];
      FollowKeysSpec(init, x);
      PTagValuesSpec(evs[|evs| - 1].tags, x);
      assert forall i :: 0 <= i < |init| ==> init[i] == evs[i];
    }
  }

  /** The follow map rebuilt from metadata events: each event whose content
      parses stores its profile under its author, a later one overwriting an
      earlier one. */
  function ProfilesFrom(evs: seq<Event>, parse: string -> Option<Profile>): map<string, Profile> {
    if evs == [] then map[]
    else
      var m := ProfilesFrom(evs[..|evs| - 1], parse);
      var e := evs[|evs| - 1];
      match parse(e.content)
      case None => m
      case Some(p) => m[e.pubkey := p]
  }

  /** A key is in the rebuilt map exactly when some metadata event by it
      parses, and it maps to the profile of the LAST such event. */
  lemma {:induction false} ProfilesFromIsLastParsed(evs: seq<Event>, parse: string -> Option<Profile>, k: string)
    ensures k in ProfilesFrom(evs, parse) <==>
            exists i :: 0 <= i < |evs| && evs[i].pubkey == k && parse(evs[i].content).Some?
    ensures k in ProfilesFrom(evs, parse) ==>
            exists i :: 0 <= i < |evs| && evs[i].pubkey == k && parse(evs[i].content) == Some(ProfilesFrom(evs, parse)[k])
                        && forall j :: i < j < |evs| ==> !(evs[j].pubkey == k && parse(evs[j].content).Some?)
  {
    if evs != [] {
      var init := evs[..|evs| - 1];
      ProfilesFromIsLastParsed(init, parse, k);
      assert forall i :: 0 <= i < |init| ==> init[i] == evs[i];
    }
  }

  /** The contact-list query GetFollows sends: the user's own latest list. */
  function ContactListFilter(pub: string): Filter {
    Filter([KindContactList], [pub], [], map[], "", 1)
  }

  /** The metadata query GetFollows sends for the followed keys. */
  function MetadataFilter(authors: seq<string>): Filter {
    Filter([KindProfileMetadata], authors, [], map[], "", 0)
  }

  // ---------------------------------------------------------------------
  // Configuration files

  /** The configuration file of a named profile ("" is the default one). */
  function ConfigFileName(profile: string): string {
    if profile == "" then "config.json" else "config-" + profile + ".json"
  }

  /** `-a ?` lists profiles from the names of the `config-*.json` files as
      `strings.TrimLeft(name[6:len(name)-5], "-")`. Go panics on a name
      shorter than 11 bytes; the glob only yields longer ones. */
  function ListedProfile(name: string): string
    requires |name| >= 11
  {
    TrimLeftChar(name[6..|name| - 5], '-')
  }

  /** Listing recovers a named profile from its file name, unless the name
      starts with '-'. (The default profile's "config.json" does not match
      the `config-*.json` glob and is never listed.) */
  lemma ListedProfileRoundTrip(profile: string)
    requires profile != "" && profile[0] != '-'
    ensures |ConfigFileName(profile)| >= 11
    ensures ListedProfile(ConfigFileName(profile)) == profile
  {
    var name := ConfigFileName(profile);
    assert name[6..|name| - 5] == "-" + profile;
    assert TrimLeftChar("-" + profile, '-') == TrimLeftChar(profile, '-') by {
      assert ("-" + profile)[1..] == profile;
    }
  }

  /** As written, a profile whose name starts with '-' is listed under
      another name: "-work" is listed as "work", whose file does not exist. */
  lemma ListedProfileLosesLeadingDash()
    ensures ListedProfile(ConfigFileName("-work")) == "work"
  {
    var name := ConfigFileName("-work");
    assert name == "config-" + "-work" + ".json";
    assert |name| == 17;
    var mid := name[6..12];
    assert mid == "--work";
    assert mid[0] == '-' && mid[1..] == "-work";
    assert mid[1..][0] == '-' && mid[1..][1..] == "work";
    assert TrimLeftChar(mid, '-') == TrimLeftChar(mid[1..], '-');
    assert TrimLeftChar(mid[1..], '-') == TrimLeftChar(mid[1..][1..], '-');
    assert "work"[0] == 'w';
  }

  /** The evidently intended listing: strip the whole `config-` prefix and
      the `.json` suffix, and nothing more. */
  function ListedProfileExact(name: string): string
    requires |name| >= 12
  {
    name[7..|name| - 5]
  }

  lemma ListedProfileExactRoundTrip(profile: string)
    requires profile != ""
    ensures |ConfigFileName(profile)| >= 12
    ensures ListedProfileExact(ConfigFileName(profile)) == profile
  {
    var name := ConfigFileName(profile);
    assert name == "config-" + profile + ".json";
    assert name[7..|name| - 5] == profile;
  }

  /** The inner loop of `Config.Events`: one relay's answer fed to the
      id-keyed map. */
  method StoreBatch(m0: map<string, Event>, ghost before: seq<Event>, batch: seq<Event>,
                    privateKey: string, kc: KeyCodec, n4: Nip04) returns (m: map<string, Event>)
    requires m0 == Stored(before, privateKey, kc, n4)
    ensures m == Stored(before + batch, privateKey, kc, n4)
  {
    m := m0;
    var j := 0;
    assert before + batch[..0] == before;
    while j < |batch|
      invariant 0 <= j <= |batch|
      invariant m == Stored(before + batch[..j], privateKey, kc, n4)
    {
      var ev := batch[j];
      ghost var s := before + batch[..j + 1];
      assert s[..|s| - 1] == before + batch[..j] && s[|s| - 1] == ev;
      ghost var accepted := Accept(ev, privateKey, kc, n4);
      var keep := true;
      if ev.kind == KindEncryptedDirectMessage {
        var d := Decode(ev, privateKey, kc, n4);
        if d.err.Some? {
          keep := false;
        } else {
          ev := d.ev;
        }
      }
      assert keep ==> accepted == Some(ev);
      assert !keep ==> accepted == None;
      assert Stored(s, privateKey, kc, n4)
             == match accepted
                case None => m
                case Some(d) => if batch[j].id in m then m else m[batch[j].id := d];
      if keep && ev.id !in m {
        m := m[ev.id := ev];
      }
      j := j + 1;
    }
    assert batch[..j] == batch;
  }

  /** The outer loop of `Config.Events`: every relay queried in turn. */
  method Collect(filter: Filter, order: seq<string>, query: (string, Filter) -> Option<seq<Event>>,
                 privateKey: string, kc: KeyCodec, n4: Nip04) returns (m: map<string, Event>)
    ensures m == Stored(Gathered(order, query, filter), privateKey, kc, n4)
  {
    m := map[];
    var i := 0;
    while i < |order|
      invariant 0 <= i <= |order|
      invariant m == Stored(Gathered(order[..i], query, filter), privateKey, kc, n4)
    {
      assert order[..i + 1][..i] == order[..i];
      m := StoreBatch(m, Gathered(order[..i], query, filter), Answer(order[i], query, filter), privateKey, kc, n4);
      i := i + 1;
    }
    assert order[..i] == order;
  }

  /** `m.Range` appending every stored event: each value once, in some order. */
  method Values(m: map<string, Event>) returns (vals: seq<Event>)
    requires forall k :: k in m ==> m[k].id == k
    ensures |vals| == |m|
    ensures Distinct(vals)
    ensures forall t :: 0 <= t < |vals| ==> vals[t].id in m && m[vals[t].id] == vals[t]
    ensures forall k :: k in m ==> m[k] in vals
  {
    var rest := m.Keys;
    vals := [];
    while rest != {}
      invariant rest <= m.Keys
      invariant |rest| + |vals| == |m.Keys|
      invariant forall t :: 0 <= t < |vals| ==> vals[t].id in m && vals[t].id !in rest && m[vals[t].id] == vals[t]
      invariant forall k :: k in m && k !in rest ==> m[k] in vals
      invariant Distinct(vals)
      decreases |rest|
    {
      var k :| k in rest;
      vals := vals + [m[k]];
      rest := rest - {k};
    }
    assert |m| == |m.Keys|;
  }

  /** How each relay named by the `--relays` option is configured. */
  const OverrideRelay := Relay(true, true, false, false, false)

  /** The relay map the `--relays a,b,c` option installs: every entry,
      readable and writable, not a search relay. */
  method OverrideRelays(urls: seq<string>) returns (m: map<string, Relay>)
    ensures forall u :: u in m <==> u in urls
    ensures forall u :: u in m ==> m[u] == OverrideRelay
  {
    m := map[];
    var i := 0;
    while i < |urls|
      invariant 0 <= i <= |urls|
      invariant forall u :: u in m <==> u in urls[..i]
      invariant forall u :: u in m ==> m[u] == OverrideRelay
    {
      assert urls[..i + 1] == urls[..i] + [urls[i]];
      m := m[urls[i] := OverrideRelay];
      i := i + 1;
    }
    assert urls[..i] == urls;
  }

  // ---------------------------------------------------------------------

  /** main.go's `Config`, with the file system reduced to the list of
      configuration files written (`written`). Times are Unix seconds. */
  class Config {
    var relays: map<string, Relay>
    var follows: map<string, Profile>
    var privateKey: string
    var updated: int
    var tempRelay: bool
    var written: seq<string>

    /** A configuration as `loadConfig` returns it. */
    constructor (relays: map<string, Relay>, follows: map<string, Profile>, privateKey: string, updated: int)
      ensures this.relays == relays && this.follows == follows
      ensures this.privateKey == privateKey && this.updated == updated
      ensures !tempRelay && written == []
    {
      this.relays := relays;
      this.follows := follows;
      this.privateKey := privateKey;
      this.updated := updated;
      this.tempRelay := false;
      this.written := [];
    }

    /** The `Before` hook's `--relays` handling: a non-blank value replaces
        the relay map with its comma-separated entries and marks the relays
        as temporary. */
    method ApplyRelaysOption(arg: string)
      modifies this`relays, this`tempRelay
      ensures TrimSpace(arg) == "" ==> relays == old(relays) && tempRelay == old(tempRelay)
      ensures TrimSpace(arg) != "" ==>
                (tempRelay
                 && (forall u :: u in relays <==> u in Split(arg, ','))
                 && (forall u :: u in relays ==> relays[u] == OverrideRelay))
    {
      if TrimSpace(arg) != "" {
        relays := OverrideRelays(Split(arg, ','));
        tempRelay := true;
      }
    }

    /** `Config.save`: skipped entirely while the relays are temporary;
        otherwise the configuration file of the profile is written, and the
        error of that write (`disk`) is returned. */
    method Save(profile: string, disk: Option<Error>) returns (err: Option<Error>)
      modifies this`written
      ensures tempRelay ==> err.None? && written == old(written)
      ensures !tempRelay ==> err == disk
      ensures !tempRelay && disk.None? ==> written == old(written) + [ConfigFileName(profile)]
      ensures !tempRelay && disk.Some? ==> written == old(written)
    {
      if tempRelay {
        return None;
      }
      err := disk;
      if disk.None? {
        written := written + [ConfigFileName(profile)];
      }
    }

    /** `Config.Do`: runs the callback on every relay that serves the
        request and accepts a connection; the result lists those relays in
        the order the callbacks are modelled as running. */
    method Do(req: Relay, order: seq<string>, connects: string -> bool) returns (used: seq<string>)
      requires Enumerates(order, relays)
      ensures used == Used(order, relays, req, connects)
    {
      used := [];
      var i := 0;
      while i < |order|
        invariant 0 <= i <= |order|
        invariant used == Used(order[..i], relays, req, connects)
      {
        var k := order[i];
        var v := relays[k];
        assert order[..i + 1][..i] == order[..i];
        if req.write && !v.write {
        } else if req.search && !v.search {
        } else if !req.write && !v.read {
        } else if connects(k) {
          used := used + [k];
        }
        i := i + 1;
      }
      assert order[..i] == order;
    }

    /** `Config.FindRelay`: the first relay, in iteration order, that is a
        candidate for the request and accepts a connection; none when no
        candidate connects. */
    method FindRelay(req: Relay, order: seq<string>, connects: string -> bool) returns (r: Option<string>)
      requires Enumerates(order, relays)
      ensures r.None? <==> forall u :: u in relays && Candidate(req, relays[u], tempRelay) ==> !connects(u)
      ensures r.Some? ==> exists i :: 0 <= i < |order| && order[i] == r.value
                            && Candidate(req, relays[r.value], tempRelay) && connects(r.value)
                            && forall j :: 0 <= j < i ==> !(Candidate(req, relays[order[j]], tempRelay) && connects(order[j]))
    {
      var i := 0;
      while i < |order|
        invariant 0 <= i <= |order|
        invariant forall j :: 0 <= j < i ==> !(Candidate(req, relays[order[j]], tempRelay) && connects(order[j]))
      {
        var k := order[i];
        var v := relays[k];
        if req.write && !v.write {
        } else if !tempRelay && req.search && !v.search {
        } else if !req.write && !v.read {
        } else if connects(k) {
          return Some(k);
        }
        i := i + 1;
      }
      return None;
    }

    /** `Config.Events`: query every configured relay, whatever its flags;
        decode direct messages; keep the first event stored under each id;
        return the stored events sorted by creation time. */
    method Events(filter: Filter, order: seq<string>, query: (string, Filter) -> Option<seq<Event>>,
                  kc: KeyCodec, n4: Nip04) returns (evs: seq<Event>)
      requires Enumerates(order, relays)
      ensures var m := Stored(Gathered(order, query, filter), privateKey, kc, n4);
              && SortedByTime(evs)
              && |evs| == |m|
              && (forall i :: 0 <= i < |evs| ==> evs[i].id in m && m[evs[i].id] == evs[i])
              && (forall k :: k in m ==> m[k] in evs)
      ensures forall i, j :: 0 <= i < j < |evs| ==> evs[i].id != evs[j].id
    {
      var m := Collect(filter, order, query, privateKey, kc, n4);
      var vals := Values(m);
      var a := new Event[|vals|](t requires 0 <= t < |vals| => vals[t]);
      assert a[..] == vals;
      SortByTime(a);
      evs := a[..];
      PermutationKeepsDistinct(evs, vals);
      forall k | k in m ensures m[k] in evs {
        assert m[k] in multiset(vals);
      }
      forall t | 0 <= t < |evs| ensures evs[t].id in m && m[evs[t].id] == evs[t] {
        assert evs[t] in multiset(vals);
      }
    }

    /** `Config.GetFollows` against the relay `query` found for the
        command. When the cache is stale it is rebuilt from the user's
        contact list and the metadata of the followed keys, stamped with
        `now` and saved; otherwise it is returned as it is. */
    method GetFollows(profile: string, now: int, kc: KeyCodec, query: Filter -> seq<Event>,
                      parse: string -> Option<Profile>, disk: Option<Error>)
      returns (r: Result<map<string, Profile>>)
      modifies this`follows, this`updated, this`written
      ensures OwnKeys(privateKey, kc).Fail? ==>
                r == Fail(OwnKeys(privateKey, kc).error)
                && follows == old(follows) && updated == old(updated) && written == old(written)
      ensures OwnKeys(privateKey, kc).Ok? && !NeedsRefresh(old(updated), now, |old(follows)|) ==>
                r == Ok(old(follows))
                && follows == old(follows) && updated == old(updated) && written == old(written)
      ensures OwnKeys(privateKey, kc).Ok? && NeedsRefresh(old(updated), now, |old(follows)|) ==>
                var keys := FollowKeys(query(ContactListFilter(OwnKeys(privateKey, kc).value.pub)));
                && follows == (if |keys| > 0 then ProfilesFrom(query(MetadataFilter(keys)), parse) else map[])
                && updated == now
                && (tempRelay ==> r == Ok(follows) && written == old(written))
                && (!tempRelay ==> r == (if disk.None? then Ok(follows) else Fail(disk.value)))
                && (!tempRelay && disk.None? ==> written == old(written) + [ConfigFileName(profile)])
    {
      var keys := OwnKeys(privateKey, kc);
      if keys.Fail? {
        return Fail(keys.error);
      }
      var pub := keys.value.pub;
      if updated + FollowCacheLifetime < now || |follows| == 0 {
        follows := map[];
        var contacts := query(ContactListFilter(pub));
        var fs := CollectFollowKeys(contacts);
        if |fs| > 0 {
          var evs := query(MetadataFilter(fs));
          var i := 0;
          while i < |evs|
            invariant 0 <= i <= |evs|
            invariant follows == ProfilesFrom(evs[..i], parse)
            invariant written == old(written)
          {
            assert evs[..i + 1][..i] == evs[..i];
            var p := parse(evs[i].content);
            if p.Some? {
              follows := follows[evs[i].pubkey := p.value];
            }
            i := i + 1;
          }
          assert evs[..i] == evs;
        }
        updated := now;
        var err := Save(profile, disk);
        if err.Some? {
          return Fail(err.value);
        }
      }
      return Ok(follows);
    }
  }

  /** The nested loop of GetFollows that appends `tag[1]` of every `p` tag. */
  method CollectFollowKeys(evs: seq<Event>) returns (follows: seq<string>)
    ensures follows == FollowKeys(evs)
  {
    follows := [];
    var i := 0;
    while i < |evs|
      invariant 0 <= i <= |evs|
      invariant follows == FollowKeys(evs[..i])
    {
      assert evs[..i + 1][..i] == evs[..i];
      var tags := evs[i].tags;
      var j := 0;
      while j < |tags|
        invariant 0 <= j <= |tags|
        invariant follows == FollowKeys(evs[..i]) + PTagValues(tags[..j])
      {
        assert tags[..j + 1][..j] == tags[..j];
        var tag := tags[j];
        if |tag| >= 2 && tag[0] == "p" {
          follows := follows + [tag[1]];
        }
        j := j + 1;
      }
      assert tags[..j] == tags;
      i := i + 1;
    }
    assert evs[..i] == evs;
  }
}
