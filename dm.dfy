/** The direct-message commands of dm.go: listing the users the user has
    exchanged messages with, showing the conversation with one of them, and
    sending a message (NIP-04 encrypted, or a NIP-17 chat message wrapped
    per NIP-59).

    `Config.QueryEvents` and `Config.GetProfile` are not part of this model;
    they are parameters, as are the encryption, gift wrapping, signing and
    key-encoding collaborators. */
module DirectMessages {
  import opened Nostr
  import opened Text
  import opened Ordering
  import opened Client
  import opened Timeline

  /** The `limit` of every direct-message query. */
  const DMQueryLimit := 9999

  /** The request `doDMPost` hands to `Config.Do`: a write to the relays
      marked for direct messages. */
  const DMWriteRequest := Relay(false, true, false, true, false)

  /** `Config.Do` as main.go writes it filters on the write, search and
      read flags only: the relays it uses for a direct message are exactly
      those that take writes. */
  lemma DMWriteRequestServesWriteRelays(v: Relay)
    ensures Serves(DMWriteRequest, v) <==> v.write
    ensures Serves(DMWriteRequest, v) <==> Serves(WriteRequest, v)
  {
  }

  // ---------------------------------------------------------------------
  // doDMList

  /** The queries of `doDMList`: messages the user wrote, messages to the
      user, and gift wraps to the user. */
  function DMListFilters(pub: string): seq<Filter> {
    [Filter([KindEncryptedDirectMessage], [pub], [], map[], "", DMQueryLimit),
     Filter([KindEncryptedDirectMessage], [], [], map["p" := [pub]], "", DMQueryLimit),
     Filter([KindGiftWrap], [], [], map["p" := [pub]], "", DMQueryLimit)]
  }

  /** The other side of a message: for the user's own messages the value of
      the first `p` tag (none when there is no `p` tag), otherwise the
      author. */
  function Partner(ev: Event, pub: string): (r: Option<string>)
    ensures ev.pubkey != pub ==> r == Some(ev.pubkey)
    ensures ev.pubkey == pub ==> (r.Some? <==> exists i :: 0 <= i < |ev.tags| && Named(ev.tags[i], "p"))
    ensures ev.pubkey == pub && r.Some? ==> r.value == FirstTagValue(ev.tags, "p")
  {
    if ev.pubkey == pub then
      match FirstTag(ev.tags, "p")
      case None => None
      case Some(t) => Some(TagValue(t))
    else Some(ev.pubkey)
  }

  /** The state of the listing loop: the partners seen so far (the map `m`)
      and, in order, those listed, that is the ones whose key encodes as an
      npub. */
  datatype Scan = Scan(seen: set<string>, listed: seq<string>)

  function ScanStep(s: Scan, ev: Event, pub: string, npub: string -> Result<string>): Scan {
    match Partner(ev, pub)
    case None => s
    case Some(p) =>
      if p in s.seen then s
      else Scan(s.seen + {p}, if npub(p).Ok? then s.listed + [p] else s.listed)
  }

  function ScanAll(evs: seq<Event>, pub: string, npub: string -> Result<string>): Scan {
    if evs == [] then Scan({}, [])
    else ScanStep(ScanAll(evs[..|evs| - 1], pub, npub), evs[|evs| - 1], pub, npub)
  }

  /** `p` is the partner of some message of `evs`. */
  ghost predicate PartnerIn(evs: seq<Event>, pub: string, p: string) {
    exists i :: 0 <= i < |evs| && Partner(evs[i], pub) == Some(p)
  }

  /** Every partner is seen; exactly the ones whose key encodes are listed,
      each once. */
  lemma {:induction false} ScanAllMembers(evs: seq<Event>, pub: string, npub: string -> Result<string>)
    ensures forall p :: p in ScanAll(evs, pub, npub).seen <==> PartnerIn(evs, pub, p)
    ensures forall p :: p in ScanAll(evs, pub, npub).listed <==> PartnerIn(evs, pub, p) && npub(p).Ok?
    ensures Distinct(ScanAll(evs, pub, npub).listed)
  {
    if evs != [] {
      var init := evs[..|evs| - 1];
      var ev := evs[|evs| - 1];
      ScanAllMembers(init, pub, npub);
      forall p
        ensures PartnerIn(evs, pub, p) <==> PartnerIn(init, pub, p) || Partner(ev, pub) == Some(p)
      {
        if PartnerIn(evs, pub, p) {
          var i :| 0 <= i < |evs| && Partner(evs[i], pub) == Some(p);
          if i < |init| {
            assert init[i] == evs[i];
          }
        }
        if PartnerIn(init, pub, p) {
          var i :| 0 <= i < |init| && Partner(init[i], pub) == Some(p);
          assert evs[i] == init[i];
        }
      }
    }
  }

  /** `p` has a message in `evs` before any message of `q`. */
  ghost predicate MessagedBefore(evs: seq<Event>, pub: string, p: string, q: string) {
    exists a :: 0 <= a < |evs| && Partner(evs[a], pub) == Some(p)
                && forall b :: 0 <= b <= a ==> Partner(evs[b], pub) != Some(q)
  }

  /** Partners are listed in the order of their first message. */
  lemma {:induction false} ScanAllFirstSeenOrder(evs: seq<Event>, pub: string, npub: string -> Result<string>)
    ensures forall i, j :: 0 <= i < j < |ScanAll(evs, pub, npub).listed| ==>
              MessagedBefore(evs, pub, ScanAll(evs, pub, npub).listed[i], ScanAll(evs, pub, npub).listed[j])
  {
    if evs != [] {
      var init := evs[..|evs| - 1];
      var ev := evs[|evs| - 1];
      var s0 := ScanAll(init, pub, npub);
      var listed := ScanAll(evs, pub, npub).listed;
      ScanAllFirstSeenOrder(init, pub, npub);
      ScanAllMembers(init, pub, npub);
      assert ScanAll(evs, pub, npub) == ScanStep(s0, ev, pub, npub);
      assert |s0.listed| <= |listed| && listed[..|s0.listed|] == s0.listed;
      assert |listed| > |s0.listed| ==>
               Partner(ev, pub) == Some(listed[|s0.listed|]) && listed[|s0.listed|] !in s0.seen;
      forall i, j | 0 <= i < j < |listed|
        ensures MessagedBefore(evs, pub, listed[i], listed[j])
      {
        assert listed[i] == s0.listed[i];
        var a;
        if j < |s0.listed| {
          assert listed[j] == s0.listed[j];
          assert MessagedBefore(init, pub, s0.listed[i], s0.listed[j]);
          a :| 0 <= a < |init| && Partner(init[a], pub) == Some(listed[i])
               && forall b :: 0 <= b <= a ==> Partner(init[b], pub) != Some(listed[j]);
        } else {
          // the partner of the last message, listed for the first time
          assert listed[i] in s0.listed;
          a :| 0 <= a < |init| && Partner(init[a], pub) == Some(listed[i]);
          assert !PartnerIn(init, pub, listed[j]);
        }
        assert evs[a] == init[a];
        forall b | 0 <= b <= a
          ensures Partner(evs[b], pub) != Some(listed[j])
        {
          assert evs[b] == init[b];
        }
      }
    }
  }

  /** An entry of the listing: a name and the npub. */
  datatype Entry = Entry(name: string, pubkey: string)

  /** The name shown for a user: the display name, else the name (so ""
      when both are empty); the npub when the profile cannot be had. */
  function DisplayName(profile: Result<Profile>, npub: string): (name: string)
    ensures profile.Fail? ==> name == npub
    ensures profile.Ok? ==> name == (if profile.value.displayName != "" then profile.value.displayName else profile.value.name)
  {
    match profile
    case Fail(_) => npub
    case Ok(p) =>
      var name := p.displayName;
      if name == "" && p.name != "" then p.name else name
  }

  /** `users` lists the partners `listed`, one entry each, in order. */
  predicate Lists(users: seq<Entry>, listed: seq<string>, npub: string -> Result<string>,
                  profileOf: string -> Result<Profile>) {
    |users| == |listed|
    && forall i :: 0 <= i < |listed| ==>
         npub(listed[i]).Ok?
         && users[i] == Entry(DisplayName(profileOf(npub(listed[i]).value), npub(listed[i]).value), npub(listed[i]).value)
  }

  /** The loop of `doDMList` over the events the queries returned. */
  method ListUsers(evs: seq<Event>, pub: string, npub: string -> Result<string>, profileOf: string -> Result<Profile>)
    returns (users: seq<Entry>)
    ensures Lists(users, ScanAll(evs, pub, npub).listed, npub, profileOf)
  {
    users := [];
    var m: set<string> := {};
    ghost var listed: seq<string> := [];
    var k := 0;
    while k < |evs|
      invariant 0 <= k <= |evs|
      invariant ScanAll(evs[..k], pub, npub) == Scan(m, listed)
      invariant Lists(users, listed, npub, profileOf)
    {
      assert evs[..k + 1][..k] == evs[..k];
      var ev := evs[k];
      var p: Option<string> := None;
      if ev.pubkey == pub {
        var tag := FirstTag(ev.tags, "p");
        if tag.Some? {
          p := Some(TagValue(tag.value));
        }
      } else {
        p := Some(ev.pubkey);
      }
      if p.Some? && p.value !in m {
        m := m + {p.value};
        var encoded := npub(p.value);
        if encoded.Ok? {
          var profile := profileOf(encoded.value);
          users := users + [Entry(DisplayName(profile, encoded.value), encoded.value)];
          listed := listed + [p.value];
        }
      }
      k := k + 1;
    }
    assert evs[..k] == evs;
  }

  /** `doDMList`: keys, the three queries (an error is returned), then the
      listing. */
  method DMList(privateKey: string, kc: KeyCodec, query: seq<Filter> -> Result<seq<Event>>,
                npub: string -> Result<string>, profileOf: string -> Result<Profile>)
    returns (r: Result<seq<Entry>>)
    ensures OwnKeys(privateKey, kc).Fail? ==> r == Fail(OwnKeys(privateKey, kc).error)
    ensures OwnKeys(privateKey, kc).Ok? ==>
              var pub := OwnKeys(privateKey, kc).value.pub;
              var evs := query(DMListFilters(pub));
              && (evs.Fail? ==> r == Fail(evs.error))
              && (evs.Ok? ==> r.Ok? && Lists(r.value, ScanAll(evs.value, pub, npub).listed, npub, profileOf))
  {
    var keys := OwnKeys(privateKey, kc);
    if keys.Fail? {
      return Fail(keys.error);
    }
    var evs := query(DMListFilters(keys.value.pub));
    if evs.Fail? {
      return Fail(evs.error);
    }
    var users := ListUsers(evs.value, keys.value.pub, npub, profileOf);
    return Ok(users);
  }

  // ---------------------------------------------------------------------
  // doDMTimeline

  /** The other side of the conversation: "me" is the user, anything else
      goes through the profile lookup. */
  function Peer(u: string, pk: string, profileKey: string -> Option<string>): (r: Result<string>)
    ensures u == "me" ==> r == Ok(pk)
    ensures u != "me" ==> (r.Ok? <==> profileKey(u).Some?)
    ensures u != "me" && r.Ok? ==> r.value == profileKey(u).value
    ensures r.Fail? ==> r.error == ParsePubkey(u)
  {
    if u == "me" then Ok(pk)
    else
      match profileKey(u)
      case None => Fail(ParsePubkey(u))
      case Some(p) => Ok(p)
  }

  /** NIP-04 messages from `author` to `to`. */
  function SentFilter(author: string, to: string): Filter {
    Filter([KindEncryptedDirectMessage], [author], [], map["p" := [to]], "", DMQueryLimit)
  }

  /** Gift wraps addressed to `pk`. */
  function WrapFilter(pk: string): Filter {
    Filter([KindGiftWrap], [], [], map["p" := [pk]], "", DMQueryLimit)
  }

  /** A chat message between the two sides: kind 14, and written by one
      of them with the other as the first `p` tag. A kind-14 event by
      either side without a `p` tag makes Go panic (dm.go:216-217); here it
      is not between them. */
  predicate Between(ev: Event, pub: string, pk: string) {
    ev.kind == KindChatMessage
    && ((ev.pubkey == pub && FirstTagValue(ev.tags, "p") == pk)
        || (ev.pubkey == pk && FirstTagValue(ev.tags, "p") == pub))
  }

  /** The chat messages of `evs` between the two sides, in order. */
  function ChatsBetween(evs: seq<Event>, pub: string, pk: string): (r: seq<Event>)
    ensures forall e :: multiset(r)[e] == if Between(e, pub, pk) then multiset(evs)[e] else 0
  {
    if evs == [] then []
    else
      var init := evs[..|evs| - 1];
      var e := evs[|evs| - 1];
      assert evs == init + [e];
      ChatsBetween(init, pub, pk) + (if Between(e, pub, pk) then [e] else [])
  }

  /** What `doDMTimeline` collects before sorting: both directions of NIP-04
      messages (either query's error is returned) and the chat messages of
      the gift-wrap query (whose error is ignored). */
  function DMCandidates(pub: string, pk: string, query: seq<Filter> -> Result<seq<Event>>): (r: Result<seq<Event>>)
    ensures query([SentFilter(pub, pk)]).Fail? ==> r == Fail(query([SentFilter(pub, pk)]).error)
    ensures query([SentFilter(pub, pk)]).Ok? && query([SentFilter(pk, pub)]).Fail? ==>
              r == Fail(query([SentFilter(pk, pub)]).error)
    ensures r.Ok? ==> query([SentFilter(pub, pk)]).Ok? && query([SentFilter(pk, pub)]).Ok?
    ensures query([SentFilter(pub, pk)]).Ok? && query([SentFilter(pk, pub)]).Ok? ==>
              var received := query([SentFilter(pub, pk)]).value;
              var sent := query([SentFilter(pk, pub)]).value;
              var wraps := query([WrapFilter(pk)]);
              && (wraps.Fail? ==> r == Ok(received + sent))
              && (wraps.Ok? ==> r == Ok(received + sent + ChatsBetween(wraps.value, pub, pk)))
  {
    match query([SentFilter(pub, pk)])
    case Fail(e) => Fail(e)
    case Ok(received) =>
      match query([SentFilter(pk, pub)])
      case Fail(e) => Fail(e)
      case Ok(sent) =>
        match query([WrapFilter(pk)])
        case Fail(_) => Ok(received + sent)
        case Ok(wraps) => Ok(received + sent + ChatsBetween(wraps, pub, pk))
  }

  /** Every collected event is a NIP-04 message of the two queries or a
      chat message between the two sides, with its multiplicity. */
  lemma DMCandidatesAreTheConversation(pub: string, pk: string, query: seq<Filter> -> Result<seq<Event>>, e: Event)
    requires DMCandidates(pub, pk, query).Ok?
    ensures var received := query([SentFilter(pub, pk)]).value;
            var sent := query([SentFilter(pk, pub)]).value;
            var wraps := query([WrapFilter(pk)]);
            multiset(DMCandidates(pub, pk, query).value)[e]
              == multiset(received)[e] + multiset(sent)[e]
                 + (if wraps.Ok? && Between(e, pub, pk) then multiset(wraps.value)[e] else 0)
  {
    var wraps := query([WrapFilter(pk)]);
    if wraps.Ok? {
      var chats := ChatsBetween(wraps.value, pub, pk);
      assert multiset(chats)[e] == if Between(e, pub, pk) then multiset(wraps.value)[e] else 0;
    }
  }

  /** The participant check of `doDMTimeline` over the gift-wrap query's
      answer. */
  method KeepChats(wraps: seq<Event>, pub: string, pk: string) returns (kept: seq<Event>)
    ensures kept == ChatsBetween(wraps, pub, pk)
  {
    kept := [];
    var k := 0;
    while k < |wraps|
      invariant 0 <= k <= |wraps|
      invariant kept == ChatsBetween(wraps[..k], pub, pk)
    {
      assert wraps[..k + 1][..k] == wraps[..k];
      var ev := wraps[k];
      if ev.kind == KindChatMessage
         && ((ev.pubkey == pub && FirstTagValue(ev.tags, "p") == pk)
             || (ev.pubkey == pk && FirstTagValue(ev.tags, "p") == pub)) {
        kept := kept + [ev];
      }
      k := k + 1;
    }
    assert wraps[..k] == wraps;
  }

  /** The three queries of `doDMTimeline`. */
  method CollectConversation(pub: string, pk: string, query: seq<Filter> -> Result<seq<Event>>)
    returns (r: Result<seq<Event>>)
    ensures r == DMCandidates(pub, pk, query)
  {
    var received := query([SentFilter(pub, pk)]);
    if received.Fail? {
      return Fail(received.error);
    }
    var sent := query([SentFilter(pk, pub)]);
    if sent.Fail? {
      return Fail(sent.error);
    }
    var evs := received.value + sent.value;
    var wraps := query([WrapFilter(pk)]);
    if wraps.Ok? {
      var kept := KeepChats(wraps.value, pub, pk);
      evs := evs + kept;
    }
    return Ok(evs);
  }

  /** `doDMTimeline`: keys, the other side, the three queries, then the
      newest `n` in ascending order. */
  method DMTimeline(privateKey: string, kc: KeyCodec, u: string, n: nat, profileKey: string -> Option<string>,
                    query: seq<Filter> -> Result<seq<Event>>) returns (r: Result<seq<Event>>)
    ensures OwnKeys(privateKey, kc).Fail? ==> r == Fail(OwnKeys(privateKey, kc).error)
    ensures OwnKeys(privateKey, kc).Ok? ==>
              var pk := OwnKeys(privateKey, kc).value.pub;
              var peer := Peer(u, pk, profileKey);
              && (peer.Fail? ==> r == Fail(peer.error))
              && (peer.Ok? && DMCandidates(peer.value, pk, query).Fail? ==> r == DMCandidates(peer.value, pk, query))
              && (peer.Ok? && DMCandidates(peer.value, pk, query).Ok? ==>
                    var all := DMCandidates(peer.value, pk, query).value;
                    && r.Ok?
                    && |r.value| == (if |all| > n then n else |all|)
                    && SortedByTime(r.value)
                    && multiset(r.value) <= multiset(all)
                    && forall e, x :: e in multiset(all) - multiset(r.value) && x in r.value ==> e.createdAt <= x.createdAt)
  {
    var keys := OwnKeys(privateKey, kc);
    if keys.Fail? {
      return Fail(keys.error);
    }
    var pk := keys.value.pub;
    var peer := Peer(u, pk, profileKey);
    if peer.Fail? {
      return Fail(peer.error);
    }
    var evs := CollectConversation(peer.value, pk, query);
    if evs.Fail? {
      return Fail(evs.error);
    }
    var newest := NewestN(evs.value, n);
    return Ok(newest);
  }

  // ---------------------------------------------------------------------
  // doDMPost

  /** The arguments of `doDMPost`: `content` is what `--stdin` read or the
      joined arguments; `hasContent` is false when neither was given. */
  datatype DMPostArg = DMPostArg(u: string, hasContent: bool, content: string, sensitive: string, nip04: bool)

  /** The message encryption collaborators. */
  datatype DMCrypto = DMCrypto(
    encrypt04: (string, string, string) -> Result<string>,  // nip04: shared secret of (peer, sk), then Encrypt(plaintext)
    giftWrap: (Event, string, string) -> Result<Event>)     // nip59.GiftWrap(rumor, peer) sealing with nip44 and sk

  /** The message before encryption: kind 14, to `peer`. */
  function Rumor(arg: DMPostArg, pub: string, peer: string, env: Env): (r: Event)
    ensures r.kind == KindChatMessage && r.pubkey == pub && r.content == arg.content && r.createdAt == env.now
    ensures r.tags == env.clientTags + OptionalTag("content-warning", arg.sensitive) + [["p", peer]]
  {
    Event("", pub, env.now, KindChatMessage,
          env.clientTags + OptionalTag("content-warning", arg.sensitive) + [["p", peer]], arg.content)
  }

  /** The recipient argument after "me" was replaced by the user's key. */
  function Recipient(u: string, pub: string): string {
    if u == "me" then pub else u
  }

  /** The event `doDMPost` publishes, or the error it returns. */
  function DMMessage(arg: DMPostArg, privateKey: string, env: Env, crypto: DMCrypto): (r: Result<Event>)
    ensures !arg.hasContent ==> r == Fail(Help)
    ensures arg.hasContent && PosterKeys(privateKey, env).Fail? ==> r == Fail(PosterKeys(privateKey, env).error)
    ensures arg.hasContent && TrimSpace(arg.content) == "" && PosterKeys(privateKey, env).Ok? ==> r == Fail(ContentEmpty)
    ensures arg.hasContent && TrimSpace(arg.content) != "" && PosterKeys(privateKey, env).Ok? ==>
              var keys := PosterKeys(privateKey, env).value;
              var u := Recipient(arg.u, keys.pub);
              && (env.profileKey(u).None? ==> r == Fail(ParsePubkey(u)))
              && (env.profileKey(u).Some? ==>
                    var peer := env.profileKey(u).value;
                    var rumor := Rumor(arg, keys.pub, peer, env);
                    var cipher := crypto.encrypt04(arg.content, peer, keys.sk);
                    && (arg.nip04 && cipher.Fail? ==> r == Fail(cipher.error))
                    && (arg.nip04 && cipher.Ok? ==>
                          r == Signed(rumor.(kind := KindEncryptedDirectMessage, content := cipher.value), keys.sk, env.sign))
                    && (!arg.nip04 ==> r == crypto.giftWrap(rumor, peer, keys.sk)))
    ensures r.Ok? ==> arg.hasContent && TrimSpace(arg.content) != "" && PosterKeys(privateKey, env).Ok?
                      && env.profileKey(Recipient(arg.u, PosterKeys(privateKey, env).value.pub)).Some?
    ensures r.Ok? && arg.nip04 ==>
              var keys := PosterKeys(privateKey, env).value;
              var peer := env.profileKey(Recipient(arg.u, keys.pub)).value;
              var rumor := Rumor(arg, keys.pub, peer, env);
              && crypto.encrypt04(arg.content, peer, keys.sk).Ok?
              && r.value == rumor.(kind := KindEncryptedDirectMessage,
                                   content := crypto.encrypt04(arg.content, peer, keys.sk).value,
                                   id := r.value.id)
    ensures r.Ok? && !arg.nip04 ==>
              var keys := PosterKeys(privateKey, env).value;
              var peer := env.profileKey(Recipient(arg.u, keys.pub)).value;
              r == crypto.giftWrap(Rumor(arg, keys.pub, peer, env), peer, keys.sk)
  {
    if !arg.hasContent then Fail(Help)
    else
      match PosterKeys(privateKey, env)
      case Fail(e) => Fail(e)
      case Ok(keys) =>
        if TrimSpace(arg.content) == "" then Fail(ContentEmpty)
        else
          var u := Recipient(arg.u, keys.pub);
          match env.profileKey(u)
          case None => Fail(ParsePubkey(u))
          case Some(peer) =>
            var rumor := Rumor(arg, keys.pub, peer, env);
            if arg.nip04 then
              match crypto.encrypt04(arg.content, peer, keys.sk)
              case Fail(e) => Fail(e)
              case Ok(cipher) => Signed(rumor.(kind := KindEncryptedDirectMessage, content := cipher), keys.sk, env.sign)
            else crypto.giftWrap(rumor, peer, keys.sk)
  }

  /** "me" sends the message to the user themself: the recipient is the
      profile lookup's key for the user's own public key, and an
      unparsable recipient is reported under that key. */
  lemma DMMessageToMe(arg: DMPostArg, privateKey: string, env: Env, crypto: DMCrypto)
    requires arg.u == "me" && arg.hasContent && TrimSpace(arg.content) != ""
    requires PosterKeys(privateKey, env).Ok?
    ensures var pub := PosterKeys(privateKey, env).value.pub;
            env.profileKey(pub).None? ==> DMMessage(arg, privateKey, env, crypto) == Fail(ParsePubkey(pub))
    ensures var pub := PosterKeys(privateKey, env).value.pub;
            env.profileKey(pub) == Some(pub) && !arg.nip04 ==>
              DMMessage(arg, privateKey, env, crypto) == crypto.giftWrap(Rumor(arg, pub, pub, env), pub, PosterKeys(privateKey, env).value.sk)
  {
  }

  /** `doDMPost`: the message, then publishing to every write relay; the
      command fails with `cannot post` exactly when no relay took it. */
  method CallDMPost(cfg: Config, arg: DMPostArg, env: Env, crypto: DMCrypto, net: Net) returns (err: Option<Error>)
    requires Enumerates(net.order, cfg.relays)
    ensures DMMessage(arg, cfg.privateKey, env, crypto).Fail? ==> err == Some(DMMessage(arg, cfg.privateKey, env, crypto).error)
    ensures DMMessage(arg, cfg.privateKey, env, crypto).Ok? ==>
              (err.None? <==> Reaches(cfg.relays, DMWriteRequest, DMMessage(arg, cfg.privateKey, env, crypto).value, net))
              && (err.Some? ==> err == Some(CannotPublish("post")))
  {
    var ev := DMMessage(arg, cfg.privateKey, env, crypto);
    if ev.Fail? {
      return Some(ev.error);
    }
    err := PublishAll(cfg, DMWriteRequest, ev.value, net, "post");
  }
}
