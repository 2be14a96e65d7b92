/** Zaps (zap.go): building a NIP-57 zap request, finding the receiver's
    LNURL-pay endpoint from the LUD-16 address in their profile, and paying
    the invoice through a NIP-47 wallet connection.

    HTTP, URL parsing and encoding, JSON, nip19, nip04, signing and the relay
    connection of the wallet are parameters; `Config.QueryEvents` is not
    part of this model and is a parameter too. */
module Zaps {
  import opened Nostr
  import opened Text
  import opened Ordering
  import opened Client
  import opened Timeline

  /** Go's `uint64`. */
  newtype uint64 = x: int | 0 <= x < 0x1_0000_0000_0000_0000

  // ---------------------------------------------------------------------
  // ZapInfo

  /** The fields of an LNURL-pay response (LUD-06). */
  datatype Lnurlp = Lnurlp(
    callback: string, maxSendable: int, minSendable: int, metadata: string,
    commentAllowed: int, tag: string, allowsNostr: bool, nostrPubkey: string)

  /** The LNURL-pay address of a LUD-16 identifier `user@domain`: split at
      the first '@'; an identifier without one is refused. */
  function LnurlpUrl(lud16: string): (r: Result<string>)
    ensures r.Fail? <==> forall i :: 0 <= i < |lud16| ==> lud16[i] != '@'
    ensures r.Fail? ==> r.error == ReceiptAddressInvalid
  {
    var tok := CutAt(lud16, '@');
    if !tok.found then Fail(ReceiptAddressInvalid)
    else Ok("https://" + tok.after + "/.well-known/lnurlp/" + tok.before)
  }

  /** The address names the identifier's parts (LUD-16): for a user name
      without '@' and a domain without '/', the host is the domain and the
      last path segment is the user. */
  lemma LnurlpUrlParts(user: string, domain: string)
    requires '@' !in user && '/' !in domain
    ensures LnurlpUrl(user + "@" + domain).Ok?
    ensures var url := LnurlpUrl(user + "@" + domain).value;
            && url == "https://" + domain + "/.well-known/lnurlp/" + user
            && url[..8] == "https://"
            && CutAt(url[8..], '/').before == domain
            && url[|url| - |user|..] == user
  {
    assert user + "@" + domain == user + ['@'] + domain;
    CutOfJoined(user, '@', domain);
    HostAndLastSegment(domain, "/.well-known/lnurlp/", user);
  }

  lemma HostAndLastSegment(domain: string, path: string, user: string)
    requires '/' !in domain && |path| > 0 && path[0] == '/'
    ensures var url := "https://" + domain + path + user;
            && url[..8] == "https://"
            && CutAt(url[8..], '/').before == domain
            && url[|url| - |user|..] == user
  {
    var url := "https://" + domain + path + user;
    var rest := path[1..] + user;
    assert url[8..] == domain + ['/'] + rest;
    CutOfJoined(domain, '/', rest);
  }

  /** The profile query of `ZapInfo`: the newest metadata of `pub`. */
  function MetadataOf(pub: string): Filter {
    Filter([KindProfileMetadata], [pub], [], map[], "", 1)
  }

  /** `Config.ZapInfo`: the receiver's metadata event (a query error is
      returned, no event is `cannot find user`), its profile, the LNURL-pay
      address of its `lud16`, and what that address answers. */
  function ZapInfo(pub: string, query: seq<Filter> -> Result<seq<Event>>, parseProfile: string -> Result<Profile>,
                   lnurlp: string -> Result<Lnurlp>): (r: Result<Lnurlp>)
    ensures query([MetadataOf(pub)]).Fail? ==> r == Fail(query([MetadataOf(pub)]).error)
    ensures query([MetadataOf(pub)]) == Ok([]) ==> r == Fail(CannotFindUser)
    ensures r.Ok? ==>
              && query([MetadataOf(pub)]).Ok? && |query([MetadataOf(pub)]).value| > 0
              && var profile := parseProfile(query([MetadataOf(pub)]).value[0].content);
              && profile.Ok?
              && LnurlpUrl(profile.value.lud16).Ok?
              && r == lnurlp(LnurlpUrl(profile.value.lud16).value)
    ensures query([MetadataOf(pub)]).Ok? && |query([MetadataOf(pub)]).value| > 0 ==>
              var profile := parseProfile(query([MetadataOf(pub)]).value[0].content);
              && (profile.Fail? ==> r == Fail(profile.error))
              && (profile.Ok? && LnurlpUrl(profile.value.lud16).Fail? ==> r == Fail(LnurlpUrl(profile.value.lud16).error))
              && (profile.Ok? && LnurlpUrl(profile.value.lud16).Ok? ==> r == lnurlp(LnurlpUrl(profile.value.lud16).value))
  {
    match query([MetadataOf(pub)])
    case Fail(e) => Fail(e)
    case Ok(evs) =>
      if |evs| == 0 then Fail(CannotFindUser)
      else
        match parseProfile(evs[0].content)
        case Fail(e) => Fail(e)
        case Ok(profile) =>
          match LnurlpUrl(profile.lud16)
          case Fail(e) => Fail(e)
          case Ok(url) => lnurlp(url)
  }

  // ---------------------------------------------------------------------
  // The zap request

  /** `arg.amount * 1000` in `uint64`: millisatoshis, wrapping at 2^64. */
  function Msat(amount: uint64): uint64 {
    ((amount as int * 1000) % 0x1_0000_0000_0000_0000) as uint64
  }

  /** Amounts below 2^64 millisatoshis convert exactly, and the satoshis
      are recovered by dividing by 1000. */
  lemma MsatExact(amount: uint64)
    requires amount as int * 1000 < 0x1_0000_0000_0000_0000
    ensures Msat(amount) as int == amount as int * 1000
    ensures Msat(amount) as int / 1000 == amount as int
  {
  }

  /** The first amount that wraps around. */
  lemma MsatWraps()
    ensures Msat(18446744073709552 as uint64) == 384 as uint64
  {
  }

  /** The relays of the configuration that are flagged for writing, in
      iteration order. */
  function WriteRelays(order: seq<string>, relays: map<string, Relay>): seq<string>
    requires forall u :: u in order ==> u in relays
  {
    if order == [] then []
    else
      var init := order[..|order| - 1];
      var u := order[|order| - 1];
      assert forall v :: v in init ==> v in order;
      WriteRelays(init, relays) + (if relays[u].write then [u] else [])
  }

  /** Each write relay appears exactly once. */
  lemma {:induction false} WriteRelaysExactly(order: seq<string>, relays: map<string, Relay>)
    requires Distinct(order) && forall u :: u in order ==> u in relays
    ensures forall u :: u in WriteRelays(order, relays) <==> u in order && relays[u].write
    ensures Distinct(WriteRelays(order, relays))
  {
    if order != [] {
      var init := order[..|order| - 1];
      var u := order[|order| - 1];
      assert forall v :: v in init ==> v in order;
      assert forall i, j :: 0 <= i < j < |init| ==> init[i] == order[i] && init[j] == order[j];
      WriteRelaysExactly(init, relays);
      assert forall v :: v in order <==> v in init || v == u;
      assert u !in init;
    }
  }

  /** The loop of `callZap` that builds the `relays` tag. */
  method RelaysTag(relays: map<string, Relay>, order: seq<string>) returns (tag: Tag)
    requires Enumerates(order, relays)
    ensures tag == ["relays"] + WriteRelays(order, relays)
  {
    tag := ["relays"];
    var k := 0;
    while k < |order|
      invariant 0 <= k <= |order|
      invariant forall u :: u in order[..k] ==> u in relays
      invariant tag == ["relays"] + WriteRelays(order[..k], relays)
    {
      assert order[..k + 1][..k] == order[..k];
      var u := order[k];
      if relays[u].write {
        tag := tag + [u];
      }
      k := k + 1;
    }
    assert order[..k] == order;
  }

  /** What `nip19.Decode` makes of the zapped argument. */
  datatype Reference =
    | EventRef(id: string, author: string)   // "nevent"
    | NoteRef(noteId: string)                // "note"
    | PubkeyRef(pub: string)                 // "npub"
    | OtherRef(prefix: string)               // any other entity

  /** Whom the zap is for and the tags naming the zapped event and user. */
  datatype Target = Target(receipt: string, tags: seq<Tag>)

  /** The note query of `callZap`. */
  function NoteFilter(id: string): Filter {
    Filter([], [], [id], map[], "", 0)
  }

  /** The `nip19` dispatch of `callZap`: an nevent names author and event;
      a note names its event and, when the query returned notes, the author
      of the first; an npub names the user; another entity is an invalid
      argument, and an argument that does not decode zaps nobody in
      particular. */
  function ZapTarget(ptr: Option<Reference>, query: seq<Filter> -> Result<seq<Event>>): (r: Result<Target>)
    ensures ptr.None? ==> r == Ok(Target("", []))
    ensures ptr.Some? && ptr.value.OtherRef? ==> r == Fail(InvalidArgument)
    ensures ptr.Some? && ptr.value.EventRef? ==>
              r == Ok(Target(ptr.value.author, [["p", ptr.value.author], ["e", ptr.value.id]]))
    ensures ptr.Some? && ptr.value.PubkeyRef? ==> r == Ok(Target(ptr.value.pub, [["p", ptr.value.pub]]))
    ensures ptr.Some? && ptr.value.NoteRef? ==>
              var found := query([NoteFilter(ptr.value.noteId)]);
              && (found.Fail? ==> r == Fail(found.error))
              && (found.Ok? && |found.value| > 0 ==>
                    r == Ok(Target(found.value[0].pubkey, [["p", found.value[0].pubkey], ["e", ptr.value.noteId]])))
              && (found == Ok([]) ==> r == Ok(Target("", [["e", ptr.value.noteId]])))
  {
    match ptr
    case None => Ok(Target("", []))
    case Some(EventRef(id, author)) => Ok(Target(author, [["p", author], ["e", id]]))
    case Some(NoteRef(id)) =>
      (match query([NoteFilter(id)])
       case Fail(e) => Fail(e)
       case Ok(evs) =>
         if |evs| != 0 then Ok(Target(evs[0].pubkey, [["p", evs[0].pubkey], ["e", id]]))
         else Ok(Target("", [["e", id]])))
    case Some(PubkeyRef(pub)) => Ok(Target(pub, [["p", pub]]))
    case Some(OtherRef(_)) => Fail(InvalidArgument)
  }

  /** The receipt is the user the `p` tag names: there is at most one `p`
      tag, it holds the receipt, and without one nobody in particular is
      zapped. */
  lemma ZapTargetReceiptIsPTag(ptr: Option<Reference>, query: seq<Filter> -> Result<seq<Event>>)
    requires ZapTarget(ptr, query).Ok?
    ensures var t := ZapTarget(ptr, query).value;
            && (forall i, j :: 0 <= i < j < |t.tags| ==> !(Named(t.tags[i], "p") && Named(t.tags[j], "p")))
            && (forall i :: 0 <= i < |t.tags| && Named(t.tags[i], "p") ==> t.tags[i] == ["p", t.receipt])
            && ((forall i :: 0 <= i < |t.tags| ==> !Named(t.tags[i], "p")) ==> t.receipt == "")
  {
    var t := ZapTarget(ptr, query).value;
    match ptr
    case None =>
    case Some(EventRef(id, author)) =>
      assert t.tags == [["p", author], ["e", id]];
      assert Named(t.tags[0], "p");
    case Some(NoteRef(id)) =>
      var found := query([NoteFilter(id)]).value;
      if |found| != 0 {
        assert t.tags == [["p", found[0].pubkey], ["e", id]];
        assert Named(t.tags[0], "p");
      } else {
        assert t.tags == [["e", id]];
      }
    case Some(PubkeyRef(pub)) =>
      assert t.tags == [["p", pub]];
      assert Named(t.tags[0], "p");
  }

  /** The arguments of `callZap`; `nwcUri` is the configured wallet
      connection (empty for none). */
  datatype ZapArg = ZapArg(amount: uint64, comment: string, id: string, nwcUri: string)

  /** The unsigned zap request (NIP-57, kind 9734): the client tags, the
      amount in millisatoshis, the write relays, the target's tags; the
      comment is the content. */
  function ZapRequest(arg: ZapArg, pub: string, clientTags: seq<Tag>, relaysTag: Tag, target: Target, now: nat): (r: Event)
    ensures r.kind == KindZapRequest && r.content == arg.comment && r.pubkey == pub && r.createdAt == now
    ensures r.tags == clientTags + [["amount", Decimal(Msat(arg.amount) as nat)], relaysTag] + target.tags
  {
    Event("", pub, now, KindZapRequest,
          clientTags + [["amount", Decimal(Msat(arg.amount) as nat)], relaysTag] + target.tags, arg.comment)
  }

  // ---------------------------------------------------------------------
  // pay (NIP-47)

  /** The parts of a `nostr+walletconnect://` URI: the wallet's key (the
      host) and the `relay` and `secret` query values. */
  datatype NwcUri = NwcUri(wallet: string, relay: string, secret: string)

  /** The request a wallet is sent. */
  datatype PayRequest = PayRequest(requestMethod: string, invoice: string)

  /** A wallet's answer: the message of its `error` member, if it has one. */
  datatype PayResponse = PayResponse(error: Option<string>)

  const PayInvoice := "pay_invoice"

  /** The collaborators of `pay`. */
  datatype WalletLink = WalletLink(
    parseUri: string -> Result<NwcUri>,                    // url.Parse and its query
    publicKey: string -> Result<string>,                   // nostr.GetPublicKey(secret)
    connect: string -> Option<Error>,                      // nostr.RelayConnect(relay)
    encrypt: (PayRequest, string, string) -> Result<string>,  // shared secret (wallet, secret), JSON, nip04.Encrypt
    sign: (Event, string) -> Result<string>,               // ev.Sign(secret)
    exchange: (string, Event) -> Result<string>,           // subscribe, publish, and the first answer's content
    decrypt: (string, string, string) -> Result<PayResponse>)  // nip04.Decrypt and JSON

  /** The signed wallet request of `pay`, and the connection data. */
  function WalletRequest(nwc: string, invoice: string, w: WalletLink, now: nat): (r: Result<(NwcUri, Event)>)
    ensures r.Ok? ==>
              && w.parseUri(nwc) == Ok(r.value.0)
              && var u := r.value.0;
              && w.publicKey(u.secret).Ok?
              && w.encrypt(PayRequest(PayInvoice, invoice), u.wallet, u.secret).Ok?
              && r.value.1.kind == KindNWCWalletRequest
              && r.value.1.pubkey == w.publicKey(u.secret).value
              && r.value.1.tags == [["p", u.wallet]]
              && r.value.1.content == w.encrypt(PayRequest(PayInvoice, invoice), u.wallet, u.secret).value
              && r.value.1.createdAt == now
    ensures w.parseUri(nwc).Fail? ==> r == Fail(w.parseUri(nwc).error)
    ensures w.parseUri(nwc).Ok? ==>
              var u := w.parseUri(nwc).value;
              var pub := w.publicKey(u.secret);
              var content := w.encrypt(PayRequest(PayInvoice, invoice), u.wallet, u.secret);
              && (pub.Fail? ==> r == Fail(pub.error))
              && (pub.Ok? && w.connect(u.relay).Some? ==> r == Fail(w.connect(u.relay).value))
              && (pub.Ok? && w.connect(u.relay).None? && content.Fail? ==> r == Fail(content.error))
              && (pub.Ok? && w.connect(u.relay).None? && content.Ok? ==>
                    var signed := Signed(Event("", pub.value, now, KindNWCWalletRequest, [["p", u.wallet]], content.value), u.secret, w.sign);
                    && (signed.Fail? ==> r == Fail(signed.error))
                    && (signed.Ok? ==> r == Ok((u, signed.value))))
  {
    match w.parseUri(nwc)
    case Fail(e) => Fail(e)
    case Ok(u) =>
      match w.publicKey(u.secret)
      case Fail(e) => Fail(e)
      case Ok(pub) =>
        match w.connect(u.relay)
        case Some(e) => Fail(e)
        case None =>
          match w.encrypt(PayRequest(PayInvoice, invoice), u.wallet, u.secret)
          case Fail(e) => Fail(e)
          case Ok(content) =>
            match Signed(Event("", pub, now, KindNWCWalletRequest, [["p", u.wallet]], content), u.secret, w.sign)
            case Fail(e) => Fail(e)
            case Ok(signed) => Ok((u, signed))
  }

  /** `pay`: send the request, decrypt the wallet's answer; an answer that
      carries an error becomes the returned error. */
  function Pay(nwc: string, invoice: string, w: WalletLink, now: nat): (r: Option<Error>)
    ensures WalletRequest(nwc, invoice, w, now).Fail? ==> r == Some(WalletRequest(nwc, invoice, w, now).error)
    ensures WalletRequest(nwc, invoice, w, now).Ok? ==>
              var (u, req) := WalletRequest(nwc, invoice, w, now).value;
              var answer := w.exchange(u.relay, req);
              && (answer.Fail? ==> r == Some(answer.error))
              && (answer.Ok? && w.decrypt(answer.value, u.wallet, u.secret).Fail? ==>
                    r == Some(w.decrypt(answer.value, u.wallet, u.secret).error))
              && (answer.Ok? && w.decrypt(answer.value, u.wallet, u.secret).Ok? ==>
                    var resp := w.decrypt(answer.value, u.wallet, u.secret).value;
                    (r.None? <==> resp.error.None?)
                    && (resp.error.Some? ==> r == Some(Wallet(resp.error.value))))
  {
    match WalletRequest(nwc, invoice, w, now)
    case Fail(e) => Some(e)
    case Ok((u, req)) =>
      match w.exchange(u.relay, req)
      case Fail(e) => Some(e)
      case Ok(answer) =>
        match w.decrypt(answer, u.wallet, u.secret)
        case Fail(e) => Some(e)
        case Ok(resp) =>
          match resp.error
          case Some(message) => Some(Wallet(message))
          case None => None
  }

  // ---------------------------------------------------------------------
  // callZap

  /** The collaborators of `callZap`. */
  datatype ZapLink = ZapLink(
    decodeId: string -> Option<Reference>,                   // nip19.Decode of the argument
    query: seq<Filter> -> Result<seq<Event>>,              // Config.QueryEvents
    parseProfile: string -> Result<Profile>,               // json.Unmarshal of metadata
    lnurlp: string -> Result<Lnurlp>,                      // http.Get of the LNURL-pay address, JSON
    marshal: Event -> Result<string>,                      // zr.MarshalJSON
    invoice: (string, string, string) -> Result<string>,   // GET callback?amount=..&nostr=.., the `pr` of the answer
    wallet: WalletLink)

  /** How a zap ends: the invoice shown as a `lightning:` URI, or handed to
      the wallet, whose outcome `callZap` ignores. */
  datatype ZapOutcome = ShowInvoice(uri: string) | SentToWallet(invoice: string, paid: Option<Error>)

  /** What `callZap` does with the signed zap request `zr`: serialize it,
      look up the receiver's LNURL-pay endpoint, fetch the invoice for the
      amount and the request, then show it or hand it to the wallet; the
      first failing step's error is returned, and the wallet's own outcome
      is not. */
  function ZapSteps(arg: ZapArg, zr: Event, receipt: string, z: ZapLink, now: nat): (r: Result<ZapOutcome>)
    ensures z.marshal(zr).Fail? ==> r == Fail(z.marshal(zr).error)
    ensures z.marshal(zr).Ok? && ZapInfo(receipt, z.query, z.parseProfile, z.lnurlp).Fail? ==>
              r == Fail(ZapInfo(receipt, z.query, z.parseProfile, z.lnurlp).error)
    ensures z.marshal(zr).Ok? && ZapInfo(receipt, z.query, z.parseProfile, z.lnurlp).Ok? ==>
              var pr := z.invoice(ZapInfo(receipt, z.query, z.parseProfile, z.lnurlp).value.callback,
                                  Decimal(Msat(arg.amount) as nat), z.marshal(zr).value);
              && (pr.Fail? ==> r == Fail(pr.error))
              && (pr.Ok? && arg.nwcUri == "" ==> r == Ok(ShowInvoice("lightning:" + pr.value)))
              && (pr.Ok? && arg.nwcUri != "" ==> r == Ok(SentToWallet(pr.value, Pay(arg.nwcUri, pr.value, z.wallet, now))))
    ensures r.Ok? ==> z.marshal(zr).Ok? && ZapInfo(receipt, z.query, z.parseProfile, z.lnurlp).Ok?
  {
    match z.marshal(zr)
    case Fail(e) => Fail(e)
    case Ok(b) =>
      match ZapInfo(receipt, z.query, z.parseProfile, z.lnurlp)
      case Fail(e) => Fail(e)
      case Ok(zi) =>
        match z.invoice(zi.callback, Decimal(Msat(arg.amount) as nat), b)
        case Fail(e) => Fail(e)
        case Ok(pr) =>
          if arg.nwcUri == "" then Ok(ShowInvoice("lightning:" + pr))
          else Ok(SentToWallet(pr, Pay(arg.nwcUri, pr, z.wallet, now)))
  }

  /** Paying is fire and forget: whatever the wallet does, the zap ends
      the same way, and with a wallet configured a fetched invoice always
      ends in success. */
  lemma ZapStepsIgnoreWallet(arg: ZapArg, zr: Event, receipt: string, z: ZapLink, w: WalletLink, now: nat)
    requires arg.nwcUri != ""
    ensures ZapSteps(arg, zr, receipt, z, now).Fail? == ZapSteps(arg, zr, receipt, z.(wallet := w), now).Fail?
    ensures ZapSteps(arg, zr, receipt, z, now).Fail? ==> ZapSteps(arg, zr, receipt, z, now) == ZapSteps(arg, zr, receipt, z.(wallet := w), now)
    ensures ZapSteps(arg, zr, receipt, z, now).Ok? ==>
              ZapSteps(arg, zr, receipt, z, now).value.invoice == ZapSteps(arg, zr, receipt, z.(wallet := w), now).value.invoice
  {
  }

  /** `callZap`: keys; the zap request with its tags; sign and serialize it;
      the receiver's LNURL-pay endpoint; the invoice for the amount and the
      request; then show it or pay it. */
  method CallZap(cfg: Config, arg: ZapArg, env: Env, order: seq<string>, z: ZapLink) returns (r: Result<ZapOutcome>)
    requires Enumerates(order, cfg.relays)
    ensures PosterKeys(cfg.privateKey, env).Fail? ==> r == Fail(PosterKeys(cfg.privateKey, env).error)
    ensures PosterKeys(cfg.privateKey, env).Ok? && ZapTarget(z.decodeId(arg.id), z.query).Fail? ==>
              r == Fail(ZapTarget(z.decodeId(arg.id), z.query).error)
    ensures r.Ok? ==>
              && PosterKeys(cfg.privateKey, env).Ok?
              && ZapTarget(z.decodeId(arg.id), z.query).Ok?
              && var keys := PosterKeys(cfg.privateKey, env).value;
              && var target := ZapTarget(z.decodeId(arg.id), z.query).value;
              && var zr := ZapRequest(arg, keys.pub, env.clientTags, ["relays"] + WriteRelays(order, cfg.relays), target, env.now);
              && Signed(zr, keys.sk, env.sign).Ok?
              && z.marshal(Signed(zr, keys.sk, env.sign).value).Ok?
              && ZapInfo(target.receipt, z.query, z.parseProfile, z.lnurlp).Ok?
              && var pr := z.invoice(ZapInfo(target.receipt, z.query, z.parseProfile, z.lnurlp).value.callback,
                                     Decimal(Msat(arg.amount) as nat),
                                     z.marshal(Signed(zr, keys.sk, env.sign).value).value);
              && pr.Ok?
              && (arg.nwcUri == "" ==> r.value == ShowInvoice("lightning:" + pr.value))
              && (arg.nwcUri != "" ==> r.value == SentToWallet(pr.value, Pay(arg.nwcUri, pr.value, z.wallet, env.now)))
    ensures PosterKeys(cfg.privateKey, env).Ok? && ZapTarget(z.decodeId(arg.id), z.query).Ok? ==>
              var keys := PosterKeys(cfg.privateKey, env).value;
              var target := ZapTarget(z.decodeId(arg.id), z.query).value;
              var zr := ZapRequest(arg, keys.pub, env.clientTags, ["relays"] + WriteRelays(order, cfg.relays), target, env.now);
              var signed := Signed(zr, keys.sk, env.sign);
              && (signed.Fail? ==> r == Fail(signed.error))
              && (signed.Ok? ==> ZapSteps(arg, signed.value, target.receipt, z, env.now) == r)
  {
    var keys := PosterKeys(cfg.privateKey, env);
    if keys.Fail? {
      return Fail(keys.error);
    }
    var relaysTag := RelaysTag(cfg.relays, order);
    var target := ZapTarget(z.decodeId(arg.id), z.query);
    if target.Fail? {
      return Fail(target.error);
    }
    var zr := ZapRequest(arg, keys.value.pub, env.clientTags, relaysTag, target.value, env.now);
    var signed := Signed(zr, keys.value.sk, env.sign);
    if signed.Fail? {
      return Fail(signed.error);
    }
    var b := z.marshal(signed.value);
    if b.Fail? {
      return Fail(b.error);
    }
    var zi := ZapInfo(target.value.receipt, z.query, z.parseProfile, z.lnurlp);
    if zi.Fail? {
      return Fail(zi.error);
    }
    var iv := z.invoice(zi.value.callback, Decimal(Msat(arg.amount) as nat), b.value);
    if iv.Fail? {
      return Fail(iv.error);
    }
    if arg.nwcUri == "" {
      return Ok(ShowInvoice("lightning:" + iv.value));
    }
    var paid := Pay(arg.nwcUri, iv.value, z.wallet, env.now);
    return Ok(SentToWallet(iv.value, paid));
  }
}
