/** The commands of timeline.go: composing and publishing notes, articles,
    replies and raw events, reacting to a note, streaming with automatic
    replies, and showing the newest notes of the followed users.

    Every unseen collaborator is a parameter: key encoding, profile and
    event lookups (`sdk.InputToProfile`, `sdk.InputToEventPointer`),
    signing, the tag `clientTag` adds, the clock, and the link, emoji and
    hashtag extractors. `Tags.AppendUnique` is modelled as a plain append. */
module Timeline {
  import opened Nostr
  import opened Text
  import opened Ordering
  import opened Client

  /** The request every publishing command hands to `Config.Do`. */
  const WriteRequest := Relay(false, true, false, false, false)

  /** The relay address the article's `a` tag points at. */
  const ArticleRelay := "wss://yabu.me"

  /** The collaborators of the posting commands. */
  datatype Env = Env(
    kc: KeyCodec,
    npub: string -> Result<string>,           // nip19.EncodePublicKey
    profileKey: string -> Option<string>,      // sdk.InputToProfile(..).PublicKey
    eventId: string -> Option<string>,         // sdk.InputToEventPointer(..).ID
    sign: (Event, string) -> Result<string>,   // ev.Sign(sk), giving the event id
    clientTags: seq<Tag>,                      // what clientTag appends
    emojiTable: map<string, string>,           // the configured custom emojis
    links: string -> seq<string>,              // extractLinks
    emojis: string -> seq<string>,             // extractEmojis (":name:" entries)
    hashtags: string -> seq<string>,           // extractTags
    now: nat)                                  // nostr.Now()

  /** One publishing round: the relay iteration order, which relays accept
      a connection, and which accept which event. */
  datatype Net = Net(order: seq<string>, connects: string -> bool, publish: (string, Event) -> bool)

  /** Decimal digits, as `%d` prints a non-negative number. */
  function Decimal(n: nat): (s: string)
    ensures |s| >= 1
    ensures forall i :: 0 <= i < |s| ==> '0' <= s[i] <= '9'
  {
    var d := ('0' as int + n % 10) as char;
    if n < 10 then [d] else Decimal(n / 10) + [d]
  }

  /** The number a string of decimal digits denotes. */
  function DigitsValue(s: string): nat
    requires forall i :: 0 <= i < |s| ==> '0' <= s[i] <= '9'
  {
    if s == [] then 0 else DigitsValue(s[..|s| - 1]) * 10 + (s[|s| - 1] as int - '0' as int)
  }

  /** `%d` prints the number itself: its digits denote `n`, and only zero
      is written with a leading '0'. */
  lemma {:induction false} DecimalValue(n: nat)
    ensures DigitsValue(Decimal(n)) == n
    ensures Decimal(n)[0] == '0' <==> n == 0
  {
    if n >= 10 {
      DecimalValue(n / 10);
      var s := Decimal(n);
      assert s[..|s| - 1] == Decimal(n / 10);
      assert s[0] == Decimal(n / 10)[0];
    }
  }

  /** Different numbers print differently. */
  lemma DecimalInjective(m: nat, n: nat)
    requires Decimal(m) == Decimal(n)
    ensures m == n
  {
    DecimalValue(m);
    DecimalValue(n);
  }

  /** The key preamble of the posting commands: decode the secret key,
      derive the public key and check that it encodes as an npub. */
  function PosterKeys(privateKey: string, env: Env): (r: Result<Keys>)
    ensures r.Ok? ==> r == OwnKeys(privateKey, env.kc) && env.npub(r.value.pub).Ok?
    ensures OwnKeys(privateKey, env.kc).Fail? ==> r == OwnKeys(privateKey, env.kc)
  {
    match OwnKeys(privateKey, env.kc)
    case Fail(e) => Fail(e)
    case Ok(keys) =>
      match env.npub(keys.pub)
      case Fail(e) => Fail(e)
      case Ok(_) => Ok(keys)
  }

  /** Signing fills in the event id. */
  function Signed(ev: Event, sk: string, sign: (Event, string) -> Result<string>): (r: Result<Event>)
    ensures r.Ok? ==> r.value == ev.(id := r.value.id)
  {
    match sign(ev, sk)
    case Fail(e) => Fail(e)
    case Ok(id) => Ok(ev.(id := id))
  }

  // ---------------------------------------------------------------------
  // Publishing

  /** Some relay that serves the writing request `req`, connects and
      accepts `ev`. */
  ghost predicate Reaches(relays: map<string, Relay>, req: Relay, ev: Event, net: Net) {
    exists u :: u in relays && Serves(req, relays[u]) && net.connects(u) && net.publish(u, ev)
  }

  /** `cfg.Do(req, publish)` with its success counter, for a writing
      request such as `Relay{Write: true}`: the command fails with
      `cannot <verb>` exactly when no relay took the event. */
  method PublishAll(cfg: Config, req: Relay, ev: Event, net: Net, verb: string) returns (err: Option<Error>)
    requires Enumerates(net.order, cfg.relays)
    ensures err.None? <==> Reaches(cfg.relays, req, ev, net)
    ensures err.Some? ==> err.value == CannotPublish(verb)
  {
    var used := cfg.Do(req, net.order, net.connects);
    UsedExactly(net.order, cfg.relays, req, net.connects);
    var outcomes := seq(|used|, i requires 0 <= i < |used| => net.publish(used[i], ev));
    var success;
    success, err := CountPublished(outcomes, verb);
    if err.None? {
      var i :| 0 <= i < |outcomes| && outcomes[i];
      assert used[i] in used;
    } else {
      forall u | u in cfg.relays && Serves(req, cfg.relays[u]) && net.connects(u)
        ensures !net.publish(u, ev)
      {
        var i :| 0 <= i < |used| && used[i] == u;
        assert !outcomes[i];
      }
    }
  }

  // ---------------------------------------------------------------------
  // The tags of a note

  /** A two-element tag `name` per value, in order: the `r` tags of the
      extracted links and the `p` tags of the mentioned keys. */
  function PairTags(name: string, values: seq<string>): (r: seq<Tag>)
    ensures |r| == |values| && forall i :: 0 <= i < |values| ==> r[i] == [name, values[i]]
  {
    if values == [] then [] else PairTags(name, values[..|values| - 1]) + [[name, values[|values| - 1]]]
  }

  /** The `--emoji name=url` arguments: each must contain '=' and is cut at
      the first one into an `emoji` tag; one without '=' is a usage error. */
  function EmojiArgTags(args: seq<string>): (r: Result<seq<Tag>>)
    ensures r.Fail? <==> exists i :: 0 <= i < |args| && '=' !in args[i]
    ensures r.Fail? ==> r.error == Usage
    ensures r.Ok? ==> |r.value| == |args| && forall i :: 0 <= i < |args| ==>
              && |r.value[i]| == 3 && r.value[i][0] == "emoji" && '=' !in r.value[i][1]
              && args[i] == r.value[i][1] + "=" + r.value[i][2]
  {
    if args == [] then Ok([])
    else
      var a := args[|args| - 1];
      match EmojiArgTags(args[..|args| - 1])
      case Fail(e) =>
        assert forall i :: 0 <= i < |args| - 1 ==> args[..|args| - 1][i] == args[i];
        Fail(e)
      case Ok(ts) =>
        var c := CutAt(a, '=');
        if c.found then
          assert forall i :: 0 <= i < |args| - 1 ==> args[..|args| - 1][i] == args[i];
          Ok(ts + [["emoji", c.before, c.after]])
        else Fail(Usage)
  }

  /** The names of the `:name:` shortcodes found in the content, trimmed
      of their colons. */
  function Shortcodes(entries: seq<string>): seq<string> {
    seq(|entries|, i requires 0 <= i < |entries| => TrimChar(entries[i], ':'))
  }

  /** The `["emoji", name, url]` tags of the names the emoji table knows,
      in order. */
  function EmojiTags(names: seq<string>, table: map<string, string>): seq<Tag> {
    if names == [] then []
    else
      var name := names[|names| - 1];
      EmojiTags(names[..|names| - 1], table) + (if name in table then [["emoji", name, table[name]]] else [])
  }

  /** The custom emojis written in the content that the emoji table knows. */
  function ContentEmojiTags(entries: seq<string>, table: map<string, string>): seq<Tag> {
    EmojiTags(Shortcodes(entries), table)
  }

  /** Every tag is an `emoji` tag whose name the table knows and whose url
      is the table's. */
  lemma {:induction false} EmojiTagsConfigured(names: seq<string>, table: map<string, string>)
    ensures forall t :: t in EmojiTags(names, table) ==>
              |t| == 3 && t[0] == "emoji" && t[1] in table && t[2] == table[t[1]]
  {
    if names != [] {
      EmojiTagsConfigured(names[..|names| - 1], table);
    }
  }

  /** Every name the table knows gets its tag. */
  lemma {:induction false} EmojiTagsCover(names: seq<string>, table: map<string, string>, i: nat)
    requires i < |names| && names[i] in table
    ensures ["emoji", names[i], table[names[i]]] in EmojiTags(names, table)
  {
    if i < |names| - 1 {
      assert names[..|names| - 1][i] == names[i];
      EmojiTagsCover(names[..|names| - 1], table, i);
    }
  }

  /** Resolving user arguments to public keys, stopping at the first one
      that does not parse. */
  function ResolveKeys(us: seq<string>, profileKey: string -> Option<string>): (r: Result<seq<string>>)
    ensures r.Ok? <==> forall i :: 0 <= i < |us| ==> profileKey(us[i]).Some?
    ensures r.Ok? ==> |r.value| == |us| && forall i :: 0 <= i < |us| ==> r.value[i] == profileKey(us[i]).value
    ensures r.Fail? ==> exists i :: 0 <= i < |us| && profileKey(us[i]).None? && r.error == ParsePubkey(us[i])
                          && forall j :: 0 <= j < i ==> profileKey(us[j]).Some?
  {
    if us == [] then Ok([])
    else
      var u := us[|us| - 1];
      assert forall i :: 0 <= i < |us| - 1 ==> us[..|us| - 1][i] == us[i];
      match ResolveKeys(us[..|us| - 1], profileKey)
      case Fail(e) => Fail(e)
      case Ok(ks) =>
        match profileKey(u)
        case None => Fail(ParsePubkey(u))
        case Some(k) => Ok(ks + [k])
  }

  /** The content after `k` mentions: each mention puts `#[i] ` in front. */
  function Mentioned(content: string, k: nat): string {
    if k == 0 then content else "#[" + Decimal(k - 1) + "] " + Mentioned(content, k - 1)
  }

  /** Mentions only ever prefix the content: what the user wrote is still
      its tail, behind one `#[i] ` marker per mention. */
  lemma {:induction false} MentionedKeepsContent(content: string, k: nat)
    ensures |Mentioned(content, k)| >= |content| + 5 * k
    ensures Mentioned(content, k)[|Mentioned(content, k)| - |content|..] == content
  {
    if k > 0 {
      MentionedKeepsContent(content, k - 1);
      var prefix := "#[" + Decimal(k - 1) + "] ";
      var rest := Mentioned(content, k - 1);
      assert Mentioned(content, k) == prefix + rest;
      assert (prefix + rest)[|prefix + rest| - |content|..] == rest[|rest| - |content|..];
    }
  }

  /** A two-element tag when the option was given. */
  function OptionalTag(name: string, value: string): seq<Tag> {
    if value == "" then [] else [[name, value]]
  }

  /** The `t` tag of the extracted hashtags, absent when there are none. */
  function HashtagTags(hashtags: seq<string>): seq<Tag> {
    if hashtags == [] then [] else [["t"] + hashtags]
  }

  /** The arguments of `callPost`. */
  datatype PostArg = PostArg(
    content: string, sensitive: string, geohash: string,
    articleName: string, articleTitle: string, articleSummary: string,
    emoji: seq<string>, us: seq<string>)

  /** The tags of a long-form article (NIP-23). */
  function ArticleTags(pub: string, arg: PostArg, now: nat): seq<Tag> {
    [["d", arg.articleName], ["title", arg.articleTitle], ["summary", arg.articleSummary],
     ["published_at", Decimal(now)],
     ["a", Decimal(KindArticle) + ":" + pub + ":" + arg.articleName, ArticleRelay]]
  }

  /** The tags of a post up to the hashtag tag: `seed` (the client tag),
      then what `callPost` adds, in order. */
  function PlainPostTags(seed: seq<Tag>, arg: PostArg, env: Env, emojiTags: seq<Tag>, keys: seq<string>): seq<Tag> {
    seed
    + PairTags("r", env.links(arg.content))
    + emojiTags
    + ContentEmojiTags(env.emojis(arg.content), env.emojiTable)
    + PairTags("p", keys)
    + OptionalTag("content-warning", arg.sensitive)
    + OptionalTag("g", arg.geohash)
  }

  /** All tags of a post, in order. */
  function PostTags(seed: seq<Tag>, arg: PostArg, pub: string, env: Env, emojiTags: seq<Tag>, keys: seq<string>, content: string): seq<Tag> {
    PlainPostTags(seed, arg, env, emojiTags, keys)
    + HashtagTags(env.hashtags(content))
    + (if arg.articleName != "" then ArticleTags(pub, arg, env.now) else [])
  }

  /** The unsigned event `callPost` builds for the user `pub`, or the error
      it stops with. */
  function PostEvent(arg: PostArg, pub: string, env: Env): (r: Result<Event>)
    ensures r.Ok? ==> r.value.pubkey == pub && r.value.createdAt == env.now && r.value.id == ""
                      && r.value.kind == (if arg.articleName != "" then KindArticle else KindTextNote)
                      && r.value.content == Mentioned(arg.content, |arg.us|)
  {
    if TrimSpace(arg.content) == "" then Fail(ContentEmpty)
    else
      match EmojiArgTags(arg.emoji)
      case Fail(e) => Fail(e)
      case Ok(emojiTags) =>
        match ResolveKeys(arg.us, env.profileKey)
        case Fail(e) => Fail(e)
        case Ok(keys) =>
          var content := Mentioned(arg.content, |arg.us|);
          var kind := if arg.articleName != "" then KindArticle else KindTextNote;
          Ok(Event("", pub, env.now, kind, PostTags(env.clientTags, arg, pub, env, emojiTags, keys, content), content))
  }

  /** When `callPost` stops: blank content first, then an emoji argument
      without '=', then the first mention that does not resolve; otherwise
      the event is built. */
  lemma PostEventOutcome(arg: PostArg, pub: string, env: Env)
    ensures TrimSpace(arg.content) == "" ==> PostEvent(arg, pub, env) == Fail(ContentEmpty)
    ensures TrimSpace(arg.content) != "" && (exists i :: 0 <= i < |arg.emoji| && '=' !in arg.emoji[i]) ==>
              PostEvent(arg, pub, env) == Fail(Usage)
    ensures TrimSpace(arg.content) != "" && (forall i :: 0 <= i < |arg.emoji| ==> '=' in arg.emoji[i]) ==>
              if forall i :: 0 <= i < |arg.us| ==> env.profileKey(arg.us[i]).Some? then PostEvent(arg, pub, env).Ok?
              else exists i :: 0 <= i < |arg.us| && env.profileKey(arg.us[i]).None?
                               && (forall j :: 0 <= j < i ==> env.profileKey(arg.us[j]).Some?)
                               && PostEvent(arg, pub, env) == Fail(ParsePubkey(arg.us[i]))
  {
    if TrimSpace(arg.content) != "" {
      var et := EmojiArgTags(arg.emoji);
      var ks := ResolveKeys(arg.us, env.profileKey);
    }
  }

  /** The client tag comes first, then what `callPost` adds. */
  lemma PostEventTags(arg: PostArg, pub: string, env: Env)
    requires PostEvent(arg, pub, env).Ok?
    ensures EmojiArgTags(arg.emoji).Ok? && ResolveKeys(arg.us, env.profileKey).Ok?
    ensures PostEvent(arg, pub, env).value.tags ==
              PostTags(env.clientTags, arg, pub, env, EmojiArgTags(arg.emoji).value,
                                        ResolveKeys(arg.us, env.profileKey).value, Mentioned(arg.content, |arg.us|))
  {
  }

  /** Each `--emoji` argument of a successful post is in a tag, split at
      its first '='. */
  lemma PostTagsCarryEmojiArguments(arg: PostArg, pub: string, env: Env, i: nat)
    requires PostEvent(arg, pub, env).Ok? && i < |arg.emoji|
    ensures exists t :: t in PostEvent(arg, pub, env).value.tags && |t| == 3 && t[0] == "emoji"
                        && arg.emoji[i] == t[1] + "=" + t[2] && '=' !in t[1]
  {
    PostEventTags(arg, pub, env);
    var et := EmojiArgTags(arg.emoji).value;
    var keys := ResolveKeys(arg.us, env.profileKey).value;
    assert et[i] in PlainPostTags(env.clientTags, arg, env, et, keys);
  }

  /** Each mentioned user of a successful post is in a `p` tag. */
  lemma PostTagsCarryMentions(arg: PostArg, pub: string, env: Env, i: nat)
    requires PostEvent(arg, pub, env).Ok? && i < |arg.us|
    ensures ["p", env.profileKey(arg.us[i]).value] in PostEvent(arg, pub, env).value.tags
  {
    PostEventTags(arg, pub, env);
    var et := EmojiArgTags(arg.emoji).value;
    var keys := ResolveKeys(arg.us, env.profileKey).value;
    assert PairTags("p", keys)[i] in PlainPostTags(env.clientTags, arg, env, et, keys);
  }

  /** The warning, the geohash and the article fields of a successful post
      are in its tags when they were given. */
  lemma PostTagsCarryOptions(arg: PostArg, pub: string, env: Env)
    requires PostEvent(arg, pub, env).Ok?
    ensures var tags := PostEvent(arg, pub, env).value.tags;
            && (arg.sensitive != "" ==> ["content-warning", arg.sensitive] in tags)
            && (arg.geohash != "" ==> ["g", arg.geohash] in tags)
            && (arg.articleName != "" ==>
                  ["d", arg.articleName] in tags && ["title", arg.articleTitle] in tags
                  && ["summary", arg.articleSummary] in tags)
  {
    PostEventTags(arg, pub, env);
    var et := EmojiArgTags(arg.emoji).value;
    var keys := ResolveKeys(arg.us, env.profileKey).value;
    var plain := PlainPostTags(env.clientTags, arg, env, et, keys);
    if arg.sensitive != "" {
      assert ["content-warning", arg.sensitive] in plain;
    }
    if arg.geohash != "" {
      assert ["g", arg.geohash] in plain;
    }
    if arg.articleName != "" {
      var at := ArticleTags(pub, arg, env.now);
      assert at[0] in at && at[1] in at && at[2] in at;
    }
  }

  /** No tag `callPost` adds before the hashtag tag is named `t`. */
  lemma PlainPostTagsNotNamedT(seed: seq<Tag>, arg: PostArg, env: Env, emojiTags: seq<Tag>, keys: seq<string>, t: Tag)
    requires forall j :: 0 <= j < |emojiTags| ==> Named(emojiTags[j], "emoji")
    requires t in PlainPostTags(seed, arg, env, emojiTags, keys) && t !in seed
    ensures !Named(t, "t")
  {
    var links := PairTags("r", env.links(arg.content));
    var ce := ContentEmojiTags(env.emojis(arg.content), env.emojiTable);
    var p := PairTags("p", keys);
    var o1 := OptionalTag("content-warning", arg.sensitive);
    var o2 := OptionalTag("g", arg.geohash);
    assert t in links || t in emojiTags || t in ce || t in p || t in o1 || t in o2;
    if t in links {
      var i :| 0 <= i < |links| && links[i] == t;
    } else if t in emojiTags {
      var i :| 0 <= i < |emojiTags| && emojiTags[i] == t;
    } else if t in ce {
      EmojiTagsConfigured(Shortcodes(env.emojis(arg.content)), env.emojiTable);
    } else if t in p {
      var i :| 0 <= i < |p| && p[i] == t;
    } else if t in o1 {
      assert t == ["content-warning", arg.sensitive];
    } else {
      assert t == ["g", arg.geohash];
    }
  }

  /** Without hashtags, no tag of a post outside the client tag is named
      `t`: neither the earlier tag groups nor the article tags. */
  lemma PostTagsNotNamedT(seed: seq<Tag>, arg: PostArg, pub: string, env: Env, emojiTags: seq<Tag>,
                          keys: seq<string>, content: string, t: Tag)
    requires forall j :: 0 <= j < |emojiTags| ==> Named(emojiTags[j], "emoji")
    requires env.hashtags(content) == []
    requires t in PostTags(seed, arg, pub, env, emojiTags, keys, content) && t !in seed
    ensures !Named(t, "t")
  {
    var plain := PlainPostTags(seed, arg, env, emojiTags, keys);
    var at := if arg.articleName != "" then ArticleTags(pub, arg, env.now) else [];
    assert PostTags(seed, arg, pub, env, emojiTags, keys, content) == plain + at;
    if t in plain {
      PlainPostTagsNotNamedT(seed, arg, env, emojiTags, keys, t);
    } else {
      var i :| 0 <= i < |at| && at[i] == t;
    }
  }

  /** A successful post carries a `t` tag of the final content's hashtags
      when there are any; when there are none, every tag named `t` came
      from the client tag. */
  lemma PostHashtagTagIffHashtags(arg: PostArg, pub: string, env: Env)
    requires PostEvent(arg, pub, env).Ok?
    ensures var ev := PostEvent(arg, pub, env).value;
            && (env.hashtags(ev.content) != [] ==> ["t"] + env.hashtags(ev.content) in ev.tags)
            && (env.hashtags(ev.content) == [] ==> forall t :: t in ev.tags && Named(t, "t") ==> t in env.clientTags)
  {
    PostEventTags(arg, pub, env);
    var ev := PostEvent(arg, pub, env).value;
    var et := EmojiArgTags(arg.emoji).value;
    var keys := ResolveKeys(arg.us, env.profileKey).value;
    var plain := PlainPostTags(env.clientTags, arg, env, et, keys);
    var ht := HashtagTags(env.hashtags(ev.content));
    var at := if arg.articleName != "" then ArticleTags(pub, arg, env.now) else [];
    assert ev.tags == plain + ht + at;
    if env.hashtags(ev.content) != [] {
      assert ht[0] in ev.tags;
    } else {
      forall t | t in ev.tags && Named(t, "t") ensures t in env.clientTags {
        if t !in env.clientTags {
          PostTagsNotNamedT(env.clientTags, arg, pub, env, et, keys, ev.content, t);
        }
      }
    }
  }

  /** `callPost`'s loop over the extracted links. */
  method AppendLinkTags(tags0: seq<Tag>, links: seq<string>) returns (tags: seq<Tag>)
    ensures tags == tags0 + PairTags("r", links)
  {
    tags := tags0;
    var i := 0;
    while i < |links|
      invariant 0 <= i <= |links|
      invariant tags == tags0 + PairTags("r", links[..i])
    {
      assert links[..i + 1][..i] == links[..i];
      tags := tags + [["r", links[i]]];
      i := i + 1;
    }
    assert links[..i] == links;
  }

  /** The loop over the `--emoji` arguments, stopping at a usage error. */
  method AppendEmojiArgTags(tags0: seq<Tag>, args: seq<string>) returns (r: Result<seq<Tag>>)
    ensures EmojiArgTags(args).Fail? ==> r == Fail(Usage)
    ensures EmojiArgTags(args).Ok? ==> r == Ok(tags0 + EmojiArgTags(args).value)
  {
    var tags := tags0;
    var i := 0;
    while i < |args|
      invariant 0 <= i <= |args|
      invariant EmojiArgTags(args[..i]).Ok?
      invariant tags == tags0 + EmojiArgTags(args[..i]).value
    {
      assert args[..i + 1][..i] == args[..i];
      var c := CutAt(args[i], '=');
      if !c.found {
        assert '=' !in args[..i + 1][i];
        assert EmojiArgTags(args).Fail? by {
          assert '=' !in args[i];
        }
        return Fail(Usage);
      }
      tags := tags + [["emoji", c.before, c.after]];
      i := i + 1;
    }
    assert args[..i] == args;
    return Ok(tags);
  }

  /** The loop over the shortcodes written in the content. */
  method AppendContentEmojiTags(tags0: seq<Tag>, entries: seq<string>, table: map<string, string>) returns (tags: seq<Tag>)
    ensures tags == tags0 + ContentEmojiTags(entries, table)
  {
    ghost var names := Shortcodes(entries);
    tags := tags0;
    var i := 0;
    while i < |entries|
      invariant 0 <= i <= |entries|
      invariant tags == tags0 + EmojiTags(names[..i], table)
    {
      var name := TrimChar(entries[i], ':');
      ghost var added: seq<Tag> := if name in table then [["emoji", name, table[name]]] else [];
      assert EmojiTags(names[..i + 1], table) == EmojiTags(names[..i], table) + added by {
        assert names[..i + 1][..i] == names[..i];
        assert names[..i + 1][i] == name;
      }
      if name in table {
        tags := tags + [["emoji", name, table[name]]];
      }
      i := i + 1;
    }
    assert names[..i] == names;
  }

  /** The loop over the `-u` mentions: each puts `#[i] ` in front of the
      content and adds a `p` tag, stopping at a user that does not parse. */
  method AppendMentions(tags0: seq<Tag>, content0: string, us: seq<string>, profileKey: string -> Option<string>)
    returns (r: Result<(seq<Tag>, string)>)
    ensures ResolveKeys(us, profileKey).Fail? ==> r == Fail(ResolveKeys(us, profileKey).error)
    ensures ResolveKeys(us, profileKey).Ok? ==>
              r == Ok((tags0 + PairTags("p", ResolveKeys(us, profileKey).value), Mentioned(content0, |us|)))
  {
    var tags := tags0;
    var content := content0;
    var i := 0;
    while i < |us|
      invariant 0 <= i <= |us|
      invariant ResolveKeys(us[..i], profileKey).Ok?
      invariant tags == tags0 + PairTags("p", ResolveKeys(us[..i], profileKey).value)
      invariant content == Mentioned(content0, i)
    {
      assert us[..i + 1][..i] == us[..i];
      assert us[..i + 1][i] == us[i];
      content := "#[" + Decimal(i) + "] " + content;
      var pk := profileKey(us[i]);
      if pk.None? {
        assert ResolveKeys(us[..i + 1], profileKey) == Fail(ParsePubkey(us[i]));
        ResolveKeysStops(us, profileKey, i);
        return Fail(ParsePubkey(us[i]));
      }
      tags := tags + [["p", pk.value]];
      i := i + 1;
    }
    assert us[..i] == us;
    return Ok((tags, content));
  }

  /** Resolution stops at the first user that does not parse: whatever
      follows it does not change the error. */
  lemma ResolveKeysStops(us: seq<string>, profileKey: string -> Option<string>, i: nat)
    requires i < |us| && ResolveKeys(us[..i + 1], profileKey).Fail?
    ensures ResolveKeys(us, profileKey) == ResolveKeys(us[..i + 1], profileKey)
    decreases |us|
  {
    if |us| > i + 1 {
      var init := us[..|us| - 1];
      assert init[..i + 1] == us[..i + 1];
      ResolveKeysStops(init, profileKey, i);
    } else {
      assert us[..i + 1] == us;
    }
  }

  /** The tag groups of `callPost` up to the geohash, with the mentioned
      content, or the error of the emoji arguments or of the mentions. */
  method BuildPlainPost(arg: PostArg, env: Env) returns (r: Result<(seq<Tag>, string)>)
    ensures EmojiArgTags(arg.emoji).Fail? ==> r == Fail(EmojiArgTags(arg.emoji).error)
    ensures EmojiArgTags(arg.emoji).Ok? && ResolveKeys(arg.us, env.profileKey).Fail? ==>
              r == Fail(ResolveKeys(arg.us, env.profileKey).error)
    ensures EmojiArgTags(arg.emoji).Ok? && ResolveKeys(arg.us, env.profileKey).Ok? ==>
              r == Ok((PlainPostTags(env.clientTags, arg, env, EmojiArgTags(arg.emoji).value, ResolveKeys(arg.us, env.profileKey).value),
                       Mentioned(arg.content, |arg.us|)))
  {
    var tags := AppendLinkTags(env.clientTags, env.links(arg.content));
    var withEmoji := AppendEmojiArgTags(tags, arg.emoji);
    if withEmoji.Fail? {
      return Fail(withEmoji.error);
    }
    ghost var et := EmojiArgTags(arg.emoji).value;
    ghost var ce := ContentEmojiTags(env.emojis(arg.content), env.emojiTable);
    tags := AppendContentEmojiTags(withEmoji.value, env.emojis(arg.content), env.emojiTable);
    assert tags == env.clientTags + PairTags("r", env.links(arg.content)) + et + ce;
    var mentioned := AppendMentions(tags, arg.content, arg.us, env.profileKey);
    if mentioned.Fail? {
      return Fail(mentioned.error);
    }
    ghost var keys := ResolveKeys(arg.us, env.profileKey).value;
    tags := mentioned.value.0;
    assert tags == env.clientTags + PairTags("r", env.links(arg.content)) + et + ce + PairTags("p", keys);
    tags := tags + OptionalTag("content-warning", arg.sensitive) + OptionalTag("g", arg.geohash);
    assert tags == PlainPostTags(env.clientTags, arg, env, et, keys);
    return Ok((tags, mentioned.value.1));
  }

  /** Builds the event as `callPost` does, tag group by tag group. */
  method BuildPost(arg: PostArg, pub: string, env: Env) returns (r: Result<Event>)
    ensures r == PostEvent(arg, pub, env)
  {
    if TrimSpace(arg.content) == "" {
      return Fail(ContentEmpty);
    }
    var plain := BuildPlainPost(arg, env);
    if plain.Fail? {
      return Fail(plain.error);
    }
    ghost var et := EmojiArgTags(arg.emoji).value;
    ghost var keys := ResolveKeys(arg.us, env.profileKey).value;
    var tags := plain.value.0;
    var content := plain.value.1;
    var hashtag := HashtagTag(env.hashtags(content));
    if |hashtag| > 1 {
      tags := tags + [hashtag];
    }
    assert tags == PlainPostTags(env.clientTags, arg, env, et, keys) + HashtagTags(env.hashtags(content));
    var kind := KindTextNote;
    if arg.articleName != "" {
      kind := KindArticle;
      tags := tags + ArticleTags(pub, arg, env.now);
    }
    assert tags == PostTags(env.clientTags, arg, pub, env, et, keys, content);
    r := Ok(Event("", pub, env.now, kind, tags, content));
  }

  /** The loop that collects the hashtags into one `t` tag. */
  method HashtagTag(hs: seq<string>) returns (hashtag: Tag)
    ensures hashtag == ["t"] + hs
    ensures |hashtag| > 1 <==> hs != []
  {
    hashtag := ["t"];
    var i := 0;
    while i < |hs|
      invariant 0 <= i <= |hs|
      invariant hashtag == ["t"] + hs[..i]
    {
      assert hs[..i + 1] == hs[..i] + [hs[i]];
      hashtag := hashtag + [hs[i]];
      i := i + 1;
    }
    assert hs[..i] == hs;
  }

  /** `callPost`: keys, the event, its signature, then one publishing
      round. The command succeeds exactly when some write relay accepted
      the signed event. */
  method CallPost(cfg: Config, arg: PostArg, env: Env, net: Net) returns (err: Option<Error>)
    requires Enumerates(net.order, cfg.relays)
    ensures PosterKeys(cfg.privateKey, env).Fail? ==> err == Some(PosterKeys(cfg.privateKey, env).error)
    ensures PosterKeys(cfg.privateKey, env).Ok? ==>
              var keys := PosterKeys(cfg.privateKey, env).value;
              var ev := PostEvent(arg, keys.pub, env);
              && (ev.Fail? ==> err == Some(ev.error))
              && (ev.Ok? && Signed(ev.value, keys.sk, env.sign).Fail? ==> err == Some(Signed(ev.value, keys.sk, env.sign).error))
              && (ev.Ok? && Signed(ev.value, keys.sk, env.sign).Ok? ==>
                    (err.None? <==> Reaches(cfg.relays, WriteRequest, Signed(ev.value, keys.sk, env.sign).value, net))
                    && (err.Some? ==> err == Some(CannotPublish("post"))))
  {
    var keys := PosterKeys(cfg.privateKey, env);
    if keys.Fail? {
      return Some(keys.error);
    }
    var ev := BuildPost(arg, keys.value.pub, env);
    if ev.Fail? {
      return Some(ev.error);
    }
    var signed := Signed(ev.value, keys.value.sk, env.sign);
    if signed.Fail? {
      return Some(signed.error);
    }
    err := PublishAll(cfg, WriteRequest, signed.value, net, "post");
  }

  /** `doPost`'s checks before `callPost`: without `--stdin` there must be
      arguments, and an article name needs a title. The content is the
      arguments joined by newlines, or what standard input held. */
  function PostContent(stdin: Option<string>, args: seq<string>, articleName: string, articleTitle: string): (r: Result<string>)
    ensures r.Fail? <==> (stdin.None? && args == []) || (articleName != "" && articleTitle == "")
    ensures r.Fail? ==> r.error == Help
    ensures r.Ok? && stdin.Some? ==> r.value == stdin.value
    ensures r.Ok? && stdin.None? ==> r.value == Join(args, '\n')
  {
    if stdin.None? && args == [] then Fail(Help)
    else if articleName != "" && articleTitle == "" then Fail(Help)
    else if stdin.Some? then Ok(stdin.value)
    else Ok(Join(args, '\n'))
  }

  /** The arguments can be read back from the content when none of them
      spans lines. */
  lemma PostContentRecoversArguments(args: seq<string>, articleName: string, articleTitle: string)
    requires PostContent(None, args, articleName, articleTitle).Ok?
    requires forall i :: 0 <= i < |args| ==> '\n' !in args[i]
    ensures Split(PostContent(None, args, articleName, articleTitle).value, '\n') == args
  {
    SplitJoin(args, '\n');
  }

  // ---------------------------------------------------------------------
  // Replies

  /** The arguments of `doReply`: `content` is what `--stdin` read or the
      joined arguments; `hasContent` is false when neither was given. */
  datatype ReplyArg = ReplyArg(
    id: string, quote: bool, hasContent: bool, content: string,
    sensitive: string, geohash: string, emoji: seq<string>)

  /** The `e` tag a relay adds to a reply before publishing it: a reply,
      or with `--quote` a mention, of `id` as seen on `url`. */
  function ReplyTag(id: string, url: string, quote: bool): Tag {
    ["e", id, url, if quote then "mention" else "reply"]
  }

  function ReplyTags(id: string, urls: seq<string>, quote: bool): (r: seq<Tag>)
    ensures |r| == |urls| && forall i :: 0 <= i < |urls| ==> r[i] == ReplyTag(id, urls[i], quote)
  {
    if urls == [] then [] else ReplyTags(id, urls[..|urls| - 1], quote) + [ReplyTag(id, urls[|urls| - 1], quote)]
  }

  /** The post arguments a reply is built from: its content, warning,
      geohash and `--emoji` arguments, with no mentions and no article. */
  function ReplyAsPost(arg: ReplyArg): PostArg {
    PostArg(arg.content, arg.sensitive, arg.geohash, "", "", "", arg.emoji, [])
  }

  /** The reply before any relay added its `e` tag: without content the
      sub-command help is shown, blank content is refused, an `--emoji`
      argument without '=' shows the help; otherwise the tags are those of
      a post (client tag, links, emoji arguments, configured emojis,
      warning, geohash, hashtags). */
  function ReplyBase(arg: ReplyArg, pub: string, env: Env): (r: Result<Event>)
    ensures r.Fail? <==> !arg.hasContent || TrimSpace(arg.content) == "" || EmojiArgTags(arg.emoji).Fail?
    ensures !arg.hasContent ==> r == Fail(Help)
    ensures arg.hasContent && TrimSpace(arg.content) == "" ==> r == Fail(ContentEmpty)
    ensures arg.hasContent && TrimSpace(arg.content) != "" && EmojiArgTags(arg.emoji).Fail? ==> r == Fail(Help)
    ensures r.Ok? ==> r.value.id == "" && r.value.kind == KindTextNote && r.value.pubkey == pub
                      && r.value.createdAt == env.now && r.value.content == arg.content
  {
    if !arg.hasContent then Fail(Help)
    else if TrimSpace(arg.content) == "" then Fail(ContentEmpty)
    else
      match EmojiArgTags(arg.emoji)
      case Fail(_) => Fail(Help)
      case Ok(emojiTags) =>
        Ok(Event("", pub, env.now, KindTextNote,
                 PostTags(env.clientTags, ReplyAsPost(arg), pub, env, emojiTags, [], arg.content),
                 arg.content))
  }

  /** A reply with content is the note `callPost` would build from the same
      content, warning, geohash and emoji arguments; where the post stops
      with the usage error, the reply shows the help instead. */
  lemma ReplyBaseIsPost(arg: ReplyArg, pub: string, env: Env)
    requires arg.hasContent
    ensures ReplyBase(arg, pub, env).Ok? <==> PostEvent(ReplyAsPost(arg), pub, env).Ok?
    ensures ReplyBase(arg, pub, env).Ok? ==> ReplyBase(arg, pub, env) == PostEvent(ReplyAsPost(arg), pub, env)
    ensures PostEvent(ReplyAsPost(arg), pub, env) == Fail(ContentEmpty) ==> ReplyBase(arg, pub, env) == Fail(ContentEmpty)
    ensures PostEvent(ReplyAsPost(arg), pub, env) == Fail(Usage) ==> ReplyBase(arg, pub, env) == Fail(Help)
  {
    var p := ReplyAsPost(arg);
    assert ResolveKeys(p.us, env.profileKey) == Ok([]);
    assert Mentioned(p.content, |p.us|) == arg.content;
  }

  /** Each `--emoji` argument of a reply is in a tag, split at its first
      '='. */
  lemma ReplyTagsCarryEmojiArguments(arg: ReplyArg, pub: string, env: Env, i: nat)
    requires ReplyBase(arg, pub, env).Ok? && i < |arg.emoji|
    ensures exists t :: t in ReplyBase(arg, pub, env).value.tags && |t| == 3 && t[0] == "emoji"
                        && arg.emoji[i] == t[1] + "=" + t[2] && '=' !in t[1]
  {
    ReplyBaseIsPost(arg, pub, env);
    PostTagsCarryEmojiArguments(ReplyAsPost(arg), pub, env, i);
  }

  /** The warning and the geohash of a reply are in its tags when they were
      given; it carries a `t` tag of its hashtags when there are any, and
      otherwise no tag named `t` outside the client tag. */
  lemma ReplyTagsCarryOptions(arg: ReplyArg, pub: string, env: Env)
    requires ReplyBase(arg, pub, env).Ok?
    ensures var tags := ReplyBase(arg, pub, env).value.tags;
            && (arg.sensitive != "" ==> ["content-warning", arg.sensitive] in tags)
            && (arg.geohash != "" ==> ["g", arg.geohash] in tags)
            && (env.hashtags(arg.content) != [] ==> ["t"] + env.hashtags(arg.content) in tags)
            && (env.hashtags(arg.content) == [] ==> forall t :: t in tags && Named(t, "t") ==> t in env.clientTags)
  {
    ReplyBaseIsPost(arg, pub, env);
    PostTagsCarryOptions(ReplyAsPost(arg), pub, env);
    PostHashtagTagIffHashtags(ReplyAsPost(arg), pub, env);
  }

  /** The reply as the relay at position `k` of the round publishes it:
      every relay appends its own `e` tag to the one shared event, so the
      k-th relay's copy carries the tags of relays 0..k. */
  function ReplyAt(base: Event, id: string, used: seq<string>, quote: bool, k: nat): (r: Event)
    requires k < |used|
    ensures |r.tags| == |base.tags| + k + 1
    ensures r.tags[|r.tags| - 1] == ReplyTag(id, used[k], quote)
    ensures forall j :: 0 <= j < |base.tags| ==> r.tags[j] == base.tags[j]
  {
    base.(tags := base.tags + ReplyTags(id, used[..k + 1], quote))
  }

  /** Whether relay `k` of the round counted as a success: its copy was
      signed and accepted. */
  predicate ReplyLanded(base: Event, id: string, used: seq<string>, quote: bool, k: nat, sk: string,
                        sign: (Event, string) -> Result<string>, net: Net)
    requires k < |used|
  {
    var s := Signed(ReplyAt(base, id, used, quote, k), sk, sign);
    s.Ok? && net.publish(used[k], s.value)
  }

  /** The `Do` callback of `doReply`, relay after relay: tag the shared
      event, sign it (a relay whose copy cannot be signed is skipped),
      publish it and count the successes. */
  method ReplyRound(base: Event, id: string, used: seq<string>, quote: bool, sk: string,
                    sign: (Event, string) -> Result<string>, net: Net) returns (success: nat)
    ensures success == 0 <==> forall k :: 0 <= k < |used| ==> !ReplyLanded(base, id, used, quote, k, sk, sign, net)
  {
    var ev := base;
    success := 0;
    var k := 0;
    while k < |used|
      invariant 0 <= k <= |used|
      invariant ev == base.(tags := base.tags + ReplyTags(id, used[..k], quote))
      invariant success == 0 <==> forall j :: 0 <= j < k ==> !ReplyLanded(base, id, used, quote, j, sk, sign, net)
    {
      assert used[..k + 1][..k] == used[..k];
      ev := ev.(tags := ev.tags + [ReplyTag(id, used[k], quote)]);
      assert ev == ReplyAt(base, id, used, quote, k);
      var s := Signed(ev, sk, sign);
      assert ReplyLanded(base, id, used, quote, k, sk, sign, net) <==> s.Ok? && net.publish(used[k], s.value);
      if s.Ok? && net.publish(used[k], s.value) {
        success := success + 1;
      }
      k := k + 1;
    }
  }

  /** `doReply`: usage, keys, the target event, the shared reply; then each
      relay of the round tags, signs and publishes it. The command fails
      with `cannot reply` exactly when no relay's copy landed. */
  method CallReply(cfg: Config, arg: ReplyArg, env: Env, net: Net) returns (err: Option<Error>)
    requires Enumerates(net.order, cfg.relays)
    ensures !arg.hasContent ==> err == Some(Help)
    ensures arg.hasContent && PosterKeys(cfg.privateKey, env).Fail? ==> err == Some(PosterKeys(cfg.privateKey, env).error)
    ensures arg.hasContent && PosterKeys(cfg.privateKey, env).Ok? && env.eventId(arg.id).None? ==>
              err == Some(ParseEvent(arg.id))
    ensures arg.hasContent && PosterKeys(cfg.privateKey, env).Ok? && env.eventId(arg.id).Some? ==>
              var keys := PosterKeys(cfg.privateKey, env).value;
              var base := ReplyBase(arg, keys.pub, env);
              var used := Used(net.order, cfg.relays, WriteRequest, net.connects);
              && (base.Fail? ==> err == Some(base.error))
              && (base.Ok? ==>
                    (err.None? <==> exists k :: 0 <= k < |used|
                                       && ReplyLanded(base.value, env.eventId(arg.id).value, used, arg.quote, k, keys.sk, env.sign, net))
                    && (err.Some? ==> err == Some(CannotPublish("reply"))))
  {
    if !arg.hasContent {
      return Some(Help);
    }
    var keys := PosterKeys(cfg.privateKey, env);
    if keys.Fail? {
      return Some(keys.error);
    }
    var target := env.eventId(arg.id);
    if target.None? {
      return Some(ParseEvent(arg.id));
    }
    var base := ReplyBase(arg, keys.value.pub, env);
    if base.Fail? {
      return Some(base.error);
    }
    var used := cfg.Do(WriteRequest, net.order, net.connects);
    var success := ReplyRound(base.value, target.value, used, arg.quote, keys.value.sk, env.sign, net);
    if success == 0 {
      return Some(CannotPublish("reply"));
    }
    return None;
  }

  // ---------------------------------------------------------------------
  // Reactions (doLike)

  /** The reaction's content and its emoji tag: with a custom emoji the
      content (or "like" when empty) becomes the shortcode ":name:" and the
      tag [emoji, name, url] is added; without one an empty content becomes
      "+". */
  function ReactionContent(content: string, emoji: string): (r: string)
    ensures r != ""
    ensures emoji == "" ==> (content != "" ==> r == content) && (content == "" ==> r == "+")
    ensures emoji != "" ==> r == [':'] + ReactionName(content) + [':']
  {
    if emoji != "" then ":" + ReactionName(content) + ":"
    else if content == "" then "+"
    else content
  }

  /** The shortcode name of a custom-emoji reaction. */
  function ReactionName(content: string): string {
    if content == "" then "like" else content
  }

  function ReactionTags(content: string, emoji: string): (r: seq<Tag>)
    ensures emoji == "" ==> r == []
    ensures emoji != "" ==> r == [["emoji", ReactionName(content), emoji]]
  {
    if emoji != "" then [["emoji", ReactionName(content), emoji]] else []
  }

  /** The shortcode in a custom-emoji reaction names the emoji of its tag:
      trimming the colons off the content gives the tag's name. */
  lemma ReactionShortcodeNamesEmoji(content: string, emoji: string)
    requires emoji != ""
    requires content == "" || (content[0] != ':' && content[|content| - 1] != ':')
    ensures TrimChar(ReactionContent(content, emoji), ':') == ReactionTags(content, emoji)[0][1]
  {
    TrimCharWrapped(ReactionName(content), ':');
  }

  /** The reaction before any relay was asked about the target note. */
  function LikeBase(id: string, pub: string, content: string, emoji: string, now: nat): (r: Event)
    ensures r.id == "" && r.pubkey == pub && r.kind == KindReaction && r.createdAt == now
    ensures r.tags == [["e", id]] + ReactionTags(content, emoji)
    ensures r.content == ReactionContent(content, emoji)
  {
    Event("", pub, now, KindReaction, [["e", id]] + ReactionTags(content, emoji), ReactionContent(content, emoji))
  }

  /** The query for the target note. */
  function LikeFilter(id: string): Filter {
    Filter([KindTextNote], [], [id], map[], "", 0)
  }

  /** The state the `Do` callback of `callLike` shares across relays: whether
      the target is still to be fetched (`first`), the reaction, and the
      number of relays that accepted it. */
  datatype LikeRound = LikeRound(pending: bool, ev: Event, success: nat)

  function NoteId(e: Event): string { e.id }

  function NoteAuthor(e: Event): string { e.pubkey }

  /** The shared reaction after a relay returned the target notes `evs`:
      one `p` tag per note, holding `key` of the note. */
  function Targeted(ev: Event, evs: seq<Event>, key: Event -> string): (r: Event)
    ensures r == ev.(tags := r.tags)
    ensures |r.tags| == |ev.tags| + |evs|
    ensures forall j :: 0 <= j < |ev.tags| ==> r.tags[j] == ev.tags[j]
    ensures forall i :: 0 <= i < |evs| ==> r.tags[|ev.tags| + i] == ["p", key(evs[i])]
  {
    ev.(tags := ev.tags + PairTags("p", seq(|evs|, i requires 0 <= i < |evs| => key(evs[i]))))
  }

  /** A relay publishes the shared reaction once the target was fetched. */
  function LikePublish(r: LikeRound, u: string, publish: (string, Event) -> bool): (r': LikeRound)
    ensures r'.pending == r.pending && r'.ev == r.ev
    ensures r'.success == r.success + (if publish(u, r.ev) then 1 else 0)
  {
    if publish(u, r.ev) then r.(success := r.success + 1) else r
  }

  /** One relay's turn of the callback as `callLike` is written: the relay
      that fetches the target adds `p` tags holding the notes' IDS, signs
      and returns without publishing; later relays publish. */
  function LikeTurnAsWritten(r: LikeRound, u: string, filter: Filter, sk: string, sign: (Event, string) -> Result<string>,
                             fetch: (string, Filter) -> Option<seq<Event>>, publish: (string, Event) -> bool): LikeRound
  {
    if !r.pending then LikePublish(r, u, publish)
    else
      match fetch(u, filter)
      case None => r
      case Some(evs) =>
        var tagged := Targeted(r.ev, evs, NoteId);
        match Signed(tagged, sk, sign)
        case Fail(_) => LikeRound(false, tagged, r.success)
        case Ok(s) => LikeRound(false, s, r.success)
  }

  function LikeRunAsWritten(r: LikeRound, used: seq<string>, filter: Filter, sk: string, sign: (Event, string) -> Result<string>,
                            fetch: (string, Filter) -> Option<seq<Event>>, publish: (string, Event) -> bool): LikeRound
  {
    if used == [] then r
    else LikeTurnAsWritten(LikeRunAsWritten(r, used[..|used| - 1], filter, sk, sign, fetch, publish),
                           used[|used| - 1], filter, sk, sign, fetch, publish)
  }

  /** One relay's turn as `doRepost` does it and as the reaction needs: the
      `p` tags hold the AUTHORS' keys, and the relay that fetched and signed
      publishes too. */
  function LikeTurn(r: LikeRound, u: string, filter: Filter, sk: string, sign: (Event, string) -> Result<string>,
                    fetch: (string, Filter) -> Option<seq<Event>>, publish: (string, Event) -> bool): LikeRound
  {
    if !r.pending then LikePublish(r, u, publish)
    else
      match fetch(u, filter)
      case None => r
      case Some(evs) =>
        var tagged := Targeted(r.ev, evs, NoteAuthor);
        match Signed(tagged, sk, sign)
        case Fail(_) => LikeRound(false, tagged, r.success)
        case Ok(s) => LikePublish(LikeRound(false, s, r.success), u, publish)
  }

  function LikeRun(r: LikeRound, used: seq<string>, filter: Filter, sk: string, sign: (Event, string) -> Result<string>,
                   fetch: (string, Filter) -> Option<seq<Event>>, publish: (string, Event) -> bool): LikeRound
  {
    if used == [] then r
    else LikeTurn(LikeRun(r, used[..|used| - 1], filter, sk, sign, fetch, publish),
                  used[|used| - 1], filter, sk, sign, fetch, publish)
  }

  /** As written, the relay that fetches the target never publishes: until
      the fetch nothing is counted, and afterwards at most one success per
      remaining relay. So with a single write relay a reaction can never be
      published and `callLike` always reports `cannot like`. */
  lemma {:induction false} LikeAsWrittenSkipsFetchingRelay(ev: Event, used: seq<string>, filter: Filter, sk: string,
                                                           sign: (Event, string) -> Result<string>,
                                                           fetch: (string, Filter) -> Option<seq<Event>>, publish: (string, Event) -> bool)
    ensures var r := LikeRunAsWritten(LikeRound(true, ev, 0), used, filter, sk, sign, fetch, publish);
            (r.pending ==> r.success == 0) && r.success + (if r.pending then 0 else 1) <= |used|
    ensures used != [] ==> LikeRunAsWritten(LikeRound(true, ev, 0), used, filter, sk, sign, fetch, publish).success < |used|
  {
    if used != [] {
      LikeAsWrittenSkipsFetchingRelay(ev, used[..|used| - 1], filter, sk, sign, fetch, publish);
    }
  }

  /** As written, even when every relay answers, signing works and every
      relay accepts, one relay fewer than used carries the reaction. */
  lemma {:induction false} LikeAsWrittenAllAccept(ev: Event, used: seq<string>, filter: Filter, sk: string,
                                                  sign: (Event, string) -> Result<string>,
                                                  fetch: (string, Filter) -> Option<seq<Event>>, publish: (string, Event) -> bool)
    requires used != [] && fetch(used[0], filter).Some?
    requires forall e: Event :: sign(e, sk).Ok?
    requires forall u, e :: publish(u, e)
    ensures var r := LikeRunAsWritten(LikeRound(true, ev, 0), used, filter, sk, sign, fetch, publish);
            !r.pending && r.success == |used| - 1
  {
    if |used| > 1 {
      var init := used[..|used| - 1];
      assert init[0] == used[0];
      LikeAsWrittenAllAccept(ev, init, filter, sk, sign, fetch, publish);
    }
  }

  /** Corrected, under the same conditions every used relay carries the
      reaction. */
  lemma {:induction false} LikeAllAccept(ev: Event, used: seq<string>, filter: Filter, sk: string,
                                         sign: (Event, string) -> Result<string>,
                                         fetch: (string, Filter) -> Option<seq<Event>>, publish: (string, Event) -> bool)
    requires used != [] && fetch(used[0], filter).Some?
    requires forall e: Event :: sign(e, sk).Ok?
    requires forall u, e :: publish(u, e)
    ensures var r := LikeRun(LikeRound(true, ev, 0), used, filter, sk, sign, fetch, publish);
            !r.pending && r.success == |used|
  {
    if |used| > 1 {
      var init := used[..|used| - 1];
      assert init[0] == used[0];
      LikeAllAccept(ev, init, filter, sk, sign, fetch, publish);
    }
  }

  /** The `p` tag as written names the target note's ID where the
      reaction's author is meant: for a note whose ID and author differ,
      the tag misses the author. */
  lemma LikeAsWrittenTagsNoteId(ev: Event, target: Event)
    requires target.id != target.pubkey
    ensures Targeted(ev, [target], NoteId).tags[|ev.tags|] == ["p", target.id]
    ensures Targeted(ev, [target], NoteId).tags[|ev.tags|] != ["p", target.pubkey]
    ensures Targeted(ev, [target], NoteAuthor).tags[|ev.tags|] == ["p", target.pubkey]
  {
    var t: Tag := ["p", target.id];
    assert t[1] != target.pubkey;
  }

  /** `callLike`, with the two corrections above: keys, the target's event
      id, the reaction; then each used relay in turn fetches the target
      (until one answers), or publishes. The command fails with `cannot like`
      exactly when no relay took the reaction. */
  method CallLike(cfg: Config, id: string, content: string, emoji: string, env: Env, net: Net,
                  fetch: (string, Filter) -> Option<seq<Event>>) returns (err: Option<Error>)
    requires Enumerates(net.order, cfg.relays)
    ensures PosterKeys(cfg.privateKey, env).Fail? ==> err == Some(PosterKeys(cfg.privateKey, env).error)
    ensures PosterKeys(cfg.privateKey, env).Ok? && env.eventId(id).None? ==> err == Some(ParseEvent(id))
    ensures PosterKeys(cfg.privateKey, env).Ok? && env.eventId(id).Some? ==>
              var keys := PosterKeys(cfg.privateKey, env).value;
              var target := env.eventId(id).value;
              var r := LikeRun(LikeRound(true, LikeBase(target, keys.pub, content, emoji, env.now), 0),
                               Used(net.order, cfg.relays, WriteRequest, net.connects),
                               LikeFilter(target), keys.sk, env.sign, fetch, net.publish);
              (err.None? <==> r.success > 0) && (err.Some? ==> err == Some(CannotPublish("like")))
  {
    var keys := PosterKeys(cfg.privateKey, env);
    if keys.Fail? {
      return Some(keys.error);
    }
    var target := env.eventId(id);
    if target.None? {
      return Some(ParseEvent(id));
    }
    var sk := keys.value.sk;
    var filter := LikeFilter(target.value);
    var start := LikeRound(true, LikeBase(target.value, keys.value.pub, content, emoji, env.now), 0);
    var used := cfg.Do(WriteRequest, net.order, net.connects);
    var first, ev, success := true, start.ev, 0;
    var k := 0;
    while k < |used|
      invariant 0 <= k <= |used|
      invariant LikeRound(first, ev, success) == LikeRun(start, used[..k], filter, sk, env.sign, fetch, net.publish)
    {
      assert used[..k + 1][..k] == used[..k];
      var publishNow := !first;
      if first {
        var evs := fetch(used[k], filter);
        if evs.Some? {
          ev := Targeted(ev, evs.value, NoteAuthor);
          first := false;
          var signed := Signed(ev, sk, env.sign);
          if signed.Ok? {
            ev := signed.value;
            publishNow := true;
          }
        }
      }
      if publishNow && net.publish(used[k], ev) {
        success := success + 1;
      }
      k := k + 1;
    }
    assert used[..k] == used;
    if success == 0 {
      return Some(CannotPublish("like"));
    }
    return None;
  }

  // ---------------------------------------------------------------------
  // Raw events (doEvent) and stream filters (doStream)

  /** A `--tag` argument of `doEvent`: "n=v1;v2" is the tag [n, v1, v2],
      a bare "n" the tag [n]. */
  function EventTag(s: string): (t: Tag)
    ensures |t| >= 1
  {
    var c := CutAt(s, '=');
    if c.found then [c.before] + Split(c.after, ';') else [c.before]
  }

  /** The argument can be read back from its tag: nothing is lost. */
  lemma EventTagRecoversArgument(s: string)
    ensures var t := EventTag(s);
            s == (if '=' in s then t[0] + "=" + Join(t[1..], ';') else t[0])
  {
    var c := CutAt(s, '=');
    if c.found {
      JoinSplit(c.after, ';');
      assert EventTag(s)[1..] == Split(c.after, ';');
    }
  }

  /** And a tag whose name has no '=' and whose values have no ';' is
      produced by exactly the argument that spells it out. */
  lemma EventTagFromSpelling(name: string, values: seq<string>)
    requires '=' !in name
    requires forall i :: 0 <= i < |values| ==> ';' !in values[i]
    ensures values == [] ==> EventTag(name) == [name]
    ensures values != [] ==> EventTag(name + "=" + Join(values, ';')) == [name] + values
  {
    if values != [] {
      CutOfJoined(name, '=', Join(values, ';'));
      SplitJoin(values, ';');
    }
  }

  function EventTags(args: seq<string>): (r: seq<Tag>)
    ensures |r| == |args| && forall i :: 0 <= i < |args| ==> r[i] == EventTag(args[i])
  {
    if args == [] then [] else EventTags(args[..|args| - 1]) + [EventTag(args[|args| - 1])]
  }

  /** `doEvent`: an event of any kind with the given content and tags. */
  method CallEvent(cfg: Config, kind: int, content: string, tagArgs: seq<string>, env: Env, net: Net)
    returns (err: Option<Error>)
    requires Enumerates(net.order, cfg.relays)
    ensures PosterKeys(cfg.privateKey, env).Fail? ==> err == Some(PosterKeys(cfg.privateKey, env).error)
    ensures PosterKeys(cfg.privateKey, env).Ok? ==>
              var keys := PosterKeys(cfg.privateKey, env).value;
              var ev := Event("", keys.pub, env.now, kind, env.clientTags + EventTags(tagArgs), content);
              && (Signed(ev, keys.sk, env.sign).Fail? ==> err == Some(Signed(ev, keys.sk, env.sign).error))
              && (Signed(ev, keys.sk, env.sign).Ok? ==>
                    (err.None? <==> Reaches(cfg.relays, WriteRequest, Signed(ev, keys.sk, env.sign).value, net))
                    && (err.Some? ==> err == Some(CannotPublish("post"))))
  {
    var keys := PosterKeys(cfg.privateKey, env);
    if keys.Fail? {
      return Some(keys.error);
    }
    var tags := env.clientTags;
    var i := 0;
    while i < |tagArgs|
      invariant 0 <= i <= |tagArgs|
      invariant tags == env.clientTags + EventTags(tagArgs[..i])
    {
      assert tagArgs[..i + 1][..i] == tagArgs[..i];
      var c := CutAt(tagArgs[i], '=');
      var tag := [c.before];
      if c.found {
        tag := tag + Split(c.after, ';');
      }
      tags := tags + [tag];
      i := i + 1;
    }
    assert tagArgs[..i] == tagArgs;
    var ev := Event("", keys.value.pub, env.now, kind, tags, content);
    var signed := Signed(ev, keys.value.sk, env.sign);
    if signed.Fail? {
      return Some(signed.error);
    }
    err := PublishAll(cfg, WriteRequest, signed.value, net, "post");
  }

  /** What a `--tag` argument of `doStream` puts under its name in the
      filter: the values only. */
  function StreamTagValues(s: string): seq<string> {
    var c := CutAt(s, '=');
    if c.found then Split(c.after, ';') else []
  }

  /** `doStream` and `doEvent` read the same argument alike: the filter
      holds the event tag without its name. */
  lemma StreamTagIsEventTagWithoutName(s: string)
    ensures StreamTagValues(s) == EventTag(s)[1..]
    ensures EventTag(s)[0] == TagName(s)
  {
  }

  /** The name part of a `--tag` argument: everything before the first '='. */
  function TagName(s: string): string {
    CutAt(s, '=').before
  }

  /** The filter's tag map: a later argument with the same name replaces an
      earlier one. */
  function StreamTags(args: seq<string>): map<string, seq<string>> {
    if args == [] then map[]
    else
      var a := args[|args| - 1];
      StreamTags(args[..|args| - 1])[TagName(a) := StreamTagValues(a)]
  }

  /** A name is in the filter exactly when some argument has it. */
  lemma {:induction false} StreamTagsNames(args: seq<string>, name: string)
    ensures name in StreamTags(args) <==> exists i :: 0 <= i < |args| && TagName(args[i]) == name
  {
    if args != [] {
      var init := args[..|args| - 1];
      StreamTagsNames(init, name);
      assert forall i :: 0 <= i < |init| ==> init[i] == args[i];
      if TagName(args[|args| - 1]) != name && name !in StreamTags(init) {
        forall i | 0 <= i < |args|
          ensures TagName(args[i]) != name
        {
          if i < |init| {
            assert init[i] == args[i];
          }
        }
      }
    }
  }

  /** A name in the filter holds the values of the LAST argument with that
      name. */
  lemma {:induction false} StreamTagsLastWins(args: seq<string>, i: nat)
    requires i < |args|
    requires forall j :: i < j < |args| ==> TagName(args[j]) != TagName(args[i])
    ensures TagName(args[i]) in StreamTags(args)
    ensures StreamTags(args)[TagName(args[i])] == StreamTagValues(args[i])
  {
    var init := args[..|args| - 1];
    var name := TagName(args[i]);
    if i < |args| - 1 {
      assert init[i] == args[i];
      forall j | i < j < |init|
        ensures TagName(init[j]) != name
      {
        assert init[j] == args[j];
      }
      StreamTagsLastWins(init, i);
      assert TagName(args[|args| - 1]) != name;
    }
  }

  /** The loop of `doStream` that fills the filter's tag map. */
  method BuildStreamTags(args: seq<string>) returns (m: map<string, seq<string>>)
    ensures m == StreamTags(args)
  {
    m := map[];
    var i := 0;
    while i < |args|
      invariant 0 <= i <= |args|
      invariant m == StreamTags(args[..i])
    {
      assert StreamTags(args[..i + 1]) == m[TagName(args[i]) := StreamTagValues(args[i])] by {
        ghost var s := args[..i + 1];
        assert s[..|s| - 1] == args[..i] && s[|s| - 1] == args[i];
      }
      var c := CutAt(args[i], '=');
      var tag: seq<string> := [];
      if c.found {
        tag := tag + Split(c.after, ';');
      }
      assert tag == StreamTagValues(args[i]);
      m := m[c.before := tag];
      i := i + 1;
    }
    assert args[..i] == args;
  }

  /** The relays `doStream` subscribes to: the global relays, or the read
      relays when no relay is global. */
  method StreamRelays(relays: map<string, Relay>, order: seq<string>) returns (r: seq<string>)
    requires Enumerates(order, relays)
    ensures Distinct(r)
    ensures (exists u :: u in relays && relays[u].global) ==> forall u :: u in r <==> u in relays && relays[u].global
    ensures (forall u :: u in relays ==> !relays[u].global) ==> forall u :: u in r <==> u in relays && relays[u].read
  {
    r := [];
    var i := 0;
    while i < |order|
      invariant 0 <= i <= |order|
      invariant Distinct(r)
      invariant forall u :: u in r <==> u in order[..i] && relays[u].global
    {
      assert order[..i + 1] == order[..i] + [order[i]];
      if relays[order[i]].global {
        assert order[i] !in order[..i];
        r := r + [order[i]];
      }
      i := i + 1;
    }
    assert order[..i] == order;
    if |r| == 0 {
      assert forall u :: u in relays ==> !relays[u].global;
      i := 0;
      while i < |order|
        invariant 0 <= i <= |order|
        invariant Distinct(r)
        invariant forall u :: u in r <==> u in order[..i] && relays[u].read
      {
        assert order[..i + 1] == order[..i] + [order[i]];
        if relays[order[i]].read {
          assert order[i] !in order[..i];
          r := r + [order[i]];
        }
        i := i + 1;
      }
      assert order[..i] == order;
    } else {
      var u := r[0];
      assert u in relays && relays[u].global;
    }
  }

  /** The source's tags an automatic reply keeps: every non-empty tag not
      named `e` or `p`, in order. */
  function CopiedTags(tags: seq<Tag>): seq<Tag> {
    if tags == [] then []
    else
      var t := tags[|tags| - 1];
      CopiedTags(tags[..|tags| - 1]) + (if |t| > 0 && t[0] != "e" && t[0] != "p" then [t] else [])
  }

  lemma {:induction false} CopiedTagsExactly(tags: seq<Tag>, t: Tag)
    ensures t in CopiedTags(tags) <==> t in tags && |t| > 0 && t[0] != "e" && t[0] != "p"
  {
    if tags != [] {
      var init := tags[..|tags| - 1];
      CopiedTagsExactly(init, t);
      assert tags == init + [tags[|tags| - 1]];
    }
  }

  /** `doStream --reply`: the answer to a streamed event `ev`, of the same
      kind, replying to it and keeping its other tags. */
  method AutoReply(ev: Event, pub: string, reply: string, env: Env) returns (r: Event)
    ensures r.pubkey == pub && r.content == reply && r.kind == ev.kind && r.createdAt == env.now
    ensures r.tags == env.clientTags + CopiedTags(ev.tags) + [["e", ev.id, "", "reply"]]
  {
    var tags := env.clientTags;
    var i := 0;
    while i < |ev.tags|
      invariant 0 <= i <= |ev.tags|
      invariant tags == env.clientTags + CopiedTags(ev.tags[..i])
    {
      assert ev.tags[..i + 1][..i] == ev.tags[..i];
      var t := ev.tags[i];
      if |t| > 0 && t[0] != "e" && t[0] != "p" {
        tags := tags + [t];
      }
      i := i + 1;
    }
    assert ev.tags[..i] == ev.tags;
    tags := tags + [["e", ev.id, "", "reply"]];
    r := Event("", pub, env.now, ev.kind, tags, reply);
  }

  // ---------------------------------------------------------------------
  // The timeline

  /** Whose notes `doTimeline` asks for: anybody with `--global` (the
      empty list), the followed users by default (an error when there are
      none), or the one user given with `-u`. */
  function TimelineAuthors(global: bool, u: string, followList: seq<string>, profileKey: string -> Option<string>): (r: Result<seq<string>>)
    ensures global ==> r == Ok([])
    ensures !global && u == "" ==> r == (if followList == [] then Fail(NoFollows) else Ok(followList))
    ensures !global && u != "" ==> r == (match profileKey(u) case None => Fail(ParsePubkey(u)) case Some(k) => Ok([k]))
  {
    if global then Ok([])
    else if u == "" then (if followList == [] then Fail(NoFollows) else Ok(followList))
    else match profileKey(u)
      case None => Fail(ParsePubkey(u))
      case Some(k) => Ok([k])
  }

  /** The filter `doTimeline` streams with. */
  function TimelineFilter(authors: seq<string>, article: bool, n: nat): Filter {
    Filter([if article then KindArticle else KindTextNote], authors, [], map[], "", n)
  }

  /** `doTimeline`: the newest `n` of the streamed events, oldest first. */
  method CallTimeline(global: bool, u: string, n: nat, article: bool, followList: seq<string>,
                      profileKey: string -> Option<string>, stream: Filter -> seq<Event>)
    returns (r: Result<seq<Event>>)
    ensures TimelineAuthors(global, u, followList, profileKey).Fail? ==>
              r == Fail(TimelineAuthors(global, u, followList, profileKey).error)
    ensures TimelineAuthors(global, u, followList, profileKey).Ok? ==>
              var all := stream(TimelineFilter(TimelineAuthors(global, u, followList, profileKey).value, article, n));
              && r.Ok?
              && |r.value| == (if |all| > n then n else |all|)
              && SortedByTime(r.value)
              && multiset(r.value) <= multiset(all)
              && forall e, x :: e in multiset(all) - multiset(r.value) && x in r.value ==> e.createdAt <= x.createdAt
  {
    var authors := TimelineAuthors(global, u, followList, profileKey);
    if authors.Fail? {
      return Fail(authors.error);
    }
    var events := stream(TimelineFilter(authors.value, article, n));
    var newest := NewestN(events, n);
    return Ok(newest);
  }
}
