/** Profiles (profile.go): showing a user's metadata and editing the
    user's own.

    `Config.Events` of this generation (a filter in, events out) is not part
    of this model and is a parameter; so are JSON, the key collaborators and
    the profile lookup. */
module Profiles {
  import opened Nostr
  import opened Text
  import opened Client
  import opened Timeline

  /** Some relay of the configuration is a candidate for reading and
      connects. */
  ghost predicate CanConnect(cfg: Config, connects: string -> bool)
    reads cfg
  {
    exists u :: u in cfg.relays && Candidate(ReadRequest, cfg.relays[u], cfg.tempRelay) && connects(u)
  }

  /** The metadata query of both commands. */
  function ProfileFilter(pub: string): Filter {
    Filter([KindProfileMetadata], [pub], [], map[], "", 1)
  }

  // ---------------------------------------------------------------------
  // doProfile

  /** Whose profile `doProfile` shows: the user's own for an empty `-u`,
      else the key the profile lookup finds, else the argument itself. */
  function ProfileSubject(user: string, privateKey: string, kc: KeyCodec, profileKey: string -> Option<string>): (r: Result<string>)
    ensures user == "" ==> r == (match OwnKeys(privateKey, kc) case Ok(keys) => Ok(keys.pub) case Fail(e) => Fail(e))
    ensures user != "" ==> r.Ok? && r.value == (if profileKey(user).Some? then profileKey(user).value else user)
  {
    if user == "" then
      match OwnKeys(privateKey, kc)
      case Fail(e) => Fail(e)
      case Ok(keys) => Ok(keys.pub)
    else
      match profileKey(user)
      case Some(pub) => Ok(pub)
      case None => Ok(user)
  }

  /** A user that the profile lookup does not recognise is looked up under
      the argument as written. */
  lemma UnparsedUserIsRaw(user: string, privateKey: string, kc: KeyCodec, profileKey: string -> Option<string>)
    requires user != "" && profileKey(user).None?
    ensures ProfileSubject(user, privateKey, kc, profileKey) == Ok(user)
  {
  }

  /** What `doProfile` prints: the metadata as received (`--json`), or the
      npub with the decoded profile. */
  datatype ProfileView = RawContent(content: string) | Shown(npub: string, profile: Profile)

  /** `doProfile`. */
  method ShowProfile(cfg: Config, user: string, json: bool, env: Env, order: seq<string>, connects: string -> bool,
                     events: Filter -> seq<Event>, parseProfile: string -> Result<Profile>)
    returns (r: Result<ProfileView>)
    requires Enumerates(order, cfg.relays)
    ensures !CanConnect(cfg, connects) ==> r == Fail(CannotConnect)
    ensures CanConnect(cfg, connects) ==>
              var subject := ProfileSubject(user, cfg.privateKey, env.kc, env.profileKey);
              && (subject.Fail? ==> r == Fail(subject.error))
              && (subject.Ok? && events(ProfileFilter(subject.value)) == [] ==> r == Fail(CannotFindUser))
              && (subject.Ok? && events(ProfileFilter(subject.value)) != [] ==>
                    var content := events(ProfileFilter(subject.value))[0].content;
                    && (json ==> r == Ok(RawContent(content)))
                    && (!json && parseProfile(content).Fail? ==> r == Fail(parseProfile(content).error))
                    && (!json && parseProfile(content).Ok? ==>
                          (match env.npub(subject.value)
                           case Fail(e) => r == Fail(e)
                           case Ok(npub) => r == Ok(Shown(npub, parseProfile(content).value)))))
  {
    var relay := cfg.FindRelay(ReadRequest, order, connects);
    if relay.None? {
      return Fail(CannotConnect);
    }
    var subject := ProfileSubject(user, cfg.privateKey, env.kc, env.profileKey);
    if subject.Fail? {
      return Fail(subject.error);
    }
    var evs := events(ProfileFilter(subject.value));
    if |evs| == 0 {
      return Fail(CannotFindUser);
    }
    if json {
      return Ok(RawContent(evs[0].content));
    }
    var profile := parseProfile(evs[0].content);
    if profile.Fail? {
      return Fail(profile.error);
    }
    var npub := env.npub(subject.value);
    if npub.Fail? {
      return Fail(npub.error);
    }
    return Ok(Shown(npub.value, profile.value));
  }

  // ---------------------------------------------------------------------
  // doUpdateProfile

  /** A value of the metadata object as `json.Unmarshal` into `map[string]any`
      leaves it; the edits only ever write strings and booleans. */
  datatype JsonValue = JString(s: string) | JBool(b: bool) | JOther(raw: string)

  /** The key an argument edits: the text before the first '=', or the
      whole argument. */
  function EditKey(arg: string): string {
    CutAt(arg, '=').before
  }

  /** What an argument leaves under its key: nothing ("k" deletes k), a
      boolean ("bot=v", true only for "true") or the string after the
      first '=' ("k=v", where v may itself contain '='). */
  function EditedValue(arg: string): (r: Option<JsonValue>)
    ensures r.None? <==> '=' !in arg
    ensures r.Some? && EditKey(arg) == "bot" ==> r.value.JBool?
    ensures r.Some? && EditKey(arg) != "bot" ==> r.value.JString? && arg == EditKey(arg) + "=" + r.value.s
  {
    var tok := CutAt(arg, '=');
    if !tok.found then None
    else if tok.before == "bot" then Some(JBool(tok.after == "true"))
    else Some(JString(tok.after))
  }

  /** One argument applied to the metadata: its key gets the edited
      value, or is deleted; every other key is left alone. */
  function Edit(profile: map<string, JsonValue>, arg: string): (r: map<string, JsonValue>)
    ensures '=' !in arg ==> r == profile - {arg}
    ensures EditedValue(arg).None? ==> EditKey(arg) !in r
    ensures EditedValue(arg).Some? ==> EditKey(arg) in r && r[EditKey(arg)] == EditedValue(arg).value
    ensures forall k :: k != EditKey(arg) ==> (k in r <==> k in profile) && (k in r ==> r[k] == profile[k])
  {
    match EditedValue(arg)
    case None => profile - {EditKey(arg)}
    case Some(v) => profile[EditKey(arg) := v]
  }

  /** The arguments applied left to right. */
  function Edited(profile: map<string, JsonValue>, args: seq<string>): map<string, JsonValue> {
    if args == [] then profile
    else Edit(Edited(profile, args[..|args| - 1]), args[|args| - 1])
  }

  /** A key no argument names keeps its value, or stays absent. */
  lemma {:induction false} EditedKeepsUnnamed(profile: map<string, JsonValue>, args: seq<string>, k: string)
    requires forall i :: 0 <= i < |args| ==> EditKey(args[i]) != k
    ensures k in Edited(profile, args) <==> k in profile
    ensures k in profile ==> Edited(profile, args)[k] == profile[k]
  {
    if args != [] {
      EditedKeepsUnnamed(profile, args[..|args| - 1], k);
    }
  }

  /** The last argument naming a key decides it. */
  lemma {:induction false} EditedLastWins(profile: map<string, JsonValue>, args: seq<string>, i: nat)
    requires i < |args|
    requires forall j :: i < j < |args| ==> EditKey(args[j]) != EditKey(args[i])
    ensures var k := EditKey(args[i]);
            match EditedValue(args[i])
            case None => k !in Edited(profile, args)
            case Some(v) => k in Edited(profile, args) && Edited(profile, args)[k] == v
  {
    var init := args[..|args| - 1];
    if i < |args| - 1 {
      assert init[i] == args[i];
      forall j | i < j < |init|
        ensures EditKey(init[j]) != EditKey(init[i])
      {
        assert init[j] == args[j];
      }
      EditedLastWins(profile, init, i);
    }
  }

  /** The loop of `doUpdateProfile` over its arguments. */
  method ApplyEdits(profile0: map<string, JsonValue>, args: seq<string>) returns (profile: map<string, JsonValue>)
    ensures profile == Edited(profile0, args)
  {
    profile := profile0;
    for k := 0 to |args|
      invariant profile == Edited(profile0, args[..k])
    {
      assert args[..k + 1][..k] == args[..k];
      var tok := CutAt(args[k], '=');
      if !tok.found {
        profile := profile - {tok.before};
      } else if tok.before == "bot" {
        if tok.after == "true" {
          profile := profile[tok.before := JBool(true)];
        } else {
          profile := profile[tok.before := JBool(false)];
        }
      } else {
        profile := profile[tok.before := JString(tok.after)];
      }
    }
    assert args[..|args|] == args;
  }

  /** The JSON collaborators of `doUpdateProfile`. */
  datatype ProfileJson = ProfileJson(
    parse: string -> Result<map<string, JsonValue>>,
    marshal: map<string, JsonValue> -> Result<string>)

  /** `doUpdateProfile`: the user's newest metadata event, edited, re-dated,
      re-signed and published to every write relay. */
  method UpdateProfile(cfg: Config, args: seq<string>, env: Env, net: Net, events: Filter -> seq<Event>, js: ProfileJson)
    returns (err: Option<Error>)
    requires Enumerates(net.order, cfg.relays)
    ensures !CanConnect(cfg, net.connects) ==> err == Some(CannotConnect)
    ensures CanConnect(cfg, net.connects) && OwnKeys(cfg.privateKey, env.kc).Fail? ==>
              err == Some(OwnKeys(cfg.privateKey, env.kc).error)
    ensures (CanConnect(cfg, net.connects) && OwnKeys(cfg.privateKey, env.kc).Ok?
             && events(ProfileFilter(OwnKeys(cfg.privateKey, env.kc).value.pub)) == []) ==> err == Some(CannotFindUser)
    ensures (CanConnect(cfg, net.connects) && OwnKeys(cfg.privateKey, env.kc).Ok?
             && events(ProfileFilter(OwnKeys(cfg.privateKey, env.kc).value.pub)) != []) ==>
              var keys := OwnKeys(cfg.privateKey, env.kc).value;
              var ev := events(ProfileFilter(keys.pub))[0];
              var parsed := js.parse(ev.content);
              && (parsed.Fail? ==> err == Some(parsed.error))
              && (parsed.Ok? ==>
                    var content := js.marshal(Edited(parsed.value, args));
                    && (content.Fail? ==> err == Some(content.error))
                    && (content.Ok? ==>
                          var signed := Signed(ev.(content := content.value, createdAt := env.now), keys.sk, env.sign);
                          && (signed.Fail? ==> err == Some(signed.error))
                          && (signed.Ok? ==> (err.None? <==> Reaches(cfg.relays, WriteRequest, signed.value, net))
                                             && (err.Some? ==> err == Some(CannotPublish("post"))))))
  {
    var relay := cfg.FindRelay(ReadRequest, net.order, net.connects);
    if relay.None? {
      return Some(CannotConnect);
    }
    var keys := OwnKeys(cfg.privateKey, env.kc);
    if keys.Fail? {
      return Some(keys.error);
    }
    var evs := events(ProfileFilter(keys.value.pub));
    if |evs| == 0 {
      return Some(CannotFindUser);
    }
    var ev := evs[0];
    var parsed := js.parse(ev.content);
    if parsed.Fail? {
      return Some(parsed.error);
    }
    var profile := ApplyEdits(parsed.value, args);
    var content := js.marshal(profile);
    if content.Fail? {
      return Some(content.error);
    }
    ev := ev.(content := content.value);
    ev := ev.(createdAt := env.now);
    var signed := Signed(ev, keys.value.sk, env.sign);
    if signed.Fail? {
      return Some(signed.error);
    }
    err := PublishAll(cfg, WriteRequest, signed.value, net, "post");
  }
}
