/** The protocol values every command works on: events (records), their
    tags, the kinds the client uses, relay filters, profile metadata and the
    errors the commands return. */
module Nostr {

  datatype Option<T> = None | Some(value: T)

  /** An error a command returns. The named ones carry the client's own
      messages; `External` is an error handed back unchanged from a
      collaborator (key decoding, signing, encryption, a relay query, JSON,
      HTTP). */
  datatype Error =
    | NotAuthor                // "is not author"
    | ContentEmpty             // "content is empty"
    | Usage                    // usageError
    | Help                     // the sub-command help was shown; the command returns nil
    | CannotFindUser           // "cannot find user"
    | CannotConnect            // "cannot connect relays"
    | ReceiptAddressInvalid    // "receipt address is not valid"
    | InvalidArgument          // "invalid argument"
    | NotImplemented           // "Not Implemented"
    | NoFollows                // "no follows found. Please follow someone first."
    | CannotPublish(verb: string)  // "cannot post", "cannot reply", "cannot like", ...
    | ParsePubkey(input: string)   // "failed to parse pubkey from '<input>'"
    | ParseEvent(input: string)    // "failed to parse event from '<input>'"
    | Wallet(message: string)      // the `error.message` of a wallet response
    | External(message: string)

  datatype Result<T> = Ok(value: T) | Fail(error: Error)

  /** A tag is a list of strings whose first element is its name. */
  type Tag = seq<string>

  /** An event as the relays hand it out. The signature is left out: signing
      and verifying are not part of this model. */
  datatype Event = Event(
    id: string,
    pubkey: string,
    createdAt: int,
    kind: int,
    tags: seq<Tag>,
    content: string)

  /** User metadata, the content of a kind-0 event. */
  datatype Profile = Profile(
    website: string, nip05: string, picture: string, lud16: string,
    displayName: string, about: string, name: string)

  /** A relay subscription filter. An empty `authors` or `ids` list puts no
      constraint on that field (the protocol omits empty lists). */
  datatype Filter = Filter(
    kinds: seq<int>,
    authors: seq<string>,
    ids: seq<string>,
    tags: map<string, seq<string>>,
    search: string,
    limit: int)

  const KindProfileMetadata := 0
  const KindTextNote := 1
  const KindContactList := 3
  const KindEncryptedDirectMessage := 4
  const KindDeletion := 5
  const KindRepost := 6
  const KindReaction := 7
  const KindChatMessage := 14
  const KindGiftWrap := 1059
  const KindZapRequest := 9734
  const KindNWCWalletRequest := 23194
  const KindCategorizedBookmarksList := 30001
  const KindArticle := 30023

  /** The tag's name; a tag without elements has none. */
  predicate Named(t: Tag, name: string) {
    |t| > 0 && t[0] == name
  }

  /** `Tag.Value()`: the second element, or "" when the tag is shorter. */
  function TagValue(t: Tag): string {
    if |t| >= 2 then t[1] else ""
  }

  /** `Tags.GetFirst([]string{name})`: the first tag with that name. */
  function FirstTag(tags: seq<Tag>, name: string): (r: Option<Tag>)
    ensures r.None? <==> forall i :: 0 <= i < |tags| ==> !Named(tags[i], name)
    ensures r.Some? ==> exists i :: 0 <= i < |tags| && tags[i] == r.value && Named(r.value, name)
                          && forall j :: 0 <= j < i ==> !Named(tags[j], name)
  {
    if |tags| == 0 then None
    else if Named(tags[0], name) then Some(tags[0])
    else
      var r := FirstTag(tags[1..], name);
      assert forall j :: 1 <= j < |tags| ==> tags[j] == tags[1..][j - 1];
      r
  }

  /** `Tags.GetFirst([]string{name}).Value()` where a tag named `name`
      exists. Without one, `GetFirst` returns a nil pointer and Go's
      `Value()` call panics; this function gives "" there, and every caller
      notes what that means for it. */
  function FirstTagValue(tags: seq<Tag>, name: string): string {
    match FirstTag(tags, name)
    case None => ""
    case Some(t) => TagValue(t)
  }

  /** The user's key pair, in hex. */
  datatype Keys = Keys(sk: string, pub: string)

  /** The key collaborators, each of which may fail: `nip19.Decode` of the
      configured `nsec` (giving the hex secret key) and `nostr.GetPublicKey`. */
  datatype KeyCodec = KeyCodec(
    decodeSecret: string -> Result<string>,
    publicKey: string -> Result<string>)

  /** The opening lines of nearly every command: decode the configured
      private key, then derive the public key; the first error is returned. */
  function OwnKeys(privateKey: string, kc: KeyCodec): (r: Result<Keys>)
    ensures kc.decodeSecret(privateKey).Fail? ==> r == Fail(kc.decodeSecret(privateKey).error)
    ensures r.Ok? ==> (r.value.sk == kc.decodeSecret(privateKey).value
                       && kc.publicKey(r.value.sk) == Ok(r.value.pub))
  {
    match kc.decodeSecret(privateKey)
    case Fail(e) => Fail(e)
    case Ok(sk) =>
      match kc.publicKey(sk)
      case Fail(e) => Fail(e)
      case Ok(pub) => Ok(Keys(sk, pub))
  }

  /** Number of `true` entries: how many relays reported success. */
  function CountTrue(outcomes: seq<bool>): (n: nat)
    ensures n <= |outcomes|
    ensures n == 0 <==> forall i :: 0 <= i < |outcomes| ==> !outcomes[i]
  {
    if |outcomes| == 0 then 0
    else (if outcomes[0] then 1 else 0) + CountTrue(outcomes[1..])
  }

  /** Publishing to every write relay: the per-relay counter is bumped for
      each relay that accepted the event, and the command fails with
      `cannot <verb>` exactly when the counter stayed at zero. */
  method CountPublished(outcomes: seq<bool>, verb: string) returns (success: nat, err: Option<Error>)
    ensures success == CountTrue(outcomes)
    ensures err.Some? <==> forall i :: 0 <= i < |outcomes| ==> !outcomes[i]
    ensures err.Some? ==> err.value == CannotPublish(verb)
  {
    success := 0;
    var i := |outcomes|;
    while i > 0
      invariant 0 <= i <= |outcomes|
      invariant success == CountTrue(outcomes[i..])
    {
      i := i - 1;
      assert outcomes[i..][1..] == outcomes[i + 1..];
      if outcomes[i] {
        success := success + 1;
      }
    }
    assert outcomes[0..] == outcomes;
    err := if success == 0 then Some(CannotPublish(verb)) else None;
  }
}
