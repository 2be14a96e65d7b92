# algia command core, modelled in Dafny

algia is a command-line client for Nostr. A Nostr user has a key pair. They sign events (notes, reactions, direct messages, profile metadata, zap requests) and publish them to relays. They also query relays for the events of others.

This project models the decision procedures the commands are built on. It proves what they promise:

- which configured relay a command may use;
- how the answers of several relays become one deduplicated, time-ordered list;
- whose key decrypts a NIP-04 direct message;
- when the follow cache is stale, and what it is rebuilt from;
- how each command builds the tags and content of the event it publishes, and when it fails;
- how direct-message conversations are listed and filtered;
- the NIP-57 zap request, the LUD-16 address and the NIP-47 wallet request;
- how profile edits apply;
- which ids a bookmark list yields;
- how the MCP tool handlers read their arguments.

Relays, keys, cryptography, JSON decoding, the clock and the file system are not modelled; each is a parameter:

- A relay is a URL. `connects(url)` says whether connecting succeeds. A query function gives what a relay answers to a filter. `publish(url, ev)` says whether a relay accepted an event.
- Key decoding, public-key derivation, NIP-19 encoding, signing, NIP-04/NIP-44 encryption and NIP-59 gift wrapping are functions that may fail. A failure's error is returned unchanged, as the program does.
- Go visits a map in an order of its own choosing. That order is the parameter `order`, together with the predicate `Enumerates(order, m)`: every key of `m` appears exactly once. A contract mentions the order only where the program's behaviour does ("the first relay that connects").
- `Config.save` records the file it would write in the field `written`. `disk` is the outcome of the write.

Modules, one per source file, plus three shared ones:

- `Text`: the `strings` functions the commands use (`TrimSpace`, `Cut`, `Split`/`Join`, `Trim`, `TrimLeft`).
- `Nostr`: events, tags, filters, kind numbers, errors, and the own-key derivation.
- `Ordering`: the in-place sort by `CreatedAt`, and "keep the newest n".
- `Client`: main.go's `Config`. It holds relay selection (`Do`, `FindRelay`), the NIP-04 counterparty rule (`Decode`), the multi-relay query (`Events`), the follow cache (`GetFollows`), `save`, the configuration file names, and the `--relays` override.
- `Timeline`: timeline.go. It holds post, reply, event, like, stream with auto-reply, and timeline.
- `DirectMessages`: dm.go.
- `Zaps`: zap.go.
- `Profiles`: profile.go.
- `Bookmarks`: bookmark.go.
- `Mcp`: mcp.go.
- `LegacyTimeline`: src/timeline.go. It holds the older timeline command and its own follow-cache refresh. Its rendering (`Render`) follows the same three-way selection as `Config.PrintEvents` in main.go:263-302.

The source mixes two generations of the code:

- main.go's `Config` has three relay flags.
- The newer command files add `DM` and `Global`.

`Client.Relay` carries all five flags. main.go's functions read only the first three. The newer files call `Do(r, func(ctx, relay) bool)` and `FindRelay(ctx, r)`, whose definitions are not among the files modelled. The model runs them as main.go's `Do` and `FindRelay`, which filter on the first three flags. The request the newer files pass is kept as written, so the direct-message post asks for `Relay{Write: true, DM: true}`. Where a newer file calls another `Config` method that is not among the files modelled (`QueryEvents`, `Events(filter)`, `GetProfile`, `StreamEvents`, `FollowList`), that method is a parameter.

## Model

| member | source | states |
|---|---|---|
| Text.TrimLeftSpace | main.go:1001 | the result is a suffix of the input and the dropped prefix is all whitespace; it starts with a non-space; it is empty exactly when the input is blank |
| Text.TrimRightSpace | main.go:1001 | the result is a prefix of the input and the dropped suffix is all whitespace; it ends with a non-space; it is empty exactly when the input is blank |
| Text.TrimSpaceEmpty | timeline.go:90 | trimming whitespace leaves "" exactly when the input is all whitespace |
| Text.CutAt | timeline.go:215 | `found` exactly when the separator occurs; when found, the input is `before + sep + after` with no separator in `before`; otherwise `before` is the whole input |
| Text.CutOfJoined | timeline.go:215 | cutting `before + sep + after` at `sep` gives back `before` and `after` when `before` holds no separator |
| Text.Split | main.go:1003 | at least one piece; no piece contains the separator |
| Text.JoinSplit | timeline.go:219 | joining the pieces of a split with the separator gives the input back |
| Text.SplitJoin | timeline.go:45 | splitting a join of separator-free pieces gives the pieces back |
| Text.TrimLeftChar | main.go:80 | the result is a suffix and the dropped prefix is all `c`; it does not start with `c`; input not starting with `c` is unchanged |
| Text.TrimRightChar | timeline.go:109 | the result is a prefix and the dropped suffix is all `c`; it does not end with `c` |
| Text.TrimCharWrapped | timeline.go:109 | trimming `c` from `c + w + c` gives `w` when `w` is non-empty and does not start or end with `c` |
| Nostr.FirstTag | main.go:240 | none exactly when no tag has the name; otherwise a tag of the list with that name |
| Nostr.OwnKeys | main.go:232-239 | a key-decoding failure is returned as is; on success the secret is the decoded key and the public key is derived from it |
| Nostr.CountTrue | timeline.go:156-168 | at most the number of relays; zero exactly when no relay accepted |
| Nostr.CountPublished | timeline.go:156-168 | the success count is the number of accepting relays; the error "cannot <verb>" is returned exactly when none accepted |
| Ordering.DistinctOnce | main.go:338-342 | an element of a duplicate-free sequence occurs at most once in its multiset |
| Ordering.PermutationKeepsDistinct | main.go:343-353 | a permutation of a duplicate-free sequence is duplicate-free |
| Ordering.SwapDown | main.go:343-353 | swaps two neighbours and changes nothing else; the multiset is unchanged |
| Ordering.InsertAt | main.go:343-353 | extends the sorted prefix by one element; the multiset is unchanged |
| Ordering.SortByTime | main.go:343-353 | the array ends non-decreasing by `createdAt` and is a permutation of the original |
| Ordering.SuffixIsNewest | timeline.go:980-982 | in a time-sorted list, nothing dropped before position k is newer than anything kept after it |
| Ordering.NewestN | timeline.go:976-982 | the result has min(len, n) events, is sorted ascending, is a sub-multiset of the input, and no dropped event is newer than a kept one |
| Client.UsedExactly | main.go:178-187 | a relay is used exactly when it serves the request (write needs Write, search needs Search, a read needs Read) and connects; none is used twice |
| Client.CandidateIsServesWithoutOverride | main.go:150-159 | `FindRelay`'s filter is `Do`'s filter, except that with temporary relays the Search requirement is dropped |
| Client.Counterparty | main.go:240-250 | "is not author" exactly when the first `p` tag and the author both differ from us, or both equal us; the counterparty is never our own key |
| Client.CounterpartyIsTheOtherSide | main.go:240-250 | on success, we and the counterparty are exactly the author and the first `p` tag, and those two differ |
| Client.Decode | main.go:229-261 | only the content may change; on any error the event is unchanged; success exactly when key derivation, the counterparty rule, the shared secret and decryption all succeed; the new content is the decryption |
| Client.GatheredFrom | main.go:322-327 | an event is gathered exactly when some configured relay that answered returned it, whatever that relay's flags |
| Client.Accept | main.go:328-333 | non-DM events pass unchanged; an accepted event keeps its id |
| Client.Stored | main.go:334 | every stored event sits under its own id |
| Client.StoredIsFirstAccepted | main.go:322-336 | an id is stored exactly when some event with it was accepted; the stored event is the accepted form of the first such event |
| Client.UndecodableIsDropped | main.go:329-333 | an id whose every DM fails to decode is absent |
| Client.PlainEventsAreKept | main.go:328-334 | the id of every non-DM event is present |
| Client.PTagValuesSpec | main.go:116-120 | a key is collected exactly when some tag has at least two elements, is named "p" and holds it |
| Client.FollowKeysSpec | main.go:115-121 | the follow list holds exactly the `p`-tag values of the contact-list events |
| Client.ProfilesFromIsLastParsed | main.go:132-138 | a key is cached exactly when some metadata event by it parses; it maps to the profile of the last such event |
| Client.ListedProfileRoundTrip | main.go:71-86 | listing recovers a named profile from its `config-*.json` file name when the profile does not start with '-' |
| Client.ListedProfileLosesLeadingDash | main.go:80 | the profile "-work" is listed as "work" |
| Client.ListedProfileExactRoundTrip | main.go:85 | the corrected listing recovers every non-empty profile from its file name |
| Client.StoreBatch | main.go:328-335 | storing a relay's batch gives the store of the events so far plus the batch |
| Client.Collect | main.go:322-336 | the loop over relays builds the first-accepted store of all gathered events |
| Client.Values | main.go:338-342 | the values of the store, one per id, without duplicates |
| Client.OverrideRelays | main.go:1002-1008 | the relay map has exactly the comma-separated entries, each read and write, not search |
| Client.Config.constructor | main.go:93-98 | a configuration as loaded, with no temporary relays and nothing written |
| Client.Config.ApplyRelaysOption | main.go:1000-1010 | a blank `--relays` changes nothing; otherwise the relays become exactly its entries and are marked temporary |
| Client.Config.Save | main.go:206-227 | with temporary relays nothing is written and no error returned; otherwise the write's error is returned and the profile's file is written |
| Client.Config.Do | main.go:176-204 | the relays used are those that serve the request and connect, in visiting order |
| Client.Config.FindRelay | main.go:149-174 | none exactly when no candidate connects; otherwise the first candidate in visiting order that connects |
| Client.Config.Events | main.go:304-362 | the result is sorted by time, holds each stored id once, holds exactly the first-accepted event per id, and queries every relay |
| Client.Config.GetFollows | main.go:101-147 | a key error is returned; a fresh, non-empty cache is returned untouched; a stale or empty one is rebuilt from the `p` tags of our contact list and the metadata that parses, stamped with now, and saved |
| Client.CollectFollowKeys | main.go:114-121 | the nested loop collects the `p`-tag values, in order |
| Timeline.Decimal | zap.go:229 | a non-empty string of decimal digits |
| Timeline.DecimalValue | zap.go:229 | the digits denote the number printed; the first digit is '0' exactly for zero |
| Timeline.DecimalInjective | timeline.go:140-141 | different numbers print differently |
| Timeline.PosterKeys | timeline.go:74-87 | the own keys, failing with the key error or when the public key cannot be NIP-19 encoded |
| Timeline.Signed | timeline.go:152-154 | signing changes only the id |
| Timeline.PublishAll | timeline.go:156-168 | for a writing request, no error exactly when some used relay serving it accepted; the error is "cannot <verb>" |
| Timeline.PairTags | timeline.go:97-122 | one two-element tag per value, in order: the `r` tags of the links and the `p` tags of the mentions |
| Timeline.EmojiArgTags | timeline.go:101-107 | usage error exactly when some argument lacks '='; otherwise one `emoji` tag per argument, split at its first '=' |
| Timeline.EmojiTagsConfigured | timeline.go:108-113 | every tag from the content's shortcodes is an `emoji` tag whose name is configured and whose icon is the configured one |
| Timeline.EmojiTagsCover | timeline.go:108-113 | every shortcode whose trimmed name is configured yields its tag |
| Timeline.ResolveKeys | timeline.go:115-121 | success exactly when every `-u` argument resolves, giving their keys in order; else the error names an unresolvable argument |
| Timeline.MentionedKeepsContent | timeline.go:116 | each mention prefixes "#[i] ", and the original content stays the suffix |
| Timeline.PostEvent | timeline.go:89-151 | a built post has our key, the clock's time and no id yet |
| Timeline.PostEventOutcome | timeline.go:89-107 | blank content gives "content is empty"; otherwise an emoji argument without '=' gives the usage error; otherwise only an unresolvable mention can fail |
| Timeline.PostEventTags | timeline.go:94-151 | the tags are the client tags, links, emoji arguments, configured emojis, mentions, content warning, geohash, hashtags and article tags, in that order |
| Timeline.PostTagsCarryEmojiArguments | timeline.go:101-107 | every `--emoji name=url` argument appears as an `emoji` tag |
| Timeline.PostTagsCarryMentions | timeline.go:115-123 | every `-u` argument appears as a `p` tag with its key |
| Timeline.PostTagsCarryOptions | timeline.go:125-148 | a content warning, a geohash, and an article's d/title/summary tags are present when given |
| Timeline.PlainPostTagsNotNamedT | timeline.go:94-131 | no tag added before the hashtag step is a `t` tag |
| Timeline.PostTagsNotNamedT | timeline.go:94-151 | without hashtags, no tag of the post beyond the client tag is a `t` tag, the article tags included |
| Timeline.PostHashtagTagIffHashtags | timeline.go:133-139 | a `t` tag with all hashtags is added when there are hashtags; without hashtags, no `t` tag is added |
| Timeline.AppendLinkTags | timeline.go:97-99 | the loop appends the link tags |
| Timeline.AppendEmojiArgTags | timeline.go:101-107 | the loop appends the emoji-argument tags or stops with the usage error |
| Timeline.AppendContentEmojiTags | timeline.go:108-113 | the loop appends the configured-emoji tags |
| Timeline.AppendMentions | timeline.go:115-123 | the loop prefixes the content and appends `p` tags, or returns the parse error |
| Timeline.ResolveKeysStops | timeline.go:115-121 | the first unresolvable argument decides the error |
| Timeline.BuildPlainPost | timeline.go:94-131 | the loops and options up to the geohash build the specified tag groups and mentioned content, or stop with the emoji-argument or mention error |
| Timeline.BuildPost | timeline.go:89-151 | the step-by-step construction equals the specified post |
| Timeline.HashtagTag | timeline.go:133-139 | the `t` tag holds the hashtags; it has more than one element exactly when there are hashtags |
| Timeline.CallPost | timeline.go:72-175 | key errors, post errors and signing errors are returned; otherwise "cannot post" exactly when no write relay accepted |
| Timeline.PostContent | timeline.go:25-46 | help exactly when there is no stdin and no argument, or an article name without a title; otherwise stdin or the arguments joined by newlines |
| Timeline.PostContentRecoversArguments | timeline.go:45 | newline-free arguments are recovered from the joined content |
| Timeline.ReplyTags | timeline.go:340-344 | one `e` tag per relay, marked "reply" or, with `--quote`, "mention" |
| Timeline.ReplyBase | timeline.go:256-336 | fails exactly on missing content (help), blank content ("content is empty") or an `--emoji` argument without '=' (help); a built reply is an unsigned text note by us, stamped now, with the given content |
| Timeline.ReplyBaseIsPost | timeline.go:297-336 | a reply with content is the note `callPost` builds from the same content, warning, geohash and emoji arguments, with no mentions or article; the post's usage error is the reply's help |
| Timeline.ReplyTagsCarryEmojiArguments | timeline.go:308-314 | each `--emoji` argument of a reply is in an `emoji` tag, split at its first '=' |
| Timeline.ReplyTagsCarryOptions | timeline.go:322-336 | the warning and the geohash are tags when given; a `t` tag of the hashtags when there are any, else no `t` tag outside the client tag |
| Timeline.ReplyAt | timeline.go:339-344 | by relay k the reply carries the base tags plus one `e` tag per relay so far, the last naming relay k |
| Timeline.ReplyRound | timeline.go:338-355 | the success count is zero exactly when no relay's signed copy was accepted |
| Timeline.CallReply | timeline.go:252-360 | help without content, then key and event-id errors; then the base reply's error, or "cannot reply" exactly when no relay's copy landed |
| Timeline.ReactionContent | timeline.go:540-550 | never empty; without an emoji the content or "+"; with one ":name:" where the name is the content or "like" |
| Timeline.ReactionTags | timeline.go:541-547 | an `emoji` tag with the name and URL when an emoji is given, none otherwise |
| Timeline.ReactionShortcodeNamesEmoji | timeline.go:541-547 | the shortcode in the content names the emoji tag |
| Timeline.LikeBase | timeline.go:532-550 | a kind-7 reaction by us, tagged `e` with the target, with the reaction content and emoji tag |
| Timeline.Targeted | timeline.go:562-564 | one `p` tag per fetched note, after the existing tags, with the key chosen |
| Timeline.LikePublish | timeline.go:571-576 | a relay adds one success exactly when it accepts the reaction |
| Timeline.LikeAsWrittenSkipsFetchingRelay | timeline.go:556-570 | as written, the relay that fetches the note never publishes, so fewer successes than relays |
| Timeline.LikeAsWrittenAllAccept | timeline.go:556-581 | as written, even when everything succeeds, exactly one relay fewer than used carries the reaction |
| Timeline.LikeAllAccept | timeline.go:556-581 | corrected, when everything succeeds every used relay carries the reaction |
| Timeline.LikeAsWrittenTagsNoteId | timeline.go:563 | as written, the `p` tag holds the note's id, not its author |
| Timeline.CallLike | timeline.go:510-583 | key and event-id errors first; then "cannot like" exactly when the corrected relay round has no success |
| Timeline.EventTag | timeline.go:214-222 | a tag has at least its name |
| Timeline.EventTagRecoversArgument | timeline.go:215-220 | the argument is the name, or the name, '=' and the values joined by ';' |
| Timeline.EventTagFromSpelling | timeline.go:215-220 | "n" gives [n]; "n=v1;v2" gives [n, v1, v2] |
| Timeline.EventTags | timeline.go:214-222 | one tag per `--tag` argument, in order |
| Timeline.CallEvent | timeline.go:177-250 | key and signing errors are returned; the event has the given kind and content and the parsed tags; "cannot post" exactly when no relay accepted |
| Timeline.StreamTagIsEventTagWithoutName | timeline.go:858-866 | a stream filter's tag values are the event tag without its name |
| Timeline.StreamTagsNames | timeline.go:858-866 | a name is filtered exactly when some `--tag` argument has it |
| Timeline.StreamTagsLastWins | timeline.go:865 | the last argument naming a tag decides its values |
| Timeline.BuildStreamTags | timeline.go:858-866 | the loop builds the tag filter |
| Timeline.StreamRelays | timeline.go:868-882 | the Global relays when any exists, otherwise the Read relays; each once |
| Timeline.CopiedTagsExactly | timeline.go:905-909 | a tag is copied exactly when it is non-empty and not named "e" or "p" |
| Timeline.AutoReply | timeline.go:900-912 | the reply is ours, with the reply text and the source's kind; its tags are the client tags, the copied tags and ["e", id, "", "reply"] |
| Timeline.TimelineAuthors | timeline.go:936-953 | global: no author filter; otherwise the follow list (an error when empty) or the one resolved user |
| Timeline.CallTimeline | timeline.go:926-982 | the newest min(len, n) streamed events, ascending, or the authors' error |
| DirectMessages.Partner | dm.go:80-89 | for others' events the author; for ours the first `p` tag, skipped when there is none |
| DirectMessages.ScanAllMembers | dm.go:79-97 | a key is seen exactly when it is a partner; listed exactly when also NIP-19 encodable; listed at most once |
| DirectMessages.ScanAllFirstSeenOrder | dm.go:90-93 | listed keys are in the order of their first message |
| DirectMessages.DisplayName | dm.go:98-113 | the npub when the lookup fails; else DisplayName, else Name |
| DirectMessages.ListUsers | dm.go:77-114 | one entry per listed key, with its npub and display name |
| DirectMessages.DMList | dm.go:25-114 | key and query errors are returned; otherwise the listed partners |
| DirectMessages.Peer | dm.go:155-162 | "me" is our own key; otherwise the resolved key or the parse error |
| DirectMessages.ChatsBetween | dm.go:210-221 | exactly the kind-14 events between the two keys, each with its multiplicity |
| DirectMessages.DMCandidates | dm.go:164-222 | the errors of the first two queries are returned; once both answered the result is Ok: both answers, plus the checked chat messages of the gift-wrap query when it answered, and nothing more when it failed |
| DirectMessages.DMCandidatesAreTheConversation | dm.go:164-222 | the candidates are the messages each way plus the checked kind-14 events, counted exactly |
| DirectMessages.KeepChats | dm.go:210-221 | the loop keeps exactly the chats between the two keys |
| DirectMessages.CollectConversation | dm.go:164-222 | the three queries build the candidates |
| DirectMessages.DMTimeline | dm.go:135-231 | key, peer and query errors first; then the newest min(len, n) candidates, ascending |
| DirectMessages.Rumor | dm.go:282-297 | a kind-14 message by us with the content, the optional content warning and a `p` tag for the peer |
| DirectMessages.DMMessage | dm.go:240-335 | in source order: help without content, the key error, "content is empty", the recipient's parse error; then with `--nip04` the encryption error or the signed kind-4 event with the encrypted content, otherwise the gift wrap of the rumor (or its error) |
| DirectMessages.DMMessageToMe | dm.go:286-288 | "me" addresses the message to our own key |
| DirectMessages.CallDMPost | dm.go:240-351 | the message's error, or "cannot post" exactly when no relay serving the DM write request accepted |
| DirectMessages.DMWriteRequestServesWriteRelays | dm.go:338 | under main.go's `Do` filter the DM write request uses exactly the write relays |
| Zaps.LnurlpUrl | zap.go:166-174 | "receipt address is not valid" exactly when there is no '@' |
| Zaps.LnurlpUrlParts | zap.go:174 | the URL is "https://" + domain + "/.well-known/lnurlp/" + user |
| Zaps.HostAndLastSegment | zap.go:174 | the host and the last path segment of that URL are the domain and the user |
| Zaps.ZapInfo | zap.go:142-186 | in source order: the query error, "cannot find user" for no metadata, the profile's parse error, the address error; otherwise what the LNURL-pay address answers |
| Zaps.MsatExact | zap.go:229 | the msat amount is sats×1000 while that fits in 64 bits |
| Zaps.MsatWraps | zap.go:229 | beyond that, the product wraps around |
| Zaps.WriteRelaysExactly | zap.go:230-236 | exactly the Write relays, each once |
| Zaps.RelaysTag | zap.go:230-236 | "relays" followed by the Write relays |
| Zaps.ZapTarget | zap.go:237-264 | nevent: p and e; note: the query's error, or p of the first note's author then e, or e alone when none came back; npub: p; other prefix: "invalid argument"; undecodable: no tags |
| Zaps.ZapTargetReceiptIsPTag | zap.go:237-264 | at most one `p` tag, holding the receipt; no `p` tag means no receipt |
| Zaps.ZapRequest | zap.go:229-268 | kind 9734 by us with the comment; tags: client tags, the msat amount, the relays, then the target's |
| Zaps.WalletRequest | zap.go:60-104 | in source order: the URI, key, connection, encryption and signing errors; otherwise the signed kind-23194 request by the secret's key, stamped now, tagged with the wallet, holding the encrypted "pay_invoice" request |
| Zaps.Pay | zap.go:59-139 | each step's error is returned; a wallet answer carrying an error becomes that error |
| Zaps.CallZap | zap.go:207-316 | key and target errors first, then the signing error; after that the outcome of ZapSteps on the signed request |
| Zaps.ZapSteps | zap.go:272-316 | in source order: the marshalling, ZapInfo and invoice errors; otherwise success, showing the invoice or handing it to the wallet when one is configured |
| Zaps.ZapStepsIgnoreWallet | zap.go:314-316 | the wallet's behaviour never changes whether a zap succeeds, nor the invoice it fetched |
| Profiles.ProfileSubject | profile.go:30-45 | no user: our own key; otherwise the parsed key, or the raw string |
| Profiles.UnparsedUserIsRaw | profile.go:40-44 | an unparsable user is used as the key itself |
| Profiles.ShowProfile | profile.go:19-82 | "cannot connect relays", key errors, "cannot find user"; then the raw content or the parsed profile |
| Profiles.Edit | profile.go:122-135 | no '=': the key is deleted; otherwise it holds the edited value; every other key is untouched |
| Profiles.EditedValue | profile.go:122-135 | no value exactly without '='; `bot` gets a boolean; any other key the string after the first '=' |
| Profiles.EditedKeepsUnnamed | profile.go:121-137 | keys no argument names are unchanged |
| Profiles.EditedLastWins | profile.go:121-137 | the last argument for a key decides it: absent, `bot` as a boolean, or the string after the first '=' |
| Profiles.ApplyEdits | profile.go:121-137 | the loop applies the edits left to right |
| Profiles.UpdateProfile | profile.go:84-175 | connection, key, not-found, parse, marshal and signing errors; then "cannot post" exactly when no relay accepted the edited metadata |
| Bookmarks.ETagValuesAppend | bookmark.go:45-49 | the ids of two tag lists are the ids of each, in order |
| Bookmarks.OtherTagsContributeNothing | bookmark.go:46 | a tag of another name or too short adds nothing |
| Bookmarks.ETagValuesMembers | bookmark.go:44-50 | an id is collected exactly when it is an element after the name of some `e` tag |
| Bookmarks.CollectBookmarkIds | bookmark.go:39-50 | the nested loop collects the ids |
| Bookmarks.BookmarkList | bookmark.go:12-61 | key errors and either query's error are returned; otherwise the notes with the collected ids |
| Bookmarks.BookmarkPost | bookmark.go:63-65 | always "Not Implemented" |
| Mcp.Optional | mcp.go:30-42 | (v, true) exactly when the arguments are a map holding the key with the right type; (zero, false) otherwise |
| Mcp.Required | mcp.go:13-28 | zero when not a map, the key is missing or the type is wrong; otherwise the stored value |
| Mcp.RequiredIsOptionalValue | mcp.go:24-27 | `required` is `optional`'s value; it is zero exactly when absent or stored as zero |
| Mcp.RequiredMissingIsZero | mcp.go:24-26 | a stored zero reads like a missing key for `required`, but not for `optional` |
| Mcp.FavoriteIgnoresDeclaredId | mcp.go:67-71 | as written, the declared "id" argument is never read |
| Mcp.FavoriteTarget | mcp.go:67 | corrected, the declared "id" string is the target |
| Mcp.ZapAmountAlwaysZero | mcp.go:56 | as written, a JSON-decoded amount is never a `uint64`, so it is 0 |
| Mcp.Uint64Of | mcp.go:56 | the conversion of a non-negative float64 truncates |
| Mcp.ZapAmount | mcp.go:52-56 | corrected, the amount is the JSON number truncated |
| Mcp.ZapAmountRecoversSats | mcp.go:52-56 | corrected, a whole number of sats is zapped as is; as written it is not |
| LegacyTimeline.AuthorsAreContactAuthors | src/timeline.go:32-34 | the follow list has one entry per contact-list event, its author |
| LegacyTimeline.CollectAuthors | src/timeline.go:29-34 | the loop collects the authors |
| LegacyTimeline.ExtraOnlyCachedAuthors | src/timeline.go:80-89 | in extra-JSON mode, an event is written exactly when its author is cached, with that profile |
| LegacyTimeline.JsonWritesEveryEvent | src/timeline.go:89-91 | plain JSON writes every event, one for one |
| LegacyTimeline.LinesNameCachedAuthors | src/timeline.go:96-111 | one line per event, led by the cached name or else the pubkey |
| LegacyTimeline.Render | src/timeline.go:78-111 | the output loops give the specified rendering |
| LegacyTimeline.RefreshFollows | src/timeline.go:30-57 | reset, follow the contact-list authors, cache the parsed metadata, stamp with now, save |
| LegacyTimeline.DoTimeline | src/timeline.go:16-114 | "cannot connect relays" without a read relay; a stale or empty cache is refreshed and saved (its error returned), otherwise left alone and its keys followed; then the rendering of the streamed notes |

## Left out

- Network I/O (connecting, querying, subscribing, publishing, HTTP): relays and servers are parameters; timeouts and the end-of-stored-events signal are not modelled.
- Concurrency: `Do` runs its callbacks in goroutines; the model runs them in sequence. The unsynchronised `first` flag and the shared `ev.Tags` in `callLike` and `doReply` are modelled as if the callbacks ran one after another in visiting order.
- Cryptography and encodings (NIP-04, NIP-44, NIP-59, Schnorr signing, NIP-19): functions that may fail.
- `Tags.AppendUnique` is modelled as a plain append, and `Tags.GetFirst` as the first tag whose name matches. Their library code is not part of this model, so tag uniqueness is not claimed. A one-element tag gives the value "".
- DirectMessages.CallDMPost: publishes through main.go's `Do`, which ignores the `DM` flag of its request. The newer `Do` that dm.go:338 calls is not part of this model. If it selects relays by the `DM` flag, the model does not capture that.
- Timeline.PublishAll: same substitution of main.go's `Do` for the newer `Do(r, func(ctx, relay) bool)`, whose success count the command files keep themselves.
- Client.Decode: on an event without a `p` tag, `GetFirst` returns a nil pointer and the `Value()` call at main.go:240 panics. The model reads the value "" instead and goes on with an empty counterparty, so the panic is not modelled.
- DirectMessages.ChatsBetween: a kind-14 event by either side without a `p` tag panics in the same way at dm.go:216-217. The model treats it as not between the two sides and skips it.
- The link, emoji and hashtag extractors, `clientTag`, `sdk.InputToProfile` and `sdk.InputToEventPointer`: parameters.
- `Config.QueryEvents`, `Config.StreamEvents`, `Config.GetProfile`, `Config.PrintEvent`, `Config.FollowList`, the newer `Config.Events(filter)` and `callTimeline`'s `timelineArg` are not part of this model; each is a parameter.
- JSON marshalling and unmarshalling, reading and writing the configuration file, the directory glob, `os.Exit`, terminal colours, printing and QR rendering: parameters or left out. The configuration listing is modelled on one file name.
- The clock: `now` is a parameter.
- `cli.ShowSubcommandHelp`: printing the help is left out. The command's outcome is the value `Help`, kept apart from the `usage` error that `callPost` returns. In Go the command then returns nil.
- Go map iteration order: the parameter `order`; no claim depends on it beyond "first in visiting order".
- The dead `if false` branch of `Config.Events` (main.go:306-321).
- The verbose diagnostics printed under `cfg.verbose`.
- main.go's older command functions (main.go:365-873: doPost, doReply, doRepost, doLike, doDelete, doSearch, doTimeline, doDMTimeline, doDMPost) and `main` itself. They are an older generation of the commands that timeline.go and dm.go model.
- doRepost, doUnrepost, doUnlike, doDelete, doSearch, doBroadcast, postMsg, doPowa and doPuru in timeline.go: thin sign-and-publish wrappers outside the modelled core.
- src/main.go, src/event.go and src/delete.go are not part of this model: a command table, a type declaration, and a sign-and-publish wrapper.
- doStream's `--pattern` regular expression and its output loop.
- The subscription filter `pay` uses to wait for the wallet's answer: the answer is the parameter `exchange`.
- The MCP server wiring (tool registration, stdio transport, `get_nostr_timeline`). Only the argument reads are modelled.
- Timeline.CallTimeline: `n` is a nat. A negative `--n` makes the Go slice expression panic, which is not modelled.
- DirectMessages.DMTimeline: `n` is a nat, for the same reason.
- Mcp.ZapAmount: states the conversion only for amounts in the uint64 range; outside it Go's float-to-integer conversion is implementation-defined, and the model gives 0. A JSON number is modelled as an exact real, not as a float64. Rounding is therefore not modelled: a whole number above 2^53, which a float64 cannot hold exactly, is modelled as converted exactly.

## Findings

| source | as written | input that shows it | evidently intended | confidence | as-written member | corrected member |
|---|---|---|---|---|---|---|
| timeline.go:556-570 | the first relay of `callLike`'s round fetches the note, signs, and returns without publishing | one write relay that accepts everything: the command fails with "cannot like" | every used relay publishes the reaction; the first one also fetches the note | high, not executed | Timeline.LikeAsWrittenAllAccept | Timeline.LikeAllAccept |
| timeline.go:563 | the reaction's `p` tag holds the liked note's id (`tmp.ID`) | any note whose id differs from its author's key | the `p` tag names the note's author, as NIP-25 asks | high, not executed | Timeline.LikeAsWrittenTagsNoteId | Timeline.CallLike |
| main.go:80 | listing profiles trims every leading '-' from the name between "config" and ".json" | the profile "-work" is listed as "work" | drop only the one '-' that separates "config" from the profile | medium, not executed | Client.ListedProfileLosesLeadingDash | Client.ListedProfileExactRoundTrip |
| mcp.go:67-71 | `favorite_nostr_event` declares the argument "id" but reads "note" | a call with {"id": "note1..."}: the id read is "" | read the declared "id" argument | high, not executed | Mcp.FavoriteIgnoresDeclaredId | Mcp.FavoriteTarget |
| mcp.go:52-56 | `send_satoshi` reads its number argument with `required[uint64]` | {"amount": 21} decoded from JSON holds a float64, so the amount read is 0 | read the JSON number as float64 and convert it | medium, not executed | Mcp.ZapAmountAlwaysZero | Mcp.ZapAmountRecoversSats |
