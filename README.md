# Harmony message stickers, channel and component types — a Dafny model

This project models three files of the harmony Discord library:

- `src/structures/messageSticker.ts` (module `MessageStickers`, file
  `stickers.dfy`). This covers the three sticker entities: `MessageStickerItem`,
  `MessageSticker` and `MessageStickerPack`. Each is a class whose fields
  `readFromData` overwrites in place. The merge is a nullish overlay (`??`),
  except that `user` is replaced outright. The item derives its URL from
  its format. A sticker can be edited and deleted only when it belongs to a
  guild. A pack rebuilds its stickers on every merge. Each class's
  `ReadFromData` is proved against a merge function on values
  (`MergeItem`, `MergeSticker`, `MergePack`), and the lemmas state what
  those merges promise.
- `src/types/channel.ts` (module `ChannelTypes`, file `channel.dfy`). This
  covers the `as const` code tables (channel and message flags, overwrite and
  override types, channel types, message types with their boost aliases,
  sticker format and sticker type) and the payload records the sticker
  entities consume.
- `src/types/messageComponents.ts` (module `MessageComponents`, file
  `components.dfy`). This covers the component type, button style and text
  input style tables with their deprecated and alias keys, the component
  payloads, the recursive `MessageComponentPayload` union and the
  interaction and modal-submit data.

Two support modules:

- `JsValues` (`js_values.dfy`) models a JavaScript slot that is
  `undefined`, `null` or a value (`Nullish`), the `??` operator (`Coalesce`)
  and how a template literal renders such a slot.
- `Bits` (`bits.dfy`) gives powers of two and bit counts, so that each
  `1 << k` flag entry can be stated to be one bit.

Every `as const` table becomes a datatype with one constructor per key
and a `Code()` giving the key's number. For every table except the two flag
tables, a static `FromCode` reverse lookup is the independent partner the
table is checked against. The flag tables (`ChannelFlag`, `MessageFlag`)
instead give each key as a shift count k. They are checked through
`Pow2HasOneBit` and `Pow2Injective`: each value is one bit, and no two
flags share one. Where two keys
share a number (deprecated component names, button style aliases, the
boost message types), `Canonical()` names the representative key and the
lemmas state that two keys share a code exactly when they share a
representative.

The remote sticker endpoints (`client.stickers.edit`, `_get` and
`delete`) are modelled by `StickersClient`. It is an oracle object: three
reply functions fixed at construction say what each endpoint answers, and
a `calls` log records every request in order. The CDN and media host
names are a `Hosts` parameter.

## Model

| member | source | states |
|---|---|---|
| JsValues.TemplateStringConflatesNullish | src/structures/messageSticker.ts:44 | `${undefined}` and `${null}` are indistinguishable from the strings "undefined" and "null", while defined strings render injectively |
| JsValues.CoalesceOverlay | src/structures/messageSticker.ts:66-73 | true by construction, as a reading aid: the first two clauses restate `??` (a defined left operand wins, false, 0 and "" included, else the fallback); the third adds that the result is defined iff either operand is |
| JsValues.CoalesceIdempotent | src/structures/messageSticker.ts:66-73 | overlaying the same value twice is overlaying it once |
| Bits.Pow2HasOneBit | src/types/channel.ts:49-53 | every `1 << k` has exactly one bit set |
| Bits.Pow2Injective | src/types/channel.ts:554-568 | distinct shift counts give distinct values, and conversely |
| ChannelTypes.ChannelFlagIsSingleBit | src/types/channel.ts:49-53 | each channel flag is a single bit |
| ChannelTypes.ChannelFlagCodesDistinct | src/types/channel.ts:49-53 | two channel flags have the same value iff they are the same flag |
| ChannelTypes.MessageFlagIsSingleBit | src/types/channel.ts:554-568 | each message flag is a single bit |
| ChannelTypes.MessageFlagCodesDistinct | src/types/channel.ts:554-568 | no two message flags share a bit |
| ChannelTypes.OverwriteType.FromCode | src/types/channel.ts:235-238 | the lookup finds a key with that code, and finds none exactly for codes other than 0 and 1 |
| ChannelTypes.OverrideType.FromCode | src/types/channel.ts:265-269 | the lookup finds a key with that code, and finds none exactly outside 0..2 |
| ChannelTypes.OverwriteAndOverrideCodesDistinct | src/types/channel.ts:235-269 | both tables round-trip through their lookup and their codes are pairwise distinct |
| ChannelTypes.ChannelType.FromCode | src/types/channel.ts:273-288 | a code names a channel type iff it is in 0..6 or 10..16, and the key found has that code |
| ChannelTypes.ChannelTypeRoundTrip | src/types/channel.ts:273-288 | looking up a channel type's code gives that channel type back |
| ChannelTypes.ChannelTypeCodesDistinct | src/types/channel.ts:273-288 | two channel types share a code iff they are the same type |
| ChannelTypes.MessageType.Canonical | src/types/channel.ts:505-538 | the representative of a message type has the same code |
| ChannelTypes.MessageType.FromCode | src/types/channel.ts:496-539 | any key found has the looked-up code and is its own representative |
| ChannelTypes.MessageTypeRoundTrip | src/types/channel.ts:496-539 | looking up a message type's code gives its representative; the representative is stable |
| ChannelTypes.MessageTypeSameCode | src/types/channel.ts:496-539 | two message types share a code iff they share a representative |
| ChannelTypes.MessageTypeBoostAliases | src/types/channel.ts:505-508 | the GUILD_BOOST keys are distinct keys carrying the codes 8..11 of the USER_PREMIUM_GUILD_SUBSCRIPTION keys; 13 and 30 name no message type |
| ChannelTypes.StickerFormat.FromCode | src/types/channel.ts:577-582 | a code names a sticker format iff it is in 1..4, and the key found has that code |
| ChannelTypes.StickerType.FromCode | src/types/channel.ts:587-590 | a code names a sticker type iff it is 1 or 2, and the key found has that code |
| ChannelTypes.StickerCodesDistinct | src/types/channel.ts:577-590 | both sticker tables round-trip through their lookup and have distinct codes |
| ChannelTypes.StageIsVoiceWithoutVideoQualityMode | src/types/channel.ts:78-87 | a stage channel payload is a voice channel payload with `video_quality_mode` omitted: omitting and restoring it round-trip both ways |
| MessageComponents.ComponentType.Canonical | src/types/messageComponents.ts:1-43 | the representative of a component type has the same code and is not a deprecated key |
| MessageComponents.ComponentType.FromCode | src/types/messageComponents.ts:1-43 | a code names a component type iff it is in 1..19 but not 15 or 16; the key found has that code and is not deprecated |
| MessageComponents.ComponentTypeRoundTrip | src/types/messageComponents.ts:1-43 | looking up a component type's code gives its representative |
| MessageComponents.ComponentTypeSameCode | src/types/messageComponents.ts:1-43 | two component types share a code iff they share a representative; non-deprecated keys have distinct codes |
| MessageComponents.DeprecatedComponentAliases | src/types/messageComponents.ts:2-7 | the deprecated ActionRow, Button and Select carry the codes 1, 2, 3 of ACTION_ROW, BUTTON and STRING_SELECT |
| MessageComponents.ButtonStyle.Canonical | src/types/messageComponents.ts:48-64 | the representative of a button style has the same code and is not an alias |
| MessageComponents.ButtonStyle.FromCode | src/types/messageComponents.ts:48-64 | a code names a button style iff it is in 1..6; the key found has that code and is not an alias |
| MessageComponents.ButtonStyleRoundTrip | src/types/messageComponents.ts:48-64 | every button style, alias or not, has a code in 1..6, and looking it up gives its representative |
| MessageComponents.ButtonStyleSameCode | src/types/messageComponents.ts:48-64 | two button styles share a code iff they share a representative; non-alias keys have distinct codes |
| MessageComponents.TextInputStyle.FromCode | src/types/messageComponents.ts:68-73 | a code names a text input style iff it is 1 or 2 |
| MessageComponents.TextInputStyleRoundTrip | src/types/messageComponents.ts:68-73 | text input styles round-trip through their lookup and have distinct codes |
| MessageComponents.TypeCodeIdentifiesVariant | src/types/messageComponents.ts:169-173 | the `type` field of a component payload is 1, 2, 3 or 4 exactly for an action row, button, select or text input, and two payloads share a `type` iff they are the same variant |
| MessageComponents.EveryComponentTreeIsWellTagged | src/types/messageComponents.ts:84-173 | true by construction, because a node's `type` is defined as its variant's code: at every depth of a tree, the reverse lookup of each node's `type` names that node's own variant |
| MessageComponents.ModalSubmitIsRowsOfTextInputs | src/types/messageComponents.ts:187-205 | submitted modal data is a list of action rows (type 1) each holding text inputs (type 4) |
| MessageStickers.FileExtension | src/structures/messageSticker.ts:33-41 | the extension is "json" iff the format is LOTTIE, "gif" iff it is GIF, and "png" for every other format or none |
| MessageStickers.StickerUrl | src/structures/messageSticker.ts:43-45 | the URL starts with the media host for GIF and the CDN host otherwise, and ends with `/stickers/{id}.{ext}` |
| MessageStickers.StickerUrlDeterminesId | src/structures/messageSticker.ts:43-45 | for one format, different ids never give the same URL |
| MessageStickers.StickerUrlExamples | src/structures/messageSticker.ts:43-45 | id "123" gives `{media}/stickers/123.gif`, `{cdn}/stickers/123.png` and `{cdn}/stickers/123.json` for GIF, PNG and LOTTIE |
| MessageStickers.MergeItem | src/structures/messageSticker.ts:26-31 | after a merge the item's url is always the URL of its merged id (rendered as a template string) and merged format |
| MessageStickers.MergeItemOverlay | src/structures/messageSticker.ts:27-29 | id, name and format take the payload's value when it is neither null nor undefined and keep theirs otherwise |
| MessageStickers.MergeItemWithoutId | src/structures/messageSticker.ts:27-30 | an item with no id that is merged with a payload whose id is absent or null keeps an undefined id and gets the URL for the id "undefined" |
| MessageStickers.MergeItemIdempotent | src/structures/messageSticker.ts:26-31 | merging the same item payload twice is merging it once |
| MessageStickers.MessageStickerItem.constructor | src/structures/messageSticker.ts:21-24 | a new item holds the merge of its payload into an item whose fields, id included, are undefined |
| MessageStickers.MessageStickerItem.ReadFromData | src/structures/messageSticker.ts:26-31 | the item's new fields are `MergeItem` of its old fields and the payload |
| MessageStickers.MergeSticker | src/structures/messageSticker.ts:65-77 | a merge never changes the sticker's id, and preserves "description is never undefined and guild id never null" |
| MessageStickers.NewStickerState | src/structures/messageSticker.ts:53-63 | a sticker built from a payload has the payload's id and satisfies that invariant |
| MessageStickers.MergeOverridesAttributes | src/structures/messageSticker.ts:66-76 | on each of the nine overlaid fields, a value the payload offers replaces the held one, and an absent or null one keeps it (a null description never clears a description) |
| MessageStickers.AttributesDetermineState | src/structures/messageSticker.ts:48-58 | two stickers with the same id, user and overlaid fields are the same sticker, so the previous lemma and `MergeReplacesUser` characterise the whole merge |
| MessageStickers.FalsyValuesOverwrite | src/structures/messageSticker.ts:71-76 | `false`, `0` and `""` in the payload overwrite |
| MessageStickers.MergeReplacesUser | src/structures/messageSticker.ts:74-75 | the merged user depends on the payload alone: none when the payload's user is undefined, otherwise a new user built from it |
| MessageStickers.MergeStickerIdempotent | src/structures/messageSticker.ts:65-77 | merging the same sticker payload twice is merging it once |
| MessageStickers.GuardMeansGuildScoped | src/structures/messageSticker.ts:81-91 | true by construction: it unfolds `WellFormed` to show that, on a well-formed sticker, the guard `guildID === undefined` fails exactly when the sticker has a guild id |
| MessageStickers.StickersClient.Edit | src/structures/messageSticker.ts:83 | logs the edit request and answers the endpoint's reply |
| MessageStickers.StickersClient.Get | src/structures/messageSticker.ts:84 | logs the fetch and answers the stored payload or undefined |
| MessageStickers.StickersClient.Delete | src/structures/messageSticker.ts:92 | logs the delete request and answers the endpoint's reply |
| MessageStickers.MessageSticker.constructor | src/structures/messageSticker.ts:53-63 | a new sticker holds `NewStickerState` of its payload and is well formed |
| MessageStickers.MessageSticker.ReadFromData | src/structures/messageSticker.ts:65-77 | the sticker's new fields are `MergeSticker` of its old fields and the payload, and the invariant is kept |
| MessageStickers.MessageSticker.Edit | src/structures/messageSticker.ts:80-86 | without a guild id: the "Only Guild Stickers can be edited" error, no request, nothing changed; an edit failure: that error, one request, nothing changed; otherwise the edit and a fetch of the edited id are requested, a missing payload throws, and a fetched one is merged and this same sticker is returned |
| MessageStickers.MessageSticker.Delete | src/structures/messageSticker.ts:89-93 | without a guild id: the "Only Guild Stickers can be deleted" error and no request; otherwise one delete request, answering the endpoint's boolean or failing with its error |
| MessageStickers.NewStickerStates | src/structures/messageSticker.ts:110 | one new sticker per payload, in order |
| MessageStickers.MergePack | src/structures/messageSticker.ts:109-116 | the pack keeps its id, and its stickers are exactly the new stickers of the payload's sticker list, in order |
| MessageStickers.MergePackOverlay | src/structures/messageSticker.ts:110-115 | the stickers do not depend on what the pack held; name, SKU id, cover sticker id, description and banner asset id are overlaid with `??` |
| MessageStickers.MergePackIdempotent | src/structures/messageSticker.ts:109-116 | merging the same pack payload twice gives the same values as merging it once |
| MessageStickers.MessageStickerPack.constructor | src/structures/messageSticker.ts:104-107 | a new pack holds the merge of its payload into a pack with the payload's id and nothing else, with newly allocated stickers |
| MessageStickers.MessageStickerPack.ReadFromData | src/structures/messageSticker.ts:109-116 | the pack's new state is `MergePack` of its old state and the payload; its stickers are newly allocated and pairwise distinct objects |
| MessageStickers.BuildStickers | src/structures/messageSticker.ts:110 | the `map` builds one new, distinct sticker object per payload whose state is the payload's new sticker state, in order |

## Left out

- Asynchrony: `edit` and `delete` return promises. Here they are methods that run to completion, and a thrown error is a `Failure` result.
- The REST layer behind `client.stickers` is not part of this model. Its answers are the oracle functions of `StickersClient`. `edit` receives the sticker object, but the model passes only its id, which is all the log needs.
- `_get` answering undefined makes `readFromData(undefined!)` throw a TypeError. This is modelled as the `UndefinedPayload` error. The message of that TypeError is not modelled.
- src/structures/base.ts (`SnowflakeBase`) is not part of this model. Its constructor is taken to copy `data.id` when given a payload and to leave `id` undefined otherwise. Its `client` reference and timestamp getters are left out.
- src/structures/user.ts is not part of this model. A `User` is known only by the payload it was built from, and `NewUser` stands for `new User(client, data.user)`. Two users built from equal payloads are therefore equal in the model, whereas in the library they are distinct objects.
- The text of `Constants.DISCORD_CDN_URL` and `Constants.DISCORD_MEDIA_URL` is not part of this model; the hosts are a parameter.
- `sort_value` is a JavaScript number. The model uses unbounded integers and does not model fractional sort values.
- Payload fields that the merge reads through `??` are modelled as possibly `undefined` or `null`, even where the TypeScript type says they are always present, because `??` handles both at run time. The sticker and pack `id` and the pack's `stickers` are modelled as always present, as their types declare. The item's `id` is read through `??`, so it may be absent. Format and sticker type codes outside their tables are not representable.
- `ModifyGuildStickerOptions` is modelled in its `Partial` form. `WithinDocumentedLimits` states the documented length limits, which `edit` does not check; neither does the model.
- The flag tables are written with JavaScript's 32-bit `<<`. `Pow2` agrees with it for every shift the tables use (at most 15), and larger shifts are not modelled.
- Payload interfaces of channel.ts that no modelled operation consumes are left out: thread, forum, DM and group DM, category, the Modify* payloads and options, messages, embeds, polls, attachments, reactions, mentions, webhooks and threads. Left out for the same reason: `GuildForumSortOrderTypes`, `MessageActivityTypes` and `AllowedMentionType`. The voice and stage payloads and the base channel payloads they extend are kept.
- The camelCase component records (`ActionRowComponent`, `ButtonComponent`, `SelectComponent`, `TextInputComponent`, `MessageComponentData`) are left out. So are conversions between them and the payloads; those conversions live outside these files.
- `ChannelType` has the 14 keys declared in channel.ts, with codes 0–6 and 10–16. Codes 7–9 name no channel type. The resolver that maps a channel payload to its variant is not in these files, so it is not modelled.
- MessageStickerPack.ReadFromData: a pack payload whose `stickers` is absent or null makes `data.stickers.map` throw a TypeError before any field is assigned (messageSticker.ts:110). The model has no such path, because `stickers` is a required sequence. The method also assigns the pack's scalar fields before building the stickers, whereas the source builds first. For payloads of the declared type the end state is the same, because building a sticker reads nothing of the pack and, in this model, never throws. With a throwing `stickers` the orders would differ: the source changes nothing, while this order would already have overlaid the scalar fields.
