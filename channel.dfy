/**
 * The code tables of src/types/channel.ts and the payload records the
 * sticker entities consume. Each `as const` table becomes a datatype with
 * one constructor per key and a `Code()` giving the key's number; a
 * `FromCode` reverse lookup is the partner every table is checked against.
 */
module ChannelTypes {
  import opened JsValues
  import opened Bits

  // ---------------------------------------------------------------------
  // ChannelFlags and MessageFlags: bit sets written as `1 << k`
  // ---------------------------------------------------------------------

  datatype ChannelFlag = PINNED | REQUIRE_TAG | HIDE_MEDIA_DOWNLOAD_OPTIONS
  {
    /** The shift count k of the entry `1 << k`. */
    function Shift(): nat
    {
      match this
      case PINNED => 1
      case REQUIRE_TAG => 4
      case HIDE_MEDIA_DOWNLOAD_OPTIONS => 15
    }

    function Code(): nat
    {
      Pow2(Shift())
    }
  }

  /** Every channel flag is a single bit. */
  lemma ChannelFlagIsSingleBit(f: ChannelFlag)
    ensures PopCount(f.Code()) == 1
  {
    Pow2HasOneBit(f.Shift());
  }

  /** No two channel flags share a bit. */
  lemma ChannelFlagCodesDistinct(f: ChannelFlag, g: ChannelFlag)
    ensures f.Code() == g.Code() <==> f == g
  {
    Pow2Injective(f.Shift(), g.Shift());
  }

  datatype MessageFlag =
    | CROSSPOSTED
    | IS_CROSSPOST
    | SUPPRESS_EMBEDS
    | SOURCE_MESSAGE_DELETED
    | URGENT
    | HAS_THREAD
    | EPHEMERAL
    | LOADING
    | FAILED_TO_MENTION_SOME_ROLES_IN_THREAD
    | SUPPRESS_NOTIFICATIONS
    | IS_VOICE_MESSAGE
    | HAS_SNAPSHOT
    | IS_COMPONENTS_V2
  {
    /** The shift count k of the entry `1 << k`; bits 9 to 11 are not used. */
    function Shift(): nat
    {
      match this
      case CROSSPOSTED => 0
      case IS_CROSSPOST => 1
      case SUPPRESS_EMBEDS => 2
      case SOURCE_MESSAGE_DELETED => 3
      case URGENT => 4
      case HAS_THREAD => 5
      case EPHEMERAL => 6
      case LOADING => 7
      case FAILED_TO_MENTION_SOME_ROLES_IN_THREAD => 8
      case SUPPRESS_NOTIFICATIONS => 12
      case IS_VOICE_MESSAGE => 13
      case HAS_SNAPSHOT => 14
      case IS_COMPONENTS_V2 => 15
    }

    function Code(): nat
    {
      Pow2(Shift())
    }
  }

  /** Every message flag is a single bit. */
  lemma MessageFlagIsSingleBit(f: MessageFlag)
    ensures PopCount(f.Code()) == 1
  {
    Pow2HasOneBit(f.Shift());
  }

  /** No two message flags share a bit. */
  lemma MessageFlagCodesDistinct(f: MessageFlag, g: MessageFlag)
    ensures f.Code() == g.Code() <==> f == g
  {
    Pow2Injective(f.Shift(), g.Shift());
  }

  // ---------------------------------------------------------------------
  // OverwriteType and OverrideType
  // ---------------------------------------------------------------------

  datatype OverwriteType = ROLE | USER
  {
    function Code(): int
    {
      match this
      case ROLE => 0
      case USER => 1
    }

    static function FromCode(code: int): (r: Option<OverwriteType>)
      ensures r.Some? ==> r.value.Code() == code
      ensures r.None? <==> code != 0 && code != 1
    {
      match code
      case 0 => Some(ROLE)
      case 1 => Some(USER)
      case _ => None
    }
  }

  datatype OverrideType = ADD | REMOVE | REPLACE
  {
    function Code(): int
    {
      match this
      case ADD => 0
      case REMOVE => 1
      case REPLACE => 2
    }

    static function FromCode(code: int): (r: Option<OverrideType>)
      ensures r.Some? ==> r.value.Code() == code
      ensures r.None? <==> !(0 <= code <= 2)
    {
      match code
      case 0 => Some(ADD)
      case 1 => Some(REMOVE)
      case 2 => Some(REPLACE)
      case _ => None
    }
  }

  /** Both tables are injective: each code names exactly one key. */
  lemma OverwriteAndOverrideCodesDistinct(a: OverwriteType, b: OverwriteType, c: OverrideType, d: OverrideType)
    ensures OverwriteType.FromCode(a.Code()) == Some(a)
    ensures a.Code() == b.Code() <==> a == b
    ensures OverrideType.FromCode(c.Code()) == Some(c)
    ensures c.Code() == d.Code() <==> c == d
  {
  }

  // ---------------------------------------------------------------------
  // ChannelTypes
  // ---------------------------------------------------------------------

  datatype ChannelType =
    | GUILD_TEXT
    | DM
    | GUILD_VOICE
    | GROUP_DM
    | GUILD_CATEGORY
    | GUILD_NEWS
    | GUILD_STORE
    | NEWS_THREAD
    | PUBLIC_THREAD
    | PRIVATE_THREAD
    | GUILD_STAGE_VOICE
    | GUILD_DIRECTORY
    | GUILD_FORUM
    | GUILD_MEDIA
  {
    function Code(): int
    {
      match this
      case GUILD_TEXT => 0
      case DM => 1
      case GUILD_VOICE => 2
      case GROUP_DM => 3
      case GUILD_CATEGORY => 4
      case GUILD_NEWS => 5
      case GUILD_STORE => 6
      case NEWS_THREAD => 10
      case PUBLIC_THREAD => 11
      case PRIVATE_THREAD => 12
      case GUILD_STAGE_VOICE => 13
      case GUILD_DIRECTORY => 14
      case GUILD_FORUM => 15
      case GUILD_MEDIA => 16
    }

    static function FromCode(code: int): (r: Option<ChannelType>)
      ensures r.Some? ==> r.value.Code() == code
      ensures r.Some? <==> 0 <= code <= 16 && !(7 <= code <= 9)
    {
      match code
      case 0 => Some(GUILD_TEXT)
      case 1 => Some(DM)
      case 2 => Some(GUILD_VOICE)
      case 3 => Some(GROUP_DM)
      case 4 => Some(GUILD_CATEGORY)
      case 5 => Some(GUILD_NEWS)
      case 6 => Some(GUILD_STORE)
      case 10 => Some(NEWS_THREAD)
      case 11 => Some(PUBLIC_THREAD)
      case 12 => Some(PRIVATE_THREAD)
      case 13 => Some(GUILD_STAGE_VOICE)
      case 14 => Some(GUILD_DIRECTORY)
      case 15 => Some(GUILD_FORUM)
      case 16 => Some(GUILD_MEDIA)
      case _ => None
    }
  }

  /** Looking up a channel type's own code finds that channel type. */
  lemma ChannelTypeRoundTrip(t: ChannelType)
    ensures ChannelType.FromCode(t.Code()) == Some(t)
  {
  }

  /** The fourteen channel codes are pairwise distinct. */
  lemma ChannelTypeCodesDistinct(a: ChannelType, b: ChannelType)
    ensures a.Code() == b.Code() <==> a == b
  {
    ChannelTypeRoundTrip(a);
    ChannelTypeRoundTrip(b);
  }

  // ---------------------------------------------------------------------
  // MessageTypes: four keys are aliases of earlier ones
  // ---------------------------------------------------------------------

  datatype MessageType =
    | DEFAULT
    | RECIPIENT_ADD
    | RECIPIENT_REMOVE
    | CALL
    | CHANNEL_NAME_CHANGE
    | CHANNEL_ICON_CHANGE
    | CHANNEL_PINNED_MESSAGE
    | GUILD_MEMBER_JOIN
    | USER_PREMIUM_GUILD_SUBSCRIPTION
    | USER_PREMIUM_GUILD_SUBSCRIPTION_TIER_1
    | USER_PREMIUM_GUILD_SUBSCRIPTION_TIER_2
    | USER_PREMIUM_GUILD_SUBSCRIPTION_TIER_3
    | CHANNEL_FOLLOW_ADD
    | GUILD_DISCOVERY_DISQUALIFIED
    | GUILD_DISCOVERY_REQUALIFIED
    | GUILD_DISCOVERY_GRACE_PERIOD_INITIAL_WARNING
    | GUILD_DISCOVERY_GRACE_PERIOD_FINAL_WARNING
    | THREAD_CREATED
    | REPLY
    | APPLICATION_COMMAND
    | THREAD_STARTER_MESSAGE
    | GUILD_INVITE_REMINDER
    | CONTEXT_MENU_COMMAND
    | AUTO_MODERATION_ACTION
    | ROLE_SUBSCRIPTION_PURCHASE
    | INTERACTION_PREMIUM_UPSELL
    | STAGE_START
    | STAGE_END
    | STAGE_SPEAKER
    | STAGE_TOPIC
    | GUILD_APPLICATION_PREMIUM_SUBSCRIPTION
    | GUILD_INCIDENT_ALERT_MODE_ENABLED
    | GUILD_INCIDENT_ALERT_MODE_DISABLED
    | GUILD_INCIDENT_REPORT_RAID
    | GUILD_INCIDENT_REPORT_FALSE_ALARM
    | PURCHASE_NOTIFICATION
    | POLL_RESULT
    | GUILD_BOOST
    | GUILD_BOOST_TIER_1
    | GUILD_BOOST_TIER_2
    | GUILD_BOOST_TIER_3
  {
    function Code(): int
    {
      match this
      case DEFAULT => 0
      case RECIPIENT_ADD => 1
      case RECIPIENT_REMOVE => 2
      case CALL => 3
      case CHANNEL_NAME_CHANGE => 4
      case CHANNEL_ICON_CHANGE => 5
      case CHANNEL_PINNED_MESSAGE => 6
      case GUILD_MEMBER_JOIN => 7
      case USER_PREMIUM_GUILD_SUBSCRIPTION => 8
      case USER_PREMIUM_GUILD_SUBSCRIPTION_TIER_1 => 9
      case USER_PREMIUM_GUILD_SUBSCRIPTION_TIER_2 => 10
      case USER_PREMIUM_GUILD_SUBSCRIPTION_TIER_3 => 11
      case CHANNEL_FOLLOW_ADD => 12
      case GUILD_DISCOVERY_DISQUALIFIED => 14
      case GUILD_DISCOVERY_REQUALIFIED => 15
      case GUILD_DISCOVERY_GRACE_PERIOD_INITIAL_WARNING => 16
      case GUILD_DISCOVERY_GRACE_PERIOD_FINAL_WARNING => 17
      case THREAD_CREATED => 18
      case REPLY => 19
      case APPLICATION_COMMAND => 20
      case THREAD_STARTER_MESSAGE => 21
      case GUILD_INVITE_REMINDER => 22
      case CONTEXT_MENU_COMMAND => 23
      case AUTO_MODERATION_ACTION => 24
      case ROLE_SUBSCRIPTION_PURCHASE => 25
      case INTERACTION_PREMIUM_UPSELL => 26
      case STAGE_START => 27
      case STAGE_END => 28
      case STAGE_SPEAKER => 29
      case STAGE_TOPIC => 31
      case GUILD_APPLICATION_PREMIUM_SUBSCRIPTION => 32
      case GUILD_INCIDENT_ALERT_MODE_ENABLED => 36
      case GUILD_INCIDENT_ALERT_MODE_DISABLED => 37
      case GUILD_INCIDENT_REPORT_RAID => 38
      case GUILD_INCIDENT_REPORT_FALSE_ALARM => 39
      case PURCHASE_NOTIFICATION => 44
      case POLL_RESULT => 46
      case GUILD_BOOST => 8
      case GUILD_BOOST_TIER_1 => 9
      case GUILD_BOOST_TIER_2 => 10
      case GUILD_BOOST_TIER_3 => 11
    }

    /** The key declared first with this key's code: each alias maps to the key it duplicates. */
    function Canonical(): (c: MessageType)
      ensures c.Code() == Code()
    {
      match this
      case GUILD_BOOST => USER_PREMIUM_GUILD_SUBSCRIPTION
      case GUILD_BOOST_TIER_1 => USER_PREMIUM_GUILD_SUBSCRIPTION_TIER_1
      case GUILD_BOOST_TIER_2 => USER_PREMIUM_GUILD_SUBSCRIPTION_TIER_2
      case GUILD_BOOST_TIER_3 => USER_PREMIUM_GUILD_SUBSCRIPTION_TIER_3
      case _ => this
    }

    /** Reverse lookup: the first-declared key with this code, if any. */
    static function FromCode(code: int): (r: Option<MessageType>)
      ensures r.Some? ==> r.value.Code() == code && r.value.Canonical() == r.value
    {
      match code
      case 0 => Some(DEFAULT)
      case 1 => Some(RECIPIENT_ADD)
      case 2 => Some(RECIPIENT_REMOVE)
      case 3 => Some(CALL)
      case 4 => Some(CHANNEL_NAME_CHANGE)
      case 5 => Some(CHANNEL_ICON_CHANGE)
      case 6 => Some(CHANNEL_PINNED_MESSAGE)
      case 7 => Some(GUILD_MEMBER_JOIN)
      case 8 => Some(USER_PREMIUM_GUILD_SUBSCRIPTION)
      case 9 => Some(USER_PREMIUM_GUILD_SUBSCRIPTION_TIER_1)
      case 10 => Some(USER_PREMIUM_GUILD_SUBSCRIPTION_TIER_2)
      case 11 => Some(USER_PREMIUM_GUILD_SUBSCRIPTION_TIER_3)
      case 12 => Some(CHANNEL_FOLLOW_ADD)
      case 14 => Some(GUILD_DISCOVERY_DISQUALIFIED)
      case 15 => Some(GUILD_DISCOVERY_REQUALIFIED)
      case 16 => Some(GUILD_DISCOVERY_GRACE_PERIOD_INITIAL_WARNING)
      case 17 => Some(GUILD_DISCOVERY_GRACE_PERIOD_FINAL_WARNING)
      case 18 => Some(THREAD_CREATED)
      case 19 => Some(REPLY)
      case 20 => Some(APPLICATION_COMMAND)
      case 21 => Some(THREAD_STARTER_MESSAGE)
      case 22 => Some(GUILD_INVITE_REMINDER)
      case 23 => Some(CONTEXT_MENU_COMMAND)
      case 24 => Some(AUTO_MODERATION_ACTION)
      case 25 => Some(ROLE_SUBSCRIPTION_PURCHASE)
      case 26 => Some(INTERACTION_PREMIUM_UPSELL)
      case 27 => Some(STAGE_START)
      case 28 => Some(STAGE_END)
      case 29 => Some(STAGE_SPEAKER)
      case 31 => Some(STAGE_TOPIC)
      case 32 => Some(GUILD_APPLICATION_PREMIUM_SUBSCRIPTION)
      case 36 => Some(GUILD_INCIDENT_ALERT_MODE_ENABLED)
      case 37 => Some(GUILD_INCIDENT_ALERT_MODE_DISABLED)
      case 38 => Some(GUILD_INCIDENT_REPORT_RAID)
      case 39 => Some(GUILD_INCIDENT_REPORT_FALSE_ALARM)
      case 44 => Some(PURCHASE_NOTIFICATION)
      case 46 => Some(POLL_RESULT)
      case _ => None
    }
  }

  /** Looking up a message type's code finds the key it is an alias of (itself if it is no alias). */
  lemma MessageTypeRoundTrip(t: MessageType)
    ensures MessageType.FromCode(t.Code()) == Some(t.Canonical())
    ensures t.Canonical().Canonical() == t.Canonical()
  {
  }

  /**
   * Two message type keys share a code exactly when they are the same key
   * up to aliasing; in particular the reverse lookup is not injective.
   */
  lemma MessageTypeSameCode(a: MessageType, b: MessageType)
    ensures a.Code() == b.Code() <==> a.Canonical() == b.Canonical()
  {
    MessageTypeRoundTrip(a);
    MessageTypeRoundTrip(b);
  }

  /** The four boost keys are aliases: distinct keys with the codes 8 to 11 of the premium-subscription keys. */
  lemma MessageTypeBoostAliases()
    ensures GUILD_BOOST != USER_PREMIUM_GUILD_SUBSCRIPTION
    ensures GUILD_BOOST.Code() == USER_PREMIUM_GUILD_SUBSCRIPTION.Code() == 8
    ensures GUILD_BOOST_TIER_1.Code() == USER_PREMIUM_GUILD_SUBSCRIPTION_TIER_1.Code() == 9
    ensures GUILD_BOOST_TIER_2.Code() == USER_PREMIUM_GUILD_SUBSCRIPTION_TIER_2.Code() == 10
    ensures GUILD_BOOST_TIER_3.Code() == USER_PREMIUM_GUILD_SUBSCRIPTION_TIER_3.Code() == 11
    ensures MessageType.FromCode(13) == None && MessageType.FromCode(30) == None
  {
  }

  // ---------------------------------------------------------------------
  // Sticker tables
  // ---------------------------------------------------------------------

  datatype StickerFormat = PNG | APNG | LOTTIE | GIF
  {
    function Code(): int
    {
      match this
      case PNG => 1
      case APNG => 2
      case LOTTIE => 3
      case GIF => 4
    }

    static function FromCode(code: int): (r: Option<StickerFormat>)
      ensures r.Some? ==> r.value.Code() == code
      ensures r.Some? <==> 1 <= code <= 4
    {
      match code
      case 1 => Some(PNG)
      case 2 => Some(APNG)
      case 3 => Some(LOTTIE)
      case 4 => Some(GIF)
      case _ => None
    }
  }

  datatype StickerType = STANDARD | GUILD
  {
    function Code(): int
    {
      match this
      case STANDARD => 1
      case GUILD => 2
    }

    static function FromCode(code: int): (r: Option<StickerType>)
      ensures r.Some? ==> r.value.Code() == code
      ensures r.Some? <==> code == 1 || code == 2
    {
      match code
      case 1 => Some(STANDARD)
      case 2 => Some(GUILD)
      case _ => None
    }
  }

  /** The sticker format and sticker type codes are pairwise distinct. */
  lemma StickerCodesDistinct(a: StickerFormat, b: StickerFormat, c: StickerType, d: StickerType)
    ensures StickerFormat.FromCode(a.Code()) == Some(a)
    ensures a.Code() == b.Code() <==> a == b
    ensures StickerType.FromCode(c.Code()) == Some(c)
    ensures c.Code() == d.Code() <==> c == d
  {
  }

  // ---------------------------------------------------------------------
  // Channel payload shapes: a stage channel is a voice channel without
  // `video_quality_mode`
  // ---------------------------------------------------------------------

  /** `OverwritePayload`; the permission strings stay opaque. */
  datatype OverwritePayload = OverwritePayload(id: string, kind: OverwriteType, allow: string, deny: string)

  /** The fields of `ChannelPayload`. */
  datatype ChannelFields = ChannelFields(id: string, kind: ChannelType, flags: int)

  /** The fields `TextChannelPayload` adds. */
  datatype TextChannelFields = TextChannelFields(lastMessageId: Option<string>, lastPinTimestamp: Option<string>)

  /** The fields `GuildChannelPayload` adds. */
  datatype GuildChannelFields = GuildChannelFields(
    guildId: string,
    name: string,
    position: int,
    permissionOverwrites: seq<OverwritePayload>,
    nsfw: bool,
    parentId: Option<string>)

  /** `GuildVoiceChannelPayload`; `bitrate` is a string on the wire. */
  datatype GuildVoiceChannelPayload = GuildVoiceChannelPayload(
    channel: ChannelFields,
    text: TextChannelFields,
    guild: GuildChannelFields,
    bitrate: string,
    userLimit: int,
    videoQualityMode: int)

  /** `GuildStageChannelPayload`, declared as the voice payload with `video_quality_mode` omitted. */
  datatype GuildStageChannelPayload = GuildStageChannelPayload(
    channel: ChannelFields,
    text: TextChannelFields,
    guild: GuildChannelFields,
    bitrate: string,
    userLimit: int)

  /** `Omit<GuildVoiceChannelPayload, 'video_quality_mode'>` applied to a value. */
  function OmitVideoQualityMode(v: GuildVoiceChannelPayload): GuildStageChannelPayload
  {
    GuildStageChannelPayload(v.channel, v.text, v.guild, v.bitrate, v.userLimit)
  }

  /** A stage payload extended with a video quality mode. */
  function WithVideoQualityMode(s: GuildStageChannelPayload, mode: int): GuildVoiceChannelPayload
  {
    GuildVoiceChannelPayload(s.channel, s.text, s.guild, s.bitrate, s.userLimit, mode)
  }

  /**
   * A stage payload carries exactly the voice fields but `video_quality_mode`:
   * dropping that field loses nothing else, and every stage payload is some
   * voice payload with it dropped.
   */
  lemma StageIsVoiceWithoutVideoQualityMode(v: GuildVoiceChannelPayload, s: GuildStageChannelPayload, mode: int)
    ensures WithVideoQualityMode(OmitVideoQualityMode(v), v.videoQualityMode) == v
    ensures OmitVideoQualityMode(WithVideoQualityMode(s, mode)) == s
    ensures WithVideoQualityMode(s, mode).videoQualityMode == mode
  {
  }

  // ---------------------------------------------------------------------
  // Sticker payloads. A field that `readFromData` merges with `??` is
  // Nullish: a gateway payload may leave it out or send null.
  // ---------------------------------------------------------------------

  /** A user payload; user.ts is not part of this model, so only its identity is kept. */
  datatype UserPayload = UserPayload(id: string)

  datatype StickerItemPayload = StickerItemPayload(
    id: Nullish<string>,
    name: Nullish<string>,
    formatType: Nullish<StickerFormat>)

  datatype StickerPayload = StickerPayload(
    id: string,
    packId: Nullish<string>,
    name: Nullish<string>,
    description: Nullish<string>,
    tags: Nullish<string>,
    kind: Nullish<StickerType>,
    formatType: Nullish<StickerFormat>,
    available: Nullish<bool>,
    guildId: Nullish<string>,
    user: Nullish<UserPayload>,
    sortValue: Nullish<int>)

  datatype StickerPackPayload = StickerPackPayload(
    id: string,
    stickers: seq<StickerPayload>,
    name: Nullish<string>,
    skuId: Nullish<string>,
    coverStickerId: Nullish<string>,
    description: Nullish<string>,
    bannerAssetId: Nullish<string>)

  /** `Partial<ModifyGuildStickerOptions>`, the argument of a sticker edit. */
  datatype ModifyGuildStickerOptions = ModifyGuildStickerOptions(
    name: Option<string>,
    description: Option<string>,
    tags: Option<string>,
    reason: Option<string>)

  /**
   * The limits the option type documents (name 2 to 30 characters,
   * description empty or 2 to 100, tags 2 to 200). Nothing in the modelled
   * code checks them: an edit passes its options on unchecked, so this
   * predicate only records the doc comments of channel.ts:626-631 and no
   * operation uses it.
   */
  predicate WithinDocumentedLimits(o: ModifyGuildStickerOptions)
  {
    && (o.name.Some? ==> 2 <= |o.name.value| <= 30)
    && (o.description.Some? ==> |o.description.value| == 0 || 2 <= |o.description.value| <= 100)
    && (o.tags.Some? ==> 2 <= |o.tags.value| <= 200)
  }
}
