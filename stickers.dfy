/**
 * The sticker entities of src/structures/messageSticker.ts: a sticker item,
 * a sticker and a sticker pack. Each is a class whose `ReadFromData`
 * overlays a payload onto its fields in place; each class is specified by a
 * merge function on values (`MergeItem`, `MergeSticker`, `MergePack`), and
 * the lemmas below state what those merges promise. The remote sticker
 * endpoints are an oracle object that logs every call made to it.
 */
module MessageStickers {
  import opened JsValues
  import opened ChannelTypes

  // ---------------------------------------------------------------------
  // URL derivation
  // ---------------------------------------------------------------------

  /** The CDN and media hosts of the constants module, which is not part of this model; nothing is assumed of their text. */
  datatype Hosts = Hosts(cdn: string, media: string)

  /** `getStickerFileExtension`: Lottie stickers are JSON, GIF stickers GIF, every other format PNG. */
  function FileExtension(formatType: Nullish<StickerFormat>): (ext: string)
    ensures ext == "json" <==> formatType == Defined(LOTTIE)
    ensures ext == "gif" <==> formatType == Defined(GIF)
    ensures ext == "png" <==> formatType != Defined(LOTTIE) && formatType != Defined(GIF)
  {
    if formatType == Defined(LOTTIE) then "json"
    else if formatType == Defined(GIF) then "gif"
    else "png"
  }

  /** The host a sticker URL starts with: the media host for GIF stickers, the CDN host otherwise. */
  function UrlHost(hosts: Hosts, formatType: Nullish<StickerFormat>): string
  {
    if formatType == Defined(GIF) then hosts.media else hosts.cdn
  }

  predicate EndsWith(s: string, suffix: string)
  {
    |suffix| <= |s| && s[|s| - |suffix|..] == suffix
  }

  /** `getUrl`: `{host}/stickers/{id}.{ext}`. */
  function StickerUrl(hosts: Hosts, id: string, formatType: Nullish<StickerFormat>): (url: string)
    ensures UrlHost(hosts, formatType) <= url
    ensures EndsWith(url, "/stickers/" + id + "." + FileExtension(formatType))
    ensures |url| == |UrlHost(hosts, formatType)| + 11 + |id| + |FileExtension(formatType)|
  {
    UrlHost(hosts, formatType) + "/stickers/" + id + "." + FileExtension(formatType)
  }

  /** Two ids give the same URL for a format only if they are the same id: the URL is a faithful name for the asset. */
  lemma StickerUrlDeterminesId(hosts: Hosts, a: string, b: string, formatType: Nullish<StickerFormat>)
    ensures StickerUrl(hosts, a, formatType) == StickerUrl(hosts, b, formatType) ==> a == b
  {
    var u, v := StickerUrl(hosts, a, formatType), StickerUrl(hosts, b, formatType);
    if u == v {
      var start := |UrlHost(hosts, formatType)| + 10;
      assert u[start..start + |a|] == a;
      assert v[start..start + |b|] == b;
    }
  }

  /** The three sample URLs: a GIF on the media host, a PNG and a Lottie sticker on the CDN host. */
  lemma StickerUrlExamples(hosts: Hosts)
    ensures StickerUrl(hosts, "123", Defined(GIF)) == hosts.media + "/stickers/123.gif"
    ensures StickerUrl(hosts, "123", Defined(PNG)) == hosts.cdn + "/stickers/123.png"
    ensures StickerUrl(hosts, "123", Defined(LOTTIE)) == hosts.cdn + "/stickers/123.json"
  {
    assert "/stickers/" + "123" + "." + "gif" == "/stickers/123.gif";
    assert "/stickers/" + "123" + "." + "png" == "/stickers/123.png";
    assert "/stickers/" + "123" + "." + "json" == "/stickers/123.json";
  }

  // ---------------------------------------------------------------------
  // MessageStickerItem
  // ---------------------------------------------------------------------

  datatype ItemState = ItemState(
    id: Nullish<string>,
    name: Nullish<string>,
    formatType: Nullish<StickerFormat>,
    url: Nullish<string>)

  /** `MessageStickerItem.readFromData` on values. */
  function MergeItem(hosts: Hosts, s: ItemState, data: StickerItemPayload): (r: ItemState)
    ensures r.url == Defined(StickerUrl(hosts, TemplateString(r.id), r.formatType))
  {
    var id := Coalesce(data.id, s.id);
    var name := Coalesce(data.name, s.name);
    var formatType := Coalesce(data.formatType, s.formatType);
    ItemState(id, name, formatType, Coalesce(Defined(StickerUrl(hosts, TemplateString(id), formatType)), s.url))
  }

  /** `id`, `name` and `formatType` take the payload's value when it is neither null nor undefined, and keep theirs otherwise. */
  lemma MergeItemOverlay(hosts: Hosts, s: ItemState, data: StickerItemPayload)
    ensures var r := MergeItem(hosts, s, data);
      && r.id == (if data.id.Defined? then data.id else s.id)
      && r.name == (if data.name.Defined? then data.name else s.name)
      && r.formatType == (if data.formatType.Defined? then data.formatType else s.formatType)
  {
  }

  /**
   * An item whose id was never set and whose payload brings none (absent
   * or null) keeps an undefined id, and gets the URL of a sticker literally
   * named "undefined", because the id is rendered by a template literal.
   */
  lemma MergeItemWithoutId(hosts: Hosts, s: ItemState, data: StickerItemPayload)
    requires s.id == Undefined && !data.id.Defined?
    ensures var r := MergeItem(hosts, s, data);
      r.id == Undefined && r.url == Defined(StickerUrl(hosts, "undefined", r.formatType))
  {
  }

  /** Merging the same item payload twice leaves what merging it once leaves. */
  lemma MergeItemIdempotent(hosts: Hosts, s: ItemState, data: StickerItemPayload)
    ensures MergeItem(hosts, MergeItem(hosts, s, data), data) == MergeItem(hosts, s, data)
  {
  }

  class MessageStickerItem {
    const hosts: Hosts
    var id: Nullish<string>
    var name: Nullish<string>
    var formatType: Nullish<StickerFormat>
    var url: Nullish<string>

    function State(): ItemState
      reads this
    {
      ItemState(id, name, formatType, url)
    }

    /**
     * The base constructor is given no payload here and leaves `id`
     * undefined; the declared fields start undefined; then the payload is
     * merged.
     */
    constructor (hosts: Hosts, data: StickerItemPayload)
      ensures this.hosts == hosts
      ensures State() == MergeItem(hosts, ItemState(Undefined, Undefined, Undefined, Undefined), data)
    {
      this.hosts := hosts;
      id, name, formatType, url := Undefined, Undefined, Undefined, Undefined;
      new;
      ReadFromData(data);
    }

    method ReadFromData(data: StickerItemPayload)
      modifies this
      ensures State() == MergeItem(hosts, old(State()), data)
    {
      id := Coalesce(data.id, id);
      name := Coalesce(data.name, name);
      formatType := Coalesce(data.formatType, formatType);
      url := Coalesce(Defined(StickerUrl(hosts, TemplateString(id), formatType)), url);
    }
  }

  // ---------------------------------------------------------------------
  // MessageSticker: the merge
  // ---------------------------------------------------------------------

  /** A `User` built from a payload; user.ts is not part of this model, so a user is known only by the payload it was built from. */
  datatype User = NewUser(source: Nullish<UserPayload>)

  datatype StickerState = StickerState(
    id: string,
    name: Nullish<string>,
    kind: Nullish<StickerType>,
    formatType: Nullish<StickerFormat>,
    description: Nullish<string>,
    packId: Nullish<string>,
    tags: Nullish<string>,
    available: Nullish<bool>,
    guildId: Nullish<string>,
    user: Option<User>,
    sortValue: Nullish<int>)

  /** A sticker before its first merge: the id the base constructor copies, `description` initialised to null, every other field undefined. */
  function BlankSticker(id: string): StickerState
  {
    StickerState(id, Undefined, Undefined, Undefined, Null, Undefined, Undefined, Undefined, Undefined, None, Undefined)
  }

  /**
   * What every sticker keeps: `description` starts null and is never made
   * undefined, and `guildID` starts undefined and is never made null.
   */
  predicate WellFormed(s: StickerState)
  {
    s.description != Undefined && s.guildId != Null
  }

  /** `MessageSticker.readFromData` on values. */
  function MergeSticker(s: StickerState, data: StickerPayload): (r: StickerState)
    ensures r.id == s.id
    ensures WellFormed(s) ==> WellFormed(r)
  {
    s.(
      name := Coalesce(data.name, s.name),
      kind := Coalesce(data.kind, s.kind),
      formatType := Coalesce(data.formatType, s.formatType),
      description := Coalesce(data.description, s.description),
      packId := Coalesce(data.packId, s.packId),
      tags := Coalesce(data.tags, s.tags),
      available := Coalesce(data.available, s.available),
      guildId := Coalesce(data.guildId, s.guildId),
      user := if data.user == Undefined then None else Some(NewUser(data.user)),
      sortValue := Coalesce(data.sortValue, s.sortValue))
  }

  /** A sticker built from a payload (`new MessageSticker(client, data)`). */
  function NewStickerState(data: StickerPayload): (r: StickerState)
    ensures r.id == data.id
    ensures WellFormed(r)
  {
    MergeSticker(BlankSticker(data.id), data)
  }

  // A record view of the attributes the merge overlays, used to state the
  // merge as "the payload's present attributes override the held ones".

  datatype StickerAttribute =
    | NameAttribute
    | KindAttribute
    | FormatAttribute
    | DescriptionAttribute
    | PackIdAttribute
    | TagsAttribute
    | AvailableAttribute
    | GuildIdAttribute
    | SortValueAttribute

  datatype AttributeValue =
    | NullValue
    | Text(text: string)
    | Truth(truth: bool)
    | Number(number: int)
    | Format(format: StickerFormat)
    | Kind(kind: StickerType)

  /** What a field holds: nothing when undefined, null, or a value. */
  function Held<T>(v: Nullish<T>, wrap: T -> AttributeValue): Option<AttributeValue>
  {
    match v
    case Undefined => None
    case Null => Some(NullValue)
    case Defined(x) => Some(wrap(x))
  }

  /** What a payload field offers to the merge: a value that is neither null nor undefined. */
  function Offered<T>(v: Nullish<T>, wrap: T -> AttributeValue): Option<AttributeValue>
  {
    if v.Defined? then Some(wrap(v.value)) else None
  }

  function Attribute(s: StickerState, a: StickerAttribute): Option<AttributeValue>
  {
    match a
    case NameAttribute => Held(s.name, x => Text(x))
    case KindAttribute => Held(s.kind, x => Kind(x))
    case FormatAttribute => Held(s.formatType, x => Format(x))
    case DescriptionAttribute => Held(s.description, x => Text(x))
    case PackIdAttribute => Held(s.packId, x => Text(x))
    case TagsAttribute => Held(s.tags, x => Text(x))
    case AvailableAttribute => Held(s.available, x => Truth(x))
    case GuildIdAttribute => Held(s.guildId, x => Text(x))
    case SortValueAttribute => Held(s.sortValue, x => Number(x))
  }

  function PayloadAttribute(data: StickerPayload, a: StickerAttribute): Option<AttributeValue>
  {
    match a
    case NameAttribute => Offered(data.name, x => Text(x))
    case KindAttribute => Offered(data.kind, x => Kind(x))
    case FormatAttribute => Offered(data.formatType, x => Format(x))
    case DescriptionAttribute => Offered(data.description, x => Text(x))
    case PackIdAttribute => Offered(data.packId, x => Text(x))
    case TagsAttribute => Offered(data.tags, x => Text(x))
    case AvailableAttribute => Offered(data.available, x => Truth(x))
    case GuildIdAttribute => Offered(data.guildId, x => Text(x))
    case SortValueAttribute => Offered(data.sortValue, x => Number(x))
  }

  /**
   * The overlay: on every overlaid attribute, a value the payload offers
   * replaces the held one, and an attribute the payload leaves out or sends
   * as null keeps what it held (a null description never clears one).
   */
  lemma MergeOverridesAttributes(s: StickerState, data: StickerPayload, a: StickerAttribute)
    ensures PayloadAttribute(data, a).Some? ==> Attribute(MergeSticker(s, data), a) == PayloadAttribute(data, a)
    ensures PayloadAttribute(data, a).None? ==> Attribute(MergeSticker(s, data), a) == Attribute(s, a)
  {
  }

  /** The attribute view loses nothing: states with the same id, user and attributes are equal. */
  lemma AttributesDetermineState(s: StickerState, t: StickerState)
    requires s.id == t.id && s.user == t.user
    requires forall a :: Attribute(s, a) == Attribute(t, a)
    ensures s == t
  {
    assert Attribute(s, NameAttribute) == Attribute(t, NameAttribute);
    assert Attribute(s, KindAttribute) == Attribute(t, KindAttribute);
    assert Attribute(s, FormatAttribute) == Attribute(t, FormatAttribute);
    assert Attribute(s, DescriptionAttribute) == Attribute(t, DescriptionAttribute);
    assert Attribute(s, PackIdAttribute) == Attribute(t, PackIdAttribute);
    assert Attribute(s, TagsAttribute) == Attribute(t, TagsAttribute);
    assert Attribute(s, AvailableAttribute) == Attribute(t, AvailableAttribute);
    assert Attribute(s, GuildIdAttribute) == Attribute(t, GuildIdAttribute);
    assert Attribute(s, SortValueAttribute) == Attribute(t, SortValueAttribute);
  }

  /** Defined falsy values are values: `false`, `0` and `""` overwrite. */
  lemma FalsyValuesOverwrite(s: StickerState, data: StickerPayload)
    requires data.available == Defined(false) && data.sortValue == Defined(0) && data.tags == Defined("")
    ensures MergeSticker(s, data).available == Defined(false)
    ensures MergeSticker(s, data).sortValue == Defined(0)
    ensures MergeSticker(s, data).tags == Defined("")
  {
  }

  /**
   * `user` is no overlay: a payload without a user resets it to undefined
   * whatever it held, and one with a user replaces it with a user built
   * from that payload.
   */
  lemma MergeReplacesUser(s: StickerState, t: StickerState, data: StickerPayload)
    ensures MergeSticker(s, data).user == MergeSticker(t, data).user
    ensures data.user == Undefined ==> MergeSticker(s, data).user == None
    ensures data.user != Undefined ==> MergeSticker(s, data).user == Some(NewUser(data.user))
  {
  }

  /** Merging the same sticker payload twice leaves what merging it once leaves. */
  lemma MergeStickerIdempotent(s: StickerState, data: StickerPayload)
    ensures MergeSticker(MergeSticker(s, data), data) == MergeSticker(s, data)
  {
  }

  /** On a well-formed sticker the edit and delete guard (`guildID === undefined`) fails exactly when the sticker has a guild id. */
  lemma GuardMeansGuildScoped(s: StickerState)
    requires WellFormed(s)
    ensures s.guildId != Undefined <==> s.guildId.Defined?
  {
  }

  // ---------------------------------------------------------------------
  // The remote sticker endpoints
  // ---------------------------------------------------------------------

  datatype ProviderError = ProviderError(message: string)

  datatype RemoteCall =
    | EditCall(guildId: Nullish<string>, stickerId: string, options: ModifyGuildStickerOptions)
    | GetCall(stickerId: string)
    | DeleteCall(guildId: Nullish<string>, stickerId: string, reason: Option<string>)

  /**
   * `client.stickers`: the endpoints answer as the three reply functions
   * say, and every call is appended to `calls`.
   */
  class StickersClient {
    const editReply: (Nullish<string>, string, ModifyGuildStickerOptions) -> Result<string, ProviderError>
    const getReply: string -> Option<StickerPayload>
    const deleteReply: (Nullish<string>, string, Option<string>) -> Result<bool, ProviderError>
    var calls: seq<RemoteCall>

    constructor (
      editReply: (Nullish<string>, string, ModifyGuildStickerOptions) -> Result<string, ProviderError>,
      getReply: string -> Option<StickerPayload>,
      deleteReply: (Nullish<string>, string, Option<string>) -> Result<bool, ProviderError>)
      ensures this.editReply == editReply && this.getReply == getReply && this.deleteReply == deleteReply
      ensures calls == []
    {
      this.editReply := editReply;
      this.getReply := getReply;
      this.deleteReply := deleteReply;
      calls := [];
    }

    /** `edit`: the id of the edited sticker, or the provider's error. */
    method Edit(guildId: Nullish<string>, stickerId: string, options: ModifyGuildStickerOptions)
      returns (r: Result<string, ProviderError>)
      modifies this
      ensures calls == old(calls) + [EditCall(guildId, stickerId, options)]
      ensures r == editReply(guildId, stickerId, options)
    {
      calls := calls + [EditCall(guildId, stickerId, options)];
      r := editReply(guildId, stickerId, options);
    }

    /** `_get`: the sticker payload stored for an id, or undefined. */
    method Get(stickerId: string) returns (r: Option<StickerPayload>)
      modifies this
      ensures calls == old(calls) + [GetCall(stickerId)]
      ensures r == getReply(stickerId)
    {
      calls := calls + [GetCall(stickerId)];
      r := getReply(stickerId);
    }

    /** `delete`: whether the sticker was deleted, or the provider's error. */
    method Delete(guildId: Nullish<string>, stickerId: string, reason: Option<string>)
      returns (r: Result<bool, ProviderError>)
      modifies this
      ensures calls == old(calls) + [DeleteCall(guildId, stickerId, reason)]
      ensures r == deleteReply(guildId, stickerId, reason)
    {
      calls := calls + [DeleteCall(guildId, stickerId, reason)];
      r := deleteReply(guildId, stickerId, reason);
    }
  }

  /** Why a sticker operation throws. */
  datatype StickerError =
    | PreconditionError(message: string)
    | ProviderFailure(cause: ProviderError)
    | UndefinedPayload

  const EditGuildOnly := "Only Guild Stickers can be edited"
  const DeleteGuildOnly := "Only Guild Stickers can be deleted"

  // ---------------------------------------------------------------------
  // MessageSticker: the class
  // ---------------------------------------------------------------------

  class MessageSticker {
    var id: string
    var name: Nullish<string>
    var kind: Nullish<StickerType>
    var formatType: Nullish<StickerFormat>
    var description: Nullish<string>
    var packId: Nullish<string>
    var tags: Nullish<string>
    var available: Nullish<bool>
    var guildId: Nullish<string>
    var user: Option<User>
    var sortValue: Nullish<int>

    function State(): StickerState
      reads this
    {
      StickerState(id, name, kind, formatType, description, packId, tags, available, guildId, user, sortValue)
    }

    ghost predicate Valid()
      reads this
    {
      WellFormed(State())
    }

    /** The base constructor copies the payload's id; `description` is initialised to null; then the payload is merged. */
    constructor (data: StickerPayload)
      ensures State() == NewStickerState(data)
      ensures Valid()
    {
      id := data.id;
      name, kind, formatType := Undefined, Undefined, Undefined;
      description := Null;
      packId, tags, available, guildId := Undefined, Undefined, Undefined, Undefined;
      user, sortValue := None, Undefined;
      new;
      ReadFromData(data);
    }

    method ReadFromData(data: StickerPayload)
      modifies this
      ensures State() == MergeSticker(old(State()), data)
      ensures old(Valid()) ==> Valid()
    {
      name := Coalesce(data.name, name);
      kind := Coalesce(data.kind, kind);
      formatType := Coalesce(data.formatType, formatType);
      description := Coalesce(data.description, description);
      packId := Coalesce(data.packId, packId);
      tags := Coalesce(data.tags, tags);
      available := Coalesce(data.available, available);
      guildId := Coalesce(data.guildId, guildId);
      user := if data.user == Undefined then None else Some(NewUser(data.user));
      sortValue := Coalesce(data.sortValue, sortValue);
    }

    /**
     * Edit the sticker. Without a guild id it throws before any remote
     * call. Otherwise it asks the endpoint to edit, fetches the payload of
     * the id the edit answers with, merges that payload into this sticker
     * and returns this same sticker.
     */
    method Edit(client: StickersClient, options: ModifyGuildStickerOptions)
      returns (r: Result<MessageSticker, StickerError>)
      modifies this, client
      ensures old(guildId) == Undefined ==>
        && r == Failure(PreconditionError(EditGuildOnly))
        && client.calls == old(client.calls)
        && State() == old(State())
      ensures old(guildId) != Undefined ==>
        var request := EditCall(old(guildId), old(id), options);
        match client.editReply(old(guildId), old(id), options)
        case Failure(e) =>
          && r == Failure(ProviderFailure(e))
          && client.calls == old(client.calls) + [request]
          && State() == old(State())
        case Success(editedId) =>
          && client.calls == old(client.calls) + [request, GetCall(editedId)]
          && match client.getReply(editedId)
             case None => r == Failure(UndefinedPayload) && State() == old(State())
             case Some(fetched) => r == Success(this) && State() == MergeSticker(old(State()), fetched)
    {
      if guildId == Undefined {
        return Failure(PreconditionError(EditGuildOnly));
      }
      var edited := client.Edit(guildId, id, options);
      if edited.Failure? {
        return Failure(ProviderFailure(edited.error));
      }
      var fetched := client.Get(edited.value);
      if fetched.None? {
        return Failure(UndefinedPayload);
      }
      ReadFromData(fetched.value);
      r := Success(this);
    }

    /**
     * Delete the sticker. Without a guild id it throws before any remote
     * call; otherwise it answers exactly what the endpoint answers.
     */
    method Delete(client: StickersClient, reason: Option<string>) returns (r: Result<bool, StickerError>)
      modifies client
      ensures old(guildId) == Undefined ==>
        r == Failure(PreconditionError(DeleteGuildOnly)) && client.calls == old(client.calls)
      ensures old(guildId) != Undefined ==>
        && client.calls == old(client.calls) + [DeleteCall(guildId, id, reason)]
        && match client.deleteReply(guildId, id, reason)
           case Success(deleted) => r == Success(deleted)
           case Failure(e) => r == Failure(ProviderFailure(e))
    {
      if guildId == Undefined {
        return Failure(PreconditionError(DeleteGuildOnly));
      }
      var deleted := client.Delete(guildId, id, reason);
      r := match deleted
        case Success(b) => Success(b)
        case Failure(e) => Failure(ProviderFailure(e));
    }
  }

  // ---------------------------------------------------------------------
  // MessageStickerPack
  // ---------------------------------------------------------------------

  /** `data.stickers.map(e => new MessageSticker(client, e))` on values: one new sticker per payload, in order. */
  function NewStickerStates(payloads: seq<StickerPayload>): (r: seq<StickerState>)
    ensures |r| == |payloads|
    ensures forall i :: 0 <= i < |payloads| ==> r[i] == NewStickerState(payloads[i])
  {
    if payloads == [] then [] else [NewStickerState(payloads[0])] + NewStickerStates(payloads[1..])
  }

  datatype PackState = PackState(
    id: string,
    stickers: seq<StickerState>,
    name: Nullish<string>,
    skuId: Nullish<string>,
    coverStickerId: Nullish<string>,
    description: Nullish<string>,
    bannerAssetId: Nullish<string>)

  /** A pack before its first merge: the id the base constructor copies, no stickers, every other field undefined. */
  function BlankPack(id: string): PackState
  {
    PackState(id, [], Undefined, Undefined, Undefined, Undefined, Undefined)
  }

  /** `MessageStickerPack.readFromData` on values. */
  function MergePack(s: PackState, data: StickerPackPayload): (r: PackState)
    ensures r.id == s.id
    ensures |r.stickers| == |data.stickers|
    ensures forall i :: 0 <= i < |data.stickers| ==> r.stickers[i] == NewStickerState(data.stickers[i])
  {
    s.(
      stickers := NewStickerStates(data.stickers),
      name := Coalesce(data.name, s.name),
      skuId := Coalesce(data.skuId, s.skuId),
      coverStickerId := Coalesce(data.coverStickerId, s.coverStickerId),
      description := Coalesce(data.description, s.description),
      bannerAssetId := Coalesce(data.bannerAssetId, s.bannerAssetId))
  }

  /**
   * The pack's stickers are rebuilt from the payload alone, whatever the
   * pack held before; its other fields are overlaid with `??`.
   */
  lemma MergePackOverlay(s: PackState, t: PackState, data: StickerPackPayload)
    ensures MergePack(s, data).stickers == MergePack(t, data).stickers
    ensures var r := MergePack(s, data);
      && r.name == (if data.name.Defined? then data.name else s.name)
      && r.skuId == (if data.skuId.Defined? then data.skuId else s.skuId)
      && r.coverStickerId == (if data.coverStickerId.Defined? then data.coverStickerId else s.coverStickerId)
      && r.description == (if data.description.Defined? then data.description else s.description)
      && r.bannerAssetId == (if data.bannerAssetId.Defined? then data.bannerAssetId else s.bannerAssetId)
  {
  }

  /** Merging the same pack payload twice leaves what merging it once leaves (as values; the sticker objects are new each time). */
  lemma MergePackIdempotent(s: PackState, data: StickerPackPayload)
    ensures MergePack(MergePack(s, data), data) == MergePack(s, data)
  {
  }

  /** The states of a sequence of sticker objects, in order. */
  ghost function StatesOf(objects: seq<MessageSticker>): (r: seq<StickerState>)
    reads objects
    ensures |r| == |objects|
    ensures forall i :: 0 <= i < |objects| ==> r[i] == objects[i].State()
  {
    if objects == [] then [] else [objects[0].State()] + StatesOf(objects[1..])
  }

  class MessageStickerPack {
    var id: string
    var stickers: seq<MessageSticker>
    var name: Nullish<string>
    var skuId: Nullish<string>
    var coverStickerId: Nullish<string>
    var description: Nullish<string>
    var bannerAssetId: Nullish<string>

    ghost function State(): PackState
      reads this, stickers
    {
      PackState(id, StatesOf(stickers), name, skuId, coverStickerId, description, bannerAssetId)
    }

    /** The base constructor copies the payload's id; the declared fields start undefined; then the payload is merged. */
    constructor (data: StickerPackPayload)
      ensures State() == MergePack(BlankPack(data.id), data)
      ensures forall i :: 0 <= i < |stickers| ==> fresh(stickers[i])
    {
      id := data.id;
      stickers := [];
      name, skuId, coverStickerId, description, bannerAssetId := Undefined, Undefined, Undefined, Undefined, Undefined;
      new;
      ReadFromData(data);
    }

    /**
     * Replace the stickers by one newly built sticker per payload, in
     * order, each its own object, and overlay the other fields.
     */
    method ReadFromData(data: StickerPackPayload)
      modifies this
      ensures State() == MergePack(old(State()), data)
      ensures forall i :: 0 <= i < |stickers| ==> fresh(stickers[i])
      ensures forall i, j :: 0 <= i < j < |stickers| ==> stickers[i] != stickers[j]
    {
      name := Coalesce(data.name, name);
      skuId := Coalesce(data.skuId, skuId);
      coverStickerId := Coalesce(data.coverStickerId, coverStickerId);
      description := Coalesce(data.description, description);
      bannerAssetId := Coalesce(data.bannerAssetId, bannerAssetId);
      // Building the stickers reads none of the pack's fields, so it can come last.
      stickers := BuildStickers(data.stickers);
    }
  }

  /** `data.stickers.map(e => new MessageSticker(client, e))`: one new sticker object per payload, in order. */
  method BuildStickers(payloads: seq<StickerPayload>) returns (built: seq<MessageSticker>)
    ensures StatesOf(built) == NewStickerStates(payloads)
    ensures forall i :: 0 <= i < |built| ==> fresh(built[i])
    ensures forall i, j :: 0 <= i < j < |built| ==> built[i] != built[j]
  {
    built := [];
    for k := 0 to |payloads|
      invariant |built| == k
      invariant forall i :: 0 <= i < k ==> fresh(built[i]) && built[i].State() == NewStickerState(payloads[i])
      invariant forall i, j :: 0 <= i < j < k ==> built[i] != built[j]
    {
      var sticker := new MessageSticker(payloads[k]);
      built := built + [sticker];
    }
  }
}
