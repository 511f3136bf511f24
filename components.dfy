/**
 * The message component code tables and the wire union of
 * src/types/messageComponents.ts. The union is a recursive datatype: an
 * action row holds further component payloads, every other variant is a
 * leaf, and each variant carries one fixed `type` code.
 */
module MessageComponents {
  import opened JsValues

  // ---------------------------------------------------------------------
  // MessageComponentType: three deprecated keys repeat canonical codes
  // ---------------------------------------------------------------------

  datatype ComponentType =
    | ActionRow
    | Button
    | Select
    | ACTION_ROW
    | BUTTON
    | STRING_SELECT
    | TEXT_INPUT
    | USER_SELECT
    | ROLE_SELECT
    | MENTIONABLE_SELECT
    | CHANNEL_SELECT
    | SECTION
    | TEXT_DISPLAY
    | THUMBNAIL
    | MEDIA_GALLERY
    | FILE
    | SEPARATOR
    | CONTAINER
    | LABEL
    | FILE_UPLOAD
  {
    function Code(): int
    {
      match this
      case ActionRow => 1
      case Button => 2
      case Select => 3
      case ACTION_ROW => 1
      case BUTTON => 2
      case STRING_SELECT => 3
      case TEXT_INPUT => 4
      case USER_SELECT => 5
      case ROLE_SELECT => 6
      case MENTIONABLE_SELECT => 7
      case CHANNEL_SELECT => 8
      case SECTION => 9
      case TEXT_DISPLAY => 10
      case THUMBNAIL => 11
      case MEDIA_GALLERY => 12
      case FILE => 13
      case SEPARATOR => 14
      case CONTAINER => 17
      case LABEL => 18
      case FILE_UPLOAD => 19
    }

    predicate IsDeprecated()
    {
      ActionRow? || Button? || Select?
    }

    /** The key a deprecated key stands for; every other key stands for itself. */
    function Canonical(): (c: ComponentType)
      ensures c.Code() == Code()
      ensures !c.IsDeprecated()
    {
      match this
      case ActionRow => ACTION_ROW
      case Button => BUTTON
      case Select => STRING_SELECT
      case _ => this
    }

    /** Reverse lookup to the non-deprecated key with this code, if any. */
    static function FromCode(code: int): (r: Option<ComponentType>)
      ensures r.Some? ==> r.value.Code() == code && !r.value.IsDeprecated()
      ensures r.Some? <==> 1 <= code <= 19 && code != 15 && code != 16
    {
      match code
      case 1 => Some(ACTION_ROW)
      case 2 => Some(BUTTON)
      case 3 => Some(STRING_SELECT)
      case 4 => Some(TEXT_INPUT)
      case 5 => Some(USER_SELECT)
      case 6 => Some(ROLE_SELECT)
      case 7 => Some(MENTIONABLE_SELECT)
      case 8 => Some(CHANNEL_SELECT)
      case 9 => Some(SECTION)
      case 10 => Some(TEXT_DISPLAY)
      case 11 => Some(THUMBNAIL)
      case 12 => Some(MEDIA_GALLERY)
      case 13 => Some(FILE)
      case 14 => Some(SEPARATOR)
      case 17 => Some(CONTAINER)
      case 18 => Some(LABEL)
      case 19 => Some(FILE_UPLOAD)
      case _ => None
    }
  }

  /** Looking up a component type's code finds the key it stands for. */
  lemma ComponentTypeRoundTrip(t: ComponentType)
    ensures ComponentType.FromCode(t.Code()) == Some(t.Canonical())
  {
  }

  /**
   * Two component type keys share a code exactly when they stand for the
   * same key: the non-deprecated codes are pairwise distinct, and each
   * deprecated key repeats one of them.
   */
  lemma ComponentTypeSameCode(a: ComponentType, b: ComponentType)
    ensures a.Code() == b.Code() <==> a.Canonical() == b.Canonical()
    ensures !a.IsDeprecated() && !b.IsDeprecated() ==> (a.Code() == b.Code() <==> a == b)
  {
    ComponentTypeRoundTrip(a);
    ComponentTypeRoundTrip(b);
  }

  /** The deprecated keys equal the canonical ones: ActionRow = ACTION_ROW = 1, Button = BUTTON = 2, Select = STRING_SELECT = 3. */
  lemma DeprecatedComponentAliases()
    ensures ActionRow.Code() == ACTION_ROW.Code() == 1
    ensures Button.Code() == BUTTON.Code() == 2
    ensures Select.Code() == STRING_SELECT.Code() == 3
    ensures ComponentType.FromCode(15) == None && ComponentType.FromCode(16) == None
  {
  }

  // ---------------------------------------------------------------------
  // ButtonStyle: six styles and seven aliases
  // ---------------------------------------------------------------------

  datatype ButtonStyle =
    | PRIMARY
    | SECONDARY
    | SUCCESS
    | DANGER
    | LINK
    | PREMIUM
    | BLURPLE
    | GREY
    | GREEN
    | RED
    | DESTRUCTIVE
    | NAVIGATE
    | PURCHASE
  {
    function Code(): int
    {
      match this
      case PRIMARY => 1
      case SECONDARY => 2
      case SUCCESS => 3
      case DANGER => 4
      case LINK => 5
      case PREMIUM => 6
      case BLURPLE => 1
      case GREY => 2
      case GREEN => 3
      case RED => 4
      case DESTRUCTIVE => 4
      case NAVIGATE => 5
      case PURCHASE => 6
    }

    predicate IsAlias()
    {
      BLURPLE? || GREY? || GREEN? || RED? || DESTRUCTIVE? || NAVIGATE? || PURCHASE?
    }

    /** The style an alias names; a style names itself. */
    function Canonical(): (c: ButtonStyle)
      ensures c.Code() == Code()
      ensures !c.IsAlias()
    {
      match this
      case BLURPLE => PRIMARY
      case GREY => SECONDARY
      case GREEN => SUCCESS
      case RED => DANGER
      case DESTRUCTIVE => DANGER
      case NAVIGATE => LINK
      case PURCHASE => PREMIUM
      case _ => this
    }

    static function FromCode(code: int): (r: Option<ButtonStyle>)
      ensures r.Some? ==> r.value.Code() == code && !r.value.IsAlias()
      ensures r.Some? <==> 1 <= code <= 6
    {
      match code
      case 1 => Some(PRIMARY)
      case 2 => Some(SECONDARY)
      case 3 => Some(SUCCESS)
      case 4 => Some(DANGER)
      case 5 => Some(LINK)
      case 6 => Some(PREMIUM)
      case _ => None
    }
  }

  /** Every button style key, alias or not, has one of the six codes 1 to 6, and its code leads back to the style it names. */
  lemma ButtonStyleRoundTrip(s: ButtonStyle)
    ensures 1 <= s.Code() <= 6
    ensures ButtonStyle.FromCode(s.Code()) == Some(s.Canonical())
  {
  }

  /** Two button style keys share a code exactly when they name the same style; the six styles are pairwise distinct. */
  lemma ButtonStyleSameCode(a: ButtonStyle, b: ButtonStyle)
    ensures a.Code() == b.Code() <==> a.Canonical() == b.Canonical()
    ensures !a.IsAlias() && !b.IsAlias() ==> (a.Code() == b.Code() <==> a == b)
  {
    ButtonStyleRoundTrip(a);
    ButtonStyleRoundTrip(b);
  }

  // ---------------------------------------------------------------------
  // TextInputStyle
  // ---------------------------------------------------------------------

  datatype TextInputStyle = SHORT | PARAGRAPH
  {
    function Code(): int
    {
      match this
      case SHORT => 1
      case PARAGRAPH => 2
    }

    static function FromCode(code: int): (r: Option<TextInputStyle>)
      ensures r.Some? ==> r.value.Code() == code
      ensures r.Some? <==> code == 1 || code == 2
    {
      match code
      case 1 => Some(SHORT)
      case 2 => Some(PARAGRAPH)
      case _ => None
    }
  }

  /** SHORT and PARAGRAPH have distinct codes, and each code leads back to its style. */
  lemma TextInputStyleRoundTrip(a: TextInputStyle, b: TextInputStyle)
    ensures TextInputStyle.FromCode(a.Code()) == Some(a)
    ensures a.Code() == b.Code() <==> a == b
  {
  }

  // ---------------------------------------------------------------------
  // The component payload union
  // ---------------------------------------------------------------------

  datatype MessageComponentEmoji = MessageComponentEmoji(id: Option<string>, name: Option<string>, animated: Option<bool>)

  datatype SelectComponentOption = SelectComponentOption(
    labelText: string,
    value: string,
    isDefault: Option<bool>,
    description: Option<string>,
    emoji: Option<MessageComponentEmoji>)

  /** `ButtonComponentPayload`: only `style` is required. */
  datatype ButtonComponentPayload = ButtonComponentPayload(
    labelText: Option<string>,
    style: ButtonStyle,
    customId: Option<string>,
    url: Option<string>,
    skuId: Option<string>,
    disabled: Option<bool>,
    emoji: Option<MessageComponentEmoji>)

  /** `SelectComponentPayload`: `custom_id` and `options` are required. */
  datatype SelectComponentPayload = SelectComponentPayload(
    customId: string,
    placeholder: Option<string>,
    options: seq<SelectComponentOption>,
    disabled: Option<bool>,
    minValues: Option<int>,
    maxValues: Option<int>)

  /** `TextInputComponentPayload`: `label`, `custom_id` and `style` are required. */
  datatype TextInputComponentPayload = TextInputComponentPayload(
    labelText: string,
    customId: string,
    style: TextInputStyle,
    placeholder: Option<string>,
    minLength: Option<int>,
    maxLength: Option<int>,
    value: Option<string>,
    required: Option<bool>)

  /** `MessageComponentPayload`: only an action row holds child components. */
  datatype MessageComponentPayload =
    | ActionRowPayload(components: seq<MessageComponentPayload>)
    | ButtonPayload(button: ButtonComponentPayload)
    | SelectPayload(select: SelectComponentPayload)
    | TextInputPayload(input: TextInputComponentPayload)
  {
    /** The component type key each variant's `type` field is fixed to. */
    function Variant(): ComponentType
    {
      match this
      case ActionRowPayload(_) => ACTION_ROW
      case ButtonPayload(_) => BUTTON
      case SelectPayload(_) => STRING_SELECT
      case TextInputPayload(_) => TEXT_INPUT
    }

    /** The `type` discriminator this payload carries on the wire. */
    function TypeCode(): int
    {
      Variant().Code()
    }
  }

  /**
   * The `type` code tells the four variants apart: action row 1, button 2,
   * string select 3, text input 4, and two payloads share a code exactly
   * when they are the same variant.
   */
  lemma TypeCodeIdentifiesVariant(a: MessageComponentPayload, b: MessageComponentPayload)
    ensures a.ActionRowPayload? <==> a.TypeCode() == 1
    ensures a.ButtonPayload? <==> a.TypeCode() == 2
    ensures a.SelectPayload? <==> a.TypeCode() == 3
    ensures a.TextInputPayload? <==> a.TypeCode() == 4
    ensures a.TypeCode() == b.TypeCode() <==> a.Variant() == b.Variant()
  {
  }

  /** Every node of a component tree carries a `type` code whose reverse lookup names that node's own variant. */
  predicate WellTagged(c: MessageComponentPayload)
  {
    && ComponentType.FromCode(c.TypeCode()) == Some(c.Variant())
    && match c
       case ActionRowPayload(cs) => forall child | child in cs :: WellTagged(child)
       case _ => true
  }

  /** Every component tree, however deeply its action rows nest, is well tagged. */
  lemma {:induction false} EveryComponentTreeIsWellTagged(c: MessageComponentPayload)
    ensures WellTagged(c)
  {
    match c
    case ActionRowPayload(cs) =>
      forall child | child in cs
        ensures WellTagged(child)
      {
        EveryComponentTreeIsWellTagged(child);
      }
    case _ =>
  }

  /** The interaction data of a component interaction. */
  datatype InteractionMessageComponentData = InteractionMessageComponentData(
    customId: string,
    componentType: ComponentType,
    values: Option<seq<string>>)

  // ---------------------------------------------------------------------
  // Modal submit data: action rows of text inputs
  // ---------------------------------------------------------------------

  /** `ModalSubmitComponentTextInputData`: its `type` is fixed to TEXT_INPUT. */
  datatype ModalSubmitTextInput = ModalSubmitTextInput(customId: string, value: string)
  {
    function TypeCode(): int
    {
      TEXT_INPUT.Code()
    }
  }

  /** `ModalSubmitActionRow`: its `type` is fixed to ACTION_ROW and every child is a text input. */
  datatype ModalSubmitActionRow = ModalSubmitActionRow(components: seq<ModalSubmitTextInput>)
  {
    function TypeCode(): int
    {
      ACTION_ROW.Code()
    }
  }

  datatype InteractionModalSubmitData = InteractionModalSubmitData(customId: string, components: seq<ModalSubmitActionRow>)

  /** Modal submit data is a list of ACTION_ROW entries whose children all carry the TEXT_INPUT code. */
  lemma ModalSubmitIsRowsOfTextInputs(d: InteractionModalSubmitData)
    ensures forall row | row in d.components :: row.TypeCode() == 1
    ensures forall row, input | row in d.components && input in row.components :: input.TypeCode() == 4
  {
  }
}
