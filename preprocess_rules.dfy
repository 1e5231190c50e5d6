/**
 * The decision rules of the image preprocessor, as functions of the image
 * descriptor and the services: which style and theme the image gets, which
 * URL the lightbox opens, what the caption is and how `data-size` is written.
 * The class in preprocess_processor.dfy performs these steps in place.
 */
module PreprocessRules {
  import opened PhpValues
  import opened PreprocessTypes

  const NodeStyle := "photoswipe_node_style"
  const NodeStyleFirst := "photoswipe_node_style_first"
  const ImageStyle := "photoswipe_image_style"
  const CaptionSetting := "photoswipe_caption"
  const CaptionCustom := "photoswipe_caption_custom"
  const ViewModeSetting := "photoswipe_view_mode"
  /** The style name that hides the image. */
  const Hide := "hide"

  /** The first item of a field gets its own style when one is configured. */
  predicate UsesFirstStyle(settings: map<string, string>, delta: Option<int>) {
    delta == Some(0) && Truthy(settings, NodeStyleFirst)
  }

  /** The renderable image array built from the descriptor, before dimensions are known. */
  function RenderableImage(dto: ImageDTO, delta: Option<int>): (image: Image)
    ensures image.uri == dto.uri && image.alt == dto.alt && image.title == dto.title
    ensures image.attributes == dto.item.attributes
    ensures UsesFirstStyle(dto.settings, delta) ==> image.styleName == Some(dto.settings[NodeStyleFirst])
    ensures !UsesFirstStyle(dto.settings, delta) ==> image.styleName == Lookup(dto.settings, NodeStyle)
    ensures image.theme == "image" <==> EmptyValue(image.styleName) || image.styleName == Some(Hide)
    ensures image.theme == "image" || image.theme == "image_style"
    ensures image.width.None? && image.height.None?
  {
    var image := Image("image_style", dto.uri, dto.alt, dto.title, dto.item.attributes,
                       Lookup(dto.settings, NodeStyle), None, None);
    var image := if delta == Some(0) && !EmptyValue(Lookup(dto.settings, NodeStyleFirst))
                 then image.(styleName := Lookup(dto.settings, NodeStyleFirst))
                 else image;
    if EmptyValue(image.styleName) || image.styleName == Some(Hide) then image.(theme := "image") else image
  }

  /** The descriptor after the image factory's report: its dimensions are recorded only for a valid image. */
  function Inspected(dto: ImageDTO, file: InspectedImage): ImageDTO {
    if file.valid then dto.(dims := Some(Dimensions(file.width, file.height))) else dto
  }

  /** A derivative URL is used when a lightbox image style is configured and the dimensions are known. */
  predicate UsesDerivative(dto: ImageDTO) {
    Truthy(dto.settings, ImageStyle) && dto.dims.Some?
  }

  datatype PathOutcome = PathOutcome(path: string, dto: ImageDTO)

  /** The lightbox target URL, and the descriptor with the dimensions that URL's image has. */
  function PathStep(dto: ImageDTO, svc: Services): (r: PathOutcome)
    ensures r.dto == dto.(dims := r.dto.dims)
    ensures UsesDerivative(dto) ==>
      && r.path == svc.buildUrl(dto.settings[ImageStyle], dto.uri)
      && r.dto.dims == Some(svc.transformDimensions(dto.settings[ImageStyle], dto.dims.value, dto.uri))
    ensures !UsesDerivative(dto) ==> r.path == svc.fileCreateUrl(dto.uri) && r.dto == dto
  {
    match Lookup(dto.settings, ImageStyle)
    case Some(style) =>
      if !Empty(style) && dto.dims.Some? then
        var dims := svc.transformDimensions(style, dto.dims.value, dto.uri);
        PathOutcome(svc.buildUrl(style, dto.uri), dto.(dims := Some(dims)))
      else
        PathOutcome(svc.fileCreateUrl(dto.uri), dto)
    case None => PathOutcome(svc.fileCreateUrl(dto.uri), dto)
  }

  datatype CaptionOutcome = CaptionOutcome(caption: string, warning: Option<Warning>)

  /** The entity's title value; a missing title field reads as null, which prints as "". */
  function TitleValue(e: Entity): string {
    if e.title.Some? then e.title.value else ""
  }

  /** A caption setting that names none of the built-in strategies is taken as a field name. */
  predicate NamesField(setting: string) {
    setting !in {"alt", "title", "node_title", "custom"}
  }

  /**
   * The token data of a custom caption: the entity under its entity type id,
   * then the field item under `file`. As in a PHP array literal, the later
   * key wins, so an entity whose type id is `file` is not passed at all.
   */
  function CustomTokenData(dto: ImageDTO): (data: TokenData)
    ensures data.Keys == {dto.entity.entityTypeId, "file"}
    ensures data["file"] == FileToken(dto.item)
    ensures dto.entity.entityTypeId != "file" ==> data[dto.entity.entityTypeId] == EntityToken(dto.entity)
    ensures EntityToken(dto.entity) in data.Values <==> dto.entity.entityTypeId != "file"
  {
    var entityType := dto.entity.entityTypeId;
    var data := map[entityType := EntityToken(dto.entity)];
    data["file" := FileToken(dto.item)]
  }

  /**
   * The caption and the warning logged while choosing it. `titleSource` is
   * the entity whose `title` the `node_title` strategy checks and
   * `fieldSource` the entity whose fields the field-name strategy checks;
   * the processor passes None for both, as neither variable it reads is
   * ever assigned.
   */
  function CaptionOf(dto: ImageDTO, titleSource: Option<Entity>, fieldSource: Option<Entity>, svc: Services)
    : (r: CaptionOutcome)
    ensures CaptionSetting !in dto.settings ==> r == CaptionOutcome(dto.alt, None)
    ensures Lookup(dto.settings, CaptionSetting) == Some("alt") ==> r == CaptionOutcome(dto.alt, None)
    ensures Lookup(dto.settings, CaptionSetting) == Some("title") ==> r == CaptionOutcome(dto.title, None)
    ensures Lookup(dto.settings, CaptionSetting) == Some("node_title") ==>
      && r.warning.None?
      && (titleSource.None? || titleSource.value.title.None? ==> r.caption == dto.alt)
      && (titleSource.Some? && titleSource.value.title.Some? ==> r.caption == TitleValue(dto.entity))
    ensures Lookup(dto.settings, CaptionSetting) == Some("custom") ==>
      r == CaptionOutcome(
        svc.replaceTokens(Lookup(dto.settings, CaptionCustom),
                          CustomTokenData(dto),
                          TokenOptions(true, svc.currentLangcode)),
        None)
    ensures r.warning.Some? <==>
      && CaptionSetting in dto.settings
      && NamesField(dto.settings[CaptionSetting])
      && (fieldSource.None? || dto.settings[CaptionSetting] !in fieldSource.value.fields)
    ensures r.warning.Some? ==>
      && r.caption == dto.alt
      && r.warning.value.entityId == dto.entity.id
      && r.warning.value.viewMode == (if Truthy(dto.settings, ViewModeSetting) then dto.settings[ViewModeSetting] else "default")
    ensures CaptionSetting in dto.settings && NamesField(dto.settings[CaptionSetting]) && r.warning.None? ==>
      r.caption == fieldSource.value.fields[dto.settings[CaptionSetting]]
  {
    if CaptionSetting !in dto.settings then CaptionOutcome(dto.alt, None)
    else
      var setting := dto.settings[CaptionSetting];
      if setting == "alt" then CaptionOutcome(dto.alt, None)
      else if setting == "title" then CaptionOutcome(dto.title, None)
      else if setting == "node_title" then
        if titleSource.Some? && titleSource.value.title.Some? then CaptionOutcome(TitleValue(dto.entity), None)
        else CaptionOutcome(dto.alt, None)
      else if setting == "custom" then
        CaptionOutcome(
          svc.replaceTokens(Lookup(dto.settings, CaptionCustom),
                            CustomTokenData(dto),
                            TokenOptions(true, svc.currentLangcode)),
          None)
      else
        var viewMode := if !EmptyValue(Lookup(dto.settings, ViewModeSetting)) then dto.settings[ViewModeSetting] else "default";
        if fieldSource.None? || setting !in fieldSource.value.fields then
          CaptionOutcome(dto.alt, Some(Warning(viewMode, dto.entity.id)))
        else
          CaptionOutcome(fieldSource.value.fields[setting], None)
  }

  /** The log entries a caption choice adds: its warning, if any. */
  function Logged(r: CaptionOutcome): seq<Warning> {
    if r.warning.Some? then [r.warning.value] else []
  }

  /** Splits a string at its first 'x'. */
  function SplitAtX(s: string): Option<(string, string)> {
    if s == [] then None
    else if s[0] == 'x' then Some(("", s[1..]))
    else match SplitAtX(s[1..])
      case None => None
      case Some(parts) => Some(([s[0]] + parts.0, parts.1))
  }

  lemma {:induction false} SplitAtXJoin(a: string, b: string)
    requires 'x' !in a
    ensures SplitAtX(a + "x" + b) == Some((a, b))
  {
    if a != [] {
      assert (a + "x" + b)[1..] == a[1..] + "x" + b;
      SplitAtXJoin(a[1..], b);
      assert [a[0]] + a[1..] == a;
    } else {
      assert (a + "x" + b)[1..] == b;
    }
  }

  /** Reads a `data-size` value back into a width and a height. */
  function ParseDataSize(s: string): Option<(int, int)> {
    match SplitAtX(s)
    case None => None
    case Some(parts) =>
      match (ParseInt(parts.0), ParseInt(parts.1))
      case (Some(w), Some(h)) => Some((w, h))
      case _ => None
  }

  /** An unset width or height is null, which concatenates as "". */
  function SideText(side: Option<int>): string {
    if side.Some? then IntToString(side.value) else ""
  }

  /** The `data-size` attribute: width, 'x', height, each side as PHP writes it. */
  function DataSize(dims: Option<Dimensions>): (s: string)
    ensures dims.Some? ==> s == IntToString(dims.value.width) + "x" + IntToString(dims.value.height)
    ensures dims.None? ==> s == "x"
  {
    var width := if dims.Some? then Some(dims.value.width) else None;
    var height := if dims.Some? then Some(dims.value.height) else None;
    SideText(width) + "x" + SideText(height)
  }

  /** A `data-size` value reads back, split at its first 'x', to exactly the width and the height. */
  lemma DataSizeRoundTrip(d: Dimensions)
    ensures ParseDataSize(DataSize(Some(d))) == Some((d.width, d.height))
  {
    IntToStringRoundTrip(d.width);
    IntToStringRoundTrip(d.height);
    SplitAtXJoin(IntToString(d.width), IntToString(d.height));
  }

  lemma DataSizeExample()
    ensures DataSize(Some(Dimensions(800, 600))) == "800x600"
  {
  }
}
