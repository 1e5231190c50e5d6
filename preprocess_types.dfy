/**
 * The values the image preprocessor reads and writes: the image descriptor
 * (ImageDTO), the owning entity, the renderable image array, the theme
 * variables, and the foreign Drupal services it calls, each of which is an
 * uninterpreted function here.
 */
module PreprocessTypes {
  import opened PhpValues

  /** An image's pixel size; an ImageDTO holds either both sides or none. */
  datatype Dimensions = Dimensions(width: int, height: int)

  /**
   * The content entity that owns the image field, as far as captions read it:
   * its id, its entity type id, the value of its `title` field (None when it
   * has no such field) and, for every other field it exposes by machine name,
   * the rendered output of that field's default view.
   */
  datatype Entity = Entity(
    id: string,
    entityTypeId: string,
    title: Option<string>,
    fields: map<string, string>)

  /** The image field item; only its pass-through `_attributes` are read. */
  datatype FieldItem = FieldItem(attributes: map<string, string>)

  /**
   * The image descriptor built from the theme variables: source URI, alt and
   * title text, the formatter settings, the dimensions (None while unset),
   * the owning entity and the field item.
   */
  datatype ImageDTO = ImageDTO(
    uri: string,
    alt: string,
    title: string,
    settings: map<string, string>,
    dims: Option<Dimensions>,
    entity: Entity,
    item: FieldItem)

  /**
   * The renderable image array: `#theme`, `#uri`, `#alt`, `#title`,
   * `#attributes`, `#style_name` (None for null) and, once known,
   * `#width` and `#height`.
   */
  datatype Image = Image(
    theme: string,
    uri: string,
    alt: string,
    title: string,
    attributes: map<string, string>,
    styleName: Option<string>,
    width: Option<int>,
    height: Option<int>)

  /** The link's `attributes` variable: its `class` list and its other entries. */
  datatype Attributes = Attributes(classes: seq<string>, values: map<string, string>)

  /**
   * The theme variables preprocess receives by reference: the optional
   * `delta`, the descriptor ImageDTO::createFromVariables derives from them,
   * and the `image`, `path` and `attributes` entries it writes.
   */
  datatype Variables = Variables(
    delta: Option<int>,
    descriptor: ImageDTO,
    image: Option<Image>,
    path: Option<string>,
    attributes: Attributes)

  /** What the image factory reports about the file at a URI. */
  datatype InspectedImage = InspectedImage(valid: bool, width: int, height: int)

  /** A value in the token data array: an entity or a field item. */
  datatype TokenValue = EntityToken(entity: Entity) | FileToken(item: FieldItem)

  /** The token data array, keyed as PHP keys it. */
  type TokenData = map<string, TokenValue>

  /** The token options `clear` and `langcode`. */
  datatype TokenOptions = TokenOptions(clear: bool, langcode: string)

  /** A logged warning's placeholders: the view mode `@fv` and the entity id `@nid`. */
  datatype Warning = Warning(viewMode: string, entityId: string)

  /**
   * The foreign services, as uninterpreted functions:
   * `inspect(uri)` is the image factory's verdict on a file;
   * `transformDimensions(style, dims, uri)` and `buildUrl(style, uri)` are
   * the named image style's methods; `fileCreateUrl(uri)` is the direct
   * file URL; `replaceTokens(text, data, options)` is token replacement;
   * `currentLangcode` is the current language's id.
   */
  datatype Services = Services(
    inspect: string -> InspectedImage,
    transformDimensions: (string, Dimensions, string) -> Dimensions,
    buildUrl: (string, string) -> string,
    fileCreateUrl: string -> string,
    replaceTokens: (Option<string>, TokenData, TokenOptions) -> string,
    currentLangcode: string)
}
