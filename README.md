# Photoswipe image preprocessing and asset gate, in Dafny

This project models the two pieces of decision logic in the Drupal
`photoswipe` module, which puts images into a lightbox gallery:

- **PhotoswipePreprocessProcessor** (`preprocess_rules.dfy`,
  `preprocess_processor.dfy`) turns one image field item into the lightbox
  link. It picks the display style: the first-item style for `delta` 0 when
  one is set, otherwise the node style. It picks the theme: a plain `image`
  when the style is empty or `hide`. It records the image's dimensions when
  the image factory says the file is valid. It chooses the link target:
  the derivative URL of `photoswipe_image_style`, which also rewrites the
  stored dimensions, or else the direct file URL. It chooses the caption from
  `photoswipe_caption`. Last, it writes the `photoswipe` class, `data-size`
  as `<width>x<height>`, `data-overlay-title` and, for the `hide` style, the
  `hidden` class.
- **PhotoswipeAssetsManager** (`assets_manager.dfy`) is the
  once-per-request gate. The first `attach` builds the two library references
  and the `options` setting, then sets `attached`. Later calls do nothing.

The rules are pure functions over the image descriptor, in module
`PreprocessRules`. The class `Preprocess.PreprocessProcessor` performs them
in place, as the source does. It has an `imageDTO` field that `SetDimensions`
and `GetPath` overwrite, a ghost `log` of logger warnings, and the theme
variables passed in and returned (PHP passes them by reference).
`Assets.AssetsManager` is a class with a `bool` field.

Most Drupal services the code calls are uninterpreted functions: fields of
the `Services` datatype (`preprocess_types.dfy`). This covers the image
factory's verdict on a file, the image style's `transformDimensions` and
`buildUrl`, `file_create_url`, token replacement and the current language
id. Three are represented differently: the logger is the ghost `log` of
warnings; a loaded image style is stood in for by its name, which goes
straight to `transformDimensions` and `buildUrl`; and a field's rendered
`view()` output is an opaque string in `Entity.fields`. The asset manager's
configuration factory is a function parameter of its constructor. `PhpValues` (`php_values.dfy`) holds the PHP value rules the
code relies on:
- null is an absent `Option`;
- `empty()` is true only for `""` and `"0"`;
- a settings entry is truthy when it is not empty;
- the `.` operator writes an integer in decimal. `ParseInt` reads that text
  back; it is the independent inverse used to state what `data-size` holds.

Two caption strategies read variables that are never assigned. The
`node_title` strategy checks `$this->entity->title`
(src/PhotoswipePreprocessProcessor.php:154). The field-name strategy checks
the local `$entity` (line 179). `CaptionOf` takes both as explicit
`Option<Entity>` inputs and its contract covers every value of them. The
processor passes `None` for both, because that is what the code reads.
So, as written, `node_title` always gives the alt text. Any other field
name always logs one warning and gives the alt text too.
`GetCaption` and `Preprocess` state this outcome.

As written, the code behaves as follows in three places:
- A `node_title` caption is not taken from a non-empty entity title. A
  field-name caption never renders the field.
- `attach` does not add anything to the element it is given. It builds the
  attachments in a local array and throws them away, so `Attach` ensures
  `element' == element`. What it built is returned as the ghost `built`.
- The `hidden` class depends only on the style being exactly `hide`. The
  plain `image` theme applies to an empty style as well as to `hide`.

## Model

| member | source | states |
|---|---|---|
| `PreprocessRules.RenderableImage` | src/PhotoswipePreprocessProcessor.php:211-231 | URI, alt, title and item attributes are copied unchanged. The style is the first-item style exactly when `delta` is 0 and `photoswipe_node_style_first` is non-empty; otherwise it is `photoswipe_node_style` (null when missing). The theme is `image` if and only if the style is empty or `hide`; otherwise it is `image_style`. No width or height is set yet. |
| `Preprocess.PreprocessProcessor.SetDimensions` | src/PhotoswipePreprocessProcessor.php:261-272 | For a valid image, `#width`/`#height` are set and the descriptor's dimensions become the inspected ones. For an invalid image, the image and the descriptor are unchanged. Nothing but `imageDTO` is modified. |
| `PreprocessRules.PathStep` | src/PhotoswipePreprocessProcessor.php:236-253 | If `photoswipe_image_style` is truthy and dimensions are set, the result is the style's `buildUrl(uri)` and the dimensions become `transformDimensions` of the old ones. Otherwise it is `file_create_url(uri)` and the descriptor is unchanged. Nothing but the dimensions ever changes. |
| `Preprocess.PreprocessProcessor.GetPath` | src/PhotoswipePreprocessProcessor.php:236-253 | Returns the path `PathStep` chooses and stores the descriptor it yields in `imageDTO`. |
| `PreprocessRules.CaptionOf` | src/PhotoswipePreprocessProcessor.php:140-200 | A missing setting or `alt` gives the alt text; `title` gives the title text. `node_title` gives the owner's title value only when the checked entity has a title, else the alt text. `custom` gives token replacement of `photoswipe_caption_custom` over `CustomTokenData`, with `clear` true and the current langcode. A warning is produced if and only if the setting names some other field that the checked entity lacks. In that case the caption is the alt text and the warning carries the entity id and the view mode (`photoswipe_view_mode` if truthy, else `default`). |
| `PreprocessRules.CustomTokenData` | src/PhotoswipePreprocessProcessor.php:163-168 | The token data has exactly the keys entity type id and `file`; `file` maps to the field item, and the entity is present if and only if its type id is not `file` (the later `file` key overwrites it). |
| `Preprocess.PreprocessProcessor.GetCaption` | src/PhotoswipePreprocessProcessor.php:140-200 | Returns `CaptionOf` with both unassigned entities absent, and appends its warning, if any, to the log: at most one entry. As written, `node_title` and any field name give the alt text. |
| `PhpValues.NatToString` | src/PhotoswipePreprocessProcessor.php:128 | The decimal text of a natural number is a numeral: non-empty, all digits, no leading zero. It starts with `0` exactly when the number is 0. |
| `PhpValues.IntToString` | src/PhotoswipePreprocessProcessor.php:128 | The text PHP concatenation gives an integer is canonical decimal: a numeral without leading zeros, with a `-` exactly when the integer is negative (never `-0`). It contains no `x`. |
| `PhpValues.IntToStringRoundTrip` | src/PhotoswipePreprocessProcessor.php:128 | `ParseInt` recovers every integer from its text, so the text determines the integer. |
| `PreprocessRules.DataSize` | src/PhotoswipePreprocessProcessor.php:128 | For set dimensions, `data-size` is exactly the width's PHP text, `x`, then the height's PHP text. For unset dimensions it is `"x"`. |
| `PhpValues.NatToStringOfDigits` | src/PhotoswipePreprocessProcessor.php:128 | Every numeral without leading zeros is the decimal text of the number it denotes. |
| `PhpValues.CanonicalIntUnique` | src/PhotoswipePreprocessProcessor.php:128 | Any canonical decimal text (numeral, optionally after `-`, never `-0`) reads as an integer whose PHP text it is, so each integer has exactly one such text. |
| `PreprocessRules.DataSizeRoundTrip` | src/PhotoswipePreprocessProcessor.php:128 | For any dimensions, `data-size` split at its first `x` reads back to exactly (width, height). |
| `PreprocessRules.DataSizeExample` | src/PhotoswipePreprocessProcessor.php:128 | Width 800 and height 600 give `"800x600"`. |
| `Preprocess.PreprocessProcessor.constructor` | src/PhotoswipePreprocessProcessor.php:84-98 | Keeps the injected services. It starts with no descriptor and an empty log. |
| `Preprocess.PreprocessProcessor.Preprocess` | src/PhotoswipePreprocessProcessor.php:120-135 | `image` is the renderable image with the inspected dimensions. `path` and the stored descriptor are those of `PathStep`, applied after inspection. The classes are the old ones, then `photoswipe`, then `hidden` if and only if the style is `hide`. `data-size` is computed from the dimensions as `GetPath` left them. `data-overlay-title` is the caption. No other attribute entry, and neither `delta` nor the descriptor input, changes. The log grows by the caption's warning. |
| `Assets.AssetsManager.constructor` | src/PhotoswipeAssetsManager.php:18-32 | The configuration is `photoswipe.settings`, fetched once; `attached` starts falsy. |
| `Assets.AssetsManager.Attach` | src/PhotoswipeAssetsManager.php:37-50 | After any call, `attached` holds. The element is never changed. If the flag was already set, nothing is built. On the first call, the local attachments list `photoswipe/photoswipe` then `photoswipe/photoswipe.init`, and `drupalSettings.photoswipe.options` is the config's `options`. Only `attached` may change. |
| `Assets.AssetsManager.IsAttached` | src/PhotoswipeAssetsManager.php:55-57 | Returns the current flag and changes nothing. |
| `Assets.AttachIsIdempotent` | src/PhotoswipeAssetsManager.php:37-57 | Before `attach`, the flag is false. Attaching twice ends in the same flag and configuration as attaching once. The second call builds nothing, and the element is unchanged. |

## Left out

- The service container factory `create()` is not modelled. It is wiring with no logic.
- `ImageDTO` is not part of this model. Its getters and setters are read as a
  plain record. `ImageDTO::createFromVariables` is not modelled: the
  descriptor it derives is an input field of `Variables`. Two of its
  behaviours are assumed: `!empty($dimensions)` in `getPath` is read as
  "the dimensions are set", and `getWidth()`/`getHeight()` on unset
  dimensions return null (hence `data-size` `"x"`). If `getDimensions()`
  returned an array with null entries instead, it would never be empty and
  `getPath` would always take the image-style branch when a style is set.
- The internals of the image factory, image style storage,
  `transformDimensions`, `buildUrl`, `file_create_url`, token replacement,
  field `view()` and `render()` are not modelled. Each is an uninterpreted
  function, or the rendered field output is an opaque string.
- A missing image style is not modelled. Loading a style name that does not
  exist makes PHP call a method on null. The model always has a style to call.
- `transformDimensions` is modelled as always producing both sides. Drupal
  can leave a side null; the model does not represent that.
- Logger message formatting and placeholder substitution are not modelled.
  A warning is kept as its two placeholder values in a ghost log.
- PHP's typing is not modelled. `delta` is an optional integer, so a string
  `"0"` (which `=== 0` rejects) cannot be expressed. Settings and config
  values are strings, so other PHP values cannot be expressed. The `options`
  value is opaque.
- An unset `attached` is modelled as `false` rather than null, and a missing
  title field reads as `""` rather than null.
- Undefined-index notices and the missing import of the configuration
  factory type are PHP runtime details with no effect on behaviour, and are
  not modelled.
