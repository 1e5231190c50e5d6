/**
 * The image preprocessor as the object it is: `preprocess` stores a fresh
 * image descriptor in the `imageDTO` field, lets `setDimensions` and
 * `getPath` update that descriptor in place, appends to the logger and
 * rewrites the theme variables it was given by reference.
 */
module Preprocess {
  import opened PhpValues
  import opened PreprocessTypes
  import opened PreprocessRules

  class PreprocessProcessor {
    /** The injected services. */
    const services: Services
    /** The `entity` property the `node_title` caption reads; no code ever assigns it. */
    const entity: Option<Entity> := None
    /** The descriptor of the image being processed; null until the first preprocess. */
    var imageDTO: Option<ImageDTO>
    /** The warnings sent to the `photoswipe` logger channel. */
    ghost var log: seq<Warning>

    constructor (services: Services)
      ensures imageDTO.None? && log == []
      ensures this.services == services
    {
      this.services := services;
      imageDTO := None;
      log := [];
    }

    /**
     * Asks the image factory about the descriptor's file; only a valid image
     * gets `#width` and `#height`, and only then are the descriptor's
     * dimensions replaced by the inspected ones.
     */
    method SetDimensions(image: Image) returns (image': Image)
      requires imageDTO.Some?
      modifies this`imageDTO
      ensures var file := services.inspect(old(imageDTO).value.uri);
        && imageDTO == Some(Inspected(old(imageDTO).value, file))
        && (file.valid ==>
              && image' == image.(width := Some(file.width), height := Some(file.height))
              && imageDTO.value.dims == Some(Dimensions(file.width, file.height)))
        && (!file.valid ==> image' == image && imageDTO == old(imageDTO))
    {
      var imageFile := services.inspect(imageDTO.value.uri);
      image' := image;
      if imageFile.valid {
        image' := image'.(width := Some(imageFile.width));
        image' := image'.(height := Some(imageFile.height));
        imageDTO := Some(imageDTO.value.(dims := Some(Dimensions(imageFile.width, imageFile.height))));
      }
    }

    /**
     * The lightbox target: the configured image style's derivative URL, whose
     * transformed dimensions overwrite the descriptor's, when a style is set
     * and the dimensions are known; the direct file URL otherwise.
     */
    method GetPath() returns (path: string)
      requires imageDTO.Some?
      modifies this`imageDTO
      ensures imageDTO == Some(PathStep(old(imageDTO).value, services).dto)
      ensures path == PathStep(old(imageDTO).value, services).path
    {
      var dimensions := imageDTO.value.dims;
      var styleName := Lookup(imageDTO.value.settings, ImageStyle);
      if !EmptyValue(styleName) && dimensions.Some? {
        var transformed := services.transformDimensions(styleName.value, dimensions.value, imageDTO.value.uri);
        imageDTO := Some(imageDTO.value.(dims := Some(transformed)));
        path := services.buildUrl(styleName.value, imageDTO.value.uri);
      } else {
        path := services.fileCreateUrl(imageDTO.value.uri);
      }
    }

    /**
     * The caption chosen by the `photoswipe_caption` setting; the field-name
     * strategy logs one warning when the field is missing. Both entities it
     * consults are unassigned, so `node_title` and field names fall back to
     * the alt text.
     */
    method GetCaption() returns (caption: string)
      requires imageDTO.Some?
      modifies this`log
      ensures caption == CaptionOf(imageDTO.value, None, None, services).caption
      ensures log == old(log) + Logged(CaptionOf(imageDTO.value, None, None, services))
      ensures var setting := Lookup(imageDTO.value.settings, CaptionSetting);
        setting.Some? && (setting.value == "node_title" || NamesField(setting.value)) ==>
          caption == imageDTO.value.alt
      ensures |log| <= |old(log)| + 1
    {
      // The local entity the field-name strategy reads is never assigned either.
      var localEntity: Option<Entity> := None;
      var outcome := CaptionOf(imageDTO.value, entity, localEntity, services);
      log := log + Logged(outcome);
      caption := outcome.caption;
    }

    /**
     * Preprocesses one image: builds the renderable image, records its
     * dimensions, then writes `image`, `path`, the `photoswipe` class,
     * `data-size` (from the dimensions as `getPath` left them), the caption
     * in `data-overlay-title` and, for the `hide` style, the `hidden` class.
     */
    method Preprocess(variables: Variables) returns (variables': Variables)
      modifies this`imageDTO, this`log
      ensures var dto := variables.descriptor;
        var file := services.inspect(dto.uri);
        var image := RenderableImage(dto, variables.delta);
        var step := PathStep(Inspected(dto, file), services);
        && variables'.image == Some(if file.valid then image.(width := Some(file.width), height := Some(file.height)) else image)
        && variables'.path == Some(step.path)
        && imageDTO == Some(step.dto)
        && variables'.attributes.classes ==
             variables.attributes.classes + ["photoswipe"] + (if image.styleName == Some(Hide) then ["hidden"] else [])
        && variables'.attributes.values ==
             variables.attributes.values["data-size" := DataSize(step.dto.dims)]
                                        ["data-overlay-title" := CaptionOf(step.dto, None, None, services).caption]
        && log == old(log) + Logged(CaptionOf(step.dto, None, None, services))
      ensures variables'.delta == variables.delta && variables'.descriptor == variables.descriptor
    {
      imageDTO := Some(variables.descriptor);
      var image := RenderableImage(imageDTO.value, variables.delta);
      image := SetDimensions(image);

      variables' := variables.(image := Some(image));
      var path := GetPath();
      variables' := variables'.(path := Some(path));
      var attributes := variables'.attributes;
      attributes := attributes.(classes := attributes.classes + ["photoswipe"]);
      attributes := attributes.(values := attributes.values["data-size" := DataSize(imageDTO.value.dims)]);
      var caption := GetCaption();
      attributes := attributes.(values := attributes.values["data-overlay-title" := caption]);
      if image.styleName == Some(Hide) {
        attributes := attributes.(classes := attributes.classes + ["hidden"]);
      }
      variables' := variables'.(attributes := attributes);
    }
  }
}
