/**
 * The once-per-request asset gate: the first `attach` builds the photoswipe
 * library list and JavaScript settings and flips `attached`; later calls do
 * nothing.
 */
module Assets {
  import opened PhpValues

  const Library := "photoswipe/photoswipe"
  const InitLibrary := "photoswipe/photoswipe.init"
  /** The configuration object the manager reads. */
  const SettingsName := "photoswipe.settings"

  /** A render element's `#attached`: its library list and its `drupalSettings` tree. */
  datatype Attachments = Attachments(library: seq<string>, drupalSettings: map<string, map<string, Option<string>>>)

  /** A render element: its `#attached` entry and its other properties. */
  datatype Element = Element(attached: Attachments, properties: map<string, string>)

  class AssetsManager {
    /** Whether the assets were attached in this request; unset (falsy) until the first attach. */
    var attached: bool
    /** The `photoswipe.settings` configuration, fetched once at construction. */
    const config: map<string, string>

    constructor (configFactory: string -> map<string, string>)
      ensures config == configFactory(SettingsName)
      ensures !attached
    {
      config := configFactory(SettingsName);
      attached := false;
    }

    /**
     * On the first call builds, in a local value, the two libraries and the
     * `options` setting, then sets the flag; the element passed by
     * reference is never written. `built` is that local value (None when
     * the call did nothing).
     */
    method Attach(element: Element) returns (element': Element, ghost built: Option<Attachments>)
      modifies this`attached
      ensures attached
      ensures element' == element
      ensures old(attached) ==> built.None?
      ensures !old(attached) ==>
        && built.Some?
        && built.value.library == [Library, InitLibrary]
        && built.value.drupalSettings == map["photoswipe" := map["options" := Lookup(config, "options")]]
    {
      element' := element;
      built := None;
      if !attached {
        var attachments := Attachments([], map[]);
        attachments := attachments.(library := attachments.library + [Library]);
        attachments := attachments.(library := attachments.library + [InitLibrary]);
        attachments := attachments.(drupalSettings := map["photoswipe" := map["options" := Lookup(config, "options")]]);
        built := Some(attachments);
        attached := true;
      }
    }

    method IsAttached() returns (r: bool)
      ensures r == attached
    {
      r := attached;
    }
  }

  /**
   * Attaching twice leaves the same state as attaching once: two managers
   * built from the same configuration, one attached once and one twice, end
   * with the same flag and configuration, the second call builds nothing,
   * and the element is untouched either way.
   */
  method AttachIsIdempotent(configFactory: string -> map<string, string>, element: Element)
    returns (before: bool, once: (bool, map<string, string>), twice: (bool, map<string, string>),
             afterOnce: Element, afterTwice: Element, ghost secondBuilt: Option<Attachments>)
    ensures !before
    ensures once == twice == (true, configFactory(SettingsName))
    ensures afterOnce == element && afterTwice == element
    ensures secondBuilt.None?
  {
    var single := new AssetsManager(configFactory);
    before := single.IsAttached();
    ghost var built;
    afterOnce, built := single.Attach(element);
    var flag := single.IsAttached();
    once := (flag, single.config);

    var double := new AssetsManager(configFactory);
    afterTwice, built := double.Attach(element);
    afterTwice, secondBuilt := double.Attach(afterTwice);
    flag := double.IsAttached();
    twice := (flag, double.config);
  }
}
