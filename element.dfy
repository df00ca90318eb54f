/**
 * The custom-element bridge: `definePDFContainer` registers the `pdf-container` element
 * class in the page's custom-element registry once, and the element attaches its shadow
 * root once, in its constructor, and renders the container into it on every connection.
 */
module Element {
  import opened Wrappers

  /** The tag the element is registered under. */
  const TagName: string := "pdf-container"

  /** The document rendered when the element has no (or an empty) `url` attribute. */
  const DefaultUrl: string := "https://snippet.embedpdf.com/ebook.pdf"

  /**
   * An element class as handed to `customElements.define`. Every call of
   * `definePDFContainer` declares a new class; `declaration` tells the calls apart.
   */
  datatype ElementClass = PDFContainerElementClass(declaration: nat)

  /** Whether `window` and `window.customElements` are defined where the code runs. */
  datatype Environment = Environment(hasWindow: bool, hasCustomElements: bool)

  /** The error `customElements.define` raises for a name that is already defined. */
  datatype DefineError = NotSupportedError

  /** The registry's definitions after `definePDFContainer` declared class `cls`. */
  function DefinedAfter(defs: map<string, ElementClass>, env: Environment, cls: ElementClass): map<string, ElementClass>
  {
    if env.hasWindow && env.hasCustomElements && TagName !in defs then defs[TagName := cls] else defs
  }

  /**
   * `definePDFContainer` registers its class under `pdf-container` exactly when the
   * environment has a registry and the name is not yet defined; every other name is left as
   * it was, and the tag is defined afterwards whenever the registry exists.
   */
  lemma DefineRegistersOnlyWhenAbsent(defs: map<string, ElementClass>, env: Environment, cls: ElementClass)
    ensures env.hasWindow && env.hasCustomElements && TagName !in defs ==>
              DefinedAfter(defs, env, cls) == defs[TagName := cls]
    ensures TagName in defs ==> DefinedAfter(defs, env, cls) == defs
    ensures forall name :: name != TagName ==>
              (name in DefinedAfter(defs, env, cls) <==> name in defs) &&
              (name in defs ==> DefinedAfter(defs, env, cls)[name] == defs[name])
    ensures env.hasWindow && env.hasCustomElements ==> TagName in DefinedAfter(defs, env, cls)
  {
  }

  /** Without `window` or without `window.customElements`, nothing changes. */
  lemma DefineUnsupportedNoChange(defs: map<string, ElementClass>, env: Environment, cls: ElementClass)
    requires !env.hasWindow || !env.hasCustomElements
    ensures DefinedAfter(defs, env, cls) == defs
  {
  }

  /**
   * Calling `definePDFContainer` twice leaves the registry as calling it once: the class of
   * the second call is never registered.
   */
  lemma DefineIdempotent(defs: map<string, ElementClass>, env: Environment, first: ElementClass, second: ElementClass)
    ensures DefinedAfter(DefinedAfter(defs, env, first), env, second) == DefinedAfter(defs, env, first)
  {
  }

  /** The page's custom-element registry: a map from tag name to element class. */
  class CustomElementRegistry {
    var definitions: map<string, ElementClass>

    constructor ()
      ensures definitions == map[]
    {
      definitions := map[];
    }

    /** `customElements.get(name)`: the class defined under `name`, if any. */
    function Get(name: string): (r: Option<ElementClass>)
      reads this
      ensures r.Some? <==> name in definitions
      ensures r.Some? ==> r.value == definitions[name]
    {
      if name in definitions then Some(definitions[name]) else None
    }

    /** `customElements.define(name, cls)`: raises for a name already defined, otherwise defines it. */
    method Define(name: string, cls: ElementClass) returns (err: Option<DefineError>)
      modifies this
      ensures old(name in definitions) ==> err == Some(NotSupportedError) && definitions == old(definitions)
      ensures old(name !in definitions) ==> err == None && definitions == old(definitions)[name := cls]
    {
      if name in definitions {
        err := Some(NotSupportedError);
      } else {
        definitions := definitions[name := cls];
        err := None;
      }
    }
  }

  /**
   * `definePDFContainer()`, in a call that declares class `PDFContainerElementClass(declaration)`.
   * The guard means `define` is never reached for a name that is already defined, so the
   * call never raises.
   */
  method DefinePDFContainer(env: Environment, registry: CustomElementRegistry, declaration: nat)
    returns (err: Option<DefineError>)
    modifies registry
    ensures err == None
    ensures registry.definitions == DefinedAfter(old(registry.definitions), env, PDFContainerElementClass(declaration))
  {
    err := None;
    if env.hasWindow && env.hasCustomElements {
      if registry.Get(TagName).None? {
        err := registry.Define(TagName, PDFContainerElementClass(declaration));
      }
    }
  }

  /** One character lower-cased as the DOM lower-cases attribute names: ASCII `A`-`Z` only. */
  function AsciiLowerChar(c: char): char
  {
    if 'A' <= c <= 'Z' then (c as int + 32) as char else c
  }

  /** An attribute name in ASCII lower case, the form an HTML element stores and looks it up in. */
  function AsciiLower(name: string): (r: string)
    ensures |r| == |name|
    ensures forall i :: 0 <= i < |name| ==> r[i] == AsciiLowerChar(name[i])
    ensures forall i :: 0 <= i < |name| ==> !('A' <= r[i] <= 'Z')
  {
    if name == [] then [] else [AsciiLowerChar(name[0])] + AsciiLower(name[1..])
  }

  /** Lower-casing twice is lower-casing once, so a stored name is found again under itself. */
  lemma AsciiLowerIdempotent(name: string)
    ensures AsciiLower(AsciiLower(name)) == AsciiLower(name)
  {
    var once := AsciiLower(name);
    assert forall i :: 0 <= i < |once| ==> AsciiLower(once)[i] == once[i];
  }

  /**
   * `this.getAttribute(name)`: the value of the attribute whose name is `name` in ASCII lower
   * case, or null when there is none.
   */
  function GetAttribute(attributes: map<string, string>, name: string): (r: Option<string>)
    ensures r.Some? <==> AsciiLower(name) in attributes
    ensures r.Some? ==> r.value == attributes[AsciiLower(name)]
  {
    var key := AsciiLower(name);
    if key in attributes then Some(attributes[key]) else None
  }

  /**
   * `this.getAttribute("url") || DefaultUrl`: the `url` attribute when it is present and
   * non-empty, the default document otherwise (an empty string is falsy, like null).
   */
  function RenderedUrl(attributes: map<string, string>): (url: string)
    ensures "url" in attributes && attributes["url"] != "" ==> url == attributes["url"]
    ensures "url" !in attributes || attributes["url"] == "" ==> url == DefaultUrl
  {
    assert AsciiLower("url") == "url";
    var attr := GetAttribute(attributes, "url");
    if attr.Some? && attr.value != "" then attr.value else DefaultUrl
  }

  /** The rendered URL is never empty, and it is either the `url` attribute or the default. */
  lemma RenderedUrlNeverEmpty(attributes: map<string, string>)
    ensures RenderedUrl(attributes) != ""
    ensures RenderedUrl(attributes) == DefaultUrl || ("url" in attributes && RenderedUrl(attributes) == attributes["url"])
  {
  }

  /**
   * The host page may spell the attribute in any case: setting a non-empty value under a name
   * that lower-cases to `url` makes the element render that value.
   */
  lemma UrlAttributeAnyCase(attributes: map<string, string>, name: string, value: string)
    requires AsciiLower(name) == "url" && value != ""
    ensures RenderedUrl(attributes[AsciiLower(name) := value]) == value
  {
  }

  /** A shadow root; `rendered` lists the URLs of the container renders into it, in order. */
  class ShadowRoot {
    var rendered: seq<string>

    constructor ()
      ensures rendered == []
    {
      rendered := [];
    }
  }

  /**
   * The `PDFContainerElement` class. `root` is a constant: the shadow root is attached in the
   * constructor and never replaced; `shadowAttachments` counts the `attachShadow` calls.
   */
  class PDFContainerElement {
    var attributes: map<string, string>
    const root: ShadowRoot
    var shadowAttachments: nat

    /** `constructor()`: attaches the open shadow root, once. */
    constructor ()
      ensures attributes == map[]
      ensures fresh(root) && root.rendered == []
      ensures shadowAttachments == 1
    {
      attributes := map[];
      root := new ShadowRoot();
      shadowAttachments := 1;
    }

    /**
     * The host page sets an attribute, stored under its name in ASCII lower case (the element
     * does not observe attributes: nothing renders).
     */
    method SetAttribute(name: string, value: string)
      modifies this
      ensures attributes == old(attributes)[AsciiLower(name) := value]
      ensures shadowAttachments == old(shadowAttachments)
      ensures unchanged(root)
    {
      attributes := attributes[AsciiLower(name) := value];
    }

    /** `renderContainer()`: renders the container for the current URL into the shadow root. */
    method RenderContainer()
      modifies root
      ensures root.rendered == old(root.rendered) + [RenderedUrl(attributes)]
    {
      var url := RenderedUrl(attributes);
      root.rendered := root.rendered + [url];
    }

    /** `connectedCallback()`: one render into the same shadow root, which stays attached once. */
    method ConnectedCallback()
      modifies root
      ensures root.rendered == old(root.rendered) + [RenderedUrl(attributes)]
      ensures unchanged(this)
    {
      RenderContainer();
    }
  }

  /**
   * The element connected twice: each connection renders once more into the same root,
   * and with no attribute set between them both renders show the same URL.
   */
  method ConnectTwice(e: PDFContainerElement)
    modifies e.root
    ensures e.root.rendered == old(e.root.rendered) + [RenderedUrl(e.attributes), RenderedUrl(e.attributes)]
    ensures e.shadowAttachments == old(e.shadowAttachments)
  {
    e.ConnectedCallback();
    e.ConnectedCallback();
  }
}
