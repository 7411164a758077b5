/**
 * Chat markdown links (src/components/general/markdown.tsx): how a link is rendered, and the
 * sanitiser schema that lets `thought://` links through.
 */
module Markdown {
  import opened Wrappers
  import opened Text

  const ThoughtScheme := "thought://"

  /** A rendered link: an inert span for thought references, else a new-tab anchor. */
  datatype LinkRendering =
    | Span
    | Anchor(href: Option<string>, target: string, rel: string)

  /** `CustomLink` on the link's `href` (which may be absent). */
  function CustomLink(href: Option<string>): (r: LinkRendering)
    ensures r.Span? <==> href.Some? && StartsWith(href.value, ThoughtScheme)
    ensures r.Anchor? ==> r.href == href && r.target == "_blank" && r.rel == "noopener noreferrer"
  {
    if href.Some? && StartsWith(href.value, ThoughtScheme) then Span
    else Anchor(href, "_blank", "noopener noreferrer")
  }

  /** No thought reference ever becomes a clickable anchor with an href. */
  lemma ThoughtLinksHaveNoHref(h: string, rest: string)
    requires h == ThoughtScheme + rest
    ensures CustomLink(Some(h)) == Span
  {
    assert h[..|ThoughtScheme|] == ThoughtScheme;
  }

  /**
   * The parts of a sanitiser schema the component touches: per-tag allowed attributes and
   * per-attribute allowed protocols, each possibly absent; `settings` stands for every other key,
   * which the spread copies unchanged.
   */
  datatype Schema = Schema(
    settings: map<string, seq<string>>,
    attributes: Option<map<string, seq<string>>>,
    protocols: Option<map<string, seq<string>>>)

  const HrefProtocols: seq<string> := ["http", "https", "thought"]

  /** The `schema` object built from the default schema. */
  function BuildSchema(default: Schema): (r: Schema)
    ensures r.settings == default.settings
    ensures r.attributes.Some? && r.protocols.Some?
    ensures "a" in r.attributes.value
    ensures r.attributes.value["a"]
         == (if default.attributes.Some? && "a" in default.attributes.value
             then default.attributes.value["a"] else []) + ["href"]
    ensures default.attributes.Some? ==> forall tag :: tag in default.attributes.value && tag != "a" ==>
      tag in r.attributes.value && r.attributes.value[tag] == default.attributes.value[tag]
    ensures forall tag :: tag in r.attributes.value && tag != "a" ==>
      default.attributes.Some? && tag in default.attributes.value
    ensures "href" in r.protocols.value && r.protocols.value["href"] == HrefProtocols
    ensures default.protocols.Some? ==> forall attr :: attr in default.protocols.value && attr != "href" ==>
      attr in r.protocols.value && r.protocols.value[attr] == default.protocols.value[attr]
    ensures forall attr :: attr in r.protocols.value && attr != "href" ==>
      default.protocols.Some? && attr in default.protocols.value
  {
    var attrs := default.attributes.GetOr(map[]);
    var protos := default.protocols.GetOr(map[]);
    var anchorAttrs := if "a" in attrs then attrs["a"] else [];
    Schema(default.settings, Some(attrs["a" := anchorAttrs + ["href"]]),
           Some(protos["href" := HrefProtocols]))
  }
}
