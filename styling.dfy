/** The editor's own style tables: the CSS class given to a block on screen
    (`getBlockStyle`), the three callbacks that tell the HTML converter how to
    wrap inline styles, blocks and entities, and the test the link decorator
    uses to find linked characters. */
module Styling {
  import opened Wrappers
  import Toolbar

  /** One inline CSS declaration, written as React's style object writes it
      (camel-cased property, string value). */
  datatype CssDecl = CssDecl(property: string, value: string)

  /** An empty wrapper element handed to the converter: tag name, optional
      `className` and optional inline style. */
  datatype Wrapper = Wrapper(tag: string, className: Option<string>, style: Option<CssDecl>)

  /** An entity of the document engine: its type, mutability and data. */
  datatype Entity = Entity(entityType: string, mutability: string, data: map<string, string>)

  /** What an entity becomes in the output: the original text unchanged, or
      an anchor (`title` is only set by the on-screen decorator). */
  datatype Fragment =
    | Text(text: string)
    | Anchor(href: Option<string>, title: Option<string>, content: string)

  /** Block types that get a `RichEditor-<type>` class on screen. */
  const CLASSED_BLOCK_TYPES: set<string> :=
    {"blockquote", "CENTERED_BLOCK", "JUSTIFY_BLOCK", "LEFT_BLOCK", "RIGHT_BLOCK"}

  /** Block types rendered as an alignment `div`. */
  const ALIGNMENT_BLOCK_TYPES: set<string> :=
    {"CENTERED_BLOCK", "JUSTIFY_BLOCK", "LEFT_BLOCK", "RIGHT_BLOCK"}

  /** Inline styles the exporter wraps in a `span`. */
  const SPAN_STYLES: set<string> := {"BOLD", "ITALIC", "UNDERLINE", "lineThrough"}

  /** The keys of the editor's custom style map (their CSS values are not
      modelled). */
  const STYLE_MAP_KEYS: set<string> := {"CODE", "lineThrough"}

  /** getBlockStyle: the on-screen CSS class of a block of the given type,
      `None` for the JavaScript `null`. */
  function BlockStyle(blockType: string): (cls: Option<string>)
    ensures cls.Some? <==> blockType in CLASSED_BLOCK_TYPES
    ensures cls.Some? ==> cls.value == "RichEditor-" + blockType
  {
    match blockType
    case "blockquote" => Some("RichEditor-blockquote")
    case "CENTERED_BLOCK" => Some("RichEditor-CENTERED_BLOCK")
    case "JUSTIFY_BLOCK" => Some("RichEditor-JUSTIFY_BLOCK")
    case "LEFT_BLOCK" => Some("RichEditor-LEFT_BLOCK")
    case "RIGHT_BLOCK" => Some("RichEditor-RIGHT_BLOCK")
    case _ => None
  }

  /** styleToHTML: the wrapper of an inline-style run; `None` (the callback
      returns `undefined`) for every style it does not list. */
  function StyleToHTML(style: string): (w: Option<Wrapper>)
    ensures w.Some? <==> style in SPAN_STYLES
    ensures w.Some? ==> w.value.tag == "span" && w.value.className.None? && w.value.style.Some?
    ensures style == "BOLD" ==> w.value.style == Some(CssDecl("fontWeight", "bold"))
    ensures style == "ITALIC" ==> w.value.style == Some(CssDecl("fontStyle", "italic"))
    ensures style == "UNDERLINE" ==> w.value.style == Some(CssDecl("textDecoration", "underline"))
    ensures style == "lineThrough" ==> w.value.style == Some(CssDecl("textDecoration", "line-through"))
  {
    if style == "BOLD" then Some(Wrapper("span", None, Some(CssDecl("fontWeight", "bold"))))
    else if style == "ITALIC" then Some(Wrapper("span", None, Some(CssDecl("fontStyle", "italic"))))
    else if style == "UNDERLINE" then Some(Wrapper("span", None, Some(CssDecl("textDecoration", "underline"))))
    else if style == "lineThrough" then Some(Wrapper("span", None, Some(CssDecl("textDecoration", "line-through"))))
    else None
  }

  /** Block types the exporter wraps in one of draft-js's own default
      elements, tagged with that element's default class. */
  const DEFAULT_CLASSED_BLOCK_TYPES: set<string> :=
    {"unordered-list-item", "ordered-list-item", "code-block"}

  /** blockToHTML: the wrapper of a block; `None` (the converter's own
      default) for every type it does not list. */
  function BlockToHTML(blockType: string): (w: Option<Wrapper>)
    ensures w.Some? ==> w.value.style.None?
    ensures w.Some? && w.value.className.None? <==> blockType == "header-one"
    ensures w.Some? && w.value.tag == "div" <==> blockType in ALIGNMENT_BLOCK_TYPES
    ensures blockType == "header-one" ==> w.value.tag == "h1"
    ensures blockType == "blockquote" ==> w.Some? && w.value.tag == "blockquote"
    ensures blockType == "unordered-list-item" ==> w.Some? && w.value.tag == "ul"
    ensures blockType == "ordered-list-item" ==> w.Some? && w.value.tag == "ol"
    ensures blockType == "code-block" ==> w.Some? && w.value.tag == "pre"
    ensures blockType in DEFAULT_CLASSED_BLOCK_TYPES ==>
      w.Some? && w.value.className == Some("public-DraftStyleDefault-" + w.value.tag)
  {
    assert "public-DraftStyleDefault-" + "ul" == "public-DraftStyleDefault-ul";
    assert "public-DraftStyleDefault-" + "ol" == "public-DraftStyleDefault-ol";
    assert "public-DraftStyleDefault-" + "pre" == "public-DraftStyleDefault-pre";
    if blockType == "header-one" then Some(Wrapper("h1", None, None))
    else if blockType == "blockquote" then Some(Wrapper("blockquote", Some("RichEditor-blockquote"), None))
    else if blockType == "unordered-list-item" then Some(Wrapper("ul", Some("public-DraftStyleDefault-ul"), None))
    else if blockType == "ordered-list-item" then Some(Wrapper("ol", Some("public-DraftStyleDefault-ol"), None))
    else if blockType == "code-block" then Some(Wrapper("pre", Some("public-DraftStyleDefault-pre"), None))
    else if blockType == "CENTERED_BLOCK" then Some(Wrapper("div", Some("RichEditor-CENTERED_BLOCK"), None))
    else if blockType == "JUSTIFY_BLOCK" then Some(Wrapper("div", Some("RichEditor-JUSTIFY_BLOCK"), None))
    else if blockType == "LEFT_BLOCK" then Some(Wrapper("div", Some("RichEditor-LEFT_BLOCK"), None))
    else if blockType == "RIGHT_BLOCK" then Some(Wrapper("div", Some("RichEditor-RIGHT_BLOCK"), None))
    else None
  }

  /** The `url` field of an entity's data (`undefined` when it has none). */
  function Url(entity: Entity): Option<string> {
    if "url" in entity.data then Some(entity.data["url"]) else None
  }

  /** entityToHTML: a LINK entity becomes an anchor to its url around the
      original text; any other entity leaves the text as it is. */
  function EntityToHTML(entity: Entity, originalText: string): (f: Fragment)
    ensures f.Anchor? <==> entity.entityType == "LINK"
    ensures f.Anchor? ==> f.href == Url(entity) && f.title.None? && f.content == originalText
    ensures f.Text? ==> f.text == originalText
  {
    if entity.entityType == "LINK" then Anchor(Url(entity), None, originalText)
    else Text(originalText)
  }

  /** The `Link` component the decorator renders on screen for a linked
      range: an anchor whose href and title are both the entity's url. */
  function LinkView(entity: Entity, children: string): (f: Fragment)
    ensures f.Anchor? && f.href == f.title == Url(entity) && f.content == children
  {
    Anchor(Url(entity), Url(entity), children)
  }

  /** The character filter of findLinkEntities: a character belongs to a
      link when it carries an entity key and that entity is a LINK. The
      engine only ever stores keys of entities it holds. */
  predicate IsLinkCharacter(entityKey: Option<string>, entities: map<string, Entity>)
    requires entityKey.Some? ==> entityKey.value in entities
  {
    entityKey.Some? && entities[entityKey.value].entityType == "LINK"
  }

  /** The entity that setLink creates for a url. */
  function LinkEntity(url: string): (e: Entity)
    ensures e.entityType == "LINK" && e.mutability == "MUTABLE"
    ensures e.data == map["url" := url] && Url(e) == Some(url)
  {
    Entity("LINK", "MUTABLE", map["url" := url])
  }

  /** The four exported spans are pairwise different, so the export keeps
      every inline button's style apart from the others. */
  lemma SpanStylesDistinct(a: string, b: string)
    requires a in SPAN_STYLES && b in SPAN_STYLES && a != b
    ensures StyleToHTML(a) != StyleToHTML(b)
  {
  }

  /** The on-screen class of a block equals the class of its exported
      wrapper, for every block type that has an on-screen class. */
  lemma BlockClassAgreesWithExport(blockType: string)
    requires BlockStyle(blockType).Some?
    ensures BlockToHTML(blockType).Some?
    ensures BlockToHTML(blockType).value.className == BlockStyle(blockType)
  {
  }

  /** The callback gives a wrapper to exactly the block types of the toolbar;
      any other type is left to the converter's own default. */
  lemma BlockExportCoversToolbar(blockType: string)
    ensures BlockToHTML(blockType).Some? <==> blockType in Toolbar.Styles(Toolbar.BLOCK_TYPES)
  {
    assert Toolbar.Styles(Toolbar.BLOCK_TYPES) == ["header-one", "blockquote", "unordered-list-item",
      "ordered-list-item", "code-block", "CENTERED_BLOCK", "JUSTIFY_BLOCK", "LEFT_BLOCK", "RIGHT_BLOCK"];
  }

  /** The callback gives a span to every inline button's style and to no key
      outside the toolbar; in particular it gives none to CODE, which the
      custom style map draws on screen, leaving that run to the converter's
      own default. */
  lemma InlineExportCoversToolbar(style: string)
    ensures StyleToHTML(style).Some? <==> style in Toolbar.Styles(Toolbar.INLINE_STYLES)
    ensures "CODE" in STYLE_MAP_KEYS && StyleToHTML("CODE").None?
  {
    assert Toolbar.Styles(Toolbar.INLINE_STYLES) == ["BOLD", "ITALIC", "UNDERLINE", "lineThrough"];
  }

  /** With only the inline buttons' styles and the custom style map's keys
      in play, the link button's `active` flag is never raised. */
  lemma LinkButtonNeverActiveForEditorStyles(currentStyle: set<string>)
    requires forall s :: s in currentStyle ==> s in Toolbar.Styles(Toolbar.INLINE_STYLES) || s in STYLE_MAP_KEYS
    ensures !Toolbar.LinkButtonActive(currentStyle)
  {
    Toolbar.LinkButtonNeverActiveForToolbarStyles(currentStyle, STYLE_MAP_KEYS);
  }

  /** The decorator's filter marks a character exactly when the exporter
      turns that character's entity into an anchor, and both point the anchor
      at the same url. */
  lemma LinkCharactersExportAsAnchors(entityKey: Option<string>, entities: map<string, Entity>, text: string)
    requires entityKey.Some? ==> entityKey.value in entities
    ensures IsLinkCharacter(entityKey, entities)
      <==> entityKey.Some? && EntityToHTML(entities[entityKey.value], text).Anchor?
    ensures IsLinkCharacter(entityKey, entities)
      ==> EntityToHTML(entities[entityKey.value], text).href == LinkView(entities[entityKey.value], text).href
  {
  }

  /** A link made by setLink is exported as an anchor to the given url
      around exactly the linked text. */
  lemma LinkEntityExport(url: string, text: string)
    ensures EntityToHTML(LinkEntity(url), text) == Anchor(Some(url), None, text)
  {
  }
}
