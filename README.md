# Rich-text editor toolbar: style tables, HTML export callbacks and editor state

This project models the logic of its own that the `TextEditor` React widget
(`src/editor/Editor.jsx`) adds on top of the draft-js rich-text engine:

- **Toolbar** (`toolbar.dfy`): the two static button tables `BLOCK_TYPES` and
  `INLINE_STYLES`, and how each button's `active` flag is derived. A block
  button is active when its key equals the type of the block holding the
  selection start. An inline button is active when its key is in the current
  inline-style set. The lemmas prove that both tables have distinct keys and
  names. At most one block button is active: exactly one when the type is in
  the table. The inline flags are independent, so every combination of them
  can be active at once. The link button tests for an inline style named
  `LINK`. No toolbar key and no custom style key has that name.
- **Styling** (`styling.dfy`): `getBlockStyle` (the on-screen class of a
  block) and the `styleToHTML`, `blockToHTML` and `entityToHTML` callbacks
  handed to the HTML converter. Each is a total function. A JavaScript `null`
  or `undefined` result becomes `None`. It also models the character filter of
  the link decorator (`findLinkEntities`) and the `Link` component it renders.
  The lemmas tie these tables together:
  - on-screen classes agree with exported classes;
  - the `blockToHTML` and `styleToHTML` callbacks give a wrapper exactly for the toolbar's keys;
  - the `styleToHTML` callback gives no wrapper for `CODE`, which the custom style map draws on screen; what the converter then emits is its own default, which is not modelled;
  - the decorator marks exactly the characters the exporter turns into anchors.
- **EditorShell** (`editor_shell.dfy`): the component's three pieces of state
  (`editorState`, `openShowHTML` and the exported HTML text) as a class.
  Each handler is a method that updates those fields. The engine is an
  `Engine` value of function fields. These stand for the draft-js calls, for
  `convertToHTML` and for the two engine queries the toolbars use. Only the
  component's own guards and field updates are therefore verified.
- `wrappers.dfy` holds the `Option` datatype.

Strikethrough uses the custom key `lineThrough`, which the custom style map draws on screen, rather than draft-js's built-in `STRIKETHROUGH` style.

## Model

| member | source | states |
|---|---|---|
| `Styling.BlockStyle` | src/editor/Editor.jsx:54-63 | a class exists exactly for `blockquote` and the four alignment types, and it is `"RichEditor-" + type`; every other type gets none (`null`) |
| `Styling.StyleToHTML` | src/editor/Editor.jsx:178-191 | a wrapper exists exactly for `BOLD`, `ITALIC`, `UNDERLINE` and `lineThrough`; it is a `span` with no class, whose style is `fontWeight: bold`, `fontStyle: italic`, `textDecoration: underline` and `textDecoration: line-through` respectively; any other key gets none |
| `Styling.SpanStylesDistinct` | src/editor/Editor.jsx:179-190 | the four exported spans are pairwise different |
| `Styling.BlockToHTML` | src/editor/Editor.jsx:192-220 | wrappers carry no inline style; `header-one` becomes `h1`, the only wrapper without a class; `blockquote` becomes `blockquote`; the two list types become `ul` and `ol` and `code-block` becomes `pre`, each with class `public-DraftStyleDefault-<tag>`; a `div` is produced exactly for the four alignment types |
| `Styling.EntityToHTML` | src/editor/Editor.jsx:221-226 | a LINK entity, and only a LINK entity, becomes an anchor whose href is the entity's `url` and whose content is the original text; any other entity yields the original text unchanged |
| `Styling.LinkView` | src/editor/Editor.jsx:24-33 | the decorator's link is an anchor whose href and title are both the entity's `url`, around the decorated children |
| `Styling.LinkEntity` | src/editor/Editor.jsx:146-150 | the entity setLink creates is of type LINK, is MUTABLE, and its data is exactly `{ url }` |
| `Styling.Url` | src/editor/Editor.jsx:223 | defined as the entity data's `url` field, `None` (`undefined`) when the data has none |
| `Styling.IsLinkCharacter` | src/editor/Editor.jsx:13-19 | defined as: the character carries an entity key, and the entity under that key has type LINK |
| `Styling.BlockClassAgreesWithExport` | src/editor/Editor.jsx:196-218 | for every type with an on-screen class, the exported wrapper exists and has that same class |
| `Styling.BlockExportCoversToolbar` | src/editor/Editor.jsx:192-220 | the callback gives a block type a wrapper if and only if it is a key of `BLOCK_TYPES` |
| `Styling.InlineExportCoversToolbar` | src/editor/Editor.jsx:178-191 | the callback gives a span for an inline style if and only if it is a key of `INLINE_STYLES`; `CODE` is a custom style-map key, yet the callback gives it no wrapper |
| `Styling.LinkCharactersExportAsAnchors` | src/editor/Editor.jsx:11-22 | the decorator's filter accepts a character iff it has an entity key whose entity the exporter turns into an anchor, and both anchors use the same href |
| `Styling.LinkEntityExport` | src/editor/Editor.jsx:221-223 | a link made by setLink exports as `Anchor(url)` around exactly the linked text |
| `Toolbar.BlockTypesDistinct` | src/editor/Editor.jsx:65-75 | the style keys, and the names, of the block table are pairwise distinct |
| `Toolbar.InlineStylesDistinct` | src/editor/Editor.jsx:96-101 | the style keys, and the names, of the inline table are pairwise distinct |
| `Toolbar.BlockStyleControls` | src/editor/Editor.jsx:85-93 | one flag per `BLOCK_TYPES` entry, the i-th raised iff that entry's key is the current block type |
| `Toolbar.InlineStyleControls` | src/editor/Editor.jsx:105-113 | one flag per `INLINE_STYLES` entry, the i-th raised iff that entry's key is in the current inline-style set |
| `Toolbar.LinkButtonActive` | src/editor/Editor.jsx:247 | defined as: the current inline-style set holds a style named `LINK` |
| `Toolbar.BlockFlags` | src/editor/Editor.jsx:85-93 | one flag per table entry, the i-th raised iff entry i's key is the current block type |
| `Toolbar.InlineFlags` | src/editor/Editor.jsx:105-113 | one flag per table entry, the i-th raised iff entry i's key is in the current inline-style set |
| `Toolbar.BlockFlagsExclusive` | src/editor/Editor.jsx:85-93 | over any table with distinct keys, the number of raised flags is 1 when the block type is a key of the table and 0 otherwise |
| `Toolbar.BlockControlsExclusive` | src/editor/Editor.jsx:77-93 | for the block toolbar, at most one button is active, and exactly one iff the block type is in `BLOCK_TYPES` |
| `Toolbar.WantedStylesExact` | src/editor/Editor.jsx:105-113 | over a table with distinct keys, the set of keys of the wanted entries contains entry k's key iff entry k is wanted |
| `Toolbar.InlineControlsIndependent` | src/editor/Editor.jsx:103-114 | every combination of the four inline flags, including several at once, is produced by some inline-style set |
| `Styling.LinkButtonNeverActiveForEditorStyles` | src/editor/Editor.jsx:245-250 | the link button stays inactive for every style set drawn from the inline keys and the keys of the editor's custom style map |
| `Toolbar.LinkButtonNeverActiveForToolbarStyles` | src/editor/Editor.jsx:245-250 | the link button stays inactive for every style set drawn from the inline keys and from custom keys not named `LINK` |
| `EditorShell.TextEditor.constructor` | src/editor/Editor.jsx:117-124 | the widget starts with the engine's empty state, the preview closed and an empty HTML text |
| `EditorShell.TextEditor.BlockButtonFlags` | src/editor/Editor.jsx:77-93 | for the current state, at most one block button is active, and one iff the start block's type is in the table |
| `EditorShell.TextEditor.InlineButtonFlags` | src/editor/Editor.jsx:103-114 | for the current state, inline button i is active iff its key is in the engine's current inline-style set |
| `EditorShell.TextEditor.OnChange` | src/editor/Editor.jsx:119 | the given state replaces the current one |
| `EditorShell.TextEditor.HandleKeyCommand` | src/editor/Editor.jsx:126-133 | reports true iff the engine produced a new state; the state is replaced by it in that case, and left unchanged otherwise |
| `EditorShell.TextEditor.ToggleBlockType` | src/editor/Editor.jsx:135-142 | the state becomes the engine's block-type toggle of the old state |
| `EditorShell.TextEditor.ToggleInlineStyle` | src/editor/Editor.jsx:167-174 | the state becomes the engine's inline-style toggle of the old state |
| `EditorShell.TextEditor.SetLink` | src/editor/Editor.jsx:144-158 | a LINK entity with the url is created, and the new key is attached over the selection of the state holding it |
| `EditorShell.TextEditor.UnLink` | src/editor/Editor.jsx:160-165 | a collapsed selection leaves the state unchanged; otherwise links over the selection are detached (`toggleLink` with no key) |
| `EditorShell.TextEditor.ToHTML` | src/editor/Editor.jsx:176-230 | the HTML text becomes the converter's output for the current content under the three callbacks above; the preview opens; the document is unchanged |
| `EditorShell.TextEditor.CloseShowHTML` | src/editor/Editor.jsx:266 | the preview closes and the last HTML text is kept |

## Left out

- draft-js itself: `RichUtils.handleKeyCommand`, `toggleBlockType`, `toggleInlineStyle` and `toggleLink`, `createEntity` with `getLastCreatedEntityKey` and `EditorState.set`, selection, `getBlockForKey` and `getCurrentInlineStyle`. These are library calls whose code is not part of this model. They are function fields of `EditorShell.Engine`, so a result is only known to be whatever the engine returns. `Selection.IsCollapsed` follows the engine's definition (anchor equals focus).
- The document traversal of draft-convert's `convertToHTML`. Only the three callbacks it is given are modelled, as `EXPORT_CONFIG`. Consequently nothing is proved about the final HTML string beyond it being the converter's output for the current content.
- `findEntityRanges` and `CompositeDecorator`: how consecutive accepted characters are grouped into ranges belongs to the engine. Only the character filter is modelled.
- `Styling.IsLinkCharacter`: draft-js throws on an unknown entity key. The model requires that the key be one the content holds, which the engine guarantees for keys stored on characters.
- React rendering, hooks wiring, `useRef`, the editor surface and the JSX of the toolbars (src/editor/Editor.jsx:232-283). The unlink and html5 buttons pass the constant `active={false}`.
- src/editor/components/AddLink.jsx, ShowHTML.jsx and StyleButton.jsx are not part of this model. They are popup, modal and icon glue that forwards a value. AddLink passes a second argument that setLink ignores, and it clears its own field after submitting.
- The CSS values of the custom style map (src/editor/Editor.jsx:42-52) are presentation constants. Only its keys are kept, as `Styling.STYLE_MAP_KEYS`.
- The order in which React applies the state setters within one event is not modelled. Each handler's updates appear as one atomic step.
