/** The TextEditor component: the three pieces of state it keeps and the
    handlers that replace them. The draft-js engine and the converter are not
    modelled; they are the function values of an `Engine`, so only the
    component's own guards and state updates are verified here. */
module EditorShell {
  import opened Wrappers
  import Styling
  import Toolbar

  /** A selection in the engine's terms: anchor and focus positions. */
  datatype Selection = Selection(anchorKey: string, anchorOffset: nat, focusKey: string, focusOffset: nat) {
    /** A caret: anchor and focus are the same position. */
    predicate IsCollapsed() {
      anchorKey == focusKey && anchorOffset == focusOffset
    }
  }

  /** The three callbacks the component hands to the HTML converter. */
  datatype ConverterConfig = ConverterConfig(
    styleToHTML: string -> Option<Styling.Wrapper>,
    blockToHTML: string -> Option<Styling.Wrapper>,
    entityToHTML: (Styling.Entity, string) -> Styling.Fragment)

  /** The configuration `toHTML` builds. */
  const EXPORT_CONFIG: ConverterConfig :=
    ConverterConfig(Styling.StyleToHTML, Styling.BlockToHTML, Styling.EntityToHTML)

  /** What the component uses of draft-js and draft-convert, over editor
      states `S` and content states `C`. `startBlockType` is the type of the
      block holding the selection's start; `createEntity` stands for creating
      the entity on the current content and setting that content back into
      the editor state; `handleKeyCommand` returns `None` for the engine's
      `null`. */
  datatype Engine<!S, !C> = Engine(
    createEmpty: S,
    selection: S -> Selection,
    startBlockType: S -> string,
    currentInlineStyle: S -> set<string>,
    currentContent: S -> C,
    handleKeyCommand: (S, string) -> Option<S>,
    toggleBlockType: (S, string) -> S,
    toggleInlineStyle: (S, string) -> S,
    createEntity: (S, Styling.Entity) -> S,
    lastCreatedEntityKey: S -> string,
    toggleLink: (S, Selection, Option<string>) -> S,
    convertToHTML: (ConverterConfig, C) -> string)

  class TextEditor<S, C> {
    const engine: Engine<S, C>
    /** The current document snapshot, replaced on every edit. */
    var editorState: S
    /** Whether the HTML preview is open. */
    var openShowHTML: bool
    /** The last exported HTML. */
    var htmlText: string

    /** Mounting: an empty document, the preview closed, no HTML yet. */
    constructor (engine: Engine<S, C>)
      ensures this.engine == engine
      ensures editorState == engine.createEmpty && !openShowHTML && htmlText == ""
    {
      this.engine := engine;
      editorState := engine.createEmpty;
      openShowHTML := false;
      htmlText := "";
    }

    /** The `active` flags of the block buttons for the current state: at
      most one is raised. */
    function BlockButtonFlags(): (flags: seq<bool>)
      reads this
      ensures |flags| == |Toolbar.BLOCK_TYPES|
      ensures Toolbar.CountTrue(flags) <= 1
      ensures Toolbar.CountTrue(flags) == 1 <==>
        engine.startBlockType(editorState) in Toolbar.Styles(Toolbar.BLOCK_TYPES)
    {
      Toolbar.BlockControlsExclusive(engine.startBlockType(editorState));
      Toolbar.BlockStyleControls(engine.startBlockType(editorState))
    }

    /** The `active` flags of the inline buttons for the current state: each
      one tests its own key against the current inline-style set. */
    function InlineButtonFlags(): (flags: seq<bool>)
      reads this
      ensures |flags| == |Toolbar.INLINE_STYLES|
      ensures forall i :: 0 <= i < |flags| ==>
        (flags[i] <==> Toolbar.INLINE_STYLES[i].style in engine.currentInlineStyle(editorState))
    {
      Toolbar.InlineStyleControls(engine.currentInlineStyle(editorState))
    }

    /** onChange: adopt the state the editor surface hands back. */
    method OnChange(edState: S)
      modifies this`editorState
      ensures editorState == edState
    {
      editorState := edState;
    }

    /** handleKeyCommand: adopt the engine's new state and report the
      command handled, or leave the state alone and report it unhandled. */
    method HandleKeyCommand(command: string) returns (handled: bool)
      modifies this`editorState
      ensures handled <==> engine.handleKeyCommand(old(editorState), command).Some?
      ensures handled ==> editorState == engine.handleKeyCommand(old(editorState), command).value
      ensures !handled ==> editorState == old(editorState)
    {
      var newState := engine.handleKeyCommand(editorState, command);
      if newState.Some? {
        OnChange(newState.value);
        return true;
      }
      return false;
    }

    /** toggleBlockType: the engine toggles the block type at the selection. */
    method ToggleBlockType(blockType: string)
      modifies this`editorState
      ensures editorState == engine.toggleBlockType(old(editorState), blockType)
    {
      OnChange(engine.toggleBlockType(editorState, blockType));
    }

    /** toggleInlineStyle: the engine toggles the inline style over the
      selection. */
    method ToggleInlineStyle(inlineStyle: string)
      modifies this`editorState
      ensures editorState == engine.toggleInlineStyle(old(editorState), inlineStyle)
    {
      OnChange(engine.toggleInlineStyle(editorState, inlineStyle));
    }

    /** setLink: create a mutable LINK entity for the url and attach it over
      the current selection, whatever that selection is. */
    method SetLink(urlValue: string)
      modifies this`editorState
      ensures var withEntity := engine.createEntity(old(editorState), Styling.LinkEntity(urlValue));
        editorState == engine.toggleLink(withEntity, engine.selection(withEntity),
                                         Some(engine.lastCreatedEntityKey(withEntity)))
    {
      var newEditorState := engine.createEntity(editorState, Styling.LinkEntity(urlValue));
      var entityKey := engine.lastCreatedEntityKey(newEditorState);
      OnChange(engine.toggleLink(newEditorState, engine.selection(newEditorState), Some(entityKey)));
    }

    /** unLink: detach links over a non-empty selection; a caret changes
      nothing. */
    method UnLink()
      modifies this`editorState
      ensures engine.selection(old(editorState)).IsCollapsed() ==> editorState == old(editorState)
      ensures !engine.selection(old(editorState)).IsCollapsed() ==>
        editorState == engine.toggleLink(old(editorState), engine.selection(old(editorState)), None)
    {
      var selection := engine.selection(editorState);
      if !selection.IsCollapsed() {
        OnChange(engine.toggleLink(editorState, selection, None));
      }
    }

    /** toHTML: serialise the current content with the component's three
      callbacks, keep the result and open the preview; the document is not
      touched. */
    method ToHTML()
      modifies this`htmlText, this`openShowHTML
      ensures htmlText == engine.convertToHTML(EXPORT_CONFIG, engine.currentContent(editorState))
      ensures openShowHTML
      ensures editorState == old(editorState)
    {
      var html := engine.convertToHTML(EXPORT_CONFIG, engine.currentContent(editorState));
      htmlText := html;
      openShowHTML := true;
    }

    /** The preview's onClose: close it, keeping the last export. */
    method CloseShowHTML()
      modifies this`openShowHTML
      ensures !openShowHTML
      ensures htmlText == old(htmlText)
    {
      openShowHTML := false;
    }
  }
}
