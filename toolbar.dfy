/** The two toolbars of the editor: the static button tables and the
    derivation of each button's `active` flag from the current document. */
module Toolbar {

  /** One toolbar entry: the icon name shown and the engine's style key. */
  datatype StyleEntry = StyleEntry(name: string, style: string)

  /** Block-type buttons, in display order. */
  const BLOCK_TYPES: seq<StyleEntry> := [
    StyleEntry("heading", "header-one"),
    StyleEntry("quote right", "blockquote"),
    StyleEntry("list ul", "unordered-list-item"),
    StyleEntry("list ol", "ordered-list-item"),
    StyleEntry("code", "code-block"),
    StyleEntry("align center", "CENTERED_BLOCK"),
    StyleEntry("align justify", "JUSTIFY_BLOCK"),
    StyleEntry("align left", "LEFT_BLOCK"),
    StyleEntry("align right", "RIGHT_BLOCK")
  ]

  /** Inline-style buttons, in display order. */
  const INLINE_STYLES: seq<StyleEntry> := [
    StyleEntry("bold", "BOLD"),
    StyleEntry("italic", "ITALIC"),
    StyleEntry("underline", "UNDERLINE"),
    StyleEntry("strikethrough", "lineThrough")
  ]

  /** The style keys of a table, in order. */
  function Styles(entries: seq<StyleEntry>): (keys: seq<string>)
  {
    seq(|entries|, i requires 0 <= i < |entries| => entries[i].style)
  }

  /** The icon names of a table, in order (React uses them as element keys). */
  function Names(entries: seq<StyleEntry>): (names: seq<string>)
  {
    seq(|entries|, i requires 0 <= i < |entries| => entries[i].name)
  }

  ghost predicate Distinct(s: seq<string>) {
    forall i, j :: 0 <= i < j < |s| ==> s[i] != s[j]
  }

  /** Number of raised flags. */
  function CountTrue(flags: seq<bool>): nat {
    if flags == [] then 0 else (if flags[0] then 1 else 0) + CountTrue(flags[1..])
  }

  /** `entries.map(type => type.style === blockType)`: the `active` flags of
      a row of block buttons when the selection starts in a block of type
      `blockType`. */
  function BlockFlags(entries: seq<StyleEntry>, blockType: string): (flags: seq<bool>)
    ensures |flags| == |entries|
    ensures forall i :: 0 <= i < |entries| ==> (flags[i] <==> entries[i].style == blockType)
  {
    if entries == [] then []
    else [entries[0].style == blockType] + BlockFlags(entries[1..], blockType)
  }

  /** `entries.map(type => currentStyle.has(type.style))`: the `active` flags
      of a row of inline buttons for the current inline-style set. */
  function InlineFlags(entries: seq<StyleEntry>, currentStyle: set<string>): (flags: seq<bool>)
    ensures |flags| == |entries|
    ensures forall i :: 0 <= i < |entries| ==> (flags[i] <==> entries[i].style in currentStyle)
  {
    if entries == [] then []
    else [entries[0].style in currentStyle] + InlineFlags(entries[1..], currentStyle)
  }

  /** BlockStyleControls: one flag per entry of BLOCK_TYPES. */
  function BlockStyleControls(blockType: string): (flags: seq<bool>)
    ensures |flags| == |BLOCK_TYPES|
    ensures forall i :: 0 <= i < |BLOCK_TYPES| ==> (flags[i] <==> BLOCK_TYPES[i].style == blockType)
  {
    BlockFlags(BLOCK_TYPES, blockType)
  }

  /** InlineStyleControls: one flag per entry of INLINE_STYLES. */
  function InlineStyleControls(currentStyle: set<string>): (flags: seq<bool>)
    ensures |flags| == |INLINE_STYLES|
    ensures forall i :: 0 <= i < |INLINE_STYLES| ==> (flags[i] <==> INLINE_STYLES[i].style in currentStyle)
  {
    InlineFlags(INLINE_STYLES, currentStyle)
  }

  /** The `active` flag of the link button: it asks for an inline style
      named "LINK". */
  function LinkButtonActive(currentStyle: set<string>): bool {
    "LINK" in currentStyle
  }

  /** The style keys, and the icon names, of BLOCK_TYPES are pairwise distinct. */
  lemma BlockTypesDistinct()
    ensures Distinct(Styles(BLOCK_TYPES))
    ensures Distinct(Names(BLOCK_TYPES))
  {
  }

  /** The style keys, and the icon names, of INLINE_STYLES are pairwise distinct. */
  lemma InlineStylesDistinct()
    ensures Distinct(Styles(INLINE_STYLES))
    ensures Distinct(Names(INLINE_STYLES))
  {
  }

  /** Over a table with distinct keys, exactly one flag is raised when the
      block type is in the table and none otherwise. */
  lemma {:induction false} BlockFlagsExclusive(entries: seq<StyleEntry>, blockType: string)
    requires Distinct(Styles(entries))
    ensures CountTrue(BlockFlags(entries, blockType)) == if blockType in Styles(entries) then 1 else 0
  {
    if entries != [] {
      var tail := entries[1..];
      assert Styles(entries) == [entries[0].style] + Styles(tail);
      assert Distinct(Styles(tail)) by {
        forall i, j | 0 <= i < j < |tail| ensures Styles(tail)[i] != Styles(tail)[j] {
          assert Styles(entries)[i + 1] != Styles(entries)[j + 1];
        }
      }
      BlockFlagsExclusive(tail, blockType);
      var flags := BlockFlags(entries, blockType);
      assert flags[1..] == BlockFlags(tail, blockType);
      if entries[0].style == blockType {
        assert blockType !in Styles(tail) by {
          forall j | 0 <= j < |tail| ensures Styles(tail)[j] != blockType {
            assert Styles(entries)[0] != Styles(entries)[j + 1];
          }
        }
      }
    }
  }

  /** At most one block button is active: exactly one when the current block
      type is one of the toolbar's, none otherwise. */
  lemma BlockControlsExclusive(blockType: string)
    ensures CountTrue(BlockStyleControls(blockType)) == if blockType in Styles(BLOCK_TYPES) then 1 else 0
    ensures CountTrue(BlockStyleControls(blockType)) <= 1
  {
    BlockTypesDistinct();
    BlockFlagsExclusive(BLOCK_TYPES, blockType);
  }

  /** The style keys of the entries whose wanted flag is raised. */
  function WantedStyles(entries: seq<StyleEntry>, wanted: seq<bool>): set<string>
    requires |wanted| == |entries|
  {
    set i | 0 <= i < |entries| && wanted[i] :: Styles(entries)[i]
  }

  /** Over a table with distinct keys, entry `k` is in the wanted set exactly
      when its own flag is raised. */
  lemma WantedStylesAt(entries: seq<StyleEntry>, wanted: seq<bool>, k: nat)
    requires Distinct(Styles(entries))
    requires |wanted| == |entries| && k < |entries|
    ensures entries[k].style in WantedStyles(entries, wanted) <==> wanted[k]
  {
    if entries[k].style in WantedStyles(entries, wanted) {
      var j :| 0 <= j < |entries| && wanted[j] && Styles(entries)[j] == entries[k].style;
      assert Styles(entries)[j] == Styles(entries)[k];
      assert j == k;
    }
  }

  /** Over a table with distinct keys, the wanted set holds the key of an
      entry exactly when that entry's flag is raised. */
  lemma WantedStylesExact(entries: seq<StyleEntry>, wanted: seq<bool>)
    requires Distinct(Styles(entries))
    requires |wanted| == |entries|
    ensures forall k :: 0 <= k < |entries| ==> (entries[k].style in WantedStyles(entries, wanted) <==> wanted[k])
  {
    forall k | 0 <= k < |entries| ensures entries[k].style in WantedStyles(entries, wanted) <==> wanted[k] {
      WantedStylesAt(entries, wanted, k);
    }
  }

  /** The inline flags are independent: any combination of the four inline
      buttons is active for some inline-style set, so several can be active
      at once. */
  lemma InlineControlsIndependent(wanted: seq<bool>)
    requires |wanted| == |INLINE_STYLES|
    ensures InlineStyleControls(WantedStyles(INLINE_STYLES, wanted)) == wanted
  {
    InlineStylesDistinct();
    WantedStylesExact(INLINE_STYLES, wanted);
  }

  /** The link button lights up only for an inline style called "LINK", and
      no inline button and no custom style key is called that: with only the
      styles this toolbar applies, the link icon stays disabled. */
  lemma LinkButtonNeverActiveForToolbarStyles(currentStyle: set<string>, customKeys: set<string>)
    requires "LINK" !in customKeys
    requires forall s :: s in currentStyle ==> s in Styles(INLINE_STYLES) || s in customKeys
    ensures !LinkButtonActive(currentStyle)
  {
    assert "LINK" !in Styles(INLINE_STYLES);
  }
}
