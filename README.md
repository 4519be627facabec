# Template designer editing state, in Dafny

This project models the editing state engine of the template designer
(`src/components/Designer/index.tsx`). The designer keeps a list of pages.
Each page is an ordered list of schemas (fields). A schema has an id, a key,
a type, a payload (`data`), a position, a width and a height. On top of that
list the designer keeps:

- the current page (`pageCursor`);
- two history stacks, `past` and `future`;
- a clipboard (`copiedSchemas`);
- the selection (the ids of the active schemas).

Every edit goes through `commitSchemas`. It empties `future`, pushes the
current page onto `past` and replaces only the current page.

The project has these modules:

- `Schemas` (`schemas.dfy`): the values.
  - Coordinates and sizes are integer hundredths of the page unit. Rounding to
    two decimals is then the identity, and every clamp is exact.
  - The attribute paths of an edit triple (`position.x`, `position.y`, `width`,
    `height`, `type`, `data`, `key`) are a closed `Edit` datatype.
- `Mutation` (`mutation.dfy`): `changeSchemas`. It folds the edit triples over
  the current page. Setting `type` also resets `data`, and recomputes `height`
  when the type is neither text nor image.
- `Nudge` (`nudge.dfy`): `moveCommandToChangeSchemasArg`. It turns an arrow
  key into one clamped coordinate edit per active schema.
- `Lifecycle` (`lifecycle.dfy`): the list computations.
  - Selection and removal by id are filters.
  - Reordering is `arrayMove`.
  - It also builds the schema that `addSchema` appends.
- `Clipboard` (`clipboard.dfy`): the copies that paste appends.
- `EditorStates` (`editor_state.dfy`): the whole editing state as a datatype.
  - Each handler is a function on that state.
  - Lemmas state what sequences of handlers do: undo/redo round trips, undo
    after commit, redo after commit, the history shared by all pages, the
    effect of move, paste and remove.
- `Designer` (`designer.dfy`): the `Editor` class.
  - Its fields are the editor state.
  - Each handler is a method whose `ensures` ties the new `State()` to the
    matching `EditorStates` function of the old state.
  - The fold of `changeSchemas` and the `map` of paste are loops with
    invariants.

The library helpers whose bodies are outside this model are function fields
of a `Helpers` value:

- `getSampleByType`
- `getKeepRatioHeightByWidth`
- `getUniqSchemaKey`

Other inputs are parameters:

- The ids produced by `uuid` come in as a `freshIds` sequence.
- The schema produced by `getInitialSchema` comes in as `initial`.
- The translated word for "field" comes in as `fieldLabel`.
- The page's on-screen top comes in as `rectTop`.
- Page sizes come in as a `pageSize` argument.

`getUniqSchemaKey` is modelled as a function of three things: the copied key,
the page, and the keys generated earlier in the same paste. In other words,
the helper is taken to push each key it returns onto `stackUniqSchemaKeys`.
Its body is not part of this model.

### Behaviour of the code worth knowing

- **History scope.** index.tsx keeps one `past`/`future` pair for the whole
  editor (index.tsx:74-75), so undo writes the popped snapshot into
  whichever page is current (index.tsx:169).
  - `EditorStates.HistoryIsEditorWide` states the result:
    commit on one page, scroll to another, undo, and the first page's earlier
    list lands in the second page.
  - Neither a page change nor a template reload clears the stacks
    (index.tsx:108-111, 228-236).
- **Edit targets.** `changeSchemas` asserts with the non-null `!` on
  `find(...)` (index.tsx:139) that every id it is given is on the current
  page; the model makes that a precondition (`Mutation.Targets`).
- **Key of an added field.** The key of an added field is the label followed
  by the page's schema count plus one (index.tsx:254), and that key need not
  be unique. `EditorStates.AddedKeyCanRepeat` exhibits a repeat.
- **Move with nothing selected.** A move still commits. It pushes an
  unchanged snapshot and empties `future`
  (`EditorStates.MoveWithoutSelectionCommits`).

## Model

| member | source | states |
|---|---|---|
| `Schemas.FindIndex` | src/components/Designer/index.tsx:139 | the index found holds the id, and no earlier schema holds it (the first match of `find`) |
| `Mutation.Retyped` | src/components/Designer/index.tsx:142-149 | setting `type` sets the type; `data` becomes "text" for text, otherwise the type's sample; `height` becomes the ratio height of the current width unless the type is text or image; nothing else changes |
| `Mutation.ApplyEdit` | src/components/Designer/index.tsx:141 | the addressed attribute (x, y, width, height, data or key) takes the value and nothing else changes; setting `type` is exactly `Retyped`; the id never changes |
| `Mutation.ApplyChange` | src/components/Designer/index.tsx:139-149 | one triple edits the first schema with its id, leaves every other schema and the id sequence as they were |
| `Mutation.ApplyChanges` | src/components/Designer/index.tsx:138-152 | the fold keeps the page's length and its sequence of ids |
| `Mutation.ApplyChangesAppend` | src/components/Designer/index.tsx:138-152 | applying `a + b` is applying `b` to the result of `a`: triples act in input order and later ones see earlier effects |
| `Mutation.ApplyChangesUntouched` | src/components/Designer/index.tsx:138-152 | a schema whose id no triple names is unchanged |
| `Mutation.ApplyDistinctChanges` | src/components/Designer/index.tsx:138-152 | on a page of unique ids, triples for distinct ids each edit their own schema from its state before the call |
| `Mutation.TypeAndWidthOrder` | src/components/Designer/index.tsx:142-148 | width then type gives the ratio height of the new width; type then width gives the ratio height of the old width |
| `Nudge.Stepped` | src/components/Designer/index.tsx:31-52 | the stepped coordinate is the command's coordinate plus the step for down/right, minus it for up/left |
| `Nudge.MoveValue` | src/components/Designer/index.tsx:31-61 | the new coordinate is at most page extent minus schema extent; it equals that bound when the coordinate plus or minus the step (0.1 with shift, 1 without) passes it, and equals the stepped coordinate otherwise |
| `Nudge.MoveCommandToChangeSchemasArg` | src/components/Designer/index.tsx:21-65 | one triple per active schema, same ids in the same order; `position.y` for up/down, `position.x` for left/right; each value is the clamped step of that schema |
| `Nudge.MoveEdit` | src/components/Designer/index.tsx:63 | the triple's edit sets `position.y` exactly for up/down, otherwise `position.x`, to a value within the page's far edge |
| `Nudge.MoveEditEffect` | src/components/Designer/index.tsx:54-63 | applying a nudge changes only the coordinate on the command's axis |
| `Nudge.NudgedOnce` | src/components/Designer/index.tsx:174-178 | one key press on a single active schema, through the edit pipeline, applies that schema's nudge edit |
| `Nudge.RepeatedForwardMove` | src/components/Designer/index.tsx:57-61 | after n >= 1 down/right presses the coordinate is min(start + n * step, bound), so repeated presses converge to the bound and stay there |
| `Nudge.RepeatedBackwardMove` | src/components/Designer/index.tsx:35-60 | for any start and n >= 1 up/left presses, the coordinate is min(start - step, limit) - (n - 1) * step: only the first press can be clamped, and only from above, so coordinates can become negative |
| `Nudge.BackwardMoveWithinLimit` | src/components/Designer/index.tsx:35-43 | from a coordinate within the limit (page extent minus schema extent), n up/left presses subtract exactly n steps |
| `Lifecycle.FilterById` | src/components/Designer/index.tsx:130 | a filter never makes the list longer |
| `Lifecycle.FilterByIdExact` | src/components/Designer/index.tsx:128-134 | a schema is kept exactly when it is on the page and its id test passes, as many times as it occurs |
| `Lifecycle.FilterByIdAppend` | src/components/Designer/index.tsx:128-134 | filtering distributes over concatenation: kept schemas keep their relative order |
| `Lifecycle.FilterByIdUnique` | src/components/Designer/index.tsx:159-163 | a filtered page of unique ids has unique ids |
| `Lifecycle.FilterByIdSameTest` | src/components/Designer/index.tsx:162 | two id lists that agree on the page's schemas filter alike |
| `Lifecycle.RemoveSelected` | src/components/Designer/index.tsx:209 | removing the ids of the selected schemas equals removing the selected ids |
| `Lifecycle.ArrayMove` | src/components/Designer/index.tsx:259-262 | same length; the element from `oldIndex` is at `newIndex`; removing those positions gives equal lists (others keep their order); same multiset |
| `Lifecycle.ArrayMoveOrigin` | src/components/Designer/index.tsx:260 | each position after the move holds the element from its position under `Origin` |
| `Lifecycle.OriginInjective` | src/components/Designer/index.tsx:260 | distinct positions after a move come from distinct positions before it |
| `Lifecycle.ArrayMoveUnique` | src/components/Designer/index.tsx:259-262 | reordering keeps ids unique |
| `Lifecycle.NatToString` | src/components/Designer/index.tsx:254 | the count is spelled with at least one decimal digit, digits only, and no leading zero (a positive count does not start with 0) |
| `Lifecycle.NatToStringRoundTrip` | src/components/Designer/index.tsx:254 | reading the spelled count back gives the count |
| `Lifecycle.AddedSchema` | src/components/Designer/index.tsx:248-254 | y is 0 when the page top is in view, else half the page height; data is "text"; the key is exactly the label followed by the spelled count plus one; nothing else of the initial schema changes |
| `Clipboard.PastedPosition` | src/components/Designer/index.tsx:193-198 | each axis is the original plus 10 when that stays within page extent minus schema extent, and exactly that bound otherwise; never beyond it |
| `Clipboard.PastedSchema` | src/components/Designer/index.tsx:193-200 | a copy takes the given id and key, sits within the page's far edges, and keeps everything else of the clipboard entry |
| `Clipboard.PasteSchemas` | src/components/Designer/index.tsx:189-201 | one copy per clipboard entry |
| `Clipboard.PasteSchemasContents` | src/components/Designer/index.tsx:189-201 | copy i has fresh id i, the key generated from the page and the keys generated before it, and the type, data, width and height of entry i at the clamped offset position |
| `Clipboard.PastedKeysFresh` | src/components/Designer/index.tsx:189-192 | if the key generator avoids the page's keys and the keys already generated, pasted keys are new and pairwise distinct |
| `Clipboard.PasteKeepsIdsUnique` | src/components/Designer/index.tsx:191 | with distinct fresh ids not on the page, the page after paste has unique ids |
| `Clipboard.PasteTwice` | src/components/Designer/index.tsx:195-198 | pasting the pasted copies moves them by 20 in all, still clamped: repeated paste shifts progressively |
| `EditorStates.Commit` | src/components/Designer/index.tsx:116-124 | `future` empty; `past` grows by one with the pre-commit page on top; only the current page changes, to the new list; clipboard and selection kept |
| `EditorStates.TimeTravel` | src/components/Designer/index.tsx:164-172 | no-op when the popped stack is empty; otherwise exactly one snapshot is popped from the stack's top and becomes the current page, the old current page is pushed onto the other stack, the selection is cleared, other pages and the clipboard are kept |
| `EditorStates.UndoThenRedo` | src/components/Designer/index.tsx:164-172 | undo then redo restores the pages and both stacks exactly (selection cleared) |
| `EditorStates.RedoThenUndo` | src/components/Designer/index.tsx:164-172 | redo then undo restores the pages and both stacks exactly (selection cleared) |
| `EditorStates.UndoAfterCommit` | src/components/Designer/index.tsx:116-172 | one undo after a commit restores every page and `past`; `future` holds the committed page |
| `EditorStates.RedoAfterCommitIsNoOp` | src/components/Designer/index.tsx:116-172 | after any commit, redo changes nothing |
| `EditorStates.ChangePageCursor` | src/components/Designer/index.tsx:108-111 | a page change sets the cursor, clears the selection and keeps the pages, both stacks and the clipboard |
| `EditorStates.HistoryIsEditorWide` | src/components/Designer/index.tsx:164-172 | commit on one page, move to another, undo: the first page's earlier list is written into the second page |
| `EditorStates.UpdateTemplate` | src/components/Designer/index.tsx:228-236 | a reload replaces the page list with the given one, sets the cursor to 0 (showing the new first page), clears the selection, and keeps both stacks and the clipboard |
| `EditorStates.ActiveSchemas` | src/components/Designer/index.tsx:159-163 | the active schemas are the current page filtered by the selected ids, in page order; a schema is active exactly when it is on the current page and its id is selected |
| `EditorStates.ActiveSchemasOnPage` | src/components/Designer/index.tsx:159-163 | every active schema is on the current page, so its id can be found |
| `EditorStates.RemoveSchemas` | src/components/Designer/index.tsx:128-134 | one commit whose page is the old page filtered to the ids not given (order kept); the selection is cleared; other pages, the cursor and the clipboard are kept (membership and undo in `RemoveThenUndo`) |
| `EditorStates.RemoveThenUndo` | src/components/Designer/index.tsx:128-134 | after removal a schema is on the page iff it was there and its id was not given; one undo restores all pages and `past` |
| `EditorStates.RemoveActive` | src/components/Designer/index.tsx:209 | one commit that never lengthens the page; the selection is cleared; other pages are kept |
| `EditorStates.RemoveActiveIsRemoveSelected` | src/components/Designer/index.tsx:209 | the `remove` handler equals removing the selected ids |
| `EditorStates.ChangeSchemas` | src/components/Designer/index.tsx:136-156 | one commit whose page is the fold of the triples over the old page (so the same length and ids in the same order); other pages, the cursor, the selection and the clipboard are kept (the edits themselves are the `Mutation` rows) |
| `EditorStates.Move` | src/components/Designer/index.tsx:174-179 | one commit whose page has the old length and ids; other pages, the cursor, the selection and the clipboard are kept (per-schema effect in `MoveEffect`) |
| `EditorStates.MoveEffect` | src/components/Designer/index.tsx:174-179 | on a page of unique ids, one commit in which each selected schema gets its own nudge and every other schema is unchanged |
| `EditorStates.MoveWithoutSelectionCommits` | src/components/Designer/index.tsx:174-179 | with nothing selected a move commits the unchanged page |
| `EditorStates.Copy` | src/components/Designer/index.tsx:181-185 | no-op with an empty selection; otherwise only the clipboard changes, to the active schemas |
| `EditorStates.Paste` | src/components/Designer/index.tsx:186-205 | no-op with a null or empty clipboard; otherwise one commit that lengthens the page by the clipboard's size and selects the fresh ids; the cursor and page count are kept (contents in `PasteEffect`) |
| `EditorStates.PasteEffect` | src/components/Designer/index.tsx:186-205 | no-op with a null or empty clipboard; else one commit, cursor kept, whose page is the old page followed by exactly the copies `PasteSchemas` builds (generated keys, clamped positions, type, data and size kept); the copies become the selection and the clipboard |
| `EditorStates.AddSchema` | src/components/Designer/index.tsx:248-257 | one commit (redo stack emptied) appending exactly one schema, the one `AddedSchema` builds from the page's count, at the end; the new schema is selected; other pages, cursor and clipboard are kept |
| `EditorStates.AddedKeyCanRepeat` | src/components/Designer/index.tsx:254 | adding to a page whose one schema has key "field2" yields a second "field2" |
| `EditorStates.OnSortEnd` | src/components/Designer/index.tsx:259-262 | one commit (`future` emptied, the old page pushed onto `past`) whose page is a permutation of the old one, with the moved schema at `newIndex` and the others in order; cursor, other pages, selection and clipboard kept; one undo restores the pages |
| `Designer.Editor.constructor` | src/components/Designer/index.tsx:73-91 | one empty page, cursor 0, empty stacks, empty clipboard and selection |
| `Designer.Editor.CommitSchemas` | src/components/Designer/index.tsx:116-124 | the new state is `Commit` of the old |
| `Designer.Editor.RemoveSchemas` | src/components/Designer/index.tsx:128-134 | the new state is `RemoveSchemas` of the old |
| `Designer.Editor.ChangeSchemas` | src/components/Designer/index.tsx:136-156 | the loop over the triples commits `ApplyChanges` of the current page |
| `Designer.Editor.TimeTravel` | src/components/Designer/index.tsx:164-172 | the new state is `TimeTravel` of the old |
| `Designer.Editor.Move` | src/components/Designer/index.tsx:174-179 | the new state is `Move` of the old |
| `Designer.Editor.Copy` | src/components/Designer/index.tsx:181-185 | the new state is `Copy` of the old |
| `Designer.Editor.Paste` | src/components/Designer/index.tsx:186-205 | the new state is `Paste` of the old |
| `Designer.MapPasteSchemas` | src/components/Designer/index.tsx:189-201 | the loop with its key stack computes `PasteSchemas` |
| `Designer.Editor.Remove` | src/components/Designer/index.tsx:209 | the new state is `RemoveActive` of the old |
| `Designer.Editor.OnEdit` | src/components/Designer/index.tsx:93-96 | only the selection changes, to the given ids |
| `Designer.Editor.OnEditEnd` | src/components/Designer/index.tsx:98-101 | only the selection changes, to empty |
| `Designer.Editor.OnChangePageCursor` | src/components/Designer/index.tsx:108-111 | the new state is `ChangePageCursor` of the old |
| `Designer.Editor.UpdateTemplate` | src/components/Designer/index.tsx:228-236 | the new state is `UpdateTemplate` of the old |
| `Designer.Editor.AddSchema` | src/components/Designer/index.tsx:248-257 | the new state is `AddSchema` of the old |
| `Designer.Editor.OnSortEnd` | src/components/Designer/index.tsx:259-262 | the new state is `OnSortEnd` of the old |

## Left out

- `packages/ui/src/components/Root.tsx` is not part of this model. It does font loading and layout only.
- Rendering is not modelled: `Sidebar`, `Main`, `Error`, the hovering schema id and scrolling.
- `useUIPreProcessor` and `useScrollPageCursor` are not modelled. Page sizes and the new page index are inputs.
- Shortcut binding (`initShortCuts`, `destroyShortCuts`) is not modelled. The handlers are methods.
- DOM lookups are not modelled. The selection is a sequence of ids, and `rectTop` is a parameter.
- The `save` handler and the `onChangeTemplate` and `onSaveTemplate` callbacks are not modelled. They notify outside code and change no state.
- `fmtTemplate` is not modelled. It only builds those notifications.
- The asynchronous `templateSchemas2SchemasList` is not modelled. `UpdateTemplate` receives its result.
- React's asynchronous state updates are not modelled. Each handler is one atomic update.
- Floating point is not modelled. Coordinates are integer hundredths.
- The bodies of `uuid`, `getUniqSchemaKey`, `getSampleByType`, `getKeepRatioHeightByWidth`, `getInitialSchema` and `i18n` are not part of this model. `arrayMove` is modelled as remove-then-insert.
- `cloneDeep` needs no model: the model's values are immutable, so no snapshot can alias live state.
- `EditorStates.AddSchema`: the selection of the new schema, which `addSchema` defers with `setTimeout` (index.tsx:256), is taken as part of the same update.
- `getLastActiveSchema` is not modelled. It only picks what the sidebar shows.
- `Lifecycle.AddedSchema`: `pageSize.height / 2` is integer division on hundredths, so an odd height loses half a hundredth.
- `Mutation.ApplyChanges`: `set` with an arbitrary path string is not modelled. Only the seven attribute paths the designer uses are, so a triple cannot change `id`.
