/** The designer's editing state as a value, and what each handler does to
    it. The `Editor` class in module Designer performs these same
    transitions by updating its fields; the lemmas here state what sequences
    of them do. */
module EditorStates {
  import opened Schemas
  import opened Mutation
  import opened Nudge
  import opened Lifecycle
  import opened Clipboard

  /** The page list, the current page, the two history stacks (shared by all
      pages), the clipboard and the ids of the selected schemas. */
  datatype EditorState = EditorState(
    schemasList: seq<seq<Schema>>,
    pageCursor: nat,
    past: seq<seq<Schema>>,
    future: seq<seq<Schema>>,
    copiedSchemas: Option<seq<Schema>>,
    activeIds: seq<Id>)
  {
    predicate Valid()
    {
      pageCursor < |schemasList|
    }

    function CurrentPage(): seq<Schema>
      requires Valid()
    {
      schemasList[pageCursor]
    }
  }

  /** Right after mounting: one empty page, empty history, empty clipboard. */
  const Initial: EditorState := EditorState([[]], 0, [], [], None, [])

  predicate OtherPagesUnchanged(st: EditorState, r: EditorState)
    requires st.Valid()
  {
    |r.schemasList| == |st.schemasList| &&
    forall p :: 0 <= p < |st.schemasList| && p != st.pageCursor ==>
      r.schemasList[p] == st.schemasList[p]
  }

  /** `commitSchemas`: the redo stack is emptied, the current page is pushed
      onto the undo stack, and only the current page is replaced. */
  function Commit(st: EditorState, newSchemas: seq<Schema>): (r: EditorState)
    requires st.Valid()
    ensures r.Valid() && r.pageCursor == st.pageCursor && r.CurrentPage() == newSchemas
    ensures OtherPagesUnchanged(st, r)
    ensures r.future == []
    ensures |r.past| == |st.past| + 1 && r.past[..|st.past|] == st.past
    ensures r.past[|st.past|] == st.CurrentPage()
    ensures r.copiedSchemas == st.copiedSchemas && r.activeIds == st.activeIds
  {
    assert (st.past + [st.CurrentPage()])[..|st.past|] == st.past;
    st.(future := [],
        past := st.past + [st.CurrentPage()],
        schemasList := st.schemasList[st.pageCursor := newSchemas])
  }

  /** `timeTavel`: nothing happens when the stack to pop is empty; otherwise
      the current page goes on top of the other stack, the popped snapshot
      becomes the current page (whatever page that is) and the selection is
      cleared. The total depth of the two stacks is kept. */
  function TimeTravel(st: EditorState, isUndo: bool): (r: EditorState)
    requires st.Valid()
    ensures r.Valid() && r.pageCursor == st.pageCursor && OtherPagesUnchanged(st, r)
    ensures r.copiedSchemas == st.copiedSchemas
    ensures |r.past| + |r.future| == |st.past| + |st.future|
    ensures var from := if isUndo then st.past else st.future;
            |from| > 0 ==>
              (isUndo ==> r.past == st.past[..|st.past| - 1] && r.future == st.future + [st.CurrentPage()]) &&
              (!isUndo ==> r.future == st.future[..|st.future| - 1] && r.past == st.past + [st.CurrentPage()])
    ensures var from := if isUndo then st.past else st.future;
            var to := if isUndo then r.future else r.past;
            if |from| == 0 then r == st
            else
              r.CurrentPage() == from[|from| - 1] && r.activeIds == [] &&
              |to| > 0 && to[|to| - 1] == st.CurrentPage()
  {
    var stack := if isUndo then st.past else st.future;
    if |stack| <= 0 then st
    else
      var other := (if isUndo then st.future else st.past) + [st.CurrentPage()];
      var list := st.schemasList[st.pageCursor := stack[|stack| - 1]];
      var rest := stack[..|stack| - 1];
      if isUndo then st.(future := other, past := rest, schemasList := list, activeIds := [])
      else st.(past := other, future := rest, schemasList := list, activeIds := [])
  }

  /** Undo followed by redo gives back the state before the undo, except
      that the selection is cleared. */
  lemma UndoThenRedo(st: EditorState)
    requires st.Valid() && |st.past| > 0
    ensures TimeTravel(TimeTravel(st, true), false) == st.(activeIds := [])
  {
  }

  /** Redo followed by undo gives back the state before the redo, except
      that the selection is cleared. */
  lemma RedoThenUndo(st: EditorState)
    requires st.Valid() && |st.future| > 0
    ensures TimeTravel(TimeTravel(st, false), true) == st.(activeIds := [])
  {
  }

  /** One undo after a commit restores every page and the undo stack; the
      committed page is what redo would bring back. */
  lemma UndoAfterCommit(st: EditorState, newSchemas: seq<Schema>)
    requires st.Valid()
    ensures TimeTravel(Commit(st, newSchemas), true) == st.(future := [newSchemas], activeIds := [])
  {
  }

  /** A commit empties the redo stack, so redo right after it (for instance
      after edit, undo, edit) does nothing. */
  lemma RedoAfterCommitIsNoOp(st: EditorState, newSchemas: seq<Schema>)
    requires st.Valid()
    ensures TimeTravel(Commit(st, newSchemas), false) == Commit(st, newSchemas)
  {
  }

  /** The page change triggered by scrolling: the selection is cleared, the
      history stacks are kept. */
  function ChangePageCursor(st: EditorState, p: nat): (r: EditorState)
    requires p < |st.schemasList|
    ensures r.Valid() && r.pageCursor == p && r.activeIds == []
    ensures r.schemasList == st.schemasList && r.past == st.past && r.future == st.future
    ensures r.copiedSchemas == st.copiedSchemas
  {
    st.(pageCursor := p, activeIds := [])
  }

  /** The history is one stack for the whole editor, not one per page:
      after a commit on one page and a scroll to another, undo writes the
      first page's earlier list into the second page and leaves the first
      page as committed. */
  lemma HistoryIsEditorWide(st: EditorState, newSchemas: seq<Schema>, p: nat)
    requires st.Valid() && p < |st.schemasList| && p != st.pageCursor
    ensures var r := TimeTravel(ChangePageCursor(Commit(st, newSchemas), p), true);
            r.schemasList[p] == st.CurrentPage() &&
            r.schemasList[st.pageCursor] == newSchemas &&
            r.future == [st.schemasList[p]]
  {
  }

  /** A template reload replaces the pages and goes back to the first page;
      it keeps both history stacks and the clipboard. */
  function UpdateTemplate(st: EditorState, schemasList: seq<seq<Schema>>): (r: EditorState)
    requires |schemasList| > 0
    ensures r.Valid() && r.CurrentPage() == schemasList[0]
    ensures r.schemasList == schemasList && r.pageCursor == 0 && r.activeIds == []
    ensures r.past == st.past && r.future == st.future && r.copiedSchemas == st.copiedSchemas
  {
    st.(schemasList := schemasList, pageCursor := 0, activeIds := [])
  }

  /** `getActiveSchemas`: the current page's schemas whose id is selected,
      in page order. */
  function ActiveSchemas(st: EditorState): (r: seq<Schema>)
    requires st.Valid()
    ensures r == FilterById(st.CurrentPage(), st.activeIds, true)
    ensures |r| <= |st.CurrentPage()|
    ensures forall s :: s in r <==> s in st.CurrentPage() && s.id in st.activeIds
  {
    FilterByIdMembers(st.CurrentPage(), st.activeIds, true);
    FilterById(st.CurrentPage(), st.activeIds, true)
  }

  /** The active schemas are on the current page, so edits addressed to
      them find their target. */
  lemma ActiveSchemasOnPage(st: EditorState)
    requires st.Valid()
    ensures forall s :: s in ActiveSchemas(st) ==> s in st.CurrentPage() && s.id in Ids(st.CurrentPage())
  {
    forall s | s in ActiveSchemas(st)
      ensures s in st.CurrentPage() && s.id in Ids(st.CurrentPage())
    {
      FilterByIdExact(st.CurrentPage(), st.activeIds, true, s);
      var m :| 0 <= m < |st.CurrentPage()| && st.CurrentPage()[m] == s;
      assert Ids(st.CurrentPage())[m] == s.id;
    }
  }

  /** `removeSchemas`: filter the ids out in one commit, then clear the
      selection. */
  function RemoveSchemas(st: EditorState, ids: seq<Id>): (r: EditorState)
    requires st.Valid()
    ensures r.Valid() && r.pageCursor == st.pageCursor && OtherPagesUnchanged(st, r)
    ensures r.CurrentPage() == FilterById(st.CurrentPage(), ids, false)
    ensures r.past == st.past + [st.CurrentPage()] && r.future == [] && r.activeIds == []
    ensures r.copiedSchemas == st.copiedSchemas
  {
    Commit(st, FilterById(st.CurrentPage(), ids, false)).(activeIds := [])
  }

  /** After a removal the current page holds exactly the schemas whose id
      was not given, and one undo brings the earlier list back. */
  lemma RemoveThenUndo(st: EditorState, ids: seq<Id>, s: Schema)
    requires st.Valid()
    ensures var r := RemoveSchemas(st, ids);
            (s in r.CurrentPage() <==> s in st.CurrentPage() && s.id !in ids) &&
            TimeTravel(r, true).schemasList == st.schemasList &&
            TimeTravel(r, true).past == st.past
  {
    FilterByIdExact(st.CurrentPage(), ids, false, s);
    UndoAfterCommit(st, FilterById(st.CurrentPage(), ids, false));
  }

  /** The `remove` handler: remove the selected schemas. */
  function RemoveActive(st: EditorState): (r: EditorState)
    requires st.Valid()
    ensures r.Valid() && OtherPagesUnchanged(st, r)
    ensures |r.CurrentPage()| <= |st.CurrentPage()|
    ensures r.past == st.past + [st.CurrentPage()] && r.future == [] && r.activeIds == []
  {
    RemoveSchemas(st, Ids(ActiveSchemas(st)))
  }

  /** Removing the selection is removing the selected ids. */
  lemma RemoveActiveIsRemoveSelected(st: EditorState)
    requires st.Valid()
    ensures RemoveActive(st) == RemoveSchemas(st, st.activeIds)
  {
    RemoveSelected(st.CurrentPage(), st.activeIds);
  }

  /** `changeSchemas`: fold the triples over the current page, commit once. */
  function ChangeSchemas(st: EditorState, objs: seq<Change>, h: Helpers): (r: EditorState)
    requires st.Valid() && Targets(st.CurrentPage(), objs)
    ensures r.Valid() && r.pageCursor == st.pageCursor && OtherPagesUnchanged(st, r)
    ensures r.CurrentPage() == ApplyChanges(st.CurrentPage(), objs, h)
    ensures |r.CurrentPage()| == |st.CurrentPage()| && Ids(r.CurrentPage()) == Ids(st.CurrentPage())
    ensures r.past == st.past + [st.CurrentPage()] && r.future == []
    ensures r.activeIds == st.activeIds && r.copiedSchemas == st.copiedSchemas
  {
    Commit(st, ApplyChanges(st.CurrentPage(), objs, h))
  }

  /** The `move` handler: nudge the active schemas through `changeSchemas`. */
  function Move(st: EditorState, command: Command, isShift: bool, pageSize: Size, h: Helpers): (r: EditorState)
    requires st.Valid()
    ensures r.Valid() && OtherPagesUnchanged(st, r)
    ensures |r.CurrentPage()| == |st.CurrentPage()| && Ids(r.CurrentPage()) == Ids(st.CurrentPage())
    ensures r.past == st.past + [st.CurrentPage()] && r.future == [] && r.activeIds == st.activeIds
    ensures r.pageCursor == st.pageCursor && r.copiedSchemas == st.copiedSchemas
  {
    var arg := MoveCommandToChangeSchemasArg(command, ActiveSchemas(st), isShift, pageSize);
    ActiveSchemasOnPage(st);
    ChangeSchemas(st, arg, h)
  }

  /** On a page of unique ids, a move nudges every selected schema from its
      own position and leaves the others as they were, in one commit. */
  lemma MoveEffect(st: EditorState, command: Command, isShift: bool, pageSize: Size, h: Helpers, j: nat)
    requires st.Valid() && UniqueIds(st.CurrentPage()) && j < |st.CurrentPage()|
    ensures var page := st.CurrentPage();
            var r := Move(st, command, isShift, pageSize, h);
            |r.CurrentPage()| == |page| &&
            r.past == st.past + [page] && r.future == [] &&
            r.CurrentPage()[j] ==
              if page[j].id in st.activeIds
              then ApplyEdit(page[j], MoveEdit(command, isShift, page[j], pageSize), h)
              else page[j]
  {
    var page := st.CurrentPage();
    var active := ActiveSchemas(st);
    var arg := MoveCommandToChangeSchemasArg(command, active, isShift, pageSize);
    ActiveSchemasOnPage(st);
    FilterByIdUnique(page, st.activeIds, true);
    assert Targets(page, arg);
    assert (st.past + [page])[..|st.past|] == st.past;
    FilterByIdExact(page, st.activeIds, true, page[j]);
    if page[j].id in st.activeIds {
      var k :| 0 <= k < |active| && active[k] == page[j];
      ApplyDistinctChanges(page, arg, h, k);
      FindIndexUnique(page, j);
    } else {
      forall k | 0 <= k < |arg| ensures arg[k].schemaId != page[j].id {
        assert active[k] in page;
        var m :| 0 <= m < |page| && page[m] == active[k];
        FilterByIdExact(page, st.activeIds, true, active[k]);
      }
      ApplyChangesUntouched(page, arg, h, j);
    }
  }

  /** With nothing selected a move changes no schema, yet it still pushes
      a snapshot and empties the redo stack. */
  lemma MoveWithoutSelectionCommits(st: EditorState, command: Command, isShift: bool,
                                    pageSize: Size, h: Helpers)
    requires st.Valid() && ActiveSchemas(st) == []
    ensures Move(st, command, isShift, pageSize, h) == Commit(st, st.CurrentPage())
  {
  }

  /** The `copy` handler: with a non-empty selection, the clipboard takes the
      active schemas; otherwise nothing happens. */
  function Copy(st: EditorState): (r: EditorState)
    requires st.Valid()
    ensures r.schemasList == st.schemasList && r.past == st.past && r.future == st.future
    ensures ActiveSchemas(st) == [] ==> r == st
    ensures ActiveSchemas(st) != [] ==> r == st.(copiedSchemas := Some(ActiveSchemas(st)))
  {
    var active := ActiveSchemas(st);
    if |active| == 0 then st else st.(copiedSchemas := Some(active))
  }

  predicate ClipboardFilled(st: EditorState)
  {
    st.copiedSchemas.Some? && |st.copiedSchemas.value| > 0
  }

  /** The `paste` handler. */
  function Paste(st: EditorState, pageSize: Size, freshIds: seq<Id>, h: Helpers): (r: EditorState)
    requires st.Valid()
    requires ClipboardFilled(st) ==> |freshIds| == |st.copiedSchemas.value|
    ensures r.Valid() && |r.schemasList| == |st.schemasList| && r.pageCursor == st.pageCursor
    ensures !ClipboardFilled(st) ==> r == st
    ensures ClipboardFilled(st) ==>
              |r.CurrentPage()| == |st.CurrentPage()| + |st.copiedSchemas.value| &&
              r.past == st.past + [st.CurrentPage()] && r.future == [] && r.activeIds == freshIds
  {
    if !ClipboardFilled(st) then st
    else
      var pasted := PasteSchemas(st.copiedSchemas.value, st.CurrentPage(), pageSize, freshIds, h);
      Commit(st, st.CurrentPage() + pasted).(activeIds := freshIds, copiedSchemas := Some(pasted))
  }

  /** Paste does nothing with an empty clipboard. Otherwise it commits once;
      the new page is the old one followed by one copy per clipboard entry,
      each moved by the paste offset and clamped, with its type, payload and
      size; the copies become the selection and the new clipboard. */
  lemma PasteEffect(st: EditorState, pageSize: Size, freshIds: seq<Id>, h: Helpers)
    requires st.Valid()
    requires ClipboardFilled(st) ==> |freshIds| == |st.copiedSchemas.value|
    ensures var r := Paste(st, pageSize, freshIds, h);
            if !ClipboardFilled(st) then r == st
            else
              var copied := st.copiedSchemas.value;
              var page := st.CurrentPage();
              var n := |page|;
              |r.CurrentPage()| == n + |copied| &&
              r.pageCursor == st.pageCursor &&
              r.CurrentPage()[..n] == page &&
              r.CurrentPage()[n..] == PasteSchemas(copied, page, pageSize, freshIds, h) &&
              r.copiedSchemas == Some(r.CurrentPage()[n..]) &&
              r.activeIds == Ids(r.CurrentPage()[n..]) &&
              r.past == st.past + [page] && r.future == [] &&
              OtherPagesUnchanged(st, r) &&
              forall i :: 0 <= i < |copied| ==>
                var c := r.CurrentPage()[n + i];
                c.schemaType == copied[i].schemaType && c.data == copied[i].data &&
                c.width == copied[i].width && c.height == copied[i].height &&
                c.position.x <= pageSize.width - c.width &&
                c.position.y <= pageSize.height - c.height &&
                c.position == PastedPosition(copied[i].position, copied[i].width,
                                             copied[i].height, pageSize)
  {
    if ClipboardFilled(st) {
      var page := st.CurrentPage();
      var pasted := PasteSchemas(st.copiedSchemas.value, page, pageSize, freshIds, h);
      PasteSchemasContents(st.copiedSchemas.value, page, pageSize, freshIds, h);
      var r := Paste(st, pageSize, freshIds, h);
      assert r.CurrentPage() == page + pasted;
      assert r.CurrentPage()[..|page|] == page;
      assert r.CurrentPage()[|page|..] == pasted;
      assert r.past == st.past + [page];
      assert OtherPagesUnchanged(st, r);
    }
  }

  /** `addSchema`: append the new schema in one commit and select it. */
  function AddSchema(st: EditorState, initial: Schema, rectTop: int, fieldLabel: string,
                     pageSize: Size): (r: EditorState)
    requires st.Valid()
    ensures r.Valid()
    ensures |r.CurrentPage()| == |st.CurrentPage()| + 1
    ensures r.CurrentPage()[..|st.CurrentPage()|] == st.CurrentPage()
    ensures r.activeIds == [initial.id] && r.past == st.past + [st.CurrentPage()] && r.future == []
    ensures r.CurrentPage()[|st.CurrentPage()|] == AddedSchema(initial, rectTop, fieldLabel, |st.CurrentPage()|, pageSize)
    ensures r.pageCursor == st.pageCursor && OtherPagesUnchanged(st, r) && r.copiedSchemas == st.copiedSchemas
  {
    var s := AddedSchema(initial, rectTop, fieldLabel, |st.CurrentPage()|, pageSize);
    assert (st.CurrentPage() + [s])[..|st.CurrentPage()|] == st.CurrentPage();
    assert (st.past + [st.CurrentPage()])[..|st.past|] == st.past;
    Commit(st, st.CurrentPage() + [s]).(activeIds := [s.id])
  }

  /** The key of an added schema comes from the page's schema count, not
      from the keys on the page: after a removal it can repeat a key that is
      still there. */
  lemma AddedKeyCanRepeat(st: EditorState, initial: Schema, rectTop: int, pageSize: Size, s: Schema)
    requires st.Valid() && st.CurrentPage() == [s] && s.key == "field2"
    ensures var page := AddSchema(st, initial, rectTop, "field", pageSize).CurrentPage();
            |page| == 2 && page[0] == s && page[1].key == s.key
  {
    assert NatToString(2) == "2";
  }

  /** `onSortEnd`: move one schema within the current page, in one commit. */
  function OnSortEnd(st: EditorState, oldIndex: nat, newIndex: nat): (r: EditorState)
    requires st.Valid() && oldIndex < |st.CurrentPage()| && newIndex < |st.CurrentPage()|
    ensures r.Valid()
    ensures |r.CurrentPage()| == |st.CurrentPage()|
    ensures multiset(r.CurrentPage()) == multiset(st.CurrentPage())
    ensures r.CurrentPage()[newIndex] == st.CurrentPage()[oldIndex]
    ensures RemoveAt(r.CurrentPage(), newIndex) == RemoveAt(st.CurrentPage(), oldIndex)
    ensures TimeTravel(r, true).schemasList == st.schemasList
    ensures r.pageCursor == st.pageCursor && OtherPagesUnchanged(st, r)
    ensures r.past == st.past + [st.CurrentPage()] && r.future == []
    ensures r.activeIds == st.activeIds && r.copiedSchemas == st.copiedSchemas
  {
    var r := Commit(st, ArrayMove(st.CurrentPage(), oldIndex, newIndex));
    UndoAfterCommit(st, ArrayMove(st.CurrentPage(), oldIndex, newIndex));
    r
  }
}
