/** The template editor's handlers over mutable state. Each method performs
    one transition of module EditorStates on the editor's fields; the loops
    of `changeSchemas` (the `reduce`) and of `paste` (the `map` with its key
    stack) are kept as loops. */
module Designer {
  import opened Schemas
  import opened Mutation
  import opened Nudge
  import opened Lifecycle
  import opened Clipboard
  import opened EditorStates

  class Editor {
    var schemasList: seq<seq<Schema>>
    var pageCursor: nat
    var past: seq<seq<Schema>>
    var future: seq<seq<Schema>>
    var copiedSchemas: Option<seq<Schema>>
    var activeIds: seq<Id>
    const helpers: Helpers

    function State(): EditorState
      reads this
    {
      EditorState(schemasList, pageCursor, past, future, copiedSchemas, activeIds)
    }

    predicate Valid()
      reads this
    {
      State().Valid()
    }

    constructor (helpers: Helpers)
      ensures Valid() && State() == Initial && this.helpers == helpers
    {
      schemasList := [[]];
      pageCursor := 0;
      past := [];
      future := [];
      copiedSchemas := None;
      activeIds := [];
      this.helpers := helpers;
    }

    method CommitSchemas(newSchemas: seq<Schema>)
      requires Valid()
      modifies this
      ensures Valid() && State() == Commit(old(State()), newSchemas)
    {
      future := [];
      past := past + [schemasList[pageCursor]];
      schemasList := schemasList[pageCursor := newSchemas];
    }

    method RemoveSchemas(ids: seq<Id>)
      requires Valid()
      modifies this
      ensures Valid() && State() == EditorStates.RemoveSchemas(old(State()), ids)
    {
      CommitSchemas(FilterById(schemasList[pageCursor], ids, false));
      OnEditEnd();
    }

    method ChangeSchemas(objs: seq<Change>)
      requires Valid() && Targets(schemasList[pageCursor], objs)
      modifies this
      ensures Valid() && State() == EditorStates.ChangeSchemas(old(State()), objs, helpers)
    {
      var page := schemasList[pageCursor];
      var acc := page;
      var i := 0;
      while i < |objs|
        invariant 0 <= i <= |objs|
        invariant Targets(page, objs[..i])
        invariant acc == ApplyChanges(page, objs[..i], helpers)
      {
        assert objs[..i + 1][..i] == objs[..i];
        var tgt := FindIndex(acc, objs[i].schemaId);
        acc := acc[tgt := ApplyEdit(acc[tgt], objs[i].edit, helpers)];
        i := i + 1;
      }
      assert objs[..i] == objs;
      CommitSchemas(acc);
    }

    method TimeTravel(isUndo: bool)
      requires Valid()
      modifies this
      ensures Valid() && State() == EditorStates.TimeTravel(old(State()), isUndo)
    {
      if |(if isUndo then past else future)| <= 0 {
        return;
      }
      if isUndo {
        future := future + [schemasList[pageCursor]];
        schemasList := schemasList[pageCursor := past[|past| - 1]];
        past := past[..|past| - 1];
      } else {
        past := past + [schemasList[pageCursor]];
        schemasList := schemasList[pageCursor := future[|future| - 1]];
        future := future[..|future| - 1];
      }
      OnEditEnd();
    }

    method Move(command: Command, isShift: bool, pageSize: Size)
      requires Valid()
      modifies this
      ensures Valid() && State() == EditorStates.Move(old(State()), command, isShift, pageSize, helpers)
    {
      var activeSchemas := ActiveSchemas(State());
      var arg := MoveCommandToChangeSchemasArg(command, activeSchemas, isShift, pageSize);
      ActiveSchemasOnPage(State());
      ChangeSchemas(arg);
    }

    method Copy()
      requires Valid()
      modifies this
      ensures Valid() && State() == EditorStates.Copy(old(State()))
    {
      var activeSchemas := ActiveSchemas(State());
      if |activeSchemas| == 0 {
        return;
      }
      copiedSchemas := Some(activeSchemas);
    }

    method Paste(pageSize: Size, freshIds: seq<Id>)
      requires Valid()
      requires ClipboardFilled(State()) ==> |freshIds| == |copiedSchemas.value|
      modifies this
      ensures Valid() && State() == EditorStates.Paste(old(State()), pageSize, freshIds, helpers)
    {
      if copiedSchemas.None? || |copiedSchemas.value| == 0 {
        return;
      }
      var schema := schemasList[pageCursor];
      var pasteSchemas := MapPasteSchemas(copiedSchemas.value, schema, pageSize, freshIds, helpers);
      CommitSchemas(schema + pasteSchemas);
      OnEdit(freshIds);
      copiedSchemas := Some(pasteSchemas);
    }

    /** The `remove` handler. */
    method Remove()
      requires Valid()
      modifies this
      ensures Valid() && State() == RemoveActive(old(State()))
    {
      RemoveSchemas(Ids(ActiveSchemas(State())));
    }

    method OnEdit(ids: seq<Id>)
      modifies this
      ensures State() == old(State()).(activeIds := ids)
    {
      activeIds := ids;
    }

    /** Also the `esc` handler. */
    method OnEditEnd()
      modifies this
      ensures State() == old(State()).(activeIds := [])
    {
      activeIds := [];
    }

    method OnChangePageCursor(p: nat)
      requires p < |schemasList|
      modifies this
      ensures Valid() && State() == ChangePageCursor(old(State()), p)
    {
      pageCursor := p;
      OnEditEnd();
    }

    /** The synchronous part of `updateTemplate`: the page lists derived
        from the new template are given. */
    method UpdateTemplate(sl: seq<seq<Schema>>)
      requires |sl| > 0
      modifies this
      ensures Valid() && State() == EditorStates.UpdateTemplate(old(State()), sl)
    {
      schemasList := sl;
      OnEditEnd();
      pageCursor := 0;
    }

    method AddSchema(initial: Schema, rectTop: int, fieldLabel: string, pageSize: Size)
      requires Valid()
      modifies this
      ensures Valid() && State() == EditorStates.AddSchema(old(State()), initial, rectTop, fieldLabel, pageSize)
    {
      var s := AddedSchema(initial, rectTop, fieldLabel, |schemasList[pageCursor]|, pageSize);
      CommitSchemas(schemasList[pageCursor] + [s]);
      OnEdit([s.id]);
    }

    method OnSortEnd(oldIndex: nat, newIndex: nat)
      requires Valid() && oldIndex < |schemasList[pageCursor]| && newIndex < |schemasList[pageCursor]|
      modifies this
      ensures Valid() && State() == EditorStates.OnSortEnd(old(State()), oldIndex, newIndex)
    {
      var movedSchema := ArrayMove(schemasList[pageCursor], oldIndex, newIndex);
      CommitSchemas(movedSchema);
    }
  }

  /** The `map` of the paste handler: one copy per clipboard entry, the key
      generator seeing the page and the keys generated so far, which the
      loop keeps on a stack. */
  method MapPasteSchemas(copied: seq<Schema>, schema: seq<Schema>, pageSize: Size,
                         freshIds: seq<Id>, helpers: Helpers) returns (pasteSchemas: seq<Schema>)
    requires |freshIds| == |copied|
    ensures pasteSchemas == PasteSchemas(copied, schema, pageSize, freshIds, helpers)
  {
    var stackUniqSchemaKeys: seq<string> := [];
    pasteSchemas := [];
    var i := 0;
    while i < |copied|
      invariant 0 <= i <= |copied|
      invariant pasteSchemas == PasteSchemas(copied[..i], schema, pageSize, freshIds[..i], helpers)
      invariant stackUniqSchemaKeys == Keys(pasteSchemas)
    {
      assert copied[..i + 1][..i] == copied[..i];
      assert freshIds[..i + 1][..i] == freshIds[..i];
      var key := helpers.uniqSchemaKey(copied[i].key, schema, stackUniqSchemaKeys);
      var copy := PastedSchema(copied[i], freshIds[i], key, pageSize);
      assert Keys(pasteSchemas + [copy]) == stackUniqSchemaKeys + [key];
      stackUniqSchemaKeys := stackUniqSchemaKeys + [key];
      pasteSchemas := pasteSchemas + [copy];
      i := i + 1;
    }
    assert copied[..i] == copied && freshIds[..i] == freshIds;
  }
}
