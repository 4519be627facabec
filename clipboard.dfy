/** The copies that `paste` appends: fresh ids, generated keys, and a
    position moved by 10 units on each axis, clamped to the page. */
module Clipboard {
  import opened Schemas

  /** 10 units, in hundredths. */
  const PASTE_OFFSET: int := 1000

  /** Each axis moves by the offset unless the schema would then pass the
      page's far edge; in that case it sits exactly at that edge. */
  function PastedPosition(p: Position, width: int, height: int, pageSize: Size): (r: Position)
    ensures r.x <= pageSize.width - width && r.y <= pageSize.height - height
    ensures p.x + PASTE_OFFSET > pageSize.width - width ==> r.x == pageSize.width - width
    ensures p.x + PASTE_OFFSET <= pageSize.width - width ==> r.x == p.x + PASTE_OFFSET
    ensures p.y + PASTE_OFFSET > pageSize.height - height ==> r.y == pageSize.height - height
    ensures p.y + PASTE_OFFSET <= pageSize.height - height ==> r.y == p.y + PASTE_OFFSET
  {
    Position(
      if p.x + PASTE_OFFSET > pageSize.width - width then pageSize.width - width else p.x + PASTE_OFFSET,
      if p.y + PASTE_OFFSET > pageSize.height - height then pageSize.height - height else p.y + PASTE_OFFSET)
  }

  /** `Object.assign(cloneDeep(cs), { id, key, position })`. */
  function PastedSchema(cs: Schema, id: Id, key: string, pageSize: Size): (r: Schema)
    ensures r.id == id && r.key == key
    ensures r.position.x <= pageSize.width - cs.width && r.position.y <= pageSize.height - cs.height
    ensures r.(id := cs.id, key := cs.key, position := cs.position) == cs
  {
    cs.(id := id, key := key, position := PastedPosition(cs.position, cs.width, cs.height, pageSize))
  }

  /** The `map` over the clipboard: each copy gets the next fresh id and
      the key the generator picks given the page and the keys generated
      earlier in the same paste. */
  function PasteSchemas(copied: seq<Schema>, page: seq<Schema>, pageSize: Size,
                        freshIds: seq<Id>, h: Helpers): (r: seq<Schema>)
    requires |freshIds| == |copied|
    ensures |r| == |copied|
    decreases |copied|
  {
    if copied == [] then []
    else
      var n := |copied| - 1;
      var prior := PasteSchemas(copied[..n], page, pageSize, freshIds[..n], h);
      prior + [PastedSchema(copied[n], freshIds[n], h.uniqSchemaKey(copied[n].key, page, Keys(prior)), pageSize)]
  }

  /** Copy i carries fresh id i and the generated key, and keeps the type,
      payload and size of clipboard entry i, moved by the paste offset. */
  lemma {:induction false} PasteSchemasContents(copied: seq<Schema>, page: seq<Schema>, pageSize: Size,
                                                freshIds: seq<Id>, h: Helpers)
    requires |freshIds| == |copied|
    ensures var r := PasteSchemas(copied, page, pageSize, freshIds, h);
            Ids(r) == freshIds &&
            (forall i :: 0 <= i < |r| ==>
              r[i].key == h.uniqSchemaKey(copied[i].key, page, Keys(r[..i]))) &&
            (forall i :: 0 <= i < |r| ==>
              r[i].schemaType == copied[i].schemaType && r[i].data == copied[i].data &&
              r[i].width == copied[i].width && r[i].height == copied[i].height &&
              r[i].position == PastedPosition(copied[i].position, copied[i].width,
                                               copied[i].height, pageSize))
    decreases |copied|
  {
    if copied != [] {
      var n := |copied| - 1;
      var prior := PasteSchemas(copied[..n], page, pageSize, freshIds[..n], h);
      PasteSchemasContents(copied[..n], page, pageSize, freshIds[..n], h);
      var r := PasteSchemas(copied, page, pageSize, freshIds, h);
      assert r == prior + [r[n]];
      assert r[..n] == prior;
      assert Ids(r) == Ids(prior) + [freshIds[n]];
      assert freshIds == freshIds[..n] + [freshIds[n]];
      forall i | 0 <= i < |r|
        ensures r[i].key == h.uniqSchemaKey(copied[i].key, page, Keys(r[..i]))
        ensures r[i].schemaType == copied[i].schemaType && r[i].data == copied[i].data &&
                r[i].width == copied[i].width && r[i].height == copied[i].height &&
                r[i].position == PastedPosition(copied[i].position, copied[i].width,
                                                 copied[i].height, pageSize)
      {
        if i < n {
          assert r[i] == prior[i] && r[..i] == prior[..i] && copied[i] == copied[..n][i];
        }
      }
    }
  }

  /** What the key generator promises: a key that is neither on the page
      nor among the keys already generated in the same paste. */
  ghost predicate KeyGeneratorAvoidsTaken(h: Helpers)
  {
    forall base, page, stack ::
      h.uniqSchemaKey(base, page, stack) !in Keys(page) &&
      h.uniqSchemaKey(base, page, stack) !in stack
  }

  /** Under that promise, pasted keys differ from every key on the page and
      from each other. */
  lemma PastedKeysFresh(copied: seq<Schema>, page: seq<Schema>, pageSize: Size,
                        freshIds: seq<Id>, h: Helpers)
    requires |freshIds| == |copied| && KeyGeneratorAvoidsTaken(h)
    ensures var r := PasteSchemas(copied, page, pageSize, freshIds, h);
            (forall i :: 0 <= i < |r| ==> r[i].key !in Keys(page)) &&
            (forall i, j :: 0 <= i < j < |r| ==> r[i].key != r[j].key)
  {
    var r := PasteSchemas(copied, page, pageSize, freshIds, h);
    PasteSchemasContents(copied, page, pageSize, freshIds, h);
    forall i, j | 0 <= i < j < |r| ensures r[i].key != r[j].key {
      assert Keys(r[..j])[i] == r[i].key;
    }
  }

  /** With ids that are distinct and not on the page, a page of unique ids
      stays one after the copies are appended. */
  lemma PasteKeepsIdsUnique(copied: seq<Schema>, page: seq<Schema>, pageSize: Size,
                            freshIds: seq<Id>, h: Helpers)
    requires |freshIds| == |copied| && UniqueIds(page)
    requires forall i, j :: 0 <= i < j < |freshIds| ==> freshIds[i] != freshIds[j]
    requires forall i :: 0 <= i < |freshIds| ==> freshIds[i] !in Ids(page)
    ensures UniqueIds(page + PasteSchemas(copied, page, pageSize, freshIds, h))
  {
    var r := PasteSchemas(copied, page, pageSize, freshIds, h);
    PasteSchemasContents(copied, page, pageSize, freshIds, h);
    var all := page + r;
    forall i, j | 0 <= i < j < |all| ensures all[i].id != all[j].id {
      if j < |page| {
        assert all[i] == page[i] && all[j] == page[j];
      } else if i < |page| {
        assert Ids(page)[i] == page[i].id;
        assert Ids(r)[j - |page|] == r[j - |page|].id;
      } else {
        assert Ids(r)[i - |page|] == r[i - |page|].id;
        assert Ids(r)[j - |page|] == r[j - |page|].id;
      }
    }
  }

  /** Pasting the pasted copies again moves them by twice the offset, still
      clamped to the page: repeated paste shifts progressively. */
  lemma PasteTwice(p: Position, width: int, height: int, pageSize: Size)
    ensures var twice := PastedPosition(PastedPosition(p, width, height, pageSize), width, height, pageSize);
            twice.x == (if p.x + 2 * PASTE_OFFSET > pageSize.width - width
                        then pageSize.width - width else p.x + 2 * PASTE_OFFSET) &&
            twice.y == (if p.y + 2 * PASTE_OFFSET > pageSize.height - height
                        then pageSize.height - height else p.y + 2 * PASTE_OFFSET)
  {
  }
}
