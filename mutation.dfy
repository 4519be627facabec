/** The bulk-edit pipeline behind `changeSchemas`: edit triples folded, in
    order, over a copy of the current page, with the side effects of a type
    change. */
module Mutation {
  import opened Schemas

  /** Setting `type`: `data` becomes the literal "text" for text and the
      type's sample otherwise; for types other than text and image the height
      is recomputed from the schema's current width. */
  function Retyped(s: Schema, newType: string, h: Helpers): (r: Schema)
    ensures r.schemaType == newType
    ensures r.data == (if newType == TEXT then TEXT else h.sampleByType(newType))
    ensures r.height ==
      (if newType != TEXT && newType != IMAGE
       then h.keepRatioHeightByWidth(newType, s.width) else s.height)
    ensures r.(schemaType := s.schemaType, data := s.data, height := s.height) == s
  {
    var withData := s.(schemaType := newType,
                       data := if newType == TEXT then TEXT else h.sampleByType(newType));
    if newType != TEXT && newType != IMAGE
    then withData.(height := h.keepRatioHeightByWidth(newType, withData.width))
    else withData
  }

  /** `set(tgt, key, value)` for one attribute path: the addressed attribute
      takes the value and nothing else changes, except that setting `type`
      has the side effects of `Retyped`. */
  function ApplyEdit(s: Schema, e: Edit, h: Helpers): (r: Schema)
    ensures r.id == s.id
    ensures e.SetX? ==> r.position.x == e.x && r.(position := s.position) == s && r.position.y == s.position.y
    ensures e.SetY? ==> r.position.y == e.y && r.(position := s.position) == s && r.position.x == s.position.x
    ensures e.SetWidth? ==> r.width == e.width && r.(width := s.width) == s
    ensures e.SetHeight? ==> r.height == e.height && r.(height := s.height) == s
    ensures e.SetType? ==> r == Retyped(s, e.newType, h)
    ensures e.SetData? ==> r.data == e.data && r.(data := s.data) == s
    ensures e.SetKey? ==> r.key == e.key && r.(key := s.key) == s
  {
    match e
    case SetX(x) => s.(position := s.position.(x := x))
    case SetY(y) => s.(position := s.position.(y := y))
    case SetWidth(w) => s.(width := w)
    case SetHeight(ht) => s.(height := ht)
    case SetType(t) => Retyped(s, t, h)
    case SetData(d) => s.(data := d)
    case SetKey(k) => s.(key := k)
  }

  /** One step of the fold: the first schema whose id matches is edited. */
  function ApplyChange(page: seq<Schema>, c: Change, h: Helpers): (r: seq<Schema>)
    requires c.schemaId in Ids(page)
    ensures |r| == |page| && Ids(r) == Ids(page)
    ensures r[FindIndex(page, c.schemaId)] == ApplyEdit(page[FindIndex(page, c.schemaId)], c.edit, h)
    ensures forall j :: 0 <= j < |page| && j != FindIndex(page, c.schemaId) ==> r[j] == page[j]
  {
    var i := FindIndex(page, c.schemaId);
    page[i := ApplyEdit(page[i], c.edit, h)]
  }

  /** Every triple names a schema of the page (the source's `find(...)!`). */
  predicate Targets(page: seq<Schema>, cs: seq<Change>)
  {
    forall k :: 0 <= k < |cs| ==> cs[k].schemaId in Ids(page)
  }

  /** The `reduce` over the triples, first triple first. */
  function ApplyChanges(page: seq<Schema>, cs: seq<Change>, h: Helpers): (r: seq<Schema>)
    requires Targets(page, cs)
    ensures |r| == |page| && Ids(r) == Ids(page)
    decreases |cs|
  {
    if cs == [] then page
    else
      var prior := ApplyChanges(page, cs[..|cs| - 1], h);
      ApplyChange(prior, cs[|cs| - 1], h)
  }

  /** Applying `a + b` is applying `a`, then `b` to the result: a later
      triple sees the effect of every earlier one. */
  lemma {:induction false} ApplyChangesAppend(page: seq<Schema>, a: seq<Change>, b: seq<Change>, h: Helpers)
    requires Targets(page, a + b)
    ensures Targets(page, a) && Targets(ApplyChanges(page, a, h), b)
    ensures ApplyChanges(page, a + b, h) == ApplyChanges(ApplyChanges(page, a, h), b, h)
    decreases |b|
  {
    assert forall k :: 0 <= k < |a| ==> (a + b)[k] == a[k];
    assert forall k :: 0 <= k < |b| ==> (a + b)[|a| + k] == b[k];
    if b != [] {
      var b' := b[..|b| - 1];
      assert (a + b)[..|a + b| - 1] == a + b';
      ApplyChangesAppend(page, a, b', h);
    } else {
      assert a + b == a;
    }
  }

  /** A schema whose id no triple names is left exactly as it was. */
  lemma {:induction false} ApplyChangesUntouched(page: seq<Schema>, cs: seq<Change>, h: Helpers, j: nat)
    requires Targets(page, cs) && j < |page|
    requires forall k :: 0 <= k < |cs| ==> cs[k].schemaId != page[j].id
    ensures ApplyChanges(page, cs, h)[j] == page[j]
    decreases |cs|
  {
    if cs != [] {
      var prior := ApplyChanges(page, cs[..|cs| - 1], h);
      ApplyChangesUntouched(page, cs[..|cs| - 1], h, j);
      assert Ids(prior)[j] == page[j].id;
    }
  }

  /** The fold keeps ids in place, so the schema a later triple finds is
      at the same index as on the original page. */
  lemma FindIndexSameIds(p: seq<Schema>, q: seq<Schema>, id: Id)
    requires Ids(p) == Ids(q) && id in Ids(p)
    ensures FindIndex(p, id) == FindIndex(q, id)
  {
    var a, b := FindIndex(p, id), FindIndex(q, id);
    assert Ids(p)[a] == p[a].id && Ids(q)[a] == q[a].id;
    assert Ids(p)[b] == p[b].id && Ids(q)[b] == q[b].id;
  }

  /** On a page with unique ids, triples naming distinct schemas each edit
      their own schema, starting from its state before the call. */
  lemma {:induction false} ApplyDistinctChanges(page: seq<Schema>, cs: seq<Change>, h: Helpers, k: nat)
    requires Targets(page, cs) && UniqueIds(page)
    requires forall k1, k2 :: 0 <= k1 < k2 < |cs| ==> cs[k1].schemaId != cs[k2].schemaId
    requires k < |cs|
    ensures var i := FindIndex(page, cs[k].schemaId);
            ApplyChanges(page, cs, h)[i] == ApplyEdit(page[i], cs[k].edit, h)
    decreases |cs|
  {
    var i := FindIndex(page, cs[k].schemaId);
    var n := |cs| - 1;
    var front := cs[..n];
    var prior := ApplyChanges(page, front, h);
    var last := FindIndex(page, cs[n].schemaId);
    FindIndexSameIds(prior, page, cs[n].schemaId);
    assert ApplyChanges(page, cs, h) == ApplyChange(prior, cs[n], h);
    if k == n {
      assert forall k' :: 0 <= k' < |front| ==> front[k'].schemaId != page[i].id;
      ApplyChangesUntouched(page, front, h, i);
    } else {
      assert forall k1, k2 :: 0 <= k1 < k2 < |front| ==> front[k1].schemaId != front[k2].schemaId;
      ApplyDistinctChanges(page, front, h, k);
      assert front[k] == cs[k];
      assert last != i;
    }
  }

  /** Unfolds a fold of two triples into two single changes, for `TypeAndWidthOrder`. */
  lemma TwoChanges(page: seq<Schema>, c1: Change, c2: Change, h: Helpers)
    requires c1.schemaId in Ids(page) && c2.schemaId in Ids(page)
    ensures Targets(page, [c1, c2])
    ensures ApplyChange(page, c1, h) == ApplyChanges(page, [c1], h)
    ensures ApplyChanges(page, [c1, c2], h) == ApplyChange(ApplyChange(page, c1, h), c2, h)
  {
    assert [c1, c2][..1] == [c1];
    assert [c1][..0] == [];
  }

  /** A width triple and a type triple for the same schema in one call: the
      recomputed height follows the width current when the type triple is
      applied, so the two orders differ. */
  lemma TypeAndWidthOrder(page: seq<Schema>, id: Id, t: string, w: int, h: Helpers)
    requires id in Ids(page) && t != TEXT && t != IMAGE
    ensures Targets(page, [Change(id, SetWidth(w)), Change(id, SetType(t))])
    ensures Targets(page, [Change(id, SetType(t)), Change(id, SetWidth(w))])
    ensures var i := FindIndex(page, id);
            var widthFirst := ApplyChanges(page, [Change(id, SetWidth(w)), Change(id, SetType(t))], h);
            var typeFirst := ApplyChanges(page, [Change(id, SetType(t)), Change(id, SetWidth(w))], h);
            widthFirst[i].width == w && widthFirst[i].height == h.keepRatioHeightByWidth(t, w) &&
            typeFirst[i].width == w && typeFirst[i].height == h.keepRatioHeightByWidth(t, page[i].width)
  {
    var i := FindIndex(page, id);
    var a1 := ApplyChange(page, Change(id, SetWidth(w)), h);
    TwoChanges(page, Change(id, SetWidth(w)), Change(id, SetType(t)), h);
    FindIndexSameIds(a1, page, id);
    assert a1[i] == page[i].(width := w);
    var b1 := ApplyChange(page, Change(id, SetType(t)), h);
    TwoChanges(page, Change(id, SetType(t)), Change(id, SetWidth(w)), h);
    FindIndexSameIds(b1, page, id);
    assert b1[i] == Retyped(page[i], t, h);
  }
}
