/** The list computations of the lifecycle handlers: selecting and removing
    schemas by id (`filter`), reordering (`arrayMove`) and building the schema
    that `addSchema` appends. */
module Lifecycle {
  import opened Schemas

  /** `page.filter((s) => ids.includes(s.id) == wanted)`: with `wanted` true
      this is `getActiveSchemas`, with `wanted` false `removeSchemas`. */
  function FilterById(page: seq<Schema>, ids: seq<Id>, wanted: bool): (r: seq<Schema>)
    ensures |r| <= |page|
  {
    if page == [] then []
    else
      var rest := FilterById(page[1..], ids, wanted);
      if (page[0].id in ids) == wanted then [page[0]] + rest else rest
  }

  /** A schema is kept exactly when it is on the page and its id test
      passes, and it is kept as often as it occurs on the page. */
  lemma {:induction false} FilterByIdExact(page: seq<Schema>, ids: seq<Id>, wanted: bool, s: Schema)
    ensures s in FilterById(page, ids, wanted) <==> s in page && (s.id in ids) == wanted
    ensures multiset(FilterById(page, ids, wanted))[s] ==
            if (s.id in ids) == wanted then multiset(page)[s] else 0
  {
    if page != [] {
      FilterByIdExact(page[1..], ids, wanted, s);
      assert page == [page[0]] + page[1..];
    }
  }

  /** `FilterByIdExact` for every schema at once. */
  lemma FilterByIdMembers(page: seq<Schema>, ids: seq<Id>, wanted: bool)
    ensures forall s :: s in FilterById(page, ids, wanted) <==> s in page && (s.id in ids) == wanted
  {
    forall s ensures s in FilterById(page, ids, wanted) <==> s in page && (s.id in ids) == wanted {
      FilterByIdExact(page, ids, wanted, s);
    }
  }

  /** Filtering distributes over concatenation, so the kept schemas keep
      their relative order. */
  lemma {:induction false} FilterByIdAppend(a: seq<Schema>, b: seq<Schema>, ids: seq<Id>, wanted: bool)
    ensures FilterById(a + b, ids, wanted) == FilterById(a, ids, wanted) + FilterById(b, ids, wanted)
  {
    if a != [] {
      assert (a + b)[1..] == a[1..] + b;
      FilterByIdAppend(a[1..], b, ids, wanted);
    } else {
      assert a + b == b;
    }
  }

  /** A filtered page of unique ids still has unique ids. */
  lemma {:induction false} FilterByIdUnique(page: seq<Schema>, ids: seq<Id>, wanted: bool)
    requires UniqueIds(page)
    ensures UniqueIds(FilterById(page, ids, wanted))
  {
    if page != [] {
      FilterByIdUnique(page[1..], ids, wanted);
      var rest := FilterById(page[1..], ids, wanted);
      assert forall j :: 0 <= j < |rest| ==> rest[j].id != page[0].id by {
        forall j | 0 <= j < |rest| ensures rest[j].id != page[0].id {
          FilterByIdExact(page[1..], ids, wanted, rest[j]);
          var m :| 0 <= m < |page[1..]| && page[1..][m] == rest[j];
          assert page[m + 1] == rest[j];
        }
      }
    }
  }

  /** Removing the ids carried by a selection of the page removes exactly
      the selected schemas: the `remove` handler equals `removeSchemas` on
      the selected ids. */
  lemma {:induction false} RemoveSelected(page: seq<Schema>, activeIds: seq<Id>)
    ensures FilterById(page, Ids(FilterById(page, activeIds, true)), false)
            == FilterById(page, activeIds, false)
  {
    var selectedIds := Ids(FilterById(page, activeIds, true));
    forall s | s in page ensures (s.id in selectedIds) == (s.id in activeIds) {
      var sel := FilterById(page, activeIds, true);
      FilterByIdExact(page, activeIds, true, s);
      if s.id in activeIds {
        assert s in sel;
        var m :| 0 <= m < |sel| && sel[m] == s;
        assert selectedIds[m] == s.id;
      }
      if s.id in selectedIds {
        var m :| 0 <= m < |selectedIds| && selectedIds[m] == s.id;
        assert sel[m] in sel;
        FilterByIdExact(page, activeIds, true, sel[m]);
      }
    }
    FilterByIdSameTest(page, selectedIds, activeIds, false);
  }

  /** Two id lists that agree on every schema of the page filter alike. */
  lemma {:induction false} FilterByIdSameTest(page: seq<Schema>, ids1: seq<Id>, ids2: seq<Id>, wanted: bool)
    requires forall s :: s in page ==> (s.id in ids1) == (s.id in ids2)
    ensures FilterById(page, ids1, wanted) == FilterById(page, ids2, wanted)
  {
    if page != [] {
      assert page[0] in page;
      assert forall s :: s in page[1..] ==> s in page;
      FilterByIdSameTest(page[1..], ids1, ids2, wanted);
    }
  }

  function RemoveAt(s: seq<Schema>, i: nat): seq<Schema>
    requires i < |s|
  {
    s[..i] + s[i + 1..]
  }

  /** Where the element at position `k` after a move came from: the moved
      element for `to`, otherwise the k-th of the remaining elements. */
  function Origin(from: nat, to: nat, k: nat): nat
  {
    if k == to then from
    else
      var m := if k < to then k else k - 1;
      if m < from then m else m + 1
  }

  /** Taking one element out of a list loses exactly that element. */
  lemma RemoveAtMultiset(s: seq<Schema>, i: nat)
    requires i < |s|
    ensures multiset(RemoveAt(s, i)) + multiset{s[i]} == multiset(s)
  {
    assert s == s[..i] + [s[i]] + s[i + 1..];
  }

  /** Putting one element into a list adds exactly that element. */
  lemma InsertMultiset(rest: seq<Schema>, to: nat, x: Schema)
    requires to <= |rest|
    ensures multiset(rest[..to] + [x] + rest[to..]) == multiset(rest) + multiset{x}
  {
    assert rest[..to] + rest[to..] == rest;
  }

  /** `arrayMove(list, from, to)`: the element at `from` ends at `to`, the
      others keep their relative order, and nothing is lost or added. */
  function ArrayMove(s: seq<Schema>, from: nat, to: nat): (r: seq<Schema>)
    requires from < |s| && to < |s|
    ensures |r| == |s|
    ensures r[to] == s[from]
    ensures RemoveAt(r, to) == RemoveAt(s, from)
    ensures multiset(r) == multiset(s)
  {
    var rest := RemoveAt(s, from);
    var r := rest[..to] + [s[from]] + rest[to..];
    assert r[..to] == rest[..to];
    assert r[to + 1..] == rest[to..];
    assert rest[..to] + rest[to..] == rest;
    RemoveAtMultiset(s, from);
    InsertMultiset(rest, to, s[from]);
    r
  }

  /** Each position after a move holds the element from position `Origin`. */
  lemma ArrayMoveOrigin(s: seq<Schema>, from: nat, to: nat, k: nat)
    requires from < |s| && to < |s| && k < |s|
    ensures Origin(from, to, k) < |s| && ArrayMove(s, from, to)[k] == s[Origin(from, to, k)]
  {
  }

  /** Distinct positions after a move come from distinct positions. */
  lemma OriginInjective(from: nat, to: nat, i: nat, j: nat)
    requires i != j
    ensures Origin(from, to, i) != Origin(from, to, j)
  {
  }

  /** Reordering a page of unique ids keeps its ids unique. */
  lemma ArrayMoveUnique(s: seq<Schema>, from: nat, to: nat)
    requires from < |s| && to < |s| && UniqueIds(s)
    ensures UniqueIds(ArrayMove(s, from, to))
  {
    var r := ArrayMove(s, from, to);
    forall i, j | 0 <= i < j < |r| ensures r[i].id != r[j].id {
      OriginInjective(from, to, i, j);
      ArrayMoveOrigin(s, from, to, i);
      ArrayMoveOrigin(s, from, to, j);
    }
  }

  function DigitChar(d: nat): char
    requires d < 10
  {
    "0123456789"[d]
  }

  function DigitValue(c: char): nat
  {
    if '0' <= c <= '9' then (c - '0') as nat else 0
  }

  /** The decimal spelling of a count, as a template literal writes it. */
  function NatToString(n: nat): (r: string)
    ensures |r| >= 1
    ensures forall i :: 0 <= i < |r| ==> '0' <= r[i] <= '9'
    ensures n > 0 ==> r[0] != '0'
    ensures |r| > 1 ==> r[0] != '0'
  {
    if n < 10 then [DigitChar(n)] else NatToString(n / 10) + [DigitChar(n % 10)]
  }

  function DecimalValue(s: string): nat
  {
    if s == [] then 0 else 10 * DecimalValue(s[..|s| - 1]) + DigitValue(s[|s| - 1])
  }

  /** Reading the spelling back gives the count: distinct counts give
      distinct labels. */
  lemma {:induction false} NatToStringRoundTrip(n: nat)
    ensures DecimalValue(NatToString(n)) == n
  {
    if n >= 10 {
      var s := NatToString(n / 10) + [DigitChar(n % 10)];
      assert s[..|s| - 1] == NatToString(n / 10);
      NatToStringRoundTrip(n / 10);
    }
  }

  /** The schema `addSchema` appends: the initial schema placed at the top
      of the page when the page's top edge is in view (`rectTop > 0`), else
      half-way down; payload "text"; key `fieldLabel` (the translated word "field") followed by the page's
      schema count plus one. */
  function AddedSchema(initial: Schema, rectTop: int, fieldLabel: string, count: nat,
                       pageSize: Size): (s: Schema)
    ensures s.position.y == (if rectTop > 0 then 0 else pageSize.height / 2)
    ensures s.data == TEXT
    ensures s.key == fieldLabel + NatToString(count + 1)
    ensures |s.key| > |fieldLabel| && s.key[..|fieldLabel|] == fieldLabel && DecimalValue(s.key[|fieldLabel|..]) == count + 1
    ensures s.(position := initial.position, data := initial.data, key := initial.key) == initial
    ensures s.position.x == initial.position.x
  {
    NatToStringRoundTrip(count + 1);
    var key := fieldLabel + NatToString(count + 1);
    assert key[..|fieldLabel|] == fieldLabel && key[|fieldLabel|..] == NatToString(count + 1);
    initial.(position := initial.position.(y := if rectTop > 0 then 0 else pageSize.height / 2),
             data := TEXT,
             key := key)
  }
}
