/** The values the template designer edits: schemas (fields) placed on pages.

    Coordinates and sizes are integer hundredths of the page unit, so rounding
    a coordinate to two decimals is the identity and every clamp is exact. */
module Schemas {

  type Id = string

  datatype Option<T> = None | Some(value: T)

  datatype Position = Position(x: int, y: int)

  datatype Size = Size(width: int, height: int)

  /** One field on a page. `schemaType` is the source's `type` attribute. */
  datatype Schema = Schema(
    id: Id,
    key: string,
    schemaType: string,
    data: string,
    position: Position,
    width: int,
    height: int)

  const TEXT: string := "text"
  const IMAGE: string := "image"

  /** The attribute paths a bulk edit may address, as a closed union:
      `position.x`, `position.y`, `width`, `height`, `type`, `data`, `key`. */
  datatype Edit =
    | SetX(x: int)
    | SetY(y: int)
    | SetWidth(width: int)
    | SetHeight(height: int)
    | SetType(newType: string)
    | SetData(data: string)
    | SetKey(key: string)

  /** One `{ key, value, schemaId }` edit triple. */
  datatype Change = Change(schemaId: Id, edit: Edit)

  /** The library helpers whose bodies are not part of this model:
      the sample payload of a type, the aspect-ratio height of a type for a
      width, and the unique-key generator used by paste (base key, the page,
      the keys already generated in the same paste). */
  datatype Helpers = Helpers(
    sampleByType: string -> string,
    keepRatioHeightByWidth: (string, int) -> int,
    uniqSchemaKey: (string, seq<Schema>, seq<string>) -> string)

  function Ids(page: seq<Schema>): seq<Id>
  {
    seq(|page|, i requires 0 <= i < |page| => page[i].id)
  }

  function Keys(page: seq<Schema>): seq<string>
  {
    seq(|page|, i requires 0 <= i < |page| => page[i].key)
  }

  predicate UniqueIds(page: seq<Schema>)
  {
    forall i, j :: 0 <= i < j < |page| ==> page[i].id != page[j].id
  }

  /** `page.find((s) => s.id === id)`: the first schema carrying `id`. */
  function FindIndex(page: seq<Schema>, id: Id): (i: nat)
    requires id in Ids(page)
    ensures i < |page| && page[i].id == id
    ensures forall j :: 0 <= j < i ==> page[j].id != id
  {
    if page[0].id == id then 0
    else
      assert Ids(page) == [page[0].id] + Ids(page[1..]);
      1 + FindIndex(page[1..], id)
  }

  /** With unique ids, the schema carrying `page[j].id` is found at `j`. */
  lemma FindIndexUnique(page: seq<Schema>, j: nat)
    requires UniqueIds(page) && j < |page|
    ensures page[j].id in Ids(page) && FindIndex(page, page[j].id) == j
  {
    assert Ids(page)[j] == page[j].id;
  }
}
