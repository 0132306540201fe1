/**
 * The document store the repository is written against, reduced to what the
 * repository uses: named collections of rows kept in insertion order, the set
 * of collections that carry the unique compound index, and equality filters
 * for find-one, find-many and remove.
 */
module DocumentStore {
  import opened Wrappers
  import opened Domain

  /** A query filter over rows, as built from `Criteria.where(..).is(..)`. */
  type Criteria = Row -> bool

  /** The store: one collection per name, and the names whose unique index exists. */
  datatype Db = Db(collections: map<string, seq<Row>>, indexed: set<string>)

  /** The rows of a collection; a collection that does not exist reads as empty. */
  function Rows(db: Db, name: string): seq<Row>
  {
    if name in db.collections then db.collections[name] else []
  }

  /** The position of the first row the filter selects, in natural order. */
  function IndexWhere(rows: seq<Row>, p: Criteria): (k: Option<nat>)
    ensures k.Some? ==> k.value < |rows| && p(rows[k.value])
    ensures k.Some? ==> forall j | 0 <= j < k.value :: !p(rows[j])
    ensures k.None? ==> forall x | x in rows :: !p(x)
  {
    if rows == [] then None
    else if p(rows[0]) then Some(0)
    else match IndexWhere(rows[1..], p)
      case None => None
      case Some(k) => Some(k + 1)
  }

  /** `findOne`: the first selected row, or null when the filter selects none. */
  function FindOne(rows: seq<Row>, p: Criteria): (r: Option<Row>)
    ensures r.Some? ==> r.value in rows && p(r.value)
    ensures r.None? <==> forall x | x in rows :: !p(x)
  {
    match IndexWhere(rows, p)
    case None => None
    case Some(k) => Some(rows[k])
  }

  /** How many rows the filter selects. */
  function Count(rows: seq<Row>, p: Criteria): nat
  {
    if rows == [] then 0 else (if p(rows[0]) then 1 else 0) + Count(rows[1..], p)
  }

  /** `find`: every selected row, in natural order. */
  function Find(rows: seq<Row>, p: Criteria): (found: seq<Row>)
    ensures forall x :: x in found <==> x in rows && p(x)
    ensures |found| == Count(rows, p)
  {
    if rows == [] then []
    else (if p(rows[0]) then [rows[0]] else []) + Find(rows[1..], p)
  }

  /** What `remove` leaves behind: every row the filter does not select, in order. */
  function Keep(rows: seq<Row>, p: Criteria): (kept: seq<Row>)
    ensures forall x :: x in kept <==> x in rows && !p(x)
    ensures |kept| + Count(rows, p) == |rows|
  {
    if rows == [] then []
    else (if p(rows[0]) then [] else [rows[0]]) + Keep(rows[1..], p)
  }

  /** When no two rows are both selected, a filter selects at most one row. */
  lemma {:induction false} CountAtMostOne(rows: seq<Row>, p: Criteria)
    requires forall i, j | 0 <= i < j < |rows| :: !(p(rows[i]) && p(rows[j]))
    ensures Count(rows, p) <= 1
  {
    if rows != [] {
      CountAtMostOne(rows[1..], p);
      if p(rows[0]) {
        assert forall x | x in rows[1..] :: !p(x);
        CountNone(rows[1..], p);
      }
    }
  }

  /** A filter that selects none of the rows counts zero of them. */
  lemma {:induction false} CountNone(rows: seq<Row>, p: Criteria)
    requires forall x | x in rows :: !p(x)
    ensures Count(rows, p) == 0
  {
    if rows != [] {
      assert rows[0] in rows;
      CountNone(rows[1..], p);
    }
  }
}
