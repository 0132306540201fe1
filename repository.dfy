/**
 * The session repository: one collection per session type, created on the
 * first write together with a unique compound index, and the writes, finders
 * and delete the service builds on.
 *
 * The pure functions below give the effect of each repository call on the
 * store; the class SessionRepository performs the same calls step by step on
 * its own state and is proved equal to them.
 */
module Repository {
  import opened Wrappers
  import opened Json
  import opened Domain
  import opened DocumentStore

  /** What a write reports: the stored row, or the exception the store raises. */
  datatype WriteOutcome = Written(row: Row) | DuplicateKey | ConstraintViolation

  /** The store after a write, and what the write reported. */
  datatype Write = Write(db: Db, outcome: WriteOutcome)

  /** The store after a delete, and how many rows were removed. */
  datatype Removal = Removal(db: Db, count: nat)

  /** Two rows collide on the unique index over (source, type, checksum of data). */
  predicate SameKey(checksum: Checksum, a: Row, b: Row)
  {
    a.source == b.source && a.sessionType == b.sessionType && checksum(a.data) == checksum(b.data)
  }

  /** No two rows of a collection share an id. */
  predicate UniqueIds(rows: seq<Row>)
  {
    forall i, j | 0 <= i < j < |rows| :: rows[i].id != rows[j].id
  }

  /** No two rows of a collection share the dedup key. */
  predicate UniqueKeys(checksum: Checksum, rows: seq<Row>)
  {
    forall i, j | 0 <= i < j < |rows| :: !SameKey(checksum, rows[i], rows[j])
  }

  /**
   * What the store guarantees of the collection called `name`: it holds only
   * sessions of that type, ids are unique and the unique index is honoured.
   */
  predicate CollectionWellFormed(checksum: Checksum, name: string, rows: seq<Row>)
  {
    && (forall x | x in rows :: x.sessionType == name)
    && UniqueIds(rows)
    && UniqueKeys(checksum, rows)
  }

  /** Every collection carries its unique index and every collection is well formed. */
  predicate WellFormed(db: Db, checksum: Checksum)
  {
    && db.indexed == db.collections.Keys
    && forall name | name in db.collections :: CollectionWellFormed(checksum, name, db.collections[name])
  }

  // The query filters the repository builds.

  function BySourceAndType(source: string, sessionType: string): Criteria
  {
    (x: Row) => x.source == source && x.sessionType == sessionType
  }

  function BySourceAndTypeAndId(source: string, sessionType: string, id: string): Criteria
  {
    (x: Row) => x.source == source && x.sessionType == sessionType && x.id == id
  }

  function BySourceAndTypeAndData(source: string, sessionType: string, data: Doc): Criteria
  {
    (x: Row) => x.source == source && x.sessionType == sessionType && x.data == data
  }

  function BySourceAndTypeAndChecksum(checksum: Checksum, source: string, sessionType: string, sum: string): Criteria
  {
    (x: Row) => x.source == source && x.sessionType == sessionType && checksum(x.data) == sum
  }

  function BySourceAndTypeAndQuery(source: string, sessionType: string, query: DocFilter): Criteria
  {
    (x: Row) => x.source == source && x.sessionType == sessionType && query(x.data)
  }

  function WithId(id: string): Criteria
  {
    (x: Row) => x.id == id
  }

  /** The rows the unique index refuses `row` beside: another id with the same key. */
  function CollidesWith(checksum: Checksum, row: Row): Criteria
  {
    (x: Row) => x.id != row.id && SameKey(checksum, x, row)
  }

  /**
   * Lazy provisioning: when no collection of that name exists, create it empty
   * together with its unique index; otherwise leave the store as it is.
   */
  function Provision(db: Db, name: string): (r: Db)
    ensures name in r.collections
    ensures name in db.collections ==> r == db
    ensures name !in db.collections ==> r.collections[name] == [] && name in r.indexed
    ensures r.collections - {name} == db.collections - {name}
    ensures r.indexed - {name} == db.indexed - {name}
  {
    if name in db.collections then db
    else Db(db.collections[name := []], db.indexed + {name})
  }

  /** An upper bound on the length of the ids in a collection. */
  function MaxIdLength(rows: seq<Row>): (n: nat)
    ensures forall x | x in rows :: |x.id| <= n
  {
    if rows == [] then 0
    else
      var rest := MaxIdLength(rows[1..]);
      if |rows[0].id| > rest then |rows[0].id| else rest
  }

  /** The id the store assigns a session saved without one: unused in its collection. */
  function FreshId(rows: seq<Row>): (id: string)
    ensures forall x | x in rows :: x.id != id
  {
    seq(MaxIdLength(rows) + 1, _ => 'x')
  }

  /**
   * `save` into one collection: the row replaces the row with the same id, or
   * is appended when there is none; `None` is the duplicate-key failure.
   */
  function SaveRow(rows: seq<Row>, checksum: Checksum, row: Row): (r: Option<seq<Row>>)
    ensures r.None? <==> exists x | x in rows :: x.id != row.id && SameKey(checksum, x, row)
    ensures r.Some? ==> row in r.value && forall x | x in rows && x.id != row.id :: x in r.value
    ensures r.Some? && UniqueIds(rows) ==> forall x | x in r.value :: x == row || (x in rows && x.id != row.id)
    ensures r.Some? && (forall x | x in rows :: x.id != row.id) ==> r.value == rows + [row]
  {
    if FindOne(rows, CollidesWith(checksum, row)).Some? then None
    else match IndexWhere(rows, WithId(row.id))
      case Some(k) => ReplaceKeepsOthers(rows, k, row); Some(rows[k := row])
      case None => Some(rows + [row])
  }

  /** Replacing the row at `k` keeps every row that does not share its id. */
  lemma ReplaceKeepsOthers(rows: seq<Row>, k: nat, row: Row)
    requires k < |rows| && rows[k].id == row.id
    ensures row in rows[k := row]
    ensures forall x | x in rows && x.id != row.id :: x in rows[k := row]
  {
    assert rows[k := row][k] == row;
    forall x | x in rows && x.id != row.id
      ensures x in rows[k := row]
    {
      var i :| 0 <= i < |rows| && rows[i] == x;
      assert rows[k := row][i] == x;
    }
  }

  /** `insert` into one collection: fails on a taken id as well as on a key collision. */
  function InsertRow(rows: seq<Row>, checksum: Checksum, row: Row): (r: Option<seq<Row>>)
    ensures r.None? <==> exists x | x in rows :: x.id == row.id || SameKey(checksum, x, row)
    ensures r.Some? ==> r.value == rows + [row]
  {
    if FindOne(rows, WithId(row.id)).Some? || FindOne(rows, CollidesWith(checksum, row)).Some? then None
    else Some(rows + [row])
  }

  /**
   * saveSession: provision the collection named by the session's type, then
   * save the session there. Validation of the session fires inside the save,
   * after provisioning.
   */
  function Save(db: Db, checksum: Checksum, v: SessionValue): (w: Write)
    requires v.sessionType.Some?
    ensures w.outcome.ConstraintViolation? <==> !ConstraintsHold(v)
    ensures !w.outcome.Written? ==> w.db == Provision(db, v.sessionType.value)
    ensures w.outcome.DuplicateKey? <==>
              && ConstraintsHold(v)
              && exists x | x in Rows(db, v.sessionType.value) ::
                   && (v.id.None? || Some(x.id) != v.id)
                   && Some(x.source) == v.source && x.sessionType == v.sessionType.value && checksum(x.data) == checksum(v.data)
    ensures w.outcome.Written? ==>
              var row := w.outcome.row;
              && row == Stored(v, row.id)
              && (v.id.Some? ==> row.id == v.id.value)
              && (v.id.None? ==> forall x | x in Rows(db, v.sessionType.value) :: x.id != row.id)
              && row in Rows(w.db, v.sessionType.value)
              && w.db.collections - {row.sessionType} == db.collections - {row.sessionType}
              && w.db.indexed == Provision(db, row.sessionType).indexed
    ensures w.outcome.Written? && UniqueIds(Rows(db, v.sessionType.value)) ==>
              forall x :: x in Rows(w.db, v.sessionType.value) <==>
                x == w.outcome.row || (x in Rows(db, v.sessionType.value) && x.id != w.outcome.row.id)
    ensures w.outcome.Written? && (forall x | x in Rows(db, v.sessionType.value) :: x.id != w.outcome.row.id) ==>
              Rows(w.db, v.sessionType.value) == Rows(db, v.sessionType.value) + [w.outcome.row]
  {
    var name := v.sessionType.value;
    var db1 := Provision(db, name);
    if !ConstraintsHold(v) then Write(db1, ConstraintViolation)
    else
      var rows := db1.collections[name];
      var row := Stored(v, if v.id.Some? then v.id.value else FreshId(rows));
      match SaveRow(rows, checksum, row)
      case None => Write(db1, DuplicateKey)
      case Some(saved) => Write(db1.(collections := db1.collections[name := saved]), Written(row))
  }

  /**
   * insertSession: provision as `Save` does, then insert strictly: a taken id
   * or a key collision is a duplicate-key failure, never a replacement.
   */
  function Insert(db: Db, checksum: Checksum, v: SessionValue): (w: Write)
    requires v.sessionType.Some?
    ensures w.outcome.ConstraintViolation? <==> !ConstraintsHold(v)
    ensures !w.outcome.Written? ==> w.db == Provision(db, v.sessionType.value)
    ensures w.outcome.DuplicateKey? <==>
              && ConstraintsHold(v)
              && exists x | x in Rows(db, v.sessionType.value) ::
                   || Some(x.id) == v.id
                   || (Some(x.source) == v.source && x.sessionType == v.sessionType.value && checksum(x.data) == checksum(v.data))
    ensures w.outcome.Written? ==>
              var row := w.outcome.row;
              && row == Stored(v, row.id)
              && (v.id.Some? ==> row.id == v.id.value)
              && Rows(w.db, row.sessionType) == Rows(db, row.sessionType) + [row]
              && (forall x | x in Rows(db, row.sessionType) :: x.id != row.id && !SameKey(checksum, x, row))
              && w.db.collections - {row.sessionType} == db.collections - {row.sessionType}
              && w.db.indexed == Provision(db, row.sessionType).indexed
  {
    var name := v.sessionType.value;
    var db1 := Provision(db, name);
    if !ConstraintsHold(v) then Write(db1, ConstraintViolation)
    else
      var rows := db1.collections[name];
      var row := Stored(v, if v.id.Some? then v.id.value else FreshId(rows));
      match InsertRow(rows, checksum, row)
      case None => Write(db1, DuplicateKey)
      case Some(inserted) => Write(db1.(collections := db1.collections[name := inserted]), Written(row))
  }

  /** findOneBySourceAndTypeAndData: a row of that source and type holding exactly that payload. */
  function FindOneBySourceAndTypeAndData(db: Db, source: string, sessionType: string, data: Doc): (r: Option<Row>)
    ensures r.Some? ==> r.value in Rows(db, sessionType) && r.value.source == source && r.value.sessionType == sessionType && r.value.data == data
    ensures r.None? <==> forall x | x in Rows(db, sessionType) :: !(x.source == source && x.sessionType == sessionType && x.data == data)
  {
    FindOne(Rows(db, sessionType), BySourceAndTypeAndData(source, sessionType, data))
  }

  /** findOneBySourceAndTypeAndId: the row of that source, type and id, or null. */
  function FindOneBySourceAndTypeAndId(db: Db, source: string, sessionType: string, id: string): (r: Option<Row>)
    ensures r.Some? ==> r.value in Rows(db, sessionType) && r.value.source == source && r.value.sessionType == sessionType && r.value.id == id
    ensures r.None? <==> forall x | x in Rows(db, sessionType) :: !(x.source == source && x.sessionType == sessionType && x.id == id)
  {
    FindOne(Rows(db, sessionType), BySourceAndTypeAndId(source, sessionType, id))
  }

  /** findOneBySourceAndTypeAndChecksum: a row of that source and type whose payload has that checksum. */
  function FindOneBySourceAndTypeAndChecksum(db: Db, checksum: Checksum, source: string, sessionType: string, sum: string): (r: Option<Row>)
    ensures r.Some? ==> r.value in Rows(db, sessionType) && r.value.source == source && r.value.sessionType == sessionType && checksum(r.value.data) == sum
    ensures r.None? <==> forall x | x in Rows(db, sessionType) :: !(x.source == source && x.sessionType == sessionType && checksum(x.data) == sum)
  {
    FindOne(Rows(db, sessionType), BySourceAndTypeAndChecksum(checksum, source, sessionType, sum))
  }

  /** findBySourceAndType: exactly the rows of that source in the collection of that type. */
  function FindBySourceAndType(db: Db, source: string, sessionType: string): (r: seq<Row>)
    ensures forall x :: x in r <==> x in Rows(db, sessionType) && x.source == source && x.sessionType == sessionType
    ensures |r| == Count(Rows(db, sessionType), BySourceAndType(source, sessionType))
    ensures sessionType !in db.collections ==> r == []
  {
    Find(Rows(db, sessionType), BySourceAndType(source, sessionType))
  }

  /** findBySourceAndTypeAndQuery: the rows of that source and type whose payload the query selects. */
  function FindBySourceAndTypeAndQuery(db: Db, source: string, sessionType: string, query: DocFilter): (r: seq<Row>)
    ensures forall x :: x in r <==> x in Rows(db, sessionType) && x.source == source && x.sessionType == sessionType && query(x.data)
    ensures |r| == Count(Rows(db, sessionType), BySourceAndTypeAndQuery(source, sessionType, query))
  {
    Find(Rows(db, sessionType), BySourceAndTypeAndQuery(source, sessionType, query))
  }

  /**
   * deleteBySourceAndTypeAndId: remove every matching row of the collection of
   * that type and report how many went; nothing else changes, and a missing
   * collection is not created.
   */
  function Delete(db: Db, source: string, sessionType: string, id: string): (r: Removal)
    ensures r.count == Count(Rows(db, sessionType), BySourceAndTypeAndId(source, sessionType, id))
    ensures forall x :: x in Rows(r.db, sessionType) <==>
              x in Rows(db, sessionType) && !(x.source == source && x.sessionType == sessionType && x.id == id)
    ensures r.db.collections.Keys == db.collections.Keys && r.db.indexed == db.indexed
    ensures r.db.collections - {sessionType} == db.collections - {sessionType}
  {
    if sessionType !in db.collections then Removal(db, 0)
    else
      var rows := db.collections[sessionType];
      var kept := Keep(rows, BySourceAndTypeAndId(source, sessionType, id));
      Removal(db.(collections := db.collections[sessionType := kept]), |rows| - |kept|)
  }

  // The store's guarantees survive every repository operation.

  lemma ProvisionKeepsWellFormed(db: Db, checksum: Checksum, name: string)
    requires WellFormed(db, checksum)
    ensures WellFormed(Provision(db, name), checksum)
  {
  }

  /** Replacing the row that holds `row`'s id keeps a collection well formed when nothing collides. */
  lemma {:induction false} ReplaceKeepsWellFormed(checksum: Checksum, name: string, rows: seq<Row>, k: nat, row: Row)
    requires CollectionWellFormed(checksum, name, rows)
    requires k < |rows| && rows[k].id == row.id && row.sessionType == name
    requires forall x | x in rows :: !(x.id != row.id && SameKey(checksum, x, row))
    ensures CollectionWellFormed(checksum, name, rows[k := row])
  {
    var r := rows[k := row];
    forall i, j | 0 <= i < j < |r|
      ensures r[i].id != r[j].id && !SameKey(checksum, r[i], r[j])
    {
      if i == k {
        assert rows[j] in rows && rows[j].id != rows[k].id;
      } else if j == k {
        assert rows[i] in rows && rows[i].id != rows[k].id;
      }
    }
  }

  /** Appending a row with an unused id and no collision keeps a collection well formed. */
  lemma {:induction false} AppendKeepsWellFormed(checksum: Checksum, name: string, rows: seq<Row>, row: Row)
    requires CollectionWellFormed(checksum, name, rows)
    requires row.sessionType == name
    requires forall x | x in rows :: x.id != row.id && !SameKey(checksum, x, row)
    ensures CollectionWellFormed(checksum, name, rows + [row])
  {
    var r := rows + [row];
    forall i, j | 0 <= i < j < |r|
      ensures r[i].id != r[j].id && !SameKey(checksum, r[i], r[j])
    {
      if j == |rows| {
        assert r[i] in rows;
      }
    }
  }

  /** A save leaves the store well formed: the unique index is never violated. */
  lemma SaveKeepsWellFormed(db: Db, checksum: Checksum, v: SessionValue)
    requires WellFormed(db, checksum) && v.sessionType.Some?
    ensures WellFormed(Save(db, checksum, v).db, checksum)
  {
    var name := v.sessionType.value;
    var db1 := Provision(db, name);
    ProvisionKeepsWellFormed(db, checksum, name);
    if ConstraintsHold(v) {
      var rows := db1.collections[name];
      var row := Stored(v, if v.id.Some? then v.id.value else FreshId(rows));
      match SaveRow(rows, checksum, row)
      case None =>
      case Some(saved) =>
        assert FindOne(rows, CollidesWith(checksum, row)).None?;
        match IndexWhere(rows, WithId(row.id))
        case Some(k) =>
          ReplaceKeepsWellFormed(checksum, name, rows, k, row);
        case None =>
          AppendKeepsWellFormed(checksum, name, rows, row);
    }
  }

  /** An insert leaves the store well formed. */
  lemma InsertKeepsWellFormed(db: Db, checksum: Checksum, v: SessionValue)
    requires WellFormed(db, checksum) && v.sessionType.Some?
    ensures WellFormed(Insert(db, checksum, v).db, checksum)
  {
    var name := v.sessionType.value;
    var db1 := Provision(db, name);
    ProvisionKeepsWellFormed(db, checksum, name);
    if ConstraintsHold(v) {
      var rows := db1.collections[name];
      var row := Stored(v, if v.id.Some? then v.id.value else FreshId(rows));
      if InsertRow(rows, checksum, row).Some? {
        AppendKeepsWellFormed(checksum, name, rows, row);
      }
    }
  }

  /** The rows after the first of a well-formed collection are well formed and apart from the first. */
  lemma TailWellFormed(checksum: Checksum, name: string, rows: seq<Row>)
    requires CollectionWellFormed(checksum, name, rows) && rows != []
    ensures CollectionWellFormed(checksum, name, rows[1..])
    ensures rows[0].sessionType == name
    ensures forall y | y in rows[1..] :: rows[0].id != y.id && !SameKey(checksum, rows[0], y)
  {
    var tail := rows[1..];
    forall i, j | 0 <= i < j < |tail|
      ensures tail[i].id != tail[j].id && !SameKey(checksum, tail[i], tail[j])
    {
      assert tail[i] == rows[i + 1] && tail[j] == rows[j + 1];
    }
    forall y | y in tail
      ensures rows[0].id != y.id && !SameKey(checksum, rows[0], y)
    {
      var j :| 0 <= j < |tail| && tail[j] == y;
      assert rows[j + 1] == y;
    }
  }

  /** A row apart from every row of a well-formed collection can go in front of it. */
  lemma ConsWellFormed(checksum: Checksum, name: string, head: Row, rest: seq<Row>)
    requires CollectionWellFormed(checksum, name, rest) && head.sessionType == name
    requires forall y | y in rest :: head.id != y.id && !SameKey(checksum, head, y)
    ensures CollectionWellFormed(checksum, name, [head] + rest)
  {
    var r := [head] + rest;
    forall i, j | 0 <= i < j < |r|
      ensures r[i].id != r[j].id && !SameKey(checksum, r[i], r[j])
    {
      assert r[j] == rest[j - 1];
      if i > 0 {
        assert r[i] == rest[i - 1];
      }
    }
  }

  /** Removing rows keeps the rest of a collection well formed. */
  lemma {:induction false} KeepKeepsWellFormed(checksum: Checksum, name: string, rows: seq<Row>, p: Criteria)
    requires CollectionWellFormed(checksum, name, rows)
    ensures CollectionWellFormed(checksum, name, Keep(rows, p))
  {
    if rows != [] {
      TailWellFormed(checksum, name, rows);
      KeepKeepsWellFormed(checksum, name, rows[1..], p);
      if !p(rows[0]) {
        ConsWellFormed(checksum, name, rows[0], Keep(rows[1..], p));
      }
    }
  }

  /** A delete leaves the store well formed. */
  lemma DeleteKeepsWellFormed(db: Db, checksum: Checksum, source: string, sessionType: string, id: string)
    requires WellFormed(db, checksum)
    ensures WellFormed(Delete(db, source, sessionType, id).db, checksum)
  {
    if sessionType in db.collections {
      KeepKeepsWellFormed(checksum, sessionType, db.collections[sessionType], BySourceAndTypeAndId(source, sessionType, id));
    }
  }

  /** Because ids are unique within a collection, a delete by id removes at most one row. */
  lemma DeleteRemovesAtMostOne(db: Db, checksum: Checksum, source: string, sessionType: string, id: string)
    requires WellFormed(db, checksum)
    ensures Delete(db, source, sessionType, id).count <= 1
  {
    var rows := Rows(db, sessionType);
    var p := BySourceAndTypeAndId(source, sessionType, id);
    forall i, j | 0 <= i < j < |rows|
      ensures !(p(rows[i]) && p(rows[j]))
    {
      assert rows[i].id != rows[j].id;
    }
    CountAtMostOne(rows, p);
  }

  /**
   * The index over (source, type, checksum) is at least as strong as the
   * (source, type, data) index: no two rows of a collection share source,
   * type and payload.
   */
  lemma IndexCoversData(db: Db, checksum: Checksum, name: string, i: nat, j: nat)
    requires WellFormed(db, checksum) && name in db.collections
    requires i < j < |db.collections[name]|
    ensures var rows := db.collections[name];
            !(rows[i].source == rows[j].source && rows[i].sessionType == rows[j].sessionType && rows[i].data == rows[j].data)
  {
    var rows := db.collections[name];
    assert !SameKey(checksum, rows[i], rows[j]);
  }

  /** In a well-formed store the point lookup by id finds the one row holding that id. */
  lemma FindByIdFindsTheRow(db: Db, checksum: Checksum, row: Row)
    requires WellFormed(db, checksum) && row in Rows(db, row.sessionType)
    ensures FindOneBySourceAndTypeAndId(db, row.source, row.sessionType, row.id) == Some(row)
  {
    var rows := Rows(db, row.sessionType);
    var r := FindOneBySourceAndTypeAndId(db, row.source, row.sessionType, row.id);
    var i :| 0 <= i < |rows| && rows[i] == row;
    var j :| 0 <= j < |rows| && rows[j] == r.value;
    assert rows[i].id == rows[j].id;
  }

  /** In a well-formed store the lookup by checksum finds the one row holding that key. */
  lemma FindByChecksumFindsTheRow(db: Db, checksum: Checksum, row: Row)
    requires WellFormed(db, checksum) && row in Rows(db, row.sessionType)
    ensures FindOneBySourceAndTypeAndChecksum(db, checksum, row.source, row.sessionType, checksum(row.data)) == Some(row)
  {
    var rows := Rows(db, row.sessionType);
    var r := FindOneBySourceAndTypeAndChecksum(db, checksum, row.source, row.sessionType, checksum(row.data));
    var i :| 0 <= i < |rows| && rows[i] == row;
    var j :| 0 <= j < |rows| && rows[j] == r.value;
    assert SameKey(checksum, rows[i], rows[j]);
  }

  /**
   * The repository: the store's collections and indexes, updated in place by
   * the repository's writes.
   */
  class SessionRepository {
    const checksum: Checksum
    var collections: map<string, seq<Row>>
    var indexed: set<string>

    /** The store as a value. */
    function State(): Db
      reads this
    {
      Db(collections, indexed)
    }

    ghost predicate Valid()
      reads this
    {
      WellFormed(State(), checksum)
    }

    /** A repository over an empty store. */
    constructor (checksum: Checksum)
      ensures this.checksum == checksum && State() == Db(map[], {}) && Valid()
    {
      this.checksum := checksum;
      collections, indexed := map[], {};
    }

    /**
     * saveSession: provision the collection and its unique index when absent,
     * then save; a session saved without an id gets the store's id in place.
     */
    method SaveSession(session: Session) returns (outcome: WriteOutcome)
      requires Valid() && session.sessionType.Some?
      modifies this, session
      ensures Valid()
      ensures Write(State(), outcome) == Save(old(State()), checksum, old(session.Value()))
      ensures session.Value() == if outcome.Written? then old(session.Value()).(id := Some(outcome.row.id)) else old(session.Value())
    {
      SaveKeepsWellFormed(State(), checksum, session.Value());
      var name := session.sessionType.value;
      if name !in collections {
        collections := collections[name := []];
        indexed := indexed + {name};
      }
      var v := session.Value();
      if !ConstraintsHold(v) {
        return ConstraintViolation;
      }
      var rows := collections[name];
      var row := Stored(v, if v.id.Some? then v.id.value else FreshId(rows));
      match SaveRow(rows, checksum, row) {
        case None =>
          outcome := DuplicateKey;
        case Some(saved) =>
          collections := collections[name := saved];
          session.id := Some(row.id);
          outcome := Written(row);
      }
    }

    /** insertSession: provision as SaveSession does, then insert strictly. */
    method InsertSession(session: Session) returns (outcome: WriteOutcome)
      requires Valid() && session.sessionType.Some?
      modifies this, session
      ensures Valid()
      ensures Write(State(), outcome) == Insert(old(State()), checksum, old(session.Value()))
      ensures session.Value() == if outcome.Written? then old(session.Value()).(id := Some(outcome.row.id)) else old(session.Value())
    {
      InsertKeepsWellFormed(State(), checksum, session.Value());
      var name := session.sessionType.value;
      if name !in collections {
        collections := collections[name := []];
        indexed := indexed + {name};
      }
      var v := session.Value();
      if !ConstraintsHold(v) {
        return ConstraintViolation;
      }
      var rows := collections[name];
      var row := Stored(v, if v.id.Some? then v.id.value else FreshId(rows));
      match InsertRow(rows, checksum, row) {
        case None =>
          outcome := DuplicateKey;
        case Some(inserted) =>
          collections := collections[name := inserted];
          session.id := Some(row.id);
          outcome := Written(row);
      }
    }

    /** deleteBySourceAndTypeAndId: remove the matching rows and report how many went. */
    method DeleteBySourceAndTypeAndId(source: string, sessionType: string, id: string) returns (n: nat)
      requires Valid()
      modifies this
      ensures Valid() && n <= 1
      ensures Removal(State(), n) == Delete(old(State()), source, sessionType, id)
    {
      DeleteKeepsWellFormed(State(), checksum, source, sessionType, id);
      DeleteRemovesAtMostOne(State(), checksum, source, sessionType, id);
      if sessionType !in collections {
        return 0;
      }
      var rows := collections[sessionType];
      var kept := Keep(rows, BySourceAndTypeAndId(source, sessionType, id));
      collections := collections[sessionType := kept];
      n := |rows| - |kept|;
    }
  }
}
