/**
 * What the service promises across calls: get-or-create is idempotent, the
 * dedup re-read returns the stored session, strict create never returns an
 * existing session, written payloads read back, updates keep the identity of
 * a session, deletes remove at most one row, and every operation keeps the
 * store's unique indexes intact.
 */
module ServiceProperties {
  import opened Wrappers
  import opened Json
  import opened Domain
  import opened DocumentStore
  import opened Repository
  import opened Service

  /** Different payloads never share a checksum. */
  ghost predicate ChecksumInjective(checksum: Checksum)
  {
    forall a, b :: checksum(a) == checksum(b) ==> a == b
  }

  // Every service operation keeps the store well formed.

  lemma AddKeepsWellFormed(db: Db, checksum: Checksum, parse: Parser, source: string, sessionType: string, raw: string)
    requires WellFormed(db, checksum)
    ensures WellFormed(Add(db, checksum, parse, source, sessionType, raw).db, checksum)
  {
    if parse(raw).Some? {
      SaveKeepsWellFormed(db, checksum, Draft(None, source, sessionType, parse(raw).value));
    }
  }

  lemma CreateNewKeepsWellFormed(db: Db, checksum: Checksum, parse: Parser, id: Option<string>, source: string, sessionType: string, raw: string)
    requires WellFormed(db, checksum)
    ensures WellFormed(CreateNew(db, checksum, parse, id, source, sessionType, raw).db, checksum)
  {
    if parse(raw).Some? {
      InsertKeepsWellFormed(db, checksum, Draft(id, source, sessionType, parse(raw).value));
    }
  }

  lemma UpdateKeepsWellFormed(db: Db, checksum: Checksum, parse: Parser, source: string, sessionType: string, id: string, raw: string)
    requires WellFormed(db, checksum)
    ensures WellFormed(Update(db, checksum, parse, source, sessionType, id, raw).db, checksum)
  {
    var saved := FindOneBySourceAndTypeAndId(db, source, sessionType, id);
    if saved.Some? && parse(raw).Some? {
      var s := saved.value;
      SaveKeepsWellFormed(db, checksum, SessionValue(Some(s.id), Some(s.source), Some(s.sessionType), parse(raw).value));
    }
  }

  lemma RemoveKeepsWellFormed(db: Db, checksum: Checksum, source: string, sessionType: string, id: string)
    requires WellFormed(db, checksum)
    ensures WellFormed(Remove(db, source, sessionType, id).db, checksum)
  {
    DeleteKeepsWellFormed(db, checksum, source, sessionType, id);
  }

  // addSession

  /**
   * Dedup on conflict: when a stored session already has the caller's source,
   * type and payload checksum, addSession returns that session and the store
   * does not change.
   */
  lemma AddReturnsExisting(db: Db, checksum: Checksum, parse: Parser, source: string, sessionType: string, raw: string, existing: Row)
    requires WellFormed(db, checksum)
    requires parse(raw).Some? && ConstraintsHold(Draft(None, source, sessionType, parse(raw).value))
    requires existing in Rows(db, sessionType) && existing.source == source
    requires checksum(existing.data) == checksum(parse(raw).value)
    ensures Add(db, checksum, parse, source, sessionType, raw) == Reply(db, Ok(existing))
  {
    assert sessionType in db.collections;
    FindByChecksumFindsTheRow(db, checksum, existing);
  }

  /**
   * When no stored session has the caller's source, type and checksum,
   * addSession appends exactly one new row, under an id no row had, holding
   * the parsed payload.
   */
  lemma AddCreatesNew(db: Db, checksum: Checksum, parse: Parser, source: string, sessionType: string, raw: string)
    requires parse(raw).Some? && ConstraintsHold(Draft(None, source, sessionType, parse(raw).value))
    requires forall x | x in Rows(db, sessionType) ::
               !(x.source == source && x.sessionType == sessionType && checksum(x.data) == checksum(parse(raw).value))
    ensures var r := Add(db, checksum, parse, source, sessionType, raw);
            && r.result.Ok?
            && r.result.value == Row(r.result.value.id, source, sessionType, parse(raw).value)
            && Rows(r.db, sessionType) == Rows(db, sessionType) + [r.result.value]
            && (forall x | x in Rows(db, sessionType) :: x.id != r.result.value.id)
  {
    var r := Add(db, checksum, parse, source, sessionType, raw);
    var w := Save(db, checksum, Draft(None, source, sessionType, parse(raw).value));
    assert w.outcome.Written?;
    assert r.result.value !in Rows(db, sessionType);
  }

  /**
   * addSession is idempotent: repeating a successful call with the same
   * source, type and payload returns the same session and adds no row.
   */
  lemma AddIsIdempotent(db: Db, checksum: Checksum, parse: Parser, source: string, sessionType: string, raw: string)
    requires WellFormed(db, checksum)
    ensures var first := Add(db, checksum, parse, source, sessionType, raw);
            first.result.Ok? ==> Add(first.db, checksum, parse, source, sessionType, raw) == first
  {
    var first := Add(db, checksum, parse, source, sessionType, raw);
    if first.result.Ok? {
      var d := parse(raw).value;
      var w := Save(db, checksum, Draft(None, source, sessionType, d));
      assert !w.outcome.ConstraintViolation?;
      AddKeepsWellFormed(db, checksum, parse, source, sessionType, raw);
      AddReturnsExisting(first.db, checksum, parse, source, sessionType, raw, first.result.value);
    }
  }

  /** addSession reports SessionInvalid exactly when the payload does not parse or the session breaks a constraint. */
  lemma AddRejectsInvalid(db: Db, checksum: Checksum, parse: Parser, source: string, sessionType: string, raw: string)
    ensures var r := Add(db, checksum, parse, source, sessionType, raw);
            && (r.result.Err? <==> parse(raw).None? || !ConstraintsHold(Draft(None, source, sessionType, parse(raw).value)))
            && (r.result.Err? ==> forall name :: Rows(r.db, name) == Rows(db, name))
  {
    var r := Add(db, checksum, parse, source, sessionType, raw);
    if r.result.Err? && parse(raw).Some? {
      forall name
        ensures Rows(r.db, name) == Rows(db, name)
      {
        if name != sessionType {
          assert name in r.db.collections <==> name in db.collections;
        }
      }
    }
  }

  /**
   * Round trip: the session addSession returns reads back by its id, and its
   * payload has the checksum of the parsed input; with a checksum that tells
   * payloads apart it is the parsed input itself.
   */
  lemma AddThenGet(db: Db, checksum: Checksum, parse: Parser, source: string, sessionType: string, raw: string)
    requires WellFormed(db, checksum)
    ensures var r := Add(db, checksum, parse, source, sessionType, raw);
            r.result.Ok? ==>
              && Get(r.db, source, sessionType, r.result.value.id) == Ok(r.result.value)
              && checksum(r.result.value.data) == checksum(parse(raw).value)
              && (ChecksumInjective(checksum) ==> r.result.value.data == parse(raw).value)
  {
    var r := Add(db, checksum, parse, source, sessionType, raw);
    if r.result.Ok? {
      AddKeepsWellFormed(db, checksum, parse, source, sessionType, raw);
      FindByIdFindsTheRow(r.db, checksum, r.result.value);
    }
  }

  /** Two adds under the same source and type whose payloads differ in checksum get different ids. */
  lemma AddDistinctPayloadsDistinctIds(db: Db, checksum: Checksum, parse: Parser, source: string, sessionType: string, raw1: string, raw2: string)
    requires WellFormed(db, checksum)
    requires parse(raw1).Some? && parse(raw2).Some? && checksum(parse(raw1).value) != checksum(parse(raw2).value)
    ensures var first := Add(db, checksum, parse, source, sessionType, raw1);
            var second := Add(first.db, checksum, parse, source, sessionType, raw2);
            first.result.Ok? && second.result.Ok? ==> first.result.value.id != second.result.value.id
  {
    var first := Add(db, checksum, parse, source, sessionType, raw1);
    var second := Add(first.db, checksum, parse, source, sessionType, raw2);
    if first.result.Ok? && second.result.Ok? {
      AddKeepsWellFormed(db, checksum, parse, source, sessionType, raw1);
      AddKeepsWellFormed(first.db, checksum, parse, source, sessionType, raw2);
      var a, b := first.result.value, second.result.value;
      assert a in Rows(second.db, sessionType);
      var rows := second.db.collections[sessionType];
      var i :| 0 <= i < |rows| && rows[i] == a;
      var j :| 0 <= j < |rows| && rows[j] == b;
      assert a != b;
      assert i != j;
      if i < j {
        assert rows[i].id != rows[j].id;
      } else {
        assert rows[j].id != rows[i].id;
      }
    }
  }

  // createNewSession

  /**
   * Strictness: a stored session with the caller's id, or with the caller's
   * source, type and checksum, makes createNewSession raise
   * SessionAlreadyExists and leaves the store as it was.
   */
  lemma CreateNewRejectsDuplicate(db: Db, checksum: Checksum, parse: Parser, id: Option<string>, source: string, sessionType: string, raw: string, existing: Row)
    requires WellFormed(db, checksum)
    requires parse(raw).Some? && ConstraintsHold(Draft(id, source, sessionType, parse(raw).value))
    requires existing in Rows(db, sessionType)
    requires Some(existing.id) == id || (existing.source == source && checksum(existing.data) == checksum(parse(raw).value))
    ensures CreateNew(db, checksum, parse, id, source, sessionType, raw) == Reply(db, Err(SessionAlreadyExists))
  {
    assert sessionType in db.collections;
    var v := Draft(id, source, sessionType, parse(raw).value);
    var rows := db.collections[sessionType];
    var row := Stored(v, if v.id.Some? then v.id.value else FreshId(rows));
    assert existing.id == row.id || SameKey(checksum, existing, row);
    assert InsertRow(rows, checksum, row).None?;
  }

  /**
   * createNewSession stores a valid session that clashes with no stored row,
   * on id or on source, type and checksum: it is appended under the caller's
   * id when one is given.
   */
  lemma CreateNewCreates(db: Db, checksum: Checksum, parse: Parser, id: Option<string>, source: string, sessionType: string, raw: string)
    requires parse(raw).Some? && ConstraintsHold(Draft(id, source, sessionType, parse(raw).value))
    requires forall x | x in Rows(db, sessionType) ::
               && Some(x.id) != id
               && !(x.source == source && x.sessionType == sessionType && checksum(x.data) == checksum(parse(raw).value))
    ensures var r := CreateNew(db, checksum, parse, id, source, sessionType, raw);
            && r.result.Ok?
            && r.result.value == Row(r.result.value.id, source, sessionType, parse(raw).value)
            && (id.Some? ==> r.result.value.id == id.value)
            && Rows(r.db, sessionType) == Rows(db, sessionType) + [r.result.value]
  {
  }

  /** createNewSession after a successful addSession of the same payload raises SessionAlreadyExists. */
  lemma AddThenCreateNewFails(db: Db, checksum: Checksum, parse: Parser, source: string, sessionType: string, raw: string)
    requires WellFormed(db, checksum)
    ensures var first := Add(db, checksum, parse, source, sessionType, raw);
            first.result.Ok? ==>
              CreateNew(first.db, checksum, parse, None, source, sessionType, raw) == Reply(first.db, Err(SessionAlreadyExists))
  {
    var first := Add(db, checksum, parse, source, sessionType, raw);
    if first.result.Ok? {
      var d := parse(raw).value;
      assert !Save(db, checksum, Draft(None, source, sessionType, d)).outcome.ConstraintViolation?;
      AddKeepsWellFormed(db, checksum, parse, source, sessionType, raw);
      CreateNewRejectsDuplicate(first.db, checksum, parse, None, source, sessionType, raw, first.result.value);
    }
  }

  // updateSession

  /**
   * A successful update replaces only the payload of the session with that id:
   * the session reads back with its id, source and type and the new payload,
   * and every other row of the collection is kept.
   */
  lemma UpdateReplacesOnlyData(db: Db, checksum: Checksum, parse: Parser, source: string, sessionType: string, id: string, raw: string)
    requires WellFormed(db, checksum)
    ensures var r := Update(db, checksum, parse, source, sessionType, id, raw);
            r.result.Ok? ==>
              var updated := Row(id, source, sessionType, parse(raw).value);
              && Get(r.db, source, sessionType, id) == Ok(updated)
              && forall x :: x in Rows(r.db, sessionType) <==> x == updated || (x in Rows(db, sessionType) && x.id != id)
  {
    var r := Update(db, checksum, parse, source, sessionType, id, raw);
    if r.result.Ok? {
      assert UniqueIds(Rows(db, sessionType));
      UpdateKeepsWellFormed(db, checksum, parse, source, sessionType, id, raw);
      FindByIdFindsTheRow(r.db, checksum, Row(id, source, sessionType, parse(raw).value));
    }
  }

  /**
   * An update of a stored session with a payload that parses, passes
   * validation and collides with no other id succeeds.
   */
  lemma UpdateSucceeds(db: Db, checksum: Checksum, parse: Parser, source: string, sessionType: string, id: string, raw: string)
    requires Get(db, source, sessionType, id).Ok?
    requires parse(raw).Some? && ConstraintsHold(SessionValue(Some(id), Some(source), Some(sessionType), parse(raw).value))
    requires forall x | x in Rows(db, sessionType) ::
               !(x.id != id && x.source == source && x.sessionType == sessionType && checksum(x.data) == checksum(parse(raw).value))
    ensures Update(db, checksum, parse, source, sessionType, id, raw).result == Ok(())
  {
  }

  /** An update of a session that is not stored raises SessionNotFound and changes nothing. */
  lemma UpdateOfMissingSession(db: Db, checksum: Checksum, parse: Parser, source: string, sessionType: string, id: string, raw: string)
    requires Get(db, source, sessionType, id).Err?
    ensures Update(db, checksum, parse, source, sessionType, id, raw) == Reply(db, Err(SessionNotFound))
  {
  }

  // deleteSession

  /** In a well-formed store deleteSession succeeds exactly when the session is stored, and never removes more than one row. */
  lemma RemoveSucceedsIffStored(db: Db, checksum: Checksum, source: string, sessionType: string, id: string)
    requires WellFormed(db, checksum)
    ensures Remove(db, source, sessionType, id).result.Ok? <==> Get(db, source, sessionType, id).Ok?
    ensures |Rows(db, sessionType)| - |Rows(Remove(db, source, sessionType, id).db, sessionType)| <= 1
  {
    var rows := Rows(db, sessionType);
    var p := BySourceAndTypeAndId(source, sessionType, id);
    DeleteRemovesAtMostOne(db, checksum, source, sessionType, id);
    var g := Get(db, source, sessionType, id);
    if g.Ok? {
      assert g.value in Find(rows, p);
    } else {
      CountNone(rows, p);
    }
  }

  /** After deleteSession the session no longer reads back. */
  lemma RemoveThenGet(db: Db, source: string, sessionType: string, id: string)
    ensures Get(Remove(db, source, sessionType, id).db, source, sessionType, id) == Err(SessionNotFound)
  {
  }
}
