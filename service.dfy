/**
 * The session service: get-or-create with dedup on conflict, strict create,
 * listing, ad-hoc query, and the point operations get, update and delete,
 * with the repository's failures mapped to the service's exceptions.
 *
 * Each operation is given first as a function of the store before the call
 * and then as a method of SessionService, proved equal to that function.
 */
module Service {
  import opened Wrappers
  import opened Json
  import opened Domain
  import opened DocumentStore
  import opened Repository

  /** The exceptions the service raises. */
  datatype Error =
    | SessionInvalid        // SessionInvalidException
    | SessionAlreadyExists  // SessionAlreadyExists
    | SessionNotFound       // SessionNotFoundException
    | SessionQueryInvalid   // SessionQueryInvalidException
    | UncaughtDuplicateKey  // the store's DuplicateKeyException, which updateSession lets through

  /** The store after a service call, and what the call returned or raised. */
  datatype Reply<T> = Reply(db: Db, result: Result<T, Error>)

  /** The session the service builds from the caller's arguments once the payload has parsed. */
  function Draft(id: Option<string>, source: string, sessionType: string, data: Doc): SessionValue
  {
    SessionValue(id, Some(source), Some(sessionType), data)
  }

  /**
   * addSession: save the session; on a duplicate key, return the stored
   * session with the same source, type and checksum instead of failing.
   * A parse failure or a constraint violation is SessionInvalid.
   */
  function Add(db: Db, checksum: Checksum, parse: Parser, source: string, sessionType: string, raw: string): (r: Reply<Row>)
    ensures parse(raw).None? ==> r == Reply(db, Err(SessionInvalid))
    ensures r.result.Err? ==> r.result.error == SessionInvalid && r.db == (if parse(raw).None? then db else Provision(db, sessionType))
    ensures r.result.Ok? ==>
              var row := r.result.value;
              && parse(raw).Some?
              && row in Rows(r.db, sessionType)
              && row.source == source && row.sessionType == sessionType
              && checksum(row.data) == checksum(parse(raw).value)
              && ((r.db == db && row in Rows(db, sessionType)) ||
                  (Rows(r.db, sessionType) == Rows(db, sessionType) + [row] && row.data == parse(raw).value))
    ensures r.result.Ok? ==>
              && r.db.collections - {sessionType} == db.collections - {sessionType}
              && r.db.indexed == Provision(db, sessionType).indexed
  {
    match parse(raw)
    case None => Reply(db, Err(SessionInvalid))
    case Some(d) =>
      var w := Save(db, checksum, Draft(None, source, sessionType, d));
      match w.outcome
      case Written(row) => Reply(w.db, Ok(row))
      case ConstraintViolation => Reply(w.db, Err(SessionInvalid))
      case DuplicateKey =>
        var found := FindOneBySourceAndTypeAndChecksum(w.db, checksum, source, sessionType, checksum(d));
        Reply(w.db, Ok(found.value))
  }

  /**
   * createNewSession: insert strictly, under the caller's id when one is given.
   * A duplicate key, on the id or on source, type and checksum, is
   * SessionAlreadyExists; any other failure is SessionInvalid.
   */
  function CreateNew(db: Db, checksum: Checksum, parse: Parser, id: Option<string>, source: string, sessionType: string, raw: string): (r: Reply<Row>)
    ensures parse(raw).None? ==> r == Reply(db, Err(SessionInvalid))
    ensures r.result.Err? ==> r.db == (if parse(raw).None? then db else Provision(db, sessionType))
    ensures r.result.Err? ==> r.result.error == SessionInvalid || r.result.error == SessionAlreadyExists
    ensures r.result == Err(SessionInvalid) <==>
              parse(raw).None? || !ConstraintsHold(Draft(id, source, sessionType, parse(raw).value))
    ensures r.result == Err(SessionAlreadyExists) <==>
              && parse(raw).Some? && ConstraintsHold(Draft(id, source, sessionType, parse(raw).value))
              && exists x | x in Rows(db, sessionType) ::
                   || Some(x.id) == id
                   || (x.source == source && x.sessionType == sessionType && checksum(x.data) == checksum(parse(raw).value))
    ensures r.result.Ok? ==>
              var row := r.result.value;
              && parse(raw).Some?
              && row == Row(row.id, source, sessionType, parse(raw).value)
              && (id.Some? ==> row.id == id.value)
              && Rows(r.db, sessionType) == Rows(db, sessionType) + [row]
              && (forall x | x in Rows(db, sessionType) :: x.id != row.id && !(x.source == source && x.sessionType == sessionType && checksum(x.data) == checksum(row.data)))
              && r.db.collections - {sessionType} == db.collections - {sessionType}
              && r.db.indexed == Provision(db, sessionType).indexed
  {
    match parse(raw)
    case None => Reply(db, Err(SessionInvalid))
    case Some(d) =>
      var w := Insert(db, checksum, Draft(id, source, sessionType, d));
      match w.outcome
      case Written(row) => Reply(w.db, Ok(row))
      case DuplicateKey => Reply(w.db, Err(SessionAlreadyExists))
      case ConstraintViolation => Reply(w.db, Err(SessionInvalid))
  }

  /** getSession: the row of that source, type and id, or SessionNotFound. */
  function Get(db: Db, source: string, sessionType: string, id: string): (r: Result<Row, Error>)
    ensures r.Ok? ==> r.value in Rows(db, sessionType) && r.value.source == source && r.value.sessionType == sessionType && r.value.id == id
    ensures r.Err? ==> r.error == SessionNotFound
    ensures r.Err? <==> forall x | x in Rows(db, sessionType) :: !(x.source == source && x.sessionType == sessionType && x.id == id)
  {
    match FindOneBySourceAndTypeAndId(db, source, sessionType, id)
    case Some(row) => Ok(row)
    case None => Err(SessionNotFound)
  }

  /**
   * updateSession: replace the payload of the row of that source, type and id
   * and save it back. A missing row is SessionNotFound; a parse failure or a
   * constraint violation is SessionInvalid; a duplicate key is not caught.
   */
  function Update(db: Db, checksum: Checksum, parse: Parser, source: string, sessionType: string, id: string, raw: string): (r: Reply<()>)
    ensures r.result == Err(SessionNotFound) <==> Get(db, source, sessionType, id).Err?
    ensures r.result == Err(SessionInvalid) <==>
              && Get(db, source, sessionType, id).Ok?
              && (parse(raw).None? || !ConstraintsHold(SessionValue(Some(id), Some(source), Some(sessionType), parse(raw).value)))
    ensures r.result == Err(UncaughtDuplicateKey) <==>
              && Get(db, source, sessionType, id).Ok?
              && parse(raw).Some? && ConstraintsHold(SessionValue(Some(id), Some(source), Some(sessionType), parse(raw).value))
              && exists x | x in Rows(db, sessionType) ::
                   x.id != id && x.source == source && x.sessionType == sessionType && checksum(x.data) == checksum(parse(raw).value)
    ensures r.result.Err? ==> r.result.error in {SessionNotFound, SessionInvalid, UncaughtDuplicateKey}
    ensures r.result.Err? ==> r.db == db
    ensures r.result.Ok? ==>
              && parse(raw).Some?
              && Row(id, source, sessionType, parse(raw).value) in Rows(r.db, sessionType)
              && r.db.collections - {sessionType} == db.collections - {sessionType}
  {
    match FindOneBySourceAndTypeAndId(db, source, sessionType, id)
    case None => Reply(db, Err(SessionNotFound))
    case Some(saved) =>
      match parse(raw)
      case None => Reply(db, Err(SessionInvalid))
      case Some(d) =>
        var w := Save(db, checksum, SessionValue(Some(saved.id), Some(saved.source), Some(saved.sessionType), d));
        match w.outcome
        case Written(_) => Reply(w.db, Ok(()))
        case ConstraintViolation => Reply(w.db, Err(SessionInvalid))
        case DuplicateKey => Reply(w.db, Err(UncaughtDuplicateKey))
  }

  /** deleteSession: delete by source, type and id; anything but exactly one row removed is SessionNotFound. */
  function Remove(db: Db, source: string, sessionType: string, id: string): (r: Reply<()>)
    ensures r.result.Ok? <==> Count(Rows(db, sessionType), BySourceAndTypeAndId(source, sessionType, id)) == 1
    ensures r.result.Err? ==> r.result.error == SessionNotFound
    ensures forall x :: x in Rows(r.db, sessionType) <==>
              x in Rows(db, sessionType) && !(x.source == source && x.sessionType == sessionType && x.id == id)
    ensures r.db.collections - {sessionType} == db.collections - {sessionType}
  {
    var removal := Delete(db, source, sessionType, id);
    if removal.count != 1 then Reply(removal.db, Err(SessionNotFound))
    else Reply(removal.db, Ok(()))
  }

  /**
   * The service over one repository. The JSON parser and the compiler of
   * ad-hoc queries are library code outside this model and are given to it.
   */
  class SessionService {
    const repo: SessionRepository
    const parse: Parser
    const compileQuery: string -> Option<DocFilter>

    ghost predicate Valid()
      reads this, repo
    {
      repo.Valid()
    }

    constructor (repo: SessionRepository, parse: Parser, compileQuery: string -> Option<DocFilter>)
      requires repo.Valid()
      ensures this.repo == repo && this.parse == parse && this.compileQuery == compileQuery
      ensures Valid()
    {
      this.repo := repo;
      this.parse := parse;
      this.compileQuery := compileQuery;
    }

    /** addSession: get-or-create, resolving a duplicate key by re-reading the stored session. */
    method AddSession(source: string, sessionType: string, raw: string) returns (r: Result<Row, Error>)
      requires Valid()
      modifies repo
      ensures Valid()
      ensures Reply(repo.State(), r) == Add(old(repo.State()), repo.checksum, parse, source, sessionType, raw)
    {
      var session := new Session.Empty();
      session.SetSource(Some(source));
      session.SetType(Some(sessionType));
      var parsed := session.SetData(raw, parse);
      if !parsed {
        return Err(SessionInvalid);
      }
      var outcome := repo.SaveSession(session);
      match outcome {
        case Written(_) =>
          r := Ok(Row(session.id.value, session.source.value, session.sessionType.value, session.data));
        case DuplicateKey =>
          var found := FindOneBySourceAndTypeAndChecksum(repo.State(), repo.checksum, source, sessionType, repo.checksum(session.data));
          r := Ok(found.value);
        case ConstraintViolation =>
          r := Err(SessionInvalid);
      }
    }

    /** createNewSession: strict create, with the caller's id when it is given. */
    method CreateNewSession(id: Option<string>, source: string, sessionType: string, raw: string) returns (r: Result<Row, Error>)
      requires Valid()
      modifies repo
      ensures Valid()
      ensures Reply(repo.State(), r) == CreateNew(old(repo.State()), repo.checksum, parse, id, source, sessionType, raw)
    {
      var session := new Session.Empty();
      if id.Some? {
        session.SetId(id.value);
      }
      session.SetSource(Some(source));
      session.SetType(Some(sessionType));
      var parsed := session.SetData(raw, parse);
      if !parsed {
        return Err(SessionInvalid);
      }
      var outcome := repo.InsertSession(session);
      match outcome {
        case Written(_) =>
          r := Ok(Row(session.id.value, session.source.value, session.sessionType.value, session.data));
        case DuplicateKey =>
          r := Err(SessionAlreadyExists);
        case ConstraintViolation =>
          r := Err(SessionInvalid);
      }
    }

    /** getSessions: every session of that source and type; an empty list when there are none. */
    method GetSessions(source: string, sessionType: string) returns (sessions: seq<Row>)
      ensures forall x :: x in sessions <==> x in Rows(repo.State(), sessionType) && x.source == source && x.sessionType == sessionType
      ensures |sessions| == Count(Rows(repo.State(), sessionType), BySourceAndType(source, sessionType))
      ensures sessionType !in repo.collections ==> sessions == []
      ensures sessions == FindBySourceAndType(repo.State(), source, sessionType)
    {
      sessions := FindBySourceAndType(repo.State(), source, sessionType);
    }

    /** getSessionsByQuery: a query the store cannot run is SessionQueryInvalid; no match is an empty list. */
    method GetSessionsByQuery(source: string, sessionType: string, query: string) returns (r: Result<seq<Row>, Error>)
      ensures r.Err? <==> compileQuery(query).None?
      ensures r.Err? ==> r.error == SessionQueryInvalid
      ensures r.Ok? ==> forall x :: x in r.value <==>
                x in Rows(repo.State(), sessionType) && x.source == source && x.sessionType == sessionType && compileQuery(query).value(x.data)
      ensures r.Ok? ==> |r.value| == Count(Rows(repo.State(), sessionType), BySourceAndTypeAndQuery(source, sessionType, compileQuery(query).value))
      ensures r.Ok? ==> r.value == FindBySourceAndTypeAndQuery(repo.State(), source, sessionType, compileQuery(query).value)
    {
      match compileQuery(query) {
        case None =>
          r := Err(SessionQueryInvalid);
        case Some(q) =>
          r := Ok(FindBySourceAndTypeAndQuery(repo.State(), source, sessionType, q));
      }
    }

    /** getSession: the stored session, or SessionNotFound. */
    method GetSession(source: string, sessionType: string, id: string) returns (r: Result<Row, Error>)
      ensures r.Ok? ==> r.value in Rows(repo.State(), sessionType) && r.value.source == source && r.value.sessionType == sessionType && r.value.id == id
      ensures r.Err? <==> forall x | x in Rows(repo.State(), sessionType) :: !(x.source == source && x.sessionType == sessionType && x.id == id)
      ensures r == Get(repo.State(), source, sessionType, id)
    {
      var session := FindOneBySourceAndTypeAndId(repo.State(), source, sessionType, id);
      if session.Some? {
        return Ok(session.value);
      }
      r := Err(SessionNotFound);
    }

    /** updateSession: replace the payload of the stored session. */
    method UpdateSession(source: string, sessionType: string, id: string, raw: string) returns (r: Result<(), Error>)
      requires Valid()
      modifies repo
      ensures Valid()
      ensures Reply(repo.State(), r) == Update(old(repo.State()), repo.checksum, parse, source, sessionType, id, raw)
    {
      var saved := FindOneBySourceAndTypeAndId(repo.State(), source, sessionType, id);
      if saved.None? {
        return Err(SessionNotFound);
      }
      var session := new Session.Materialize(saved.value);
      var parsed := session.SetData(raw, parse);
      if !parsed {
        return Err(SessionInvalid);
      }
      var outcome := repo.SaveSession(session);
      match outcome {
        case Written(_) =>
          r := Ok(());
        case ConstraintViolation =>
          r := Err(SessionInvalid);
        case DuplicateKey =>
          r := Err(UncaughtDuplicateKey);
      }
    }

    /** deleteSession: SessionNotFound unless exactly one row was removed. */
    method DeleteSession(source: string, sessionType: string, id: string) returns (r: Result<(), Error>)
      requires Valid()
      modifies repo
      ensures Valid()
      ensures Reply(repo.State(), r) == Remove(old(repo.State()), source, sessionType, id)
    {
      var numberDeleted := repo.DeleteBySourceAndTypeAndId(source, sessionType, id);
      if numberDeleted != 1 {
        return Err(SessionNotFound);
      }
      r := Ok(());
    }
  }
}
