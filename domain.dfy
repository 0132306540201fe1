/**
 * The Session entity: a mutable object holding an id, the owning source, the
 * session type and the parsed payload, with the bean-validation constraints
 * declared on its fields.
 */
module Domain {
  import opened Wrappers
  import opened Json

  /** The `@Size(min=3)` bound on `source`. */
  const MinSourceLength: nat := 3

  /** The two values the `@Pattern` on `type` admits. */
  const MainSession: string := "main_session"
  const VirtualCohort: string := "virtual_cohort"

  /** One failed field constraint, as reported in a constraint violation. */
  datatype Violation =
    | DataNull        // @NotNull on data
    | SourceNull      // @NotNull on source
    | SourceTooShort  // @Size(min=3) on source
    | TypeNull        // @NotNull on type
    | TypeMismatch    // @Pattern(regexp="main_session|virtual_cohort") on type

  /** The state of a Session object: each field may be null. */
  datatype SessionValue = SessionValue(id: Option<string>, source: Option<string>, sessionType: Option<string>, data: Doc)

  /** A session as it is persisted: it passed validation and carries an id. */
  datatype Row = Row(id: string, source: string, sessionType: string, data: Doc)

  /**
   * The length Java's `String.length()` reports, and so the length `@Size`
   * checks: the number of UTF-16 code units, in which a character above
   * U+FFFF takes two (a surrogate pair).
   */
  function Utf16Length(s: string): nat
  {
    if s == [] then 0 else (if s[0] as int > 0xFFFF then 2 else 1) + Utf16Length(s[1..])
  }

  /** A string has at least as many UTF-16 code units as characters, and at most twice as many. */
  lemma {:induction false} Utf16LengthBounds(s: string)
    ensures |s| <= Utf16Length(s) <= 2 * |s|
    ensures Utf16Length(s) == |s| <==> forall i | 0 <= i < |s| :: s[i] as int <= 0xFFFF
  {
    if s != [] {
      Utf16LengthBounds(s[1..]);
      if s[0] as int <= 0xFFFF {
        forall i | 0 <= i < |s[1..]|
          ensures s[1..][i] == s[i + 1]
        {
        }
      }
    }
  }

  /**
   * Bean validation of a session. Each annotation is checked on its own;
   * as in javax.validation, `@Size` and `@Pattern` accept a null value and
   * leave rejecting it to `@NotNull`.
   */
  function Validate(v: SessionValue): (violations: set<Violation>)
    ensures DataNull in violations <==> v.data == Null
    ensures SourceNull in violations <==> v.source.None?
    ensures TypeNull in violations <==> v.sessionType.None?
    ensures SourceTooShort in violations ==> v.source.Some?
    ensures TypeMismatch in violations ==> v.sessionType.Some?
  {
    (if v.data == Null then {DataNull} else {})
    + (if v.source.None? then {SourceNull} else if Utf16Length(v.source.value) < MinSourceLength then {SourceTooShort} else {})
    + (match v.sessionType
       case None => {TypeNull}
       case Some(t) => if t == MainSession || t == VirtualCohort then {} else {TypeMismatch})
  }

  /** A session passes validation when no constraint is violated. */
  predicate ConstraintsHold(v: SessionValue)
  {
    Validate(v) == {}
  }

  /**
   * What validation means field by field: non-null data, a non-null source of
   * at least 3 UTF-16 code units, and a non-null type that is one of the two admitted values.
   */
  lemma ConstraintsHoldExactly(v: SessionValue)
    ensures ConstraintsHold(v) <==>
              && v.data != Null
              && v.source.Some? && Utf16Length(v.source.value) >= MinSourceLength
              && v.sessionType.Some? && (v.sessionType.value == MainSession || v.sessionType.value == VirtualCohort)
  {
    if v.data == Null {
      assert DataNull in Validate(v);
    } else if v.source.None? {
      assert SourceNull in Validate(v);
    } else if Utf16Length(v.source.value) < MinSourceLength {
      assert SourceTooShort in Validate(v);
    } else if v.sessionType.None? {
      assert TypeNull in Validate(v);
    } else if !(v.sessionType.value == MainSession || v.sessionType.value == VirtualCohort) {
      assert TypeMismatch in Validate(v);
    }
  }

  /** The row a session that passed validation is stored as, under the given id. */
  function Stored(v: SessionValue, id: string): Row
    requires v.source.Some? && v.sessionType.Some?
  {
    Row(id, v.source.value, v.sessionType.value, v.data)
  }

  /** A Session object, updated in place by its setters and by the store. */
  class Session {
    var id: Option<string>
    var data: Doc
    var source: Option<string>
    var sessionType: Option<string>

    /** The current field values. */
    function Value(): SessionValue
      reads this
    {
      SessionValue(id, source, sessionType, data)
    }

    /** The private no-argument constructor: every field is null. */
    constructor Empty()
      ensures Value() == SessionValue(None, None, None, Null)
    {
      id, data, source, sessionType := None, Null, None, None;
    }

    /**
     * The public constructor `Session(source, type, data)`: sets source and type,
     * then the parsed data, and leaves the id unset. A parse failure is thrown
     * out of the constructor, so no session is returned.
     */
    static method Create(source: Option<string>, sessionType: Option<string>, raw: string, parse: Parser)
      returns (r: Option<Session>)
      ensures r.None? <==> parse(raw).None?
      ensures r.Some? ==> fresh(r.value) && r.value.Value() == SessionValue(None, source, sessionType, parse(raw).value)
    {
      var s := new Session.Empty();
      s.SetSource(source);
      s.SetType(sessionType);
      var parsed := s.SetData(raw, parse);
      r := if parsed then Some(s) else None;
    }

    /**
     * The state the store's object mapper gives a Session it reads back:
     * the private constructor followed by field injection.
     */
    constructor Materialize(row: Row)
      ensures Value() == SessionValue(Some(row.id), Some(row.source), Some(row.sessionType), row.data)
    {
      id, data, source, sessionType := Some(row.id), row.data, Some(row.source), Some(row.sessionType);
    }

    /**
     * Replaces the payload with the parsed form of `raw`. When the parser throws,
     * the assignment never happens and `parsed` is false.
     */
    method SetData(raw: string, parse: Parser) returns (parsed: bool)
      modifies this
      ensures parsed <==> parse(raw).Some?
      ensures parsed ==> Value() == old(Value()).(data := parse(raw).value)
      ensures !parsed ==> Value() == old(Value())
    {
      match parse(raw)
      case None =>
        parsed := false;
      case Some(d) =>
        data := d;
        parsed := true;
    }

    method SetId(newId: string)
      modifies this
      ensures Value() == old(Value()).(id := Some(newId))
    {
      id := Some(newId);
    }

    method SetType(newType: Option<string>)
      modifies this
      ensures Value() == old(Value()).(sessionType := newType)
    {
      sessionType := newType;
    }

    method SetSource(newSource: Option<string>)
      modifies this
      ensures Value() == old(Value()).(source := newSource)
    {
      source := newSource;
    }
  }
}
