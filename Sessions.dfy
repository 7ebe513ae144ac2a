/**
 * Session handlers of backend/complete_api.py: `PATCH /sessions/{id}`,
 * the status written by `POST /sessions/{id}/attendance`, and the WHERE
 * list of `GET /sessions/filter`.
 */
module Sessions {
  import opened Models
  import opened QueryParts

  /** The body of `PATCH /sessions/{id}`; both fields are optional. */
  datatype SessionUpdate = SessionUpdate(status: Option<SessionStatus>, notes: Option<string>)

  /** A status is stored whenever one is given: every status value is a non-empty string. */
  function StatusArg(s: Option<SessionStatus>): SqlArg
  {
    Text(if s.Some? then StatusText(s.value) else "")
  }

  /**
   * The body as the framework validates it before the handler runs: a
   * status, when given, must be the text of one of the statuses, otherwise
   * the request is rejected; the notes are taken as they are.
   */
  function ReadSessionUpdate(status: Option<string>, notes: Option<string>): (r: Option<SessionUpdate>)
    ensures r.Some? <==> status.None? || ParseStatus(status.value).Some?
    ensures r.Some? ==> r.value.notes == notes && (r.value.status.Some? <==> status.Some?)
    ensures r.Some? && status.Some? ==> StatusText(r.value.status.value) == status.value
  {
    if status.None? then Some(SessionUpdate(None, notes))
    else
      match ParseStatus(status.value)
      case Some(st) => Some(SessionUpdate(Some(st), notes))
      case None => None
  }

  /**
   * A validated request writes what it names: a status, when given, adds
   * its clause (and `completed_at` for a completion), so a request that
   * passes validation with a status is never an empty update.
   */
  lemma ValidatedWritesStatus(status: Option<string>, notes: Option<string>)
    requires ReadSessionUpdate(status, notes).Some?
    ensures var u := ReadSessionUpdate(status, notes).value;
      && SessionClauseCount(u) == (if status.Some? then 1 else 0) + (if status == Some("completed") then 1 else 0)
                                + (if IsSetText(notes) then 1 else 0)
      && (SessionClauseCount(u) == 0 <==> status.None? && !IsSetText(notes))
  {
    var u := ReadSessionUpdate(status, notes).value;
    if status.Some? {
      assert StatusText(u.status.value) == status.value;
      assert u.status == Some(Completed) <==> status == Some("completed");
    }
  }

  /** How many SET clauses an update writes: status, `completed_at` for a completion, notes. */
  function SessionClauseCount(u: SessionUpdate): nat
  {
    (if u.status.Some? then 1 else 0) + (if u.status == Some(Completed) then 1 else 0)
    + (if IsSetText(u.notes) then 1 else 0)
  }

  /**
   * The SET list of a session update before the key is appended: the
   * status on `$1` when given, followed by `completed_at = NOW()` when that
   * status is `completed`; then the notes, when non-empty, on the next
   * placeholder.
   */
  method SessionFields(u: SessionUpdate) returns (fields: seq<Clause>, values: seq<SqlArg>, idx: nat)
    ensures values == (if u.status.Some? then [StatusArg(u.status)] else [])
                    + (if IsSetText(u.notes) then [TextArg(u.notes)] else [])
    ensures idx == |values| + 1
    ensures (Bound("status", "=", 1, "") in fields) <==> u.status.Some?
    ensures (Literal("completed_at = NOW()") in fields) <==> u.status == Some(Completed)
    ensures (Bound("notes", "=", |values|, "") in fields) <==> IsSetText(u.notes)
    ensures |fields| == SessionClauseCount(u)
    ensures fields == [] <==> u.status.None? && !IsSetText(u.notes)
    ensures WellNumbered(fields, values)
  {
    fields := [];
    values := [];
    idx := 1;

    if u.status.Some? {
      fields := fields + [Bound("status", "=", idx, "")];
      values := values + [Text(StatusText(u.status.value))];
      idx := idx + 1;
      if u.status.value == Completed {
        fields := fields + [Literal("completed_at = NOW()")];
      }
    }
    ghost var statusPart := fields;
    assert Slots(statusPart) == (if u.status.Some? then [1] else []) by {
      if u.status.Some? {
        assert statusPart[1..] == (if u.status.value == Completed then [Literal("completed_at = NOW()")] else []);
        assert Slots(statusPart[1..]) == [];
      }
    }

    if IsSetText(u.notes) {
      fields := fields + [Bound("notes", "=", idx, "")];
      values := values + [Text(u.notes.value)];
      idx := idx + 1;
    }
    ghost var notesPart := fields[|statusPart|..];
    assert fields == statusPart + notesPart;
    assert Slots(notesPart) == (if IsSetText(u.notes) then [|values|] else []) by {
      if IsSetText(u.notes) {
        assert notesPart[1..] == [];
      }
    }
    SlotsAppend(statusPart, notesPart);
  }

  /**
   * The update as the handler builds it: no check that any field is set, so
   * with neither a status nor notes the SET list is empty and the statement
   * reads `UPDATE scheduled_sessions SET  WHERE id = $1::uuid`.
   */
  method UpdateSessionAsWritten(sessionId: string, u: SessionUpdate) returns (q: UpdateQuery)
    ensures q.table == "scheduled_sessions"
    ensures q.assignments == [] <==> u.status.None? && !IsSetText(u.notes)
    ensures q.args == (if u.status.Some? then [StatusArg(u.status)] else [])
                    + (if IsSetText(u.notes) then [TextArg(u.notes)] else []) + [Text(sessionId)]
    ensures |q.args| >= 1 && q.key == Bound("id", "=", |q.args|, "::uuid")
    ensures q.args[|q.args| - 1] == Text(sessionId)
    ensures Bound("status", "=", 1, "") in q.assignments <==> u.status.Some?
    ensures Literal("completed_at = NOW()") in q.assignments <==> u.status == Some(Completed)
    ensures Bound("notes", "=", |q.args| - 1, "") in q.assignments <==> IsSetText(u.notes)
    ensures |q.assignments| == SessionClauseCount(u)
    ensures WellNumbered(q.assignments + [q.key], q.args)
  {
    var fields, values, idx := SessionFields(u);
    values := values + [Text(sessionId)];
    q := UpdateQuery("scheduled_sessions", fields, Bound("id", "=", idx, "::uuid"), values);
    KeyAfter(fields, q.key, values);
  }

  /**
   * The update with the empty-request check of the client and workout
   * handlers: with neither a status nor notes it refuses with 400 instead of
   * issuing a statement with an empty SET list.
   */
  method UpdateSession(sessionId: string, u: SessionUpdate) returns (r: Result<UpdateQuery, ApiError>)
    ensures r.Failure? <==> u.status.None? && !IsSetText(u.notes)
    ensures r.Failure? ==> r.error == BadRequest("No fields to update")
    ensures r.Success? ==> r.value.assignments != []
    ensures r.Success? ==> r.value.args == (if u.status.Some? then [StatusArg(u.status)] else [])
                                         + (if IsSetText(u.notes) then [TextArg(u.notes)] else []) + [Text(sessionId)]
    ensures r.Success? ==> |r.value.args| >= 1 && r.value.key == Bound("id", "=", |r.value.args|, "::uuid")
    ensures r.Success? ==> r.value.args[|r.value.args| - 1] == Text(sessionId)
    ensures r.Success? ==> (Bound("status", "=", 1, "") in r.value.assignments <==> u.status.Some?)
    ensures r.Success? ==> (Literal("completed_at = NOW()") in r.value.assignments <==> u.status == Some(Completed))
    ensures r.Success? ==> (Bound("notes", "=", |r.value.args| - 1, "") in r.value.assignments <==> IsSetText(u.notes))
    ensures r.Success? ==> |r.value.assignments| == SessionClauseCount(u)
    ensures r.Success? ==> WellNumbered(r.value.assignments + [r.value.key], r.value.args)
  {
    var fields, values, idx := SessionFields(u);
    if fields == [] {
      return Failure(BadRequest("No fields to update"));
    }
    values := values + [Text(sessionId)];
    var key := Bound("id", "=", idx, "::uuid");
    KeyAfter(fields, key, values);
    r := Success(UpdateQuery("scheduled_sessions", fields, key, values));
  }

  /** Appending the key on the next placeholder keeps a query well numbered. */
  lemma KeyAfter(fields: seq<Clause>, key: Clause, values: seq<SqlArg>)
    requires |values| >= 1 && WellNumbered(fields, values[..|values| - 1])
    requires key == Bound("id", "=", |values|, "::uuid")
    ensures WellNumbered(fields + [key], values)
  {
    SlotsAppend(fields, [key]);
    assert [key][1..] == [];
  }

  /**
   * The request that shows the missing check: a PATCH with an empty body is
   * turned into a statement whose SET list is empty, bound to the id alone.
   */
  method EmptySessionPatch(sessionId: string) returns (q: UpdateQuery)
    ensures q.assignments == [] && q.args == [Text(sessionId)]
    ensures q.key == Bound("id", "=", 1, "::uuid")
  {
    q := UpdateSessionAsWritten(sessionId, SessionUpdate(None, None));
  }

  /**
   * The status `mark_session_attendance` stores: `attended` completes the
   * session, every other attendance value (absent, late, ...) cancels it.
   */
  function AttendanceStatus(attendance: string): (r: SessionStatus)
    ensures r == Completed <==> attendance == "attended"
    ensures r == Cancelled <==> attendance != "attended"
  {
    if attendance == "attended" then Completed else Cancelled
  }

  /** The fixed condition the session filter starts from. */
  const NotDeleted := Literal("ss.deleted_at IS NULL")

  /** The condition the session filter adds unless cancelled sessions are wanted. */
  const NotCancelled := Literal("ss.status != 'cancelled'")

  function FilterCandidates(status: Option<string>, clientId: Option<string>,
                            fromDate: Option<string>, toDate: Option<string>): seq<Candidate>
  {
    [ Candidate("ss.status", "=", "", TextArg(status), IsSetText(status)),
      Candidate("ss.client_id", "=", "::uuid", TextArg(clientId), IsSetText(clientId)),
      Candidate("ss.scheduled_at", ">=", "::timestamp", TextArg(fromDate), IsSetText(fromDate)),
      Candidate("ss.scheduled_at", "<=", "::timestamp", TextArg(toDate), IsSetText(toDate)) ]
  }

  /**
   * The WHERE list of `GET /sessions/filter`: `ss.deleted_at IS NULL`, then
   * one numbered condition per filter that is set, in the order status,
   * client, from, to; then `ss.status != 'cancelled'` exactly when
   * cancelled sessions are not requested.
   */
  method FilteredSessionsQuery(status: Option<string>, clientId: Option<string>,
                               fromDate: Option<string>, toDate: Option<string>,
                               includeCancelled: bool) returns (q: FilterQuery)
    ensures var chosen := Selected(FilterCandidates(status, clientId, fromDate, toDate));
      && q.conditions == [NotDeleted] + Bind(chosen, 1) + (if includeCancelled then [] else [NotCancelled])
      && q.args == Args(chosen)
    ensures q.conditions[0] == NotDeleted
    ensures NotCancelled in q.conditions <==> !includeCancelled
    ensures WellNumbered(q.conditions, q.args)
  {
    var cands := FilterCandidates(status, clientId, fromDate, toDate);
    var conditions := [NotDeleted];
    var params: seq<SqlArg> := [];
    var paramCount: nat := 1;
    conditions, params, paramCount := AddIfSet([NotDeleted], [], cands[0], conditions, params, paramCount);
    assert [] + [cands[0]] == cands[..1];
    conditions, params, paramCount := AddIfSet([NotDeleted], cands[..1], cands[1], conditions, params, paramCount);
    assert cands[..1] + [cands[1]] == cands[..2];
    conditions, params, paramCount := AddIfSet([NotDeleted], cands[..2], cands[2], conditions, params, paramCount);
    assert cands[..2] + [cands[2]] == cands[..3];
    conditions, params, paramCount := AddIfSet([NotDeleted], cands[..3], cands[3], conditions, params, paramCount);
    assert cands[..3] + [cands[3]] == cands;

    var tail := if includeCancelled then [] else [NotCancelled];
    FinishFilter([NotDeleted], cands, conditions, params, paramCount, tail);
    q := FilterQuery(conditions + tail, params);
  }
}
