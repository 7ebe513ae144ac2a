/**
 * `PATCH /clients/{client_id}` (backend/complete_api.py): the UPDATE that
 * the handler assembles from the optional fields of a `ClientUpdate`.
 */
module Clients {
  import opened Models
  import opened QueryParts

  /**
   * The body of the request after the framework has validated it (the
   * email is then an address in normal form); every field is optional.
   */
  datatype ClientUpdate = ClientUpdate(name: Option<string>, email: Option<string>, phone: Option<string>)

  /** The fields the handler tests, in the order it tests them, and the column each one sets. */
  function ClientCandidates(u: ClientUpdate): seq<Candidate>
  {
    [ Candidate("full_name", "=", "", TextArg(u.name), IsSetText(u.name)),
      Candidate("email", "=", "", TextArg(u.email), IsSetText(u.email)),
      Candidate("phone", "=", "", TextArg(u.phone), IsSetText(u.phone)) ]
  }

  lemma NothingSelected(u: ClientUpdate)
    ensures Selected(ClientCandidates(u)) == [] <==> !IsSetText(u.name) && !IsSetText(u.email) && !IsSetText(u.phone)
  {
    var cs := ClientCandidates(u);
    SelectedKeepsPresent(cs);
    assert !cs[0].present && !cs[1].present && !cs[2].present ==> forall i :: 0 <= i < |cs| ==> !cs[i].present;
  }

  /**
   * The SET list and arguments of the update: only the fields that are set
   * (a missing or empty value is skipped), in the order name, email, phone,
   * numbered `$1`, `$2`, ...; then `updated_at = NOW()`; then the client id
   * on the next placeholder. With no field set the handler refuses with 400
   * before any query is built.
   */
  method UpdateClient(clientId: string, u: ClientUpdate) returns (r: Result<UpdateQuery, ApiError>)
    ensures r.Failure? <==> !IsSetText(u.name) && !IsSetText(u.email) && !IsSetText(u.phone)
    ensures r.Failure? ==> r.error == BadRequest("No fields to update")
    ensures r.Success? ==>
      var chosen := Selected(ClientCandidates(u));
      && r.value.table == "users"
      && r.value.assignments == Bind(chosen, 1) + [Literal("updated_at = NOW()")]
      && r.value.key == Bound("id", "=", |chosen| + 1, "::uuid")
      && r.value.args == Args(chosen) + [Text(clientId)]
    ensures r.Success? ==> WellNumbered(r.value.assignments + [r.value.key], r.value.args)
    ensures r.Success? ==> r.value.key.slot == |r.value.args| && r.value.args[|r.value.args| - 1] == Text(clientId)
  {
    var cands := ClientCandidates(u);
    var updateFields: seq<Clause> := [];
    var values: seq<SqlArg> := [];
    var idx: nat := 1;
    updateFields, values, idx := AddIfSet([], [], cands[0], updateFields, values, idx);
    assert [] + [cands[0]] == cands[..1];
    updateFields, values, idx := AddIfSet([], cands[..1], cands[1], updateFields, values, idx);
    assert cands[..1] + [cands[1]] == cands[..2];
    updateFields, values, idx := AddIfSet([], cands[..2], cands[2], updateFields, values, idx);
    assert cands[..2] + [cands[2]] == cands;
    NothingSelected(u);

    if updateFields == [] {
      return Failure(BadRequest("No fields to update"));
    }

    values := values + [Text(clientId)];
    var key := Bound("id", "=", idx, "::uuid");
    FinishUpdate(cands, updateFields, values[..|values| - 1], idx, [Literal("updated_at = NOW()")], Text(clientId));
    r := Success(UpdateQuery("users", updateFields + [Literal("updated_at = NOW()")], key, values));
  }
}
