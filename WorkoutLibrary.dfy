/**
 * Workout library handlers of backend/complete_api.py: the tag list
 * `create_workout` stores, the WHERE list of `GET /workouts/library`, and the
 * UPDATE of `PATCH /workouts/library/{id}` with its key-by-key merge of the
 * stored `structure` document.
 */
module WorkoutLibrary {
  import opened Models
  import opened QueryParts

  /** The given tags, or the empty list when none (or an empty list) are given. */
  function BaseTags(tags: Option<seq<string>>): seq<string>
  {
    if tags.Some? then tags.value else []
  }

  /**
   * The tags `create_workout` stores: the given ones, in their order, with
   * the category appended once at the end unless it is already among them.
   */
  function CategoryTags(tags: Option<seq<string>>, category: string): (r: seq<string>)
    ensures category in r
    ensures forall t :: t in r <==> t in BaseTags(tags) || t == category
    ensures |r| == |BaseTags(tags)| + (if category in BaseTags(tags) then 0 else 1)
    ensures r[..|BaseTags(tags)|] == BaseTags(tags)
    ensures multiset(r)[category] == if category in BaseTags(tags) then multiset(BaseTags(tags))[category] else 1
  {
    var base := BaseTags(tags);
    if category !in base then base + [category] else base
  }

  /** Merging the category a second time changes nothing. */
  lemma CategoryTagsIdempotent(tags: Option<seq<string>>, category: string)
    ensures CategoryTags(Some(CategoryTags(tags, category)), category) == CategoryTags(tags, category)
  {
  }

  const NotDeleted := Literal("st.deleted_at IS NULL")
  const IsActive := Literal("st.is_active = true")

  function LibraryCandidates(orgId: Option<string>, category: Option<string>,
                             coachId: Option<string>, difficulty: Option<string>): seq<Candidate>
  {
    [ Candidate("st.org_id", "=", "::uuid", TextArg(orgId), IsSetText(orgId)),
      Candidate("st.session_type", "=", "", TextArg(category), IsSetText(category)),
      Candidate("st.created_by", "=", "::uuid", TextArg(coachId), IsSetText(coachId)),
      Candidate("st.structure->>'difficulty_level'", "=", "", TextArg(difficulty), IsSetText(difficulty)) ]
  }

  /**
   * The WHERE list of `GET /workouts/library`: the two fixed conditions, then
   * one numbered condition per filter that is set, in the order
   * organisation, category, coach, difficulty.
   */
  method LibraryQuery(orgId: Option<string>, category: Option<string>,
                      coachId: Option<string>, difficulty: Option<string>) returns (q: FilterQuery)
    ensures var chosen := Selected(LibraryCandidates(orgId, category, coachId, difficulty));
      && q.conditions == [NotDeleted, IsActive] + Bind(chosen, 1)
      && q.args == Args(chosen)
    ensures |q.args| == (if IsSetText(orgId) then 1 else 0) + (if IsSetText(category) then 1 else 0)
                      + (if IsSetText(coachId) then 1 else 0) + (if IsSetText(difficulty) then 1 else 0)
    ensures WellNumbered(q.conditions, q.args)
  {
    var cands := LibraryCandidates(orgId, category, coachId, difficulty);
    var conditions := [NotDeleted, IsActive];
    var params: seq<SqlArg> := [];
    var idx: nat := 1;
    conditions, params, idx := AddIfSet([NotDeleted, IsActive], [], cands[0], conditions, params, idx);
    assert [] + [cands[0]] == cands[..1];
    conditions, params, idx := AddIfSet([NotDeleted, IsActive], cands[..1], cands[1], conditions, params, idx);
    assert cands[..1] + [cands[1]] == cands[..2];
    conditions, params, idx := AddIfSet([NotDeleted, IsActive], cands[..2], cands[2], conditions, params, idx);
    assert cands[..2] + [cands[2]] == cands[..3];
    conditions, params, idx := AddIfSet([NotDeleted, IsActive], cands[..3], cands[3], conditions, params, idx);
    assert cands[..3] + [cands[3]] == cands;
    FinishFilter([NotDeleted, IsActive], cands, conditions, params, idx, []);
    assert conditions + [] == conditions;
    LibraryArgsCount(orgId, category, coachId, difficulty);
    q := FilterQuery(conditions, params);
  }

  lemma LibraryArgsCount(orgId: Option<string>, category: Option<string>,
                         coachId: Option<string>, difficulty: Option<string>)
    ensures |Args(Selected(LibraryCandidates(orgId, category, coachId, difficulty)))|
         == (if IsSetText(orgId) then 1 else 0) + (if IsSetText(category) then 1 else 0)
          + (if IsSetText(coachId) then 1 else 0) + (if IsSetText(difficulty) then 1 else 0)
  {
    var cs := LibraryCandidates(orgId, category, coachId, difficulty);
    ArgsAt(Selected(cs));
    SelectedCount(cs);
    assert cs[1..][1..][1..][1..] == [];
    assert PresentCount(cs[1..][1..][1..]) == (if IsSetText(difficulty) then 1 else 0);
    assert PresentCount(cs[1..][1..]) == (if IsSetText(coachId) then 1 else 0) + PresentCount(cs[1..][1..][1..]);
    assert PresentCount(cs[1..]) == (if IsSetText(category) then 1 else 0) + PresentCount(cs[1..][1..]);
    assert PresentCount(cs) == (if IsSetText(orgId) then 1 else 0) + PresentCount(cs[1..]);
  }

  /** How many candidates a handler uses. */
  function PresentCount(cs: seq<Candidate>): nat
  {
    if cs == [] then 0 else (if cs[0].present then 1 else 0) + PresentCount(cs[1..])
  }

  lemma {:induction false} SelectedCount(cs: seq<Candidate>)
    ensures |Selected(cs)| == PresentCount(cs)
  {
    if cs != [] {
      SelectedCount(cs[1..]);
    }
  }

  /** The body of `PATCH /workouts/library/{id}`; every field is optional. */
  datatype WorkoutUpdate = WorkoutUpdate(
    name: Option<string>,
    description: Option<string>,
    category: Option<string>,
    difficultyLevel: Option<string>,
    durationMinutes: Option<int>,
    equipmentNeeded: Option<seq<string>>,
    exercises: Option<seq<Json>>,
    videoUrl: Option<string>,
    imageUrl: Option<string>,
    tags: Option<seq<string>>,
    isPublic: Option<bool>)

  /** The handler rewrites `structure` only when one structural field is truthy. */
  predicate StructureTouched(u: WorkoutUpdate)
  {
    IsSetList(u.equipmentNeeded) || IsSetList(u.exercises) || IsSetText(u.difficultyLevel)
    || IsSetText(u.videoUrl) || IsSetText(u.imageUrl)
  }

  /**
   * The structural fields of an update as key/value edits, in the order the
   * handler applies them; a field that is not given is no edit.
   */
  function StructureEdits(u: WorkoutUpdate): seq<(string, Option<Json>)>
  {
    [ ("equipment_needed", if u.equipmentNeeded.Some? then Some(StringsJson(u.equipmentNeeded.value)) else None),
      ("exercises", if u.exercises.Some? then Some(JList(u.exercises.value)) else None),
      ("difficulty_level", if u.difficultyLevel.Some? then Some(JStr(u.difficultyLevel.value)) else None),
      ("video_url", if u.videoUrl.Some? then Some(JStr(u.videoUrl.value)) else None),
      ("image_url", if u.imageUrl.Some? then Some(JStr(u.imageUrl.value)) else None) ]
  }

  /** Applies the edits that are given, front to back. */
  function Overwrite(m: map<string, Json>, edits: seq<(string, Option<Json>)>): map<string, Json>
    decreases |edits|
  {
    if edits == [] then m
    else Overwrite(if edits[0].1.Some? then m[edits[0].0 := edits[0].1.value] else m, edits[1..])
  }

  /** The keys that some given edit writes. */
  function EditedKeys(edits: seq<(string, Option<Json>)>): set<string>
  {
    if edits == [] then {}
    else (if edits[0].1.Some? then {edits[0].0} else {}) + EditedKeys(edits[1..])
  }

  /** Overwriting adds exactly the edited keys and leaves every other key as it was. */
  lemma {:induction false} OverwriteKeeps(m: map<string, Json>, edits: seq<(string, Option<Json>)>)
    ensures Overwrite(m, edits).Keys == m.Keys + EditedKeys(edits)
    ensures forall k :: k in m && k !in EditedKeys(edits) ==> Overwrite(m, edits)[k] == m[k]
    decreases |edits|
  {
    if edits != [] {
      var m' := if edits[0].1.Some? then m[edits[0].0 := edits[0].1.value] else m;
      OverwriteKeeps(m', edits[1..]);
    }
  }

  /** With distinct keys, each given edit's value is the one that ends up stored. */
  lemma {:induction false} OverwriteWrites(m: map<string, Json>, edits: seq<(string, Option<Json>)>, i: nat)
    requires i < |edits| && edits[i].1.Some?
    requires forall a, b :: 0 <= a < b < |edits| ==> edits[a].0 != edits[b].0
    ensures edits[i].0 in Overwrite(m, edits) && Overwrite(m, edits)[edits[i].0] == edits[i].1.value
    decreases i
  {
    var m' := if edits[0].1.Some? then m[edits[0].0 := edits[0].1.value] else m;
    if i == 0 {
      OverwriteKeeps(m', edits[1..]);
      NotEdited(edits[1..], edits[0].0);
    } else {
      OverwriteWrites(m', edits[1..], i - 1);
    }
  }

  lemma {:induction false} NotEdited(edits: seq<(string, Option<Json>)>, k: string)
    requires forall i :: 0 <= i < |edits| ==> edits[i].0 != k
    ensures k !in EditedKeys(edits)
  {
    if edits != [] {
      NotEdited(edits[1..], k);
    }
  }

  /** The structure keys an update overwrites: those whose field is given at all. */
  function UpdatedKeys(u: WorkoutUpdate): set<string>
  {
    EditedKeys(StructureEdits(u))
  }

  /**
   * The stored structure with the update merged in. A missing or empty
   * stored document reads as `{}`.
   */
  function MergeStructure(current: Option<map<string, Json>>, u: WorkoutUpdate): map<string, Json>
  {
    Overwrite(if current.Some? then current.value else map[], StructureEdits(u))
  }

  /**
   * The merge of `update_workout`: each structural field that is given (even
   * empty) replaces its key; every other stored key keeps its value; no key
   * is dropped.
   */
  lemma MergeStructureSpec(current: Option<map<string, Json>>, u: WorkoutUpdate)
    ensures var base := if current.Some? then current.value else map[];
      var r := MergeStructure(current, u);
      && r.Keys == base.Keys + UpdatedKeys(u)
      && (forall k :: k in base && k !in UpdatedKeys(u) ==> r[k] == base[k])
      && (u.equipmentNeeded.Some? ==> "equipment_needed" in r && r["equipment_needed"] == StringsJson(u.equipmentNeeded.value))
      && (u.exercises.Some? ==> "exercises" in r && r["exercises"] == JList(u.exercises.value))
      && (u.difficultyLevel.Some? ==> "difficulty_level" in r && r["difficulty_level"] == JStr(u.difficultyLevel.value))
      && (u.videoUrl.Some? ==> "video_url" in r && r["video_url"] == JStr(u.videoUrl.value))
      && (u.imageUrl.Some? ==> "image_url" in r && r["image_url"] == JStr(u.imageUrl.value))
  {
    var base := if current.Some? then current.value else map[];
    var es := StructureEdits(u);
    OverwriteKeeps(base, es);
    assert forall a, b :: 0 <= a < b < |es| ==> es[a].0 != es[b].0;
    if u.equipmentNeeded.Some? { OverwriteWrites(base, es, 0); }
    if u.exercises.Some? { OverwriteWrites(base, es, 1); }
    if u.difficultyLevel.Some? { OverwriteWrites(base, es, 2); }
    if u.videoUrl.Some? { OverwriteWrites(base, es, 3); }
    if u.imageUrl.Some? { OverwriteWrites(base, es, 4); }
  }

  function WorkoutCandidates(current: Option<map<string, Json>>, u: WorkoutUpdate): seq<Candidate>
  {
    [ Candidate("name", "=", "", TextArg(u.name), IsSetText(u.name)),
      Candidate("description", "=", "", TextArg(u.description), IsSetText(u.description)),
      Candidate("session_type", "=", "", TextArg(u.category), IsSetText(u.category)),
      Candidate("duration_minutes", "=", "", Integer(if u.durationMinutes.Some? then u.durationMinutes.value else 0),
                IsSetInt(u.durationMinutes)),
      Candidate("structure", "=", "", JsonText(JObject(MergeStructure(current, u))), StructureTouched(u)),
      Candidate("content_refs", "=", "", JsonText(StringsJson(BaseTags(u.tags))), u.tags.Some?) ]
  }

  /** Whether the update sets any column at all. */
  predicate ChangesSomething(u: WorkoutUpdate)
  {
    IsSetText(u.name) || IsSetText(u.description) || IsSetText(u.category) || IsSetInt(u.durationMinutes)
    || StructureTouched(u) || u.tags.Some?
  }

  lemma WorkoutNothingSelected(current: Option<map<string, Json>>, u: WorkoutUpdate)
    ensures Selected(WorkoutCandidates(current, u)) == [] <==> !ChangesSomething(u)
  {
    var cs := WorkoutCandidates(current, u);
    SelectedKeepsPresent(cs);
    assert !ChangesSomething(u) ==> forall i :: 0 <= i < |cs| ==> !cs[i].present;
  }

  /** The `if` blocks of `update_workout`, each appending its column when its field is set. */
  method WorkoutFields(current: Option<map<string, Json>>, u: WorkoutUpdate)
    returns (updateFields: seq<Clause>, values: seq<SqlArg>, idx: nat)
    ensures Built([], WorkoutCandidates(current, u), updateFields, values, idx)
  {
    var cands := WorkoutCandidates(current, u);
    updateFields := [];
    values := [];
    idx := 1;
    updateFields, values, idx := AddIfSet([], [], cands[0], updateFields, values, idx);
    assert [] + [cands[0]] == cands[..1];
    updateFields, values, idx := AddIfSet([], cands[..1], cands[1], updateFields, values, idx);
    assert cands[..1] + [cands[1]] == cands[..2];
    updateFields, values, idx := AddIfSet([], cands[..2], cands[2], updateFields, values, idx);
    assert cands[..2] + [cands[2]] == cands[..3];
    updateFields, values, idx := AddIfSet([], cands[..3], cands[3], updateFields, values, idx);
    assert cands[..3] + [cands[3]] == cands[..4];
    updateFields, values, idx := AddIfSet([], cands[..4], cands[4], updateFields, values, idx);
    assert cands[..4] + [cands[4]] == cands[..5];
    updateFields, values, idx := AddIfSet([], cands[..5], cands[5], updateFields, values, idx);
    assert cands[..5] + [cands[5]] == cands;
  }

  /**
   * The UPDATE of `PATCH /workouts/library/{id}` given the stored structure:
   * name, description, category, duration, the merged structure and the
   * tags, each on the next placeholder when set, in that order; with none of
   * them set the handler refuses with 400 (`is_public` is never written);
   * otherwise `updated_at = NOW()` follows and the workout id takes the last
   * placeholder.
   */
  method UpdateWorkout(workoutId: string, current: Option<map<string, Json>>, u: WorkoutUpdate)
    returns (r: Result<UpdateQuery, ApiError>)
    ensures r.Failure? <==> !ChangesSomething(u)
    ensures r.Failure? ==> r.error == BadRequest("No fields to update")
    ensures r.Success? ==>
      var chosen := Selected(WorkoutCandidates(current, u));
      && r.value.table == "session_templates"
      && r.value.assignments == Bind(chosen, 1) + [Literal("updated_at = NOW()")]
      && r.value.args == Args(chosen) + [Text(workoutId)]
      && r.value.key == Bound("id", "=", |chosen| + 1, "::uuid")
    ensures r.Success? ==> WellNumbered(r.value.assignments + [r.value.key], r.value.args)
    ensures r.Success? ==> r.value.key.slot == |r.value.args| && r.value.args[|r.value.args| - 1] == Text(workoutId)
  {
    var updateFields, values, idx := WorkoutFields(current, u);
    var cands := WorkoutCandidates(current, u);
    WorkoutNothingSelected(current, u);

    if updateFields == [] {
      return Failure(BadRequest("No fields to update"));
    }

    updateFields := updateFields + [Literal("updated_at = NOW()")];
    values := values + [Text(workoutId)];
    var key := Bound("id", "=", idx, "::uuid");
    FinishUpdate(cands, updateFields[..|updateFields| - 1], values[..|values| - 1], idx,
                 [Literal("updated_at = NOW()")], Text(workoutId));
    r := Success(UpdateQuery("session_templates", updateFields, key, values));
  }

  /**
   * An empty equipment list alone is not a change: the structural test is
   * truthiness, so the handler refuses the request.
   */
  lemma EmptyEquipmentAloneIsRefused(u: WorkoutUpdate)
    requires u == WorkoutUpdate(None, None, None, None, None, Some([]), None, None, None, None, Some(true))
    ensures !ChangesSomething(u)
  {
  }
}
