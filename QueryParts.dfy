/**
 * The query fragments the handlers assemble before they call the driver.
 *
 * Each update or filter handler keeps a list of clauses, a list of
 * arguments and a running placeholder counter `idx` that starts at 1: for
 * every optional input that is set it appends a clause `column op $idx`,
 * appends the input to the arguments and increments `idx`. Fixed clauses
 * (`updated_at = NOW()`, `st.is_active = true`, ...) carry no placeholder.
 * A clause is kept as structure here (column, operator, placeholder number,
 * cast) rather than as the rendered text.
 */
module QueryParts {
  import opened Models

  /** `lhs op $slot cast` with a positional argument, or fixed SQL text. */
  datatype Clause =
    | Bound(lhs: string, op: string, slot: nat, cast: string)
    | Literal(sql: string)

  /** An UPDATE statement: its SET list, its WHERE clause and the arguments it runs with. */
  datatype UpdateQuery = UpdateQuery(table: string, assignments: seq<Clause>, key: Clause, args: seq<SqlArg>)

  /** The WHERE conditions of a SELECT (joined with AND) and the arguments it runs with. */
  datatype FilterQuery = FilterQuery(conditions: seq<Clause>, args: seq<SqlArg>)

  /**
   * One optional input of a handler: the clause it would contribute, the
   * argument it would bind, and whether the handler's test lets it in.
   */
  datatype Candidate = Candidate(lhs: string, op: string, cast: string, arg: SqlArg, present: bool)

  /** The argument an optional text input binds (only read when the input is set). */
  function TextArg(o: Option<string>): SqlArg
  {
    Text(if o.Some? then o.value else "")
  }

  /** The candidates a handler actually uses, in the order it tests them. */
  function Selected(cs: seq<Candidate>): seq<Candidate>
  {
    if cs == [] then []
    else if cs[0].present then [cs[0]] + Selected(cs[1..])
    else Selected(cs[1..])
  }

  /** The clauses of `cs`, numbered consecutively from `first`. */
  function Bind(cs: seq<Candidate>, first: nat): seq<Clause>
  {
    if cs == [] then [] else [Bound(cs[0].lhs, cs[0].op, first, cs[0].cast)] + Bind(cs[1..], first + 1)
  }

  /** The arguments of `cs`, in order. */
  function Args(cs: seq<Candidate>): seq<SqlArg>
  {
    if cs == [] then [] else [cs[0].arg] + Args(cs[1..])
  }

  /**
   * A handler uses exactly the candidates whose test passes, never more of
   * them than it tests, and none at all exactly when no test passes.
   */
  lemma {:induction false} SelectedKeepsPresent(cs: seq<Candidate>)
    ensures |Selected(cs)| <= |cs|
    ensures forall c :: c in Selected(cs) ==> c in cs && c.present
    ensures forall c :: c in cs && c.present ==> c in Selected(cs)
    ensures Selected(cs) == [] <==> forall i :: 0 <= i < |cs| ==> !cs[i].present
  {
    if cs != [] {
      SelectedKeepsPresent(cs[1..]);
      assert forall i :: 1 <= i < |cs| ==> cs[i] == cs[1..][i - 1];
      assert forall c :: c in cs ==> c == cs[0] || c in cs[1..];
    }
  }

  /** The i-th bound clause carries the i-th candidate's column and placeholder `first + i`. */
  lemma {:induction false} BindAt(cs: seq<Candidate>, first: nat)
    ensures |Bind(cs, first)| == |cs|
    ensures forall i :: 0 <= i < |cs| ==> Bind(cs, first)[i] == Bound(cs[i].lhs, cs[i].op, first + i, cs[i].cast)
  {
    if cs != [] {
      BindAt(cs[1..], first + 1);
    }
  }

  /** The i-th argument is the i-th candidate's value. */
  lemma {:induction false} ArgsAt(cs: seq<Candidate>)
    ensures |Args(cs)| == |cs|
    ensures forall i :: 0 <= i < |cs| ==> Args(cs)[i] == cs[i].arg
  {
    if cs != [] {
      ArgsAt(cs[1..]);
    }
  }

  lemma {:induction false} BindAppend(a: seq<Candidate>, b: seq<Candidate>, first: nat)
    ensures Bind(a + b, first) == Bind(a, first) + Bind(b, first + |a|)
  {
    if a == [] {
      assert a + b == b;
    } else {
      assert (a + b)[1..] == a[1..] + b;
      BindAppend(a[1..], b, first + 1);
    }
  }

  lemma {:induction false} ArgsAppend(a: seq<Candidate>, b: seq<Candidate>)
    ensures Args(a + b) == Args(a) + Args(b)
  {
    if a == [] {
      assert a + b == b;
    } else {
      assert (a + b)[1..] == a[1..] + b;
      ArgsAppend(a[1..], b);
    }
  }

  /** The placeholder numbers of a clause list, in the order they occur. */
  function Slots(cls: seq<Clause>): seq<nat>
  {
    if cls == [] then []
    else if cls[0].Bound? then [cls[0].slot] + Slots(cls[1..])
    else Slots(cls[1..])
  }

  predicate AllLiteral(cls: seq<Clause>)
  {
    forall i :: 0 <= i < |cls| ==> cls[i].Literal?
  }

  /** The placeholders are exactly `$1`, `$2`, ..., `$n` in this order. */
  predicate Consecutive(slots: seq<nat>, n: nat)
  {
    |slots| == n && forall i :: 0 <= i < n ==> slots[i] == i + 1
  }

  /**
   * A query whose placeholders, read left to right, are `$1` .. `$k` for the
   * k arguments it is executed with: every argument is used once, in order.
   */
  predicate WellNumbered(cls: seq<Clause>, args: seq<SqlArg>)
  {
    Consecutive(Slots(cls), |args|)
  }

  lemma {:induction false} SlotsAppend(a: seq<Clause>, b: seq<Clause>)
    ensures Slots(a + b) == Slots(a) + Slots(b)
  {
    if a == [] {
      assert a + b == b;
    } else {
      assert (a + b)[1..] == a[1..] + b;
      SlotsAppend(a[1..], b);
    }
  }

  lemma {:induction false} SlotsOfLiterals(cls: seq<Clause>)
    requires AllLiteral(cls)
    ensures Slots(cls) == []
  {
    if cls != [] {
      SlotsOfLiterals(cls[1..]);
    }
  }

  lemma {:induction false} SlotsOfBind(cs: seq<Candidate>, first: nat)
    ensures |Slots(Bind(cs, first))| == |cs|
    ensures forall i :: 0 <= i < |cs| ==> Slots(Bind(cs, first))[i] == first + i
  {
    if cs != [] {
      var b := Bind(cs, first);
      assert b[1..] == Bind(cs[1..], first + 1);
      SlotsOfBind(cs[1..], first + 1);
    }
  }

  lemma {:induction false} SelectedAppend(a: seq<Candidate>, b: seq<Candidate>)
    ensures Selected(a + b) == Selected(a) + Selected(b)
  {
    if a == [] {
      assert a + b == b;
    } else {
      assert (a + b)[1..] == a[1..] + b;
      SelectedAppend(a[1..], b);
    }
  }

  /**
   * What one more `if field: append; idx += 1` step does to the clauses,
   * the arguments and the counter the handler has built so far.
   */
  lemma Extend(done: seq<Candidate>, c: Candidate)
    ensures Selected(done + [c]) == Selected(done) + (if c.present then [c] else [])
    ensures Bind(Selected(done + [c]), 1)
         == Bind(Selected(done), 1) + (if c.present then [Bound(c.lhs, c.op, |Selected(done)| + 1, c.cast)] else [])
    ensures Args(Selected(done + [c])) == Args(Selected(done)) + (if c.present then [c.arg] else [])
  {
    SelectedAppend(done, [c]);
    assert Selected([c]) == (if c.present then [c] else []) by {
      assert [c][1..] == [];
    }
    BindAppend(Selected(done), Selected([c]), 1);
    ArgsAppend(Selected(done), Selected([c]));
    assert Bind([c], |Selected(done)| + 1) == [Bound(c.lhs, c.op, |Selected(done)| + 1, c.cast)] by {
      assert [c][1..] == [];
    }
    assert Args([c]) == [c.arg] by {
      assert [c][1..] == [];
    }
  }

  /**
   * The state of a handler that started from the fixed clauses `head` and
   * has tested the candidates `done`: the clauses and arguments it holds,
   * and its counter `idx`.
   */
  ghost predicate Built(head: seq<Clause>, done: seq<Candidate>, clauses: seq<Clause>, args: seq<SqlArg>, idx: nat)
  {
    && clauses == head + Bind(Selected(done), 1)
    && args == Args(Selected(done))
    && idx == |Selected(done)| + 1
  }

  /** One `if field: append; idx += 1` step keeps `Built`. */
  lemma Step(head: seq<Clause>, done: seq<Candidate>, c: Candidate, clauses: seq<Clause>, args: seq<SqlArg>, idx: nat)
    requires Built(head, done, clauses, args, idx)
    ensures c.present ==> Built(head, done + [c], clauses + [Bound(c.lhs, c.op, idx, c.cast)], args + [c.arg], idx + 1)
    ensures !c.present ==> Built(head, done + [c], clauses, args, idx)
  {
    Extend(done, c);
  }

  /**
   * The block every handler repeats for each optional input: if its test
   * passes, append its clause on placeholder `idx`, append its argument and
   * increment `idx`; otherwise leave all three as they are.
   */
  method AddIfSet(ghost head: seq<Clause>, ghost done: seq<Candidate>, c: Candidate,
                  clauses: seq<Clause>, args: seq<SqlArg>, idx: nat)
    returns (clauses': seq<Clause>, args': seq<SqlArg>, idx': nat)
    requires Built(head, done, clauses, args, idx)
    ensures Built(head, done + [c], clauses', args', idx')
    ensures c.present ==> clauses' == clauses + [Bound(c.lhs, c.op, idx, c.cast)] && args' == args + [c.arg] && idx' == idx + 1
    ensures !c.present ==> clauses' == clauses && args' == args && idx' == idx
  {
    Step(head, done, c, clauses, args, idx);
    if c.present {
      clauses' := clauses + [Bound(c.lhs, c.op, idx, c.cast)];
      args' := args + [c.arg];
      idx' := idx + 1;
    } else {
      clauses', args', idx' := clauses, args, idx;
    }
  }

  /** The UPDATE a handler in state `Built` issues once it appends its fixed clauses and key. */
  lemma FinishUpdate(cs: seq<Candidate>, clauses: seq<Clause>, args: seq<SqlArg>, idx: nat, fixed: seq<Clause>, keyArg: SqlArg)
    requires Built([], cs, clauses, args, idx)
    requires AllLiteral(fixed)
    ensures clauses + fixed == Bind(Selected(cs), 1) + fixed
    ensures args + [keyArg] == Args(Selected(cs)) + [keyArg]
    ensures idx == |Selected(cs)| + 1 == |args + [keyArg]|
    ensures WellNumbered(clauses + fixed + [Bound("id", "=", idx, "::uuid")], args + [keyArg])
  {
    assert [] + Bind(Selected(cs), 1) == Bind(Selected(cs), 1);
    ArgsAt(Selected(cs));
    UpdateShapeWellNumbered(Selected(cs), fixed, Bound("id", "=", idx, "::uuid"), keyArg);
  }

  /** The WHERE list a filter handler in state `Built` issues once it appends its fixed tail. */
  lemma FinishFilter(head: seq<Clause>, cs: seq<Candidate>, clauses: seq<Clause>, args: seq<SqlArg>, idx: nat, tail: seq<Clause>)
    requires Built(head, cs, clauses, args, idx)
    requires AllLiteral(head) && AllLiteral(tail)
    ensures WellNumbered(clauses + tail, args)
    ensures forall t :: t in clauses ==> t in head || t.Bound?
  {
    FilterShapeWellNumbered(head, Selected(cs), tail);
    BindAt(Selected(cs), 1);
  }

  /**
   * Numbered bound clauses, then fixed clauses, then one key clause on the
   * next placeholder: the shape of every UPDATE the handlers build.
   */
  lemma {:induction false} UpdateShapeWellNumbered(cs: seq<Candidate>, fixed: seq<Clause>, key: Clause, keyArg: SqlArg)
    requires AllLiteral(fixed)
    requires key.Bound? && key.slot == |cs| + 1
    ensures WellNumbered(Bind(cs, 1) + fixed + [key], Args(cs) + [keyArg])
  {
    SlotsAppend(Bind(cs, 1) + fixed, [key]);
    SlotsAppend(Bind(cs, 1), fixed);
    SlotsOfLiterals(fixed);
    SlotsOfBind(cs, 1);
    ArgsAt(cs);
    assert Slots([key]) == [key.slot] by {
      assert [key][1..] == [];
    }
  }

  /**
   * Fixed clauses, then numbered bound clauses, then fixed clauses: the
   * shape of every WHERE list the filter handlers build.
   */
  lemma {:induction false} FilterShapeWellNumbered(head: seq<Clause>, cs: seq<Candidate>, tail: seq<Clause>)
    requires AllLiteral(head) && AllLiteral(tail)
    ensures WellNumbered(head + Bind(cs, 1) + tail, Args(cs))
  {
    SlotsAppend(head + Bind(cs, 1), tail);
    SlotsAppend(head, Bind(cs, 1));
    SlotsOfLiterals(head);
    SlotsOfLiterals(tail);
    SlotsOfBind(cs, 1);
    ArgsAt(cs);
  }
}
