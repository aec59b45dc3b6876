/**
 * A worked trace of the pass with period 5: client a at t0, t0 + 3 and t0 + 20,
 * client b at t0 + 4. The gap of 17 seconds before a's last request closes both
 * open sessions, which are written in rank order; a's third request opens a new
 * session with rank 3, written by the final drain.
 */
module Example {
  import opened Wrappers
  import opened Sessions
  import opened Sorting
  import opened Sessionizer

  /** The four input rows of the trace. */
  function ExampleRows(a: string, b: string, t0: nat): seq<Row> {
    [Row(a, Some(t0)), Row(a, Some(t0 + 3)), Row(b, Some(t0 + 4)), Row(a, Some(t0 + 20))]
  }

  /** A row whose expiry pass closes nothing writes nothing. */
  lemma NothingExpires(st: PassState, period: int, r: Row)
    requires r.time.Some? && Expired(st.table, r.time.value, period) == {}
    ensures StepOutput(st, period, r) == []
  {
    assert SortedBatch({}) == [];
  }

  /** The first row opens a's session with rank 1. */
  lemma FirstRow(a: string, t0: nat)
    ensures StepState(Start, 5, Row(a, Some(t0))) == PassState(map[a := Session(t0, t0, 1, 1, 1)], 1, t0)
    ensures StepOutput(Start, 5, Row(a, Some(t0))) == []
  {
    assert Live(map[], t0, 0, 5) == map[];
    NothingExpires(Start, 5, Row(a, Some(t0)));
  }

  /** Three seconds later a's session is extended; nothing expires. */
  lemma SecondRow(a: string, t0: nat)
    ensures var st := PassState(map[a := Session(t0, t0, 1, 1, 1)], 1, t0);
      && StepState(st, 5, Row(a, Some(t0 + 3))) == PassState(map[a := Session(t0, t0 + 3, 2, 4, 1)], 1, t0 + 3)
      && StepOutput(st, 5, Row(a, Some(t0 + 3))) == []
  {
    var m := map[a := Session(t0, t0, 1, 1, 1)];
    assert Survivors(m, t0 + 3, 5) == m;
    assert Expired(m, t0 + 3, 5) == {};
    NothingExpires(PassState(m, 1, t0), 5, Row(a, Some(t0 + 3)));
  }

  /** One second later b opens a session with rank 2; nothing expires. */
  lemma ThirdRow(a: string, b: string, t0: nat)
    requires a != b
    ensures var st := PassState(map[a := Session(t0, t0 + 3, 2, 4, 1)], 1, t0 + 3);
      && StepState(st, 5, Row(b, Some(t0 + 4)))
         == PassState(map[a := Session(t0, t0 + 3, 2, 4, 1), b := Session(t0 + 4, t0 + 4, 1, 1, 2)], 2, t0 + 4)
      && StepOutput(st, 5, Row(b, Some(t0 + 4))) == []
  {
    var m := map[a := Session(t0, t0 + 3, 2, 4, 1)];
    assert Survivors(m, t0 + 4, 5) == m;
    assert Expired(m, t0 + 4, 5) == {};
    NothingExpires(PassState(m, 1, t0 + 3), 5, Row(b, Some(t0 + 4)));
  }

  /** At t0 + 20 both sessions are stale; a opens a new session with rank 3. */
  lemma FourthRowState(a: string, b: string, t0: nat)
    requires a != b
    ensures StepState(PassState(map[a := Session(t0, t0 + 3, 2, 4, 1), b := Session(t0 + 4, t0 + 4, 1, 1, 2)], 2, t0 + 4), 5, Row(a, Some(t0 + 20)))
      == PassState(map[a := Session(t0 + 20, t0 + 20, 1, 1, 3)], 3, t0 + 20)
  {
    var m := map[a := Session(t0, t0 + 3, 2, 4, 1), b := Session(t0 + 4, t0 + 4, 1, 1, 2)];
    assert Survivors(m, t0 + 20, 5) == map[];
  }

  /** At t0 + 20 the two stale sessions are written, a's (rank 1) before b's (rank 2). */
  lemma FourthRowOutput(a: string, b: string, t0: nat)
    requires a != b
    ensures StepOutput(PassState(map[a := Session(t0, t0 + 3, 2, 4, 1), b := Session(t0 + 4, t0 + 4, 1, 1, 2)], 2, t0 + 4), 5, Row(a, Some(t0 + 20)))
      == [Closed(a, Session(t0, t0 + 3, 2, 4, 1)), Closed(b, Session(t0 + 4, t0 + 4, 1, 1, 2))]
  {
    var sa, sb := Session(t0, t0 + 3, 2, 4, 1), Session(t0 + 4, t0 + 4, 1, 1, 2);
    var m := map[a := sa, b := sb];
    var gone := {Closed(a, sa), Closed(b, sb)};
    assert Expired(m, t0 + 20, 5) == gone by {
      assert a in m && m[a] == sa && Stale(m[a], t0 + 20, 5);
      assert b in m && m[b] == sb && Stale(m[b], t0 + 20, 5);
    }
    assert multiset([Closed(a, sa), Closed(b, sb)]) == multiset(gone);
    SortedBatchUnique([Closed(a, sa), Closed(b, sb)], gone);
  }

  /** Draining a table with one open session writes that session. */
  lemma DrainSingle(ip: string, s: Session)
    ensures SortedBatch(Entries(map[ip := s])) == [Closed(ip, s)]
  {
    assert Entries(map[ip := s]) == {Closed(ip, s)} by {
      assert ip in map[ip := s];
    }
    SortedBatchUnique([Closed(ip, s)], {Closed(ip, s)});
  }

  /** The state and output of the pass after each prefix of the trace. */
  lemma AfterOneRow(a: string, b: string, t0: nat)
    ensures PassAfter(Start, 5, ExampleRows(a, b, t0)[..1]) == PassState(map[a := Session(t0, t0, 1, 1, 1)], 1, t0)
    ensures PassOutput(Start, 5, ExampleRows(a, b, t0)[..1]) == []
  {
    PassStep(Start, 5, ExampleRows(a, b, t0), 0);
    assert ExampleRows(a, b, t0)[..0] == [];
    FirstRow(a, t0);
  }

  lemma AfterTwoRows(a: string, b: string, t0: nat)
    ensures PassAfter(Start, 5, ExampleRows(a, b, t0)[..2]) == PassState(map[a := Session(t0, t0 + 3, 2, 4, 1)], 1, t0 + 3)
    ensures PassOutput(Start, 5, ExampleRows(a, b, t0)[..2]) == []
  {
    AfterOneRow(a, b, t0);
    PassStep(Start, 5, ExampleRows(a, b, t0), 1);
    SecondRow(a, t0);
  }

  lemma AfterThreeRows(a: string, b: string, t0: nat)
    requires a != b
    ensures PassAfter(Start, 5, ExampleRows(a, b, t0)[..3])
      == PassState(map[a := Session(t0, t0 + 3, 2, 4, 1), b := Session(t0 + 4, t0 + 4, 1, 1, 2)], 2, t0 + 4)
    ensures PassOutput(Start, 5, ExampleRows(a, b, t0)[..3]) == []
  {
    AfterTwoRows(a, b, t0);
    PassStep(Start, 5, ExampleRows(a, b, t0), 2);
    ThirdRow(a, b, t0);
  }

  lemma AfterLastRow(a: string, b: string, t0: nat)
    requires a != b
    ensures var st := PassState(map[a := Session(t0, t0 + 3, 2, 4, 1), b := Session(t0 + 4, t0 + 4, 1, 1, 2)], 2, t0 + 4);
      && PassAfter(Start, 5, ExampleRows(a, b, t0)) == StepState(st, 5, Row(a, Some(t0 + 20)))
      && PassOutput(Start, 5, ExampleRows(a, b, t0)) == StepOutput(st, 5, Row(a, Some(t0 + 20)))
  {
    var rows := ExampleRows(a, b, t0);
    assert |rows| - 1 == 3 && rows[3] == Row(a, Some(t0 + 20));
    AfterThreeRows(a, b, t0);
  }

  lemma AfterFourRows(a: string, b: string, t0: nat)
    requires a != b
    ensures PassAfter(Start, 5, ExampleRows(a, b, t0)) == PassState(map[a := Session(t0 + 20, t0 + 20, 1, 1, 3)], 3, t0 + 20)
    ensures PassOutput(Start, 5, ExampleRows(a, b, t0))
      == [Closed(a, Session(t0, t0 + 3, 2, 4, 1)), Closed(b, Session(t0 + 4, t0 + 4, 1, 1, 2))]
  {
    AfterLastRow(a, b, t0);
    FourthRowState(a, b, t0);
    FourthRowOutput(a, b, t0);
  }

  lemma PairThenOne<T>(x: T, y: T, z: T)
    ensures [x, y] + [z] == [x, y, z]
  {
  }

  /**
   * The whole run writes three sessions: a's first (t0 to t0 + 3, two requests,
   * duration 4, rank 1), b's (one request at t0 + 4, rank 2), then a's second
   * (one request at t0 + 20, rank 3).
   */
  lemma {:induction false} WorkedExample(a: string, b: string, t0: nat)
    requires a != b
    ensures PassOutput(Start, 5, ExampleRows(a, b, t0)) + SortedBatch(Entries(PassAfter(Start, 5, ExampleRows(a, b, t0)).table))
      == [Closed(a, Session(t0, t0 + 3, 2, 4, 1)), Closed(b, Session(t0 + 4, t0 + 4, 1, 1, 2)),
          Closed(a, Session(t0 + 20, t0 + 20, 1, 1, 3))]
  {
    AfterFourRows(a, b, t0);
    DrainSingle(a, Session(t0 + 20, t0 + 20, 1, 1, 3));
    PairThenOne(Closed(a, Session(t0, t0 + 3, 2, 4, 1)), Closed(b, Session(t0 + 4, t0 + 4, 1, 1, 2)),
                Closed(a, Session(t0 + 20, t0 + 20, 1, 1, 3)));
  }
}
