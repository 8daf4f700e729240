/** When a completion batch does what its items would do one by one. */
module BatchOrder {
  import opened Types
  import opened ResultsTable

  ghost predicate DistinctKeys(batch: seq<Completion>) {
    forall i, k :: 0 <= i < k < |batch| ==> !SameKey(batch[i], batch[k])
  }

  /** The first report of its key in the batch. */
  ghost predicate First(batch: seq<Completion>, i: nat)
    requires i < |batch|
  {
    forall k :: 0 <= k < i ==> !SameKey(batch[k], batch[i])
  }

  lemma {:induction false} FirstOf(batch: seq<Completion>, i: nat) returns (f: nat)
    requires i < |batch|
    ensures f <= i && First(batch, f) && SameKey(batch[f], batch[i])
  {
    if First(batch, i) {
      f := i;
    } else {
      var k :| 0 <= k < i && SameKey(batch[k], batch[i]);
      f := FirstOf(batch, k);
    }
  }

  // ------------------------------------------------------- one by one

  lemma {:induction false} Untouched(t: Executions, queues: Queues, batch: seq<Completion>, j: JobId)
    requires j in t && !Touches(t, batch, j)
    ensures CompleteOneByOne(t, queues, batch).0[j] == t[j]
    decreases |batch|
  {
    if batch != [] {
      var init := batch[..|batch| - 1];
      assert forall i :: 0 <= i < |init| ==> init[i] == batch[i];
      Untouched(t, queues, init, j);
    }
  }

  /** One by one, a row goes where the first report of its running attempt sends it. */
  lemma {:induction false} FirstDecides(t: Executions, queues: Queues, batch: seq<Completion>, i: nat)
    requires i < |batch| && First(batch, i) && Fenced(t, batch[i])
    ensures var j := batch[i].jobId;
      CompleteOneByOne(t, queues, batch).0[j] == CompleteOne(t, queues, batch[i]).0[j]
    decreases |batch|
  {
    var n := |batch| - 1;
    var init := batch[..n];
    assert forall k :: 0 <= k < n ==> init[k] == batch[k];
    if i == n {
      assert !Touches(t, init, batch[i].jobId);
      Untouched(t, queues, init, batch[i].jobId);
    } else {
      assert First(init, i);
      FirstDecides(t, queues, init, i);
    }
  }

  /** What one-by-one completion answers item `i`. */
  ghost function AnswerInOrder(t: Executions, queues: Queues, batch: seq<Completion>, i: nat): Disposition
    requires i < |batch|
  {
    if First(batch, i) then CompleteOne(t, queues, batch[i]).1 else Ignored
  }

  lemma LastAnswer(t: Executions, queues: Queues, batch: seq<Completion>)
    requires batch != []
    ensures CompleteOneByOne(t, queues, batch).1[|batch| - 1] == AnswerInOrder(t, queues, batch, |batch| - 1)
  {
    var n := |batch| - 1;
    var init, c := batch[..n], batch[n];
    assert forall k :: 0 <= k < n ==> init[k] == batch[k];
    if c.jobId in t {
      FencedAfter(t, queues, init, c);
      assert First(batch, n) <==> !Repeats(init, c);
      assert !Fenced(t, c) ==> CompleteOne(t, queues, c).1 == Ignored;
    }
  }

  ghost predicate Repeats(batch: seq<Completion>, c: Completion) {
    exists k :: 0 <= k < |batch| && SameKey(batch[k], c)
  }

  /** After a batch, a further report is still fenced if it was before and its key is new; then its row
      is untouched. */
  lemma FencedAfter(t: Executions, queues: Queues, batch: seq<Completion>, c: Completion)
    requires c.jobId in t
    ensures var v := CompleteOneByOne(t, queues, batch).0;
      && (Fenced(v, c) <==> Fenced(t, c) && !Repeats(batch, c))
      && (Fenced(v, c) ==> v[c.jobId] == t[c.jobId])
  {
    if Touches(t, batch, c.jobId) {
      var k :| 0 <= k < |batch| && batch[k].jobId == c.jobId && Fenced(t, batch[k]);
      var f := FirstOf(batch, k);
      FirstDecides(t, queues, batch, f);
      assert SameKey(batch[k], c) <==> c.dispatchId == t[c.jobId].dispatchId;
    } else {
      Untouched(t, queues, batch, c.jobId);
    }
  }

  lemma {:induction false} OneByOneAnswers(t: Executions, queues: Queues, batch: seq<Completion>, i: nat)
    requires i < |batch|
    ensures CompleteOneByOne(t, queues, batch).1[i] == AnswerInOrder(t, queues, batch, i)
    decreases |batch|
  {
    var n := |batch| - 1;
    if i < n {
      var init := batch[..n];
      assert forall k :: 0 <= k < n ==> init[k] == batch[k];
      OneByOneAnswers(t, queues, init, i);
      assert First(init, i) <==> First(batch, i);
    } else {
      LastAnswer(t, queues, batch);
    }
  }

  // ------------------------------------------------------- statements

  lemma {:induction false} RankUpToGrows(batch: seq<Completion>, i: nat, k: nat, succeeded: bool)
    requires i <= k <= |batch|
    ensures RankUpTo(batch, i, succeeded) <= RankUpTo(batch, k, succeeded)
  {
    if i < k {
      RankUpToGrows(batch, i, k - 1, succeeded);
    }
  }

  lemma RankGrows(batch: seq<Completion>, i: nat, k: nat)
    requires i < k < |batch| && batch[i].outcome.Succeeded? == batch[k].outcome.Succeeded?
    ensures Rank(batch, i) < Rank(batch, k)
  {
    RankUpToGrows(batch, i + 1, k, batch[i].outcome.Succeeded?);
  }

  ghost predicate LaterStatement(batch: seq<Completion>, i: nat, k: nat)
    requires i < |batch| && k < |batch|
  {
    Rank(batch, i) / 256 < Rank(batch, k) / 256
  }

  /** A later report `k` that leaves the first one, `i`, the only one to count: never a success after a
      failure, and one of the same kind only in a later statement. */
  ghost predicate Yields(batch: seq<Completion>, i: nat, k: nat)
    requires i < |batch| && k < |batch|
  {
    if batch[i].outcome.Succeeded? then batch[k].outcome.Succeeded? ==> LaterStatement(batch, i, k)
    else batch[k].outcome.Crashed? && LaterStatement(batch, i, k)
  }

  /** A caller can read this off the batch and the table: every repeated report of a running attempt
      yields to the first. */
  ghost predicate FirstReportsCount(t: Executions, batch: seq<Completion>) {
    forall i, k :: 0 <= i < k < |batch| && First(batch, i) && SameKey(batch[i], batch[k]) && Fenced(t, batch[i]) ==>
      Yields(batch, i, k)
  }

  lemma FirstIsNotBeaten(batch: seq<Completion>, i: nat)
    requires i < |batch| && First(batch, i)
    ensures !BeatenByEarlierChunk(batch, i)
  {
    forall k | 0 <= k < |batch| && SameKey(batch[k], batch[i])
        && batch[k].outcome.Succeeded? == batch[i].outcome.Succeeded?
      ensures Rank(batch, i) <= Rank(batch, k)
    {
      if i < k {
        RankGrows(batch, i, k);
      }
    }
  }

  /** If an item is beaten, the first report of its key and kind already lies in an earlier statement. */
  lemma BeatenByFirst(batch: seq<Completion>, i: nat, k: nat)
    requires i < k < |batch| && First(batch, i) && SameKey(batch[i], batch[k])
    requires batch[i].outcome.Succeeded? == batch[k].outcome.Succeeded?
    ensures BeatenByEarlierChunk(batch, k) <==> LaterStatement(batch, i, k)
  {
    if BeatenByEarlierChunk(batch, k) {
      var m :| 0 <= m < |batch| && SameKey(batch[m], batch[k])
        && batch[m].outcome.Succeeded? == batch[k].outcome.Succeeded?
        && Rank(batch, m) / ROWS_PER_STATEMENT < Rank(batch, k) / ROWS_PER_STATEMENT;
      assert m >= i;
      if i < m {
        RankGrows(batch, i, m);
      }
    }
  }

  lemma AnswersAgree(t: Executions, queues: Queues, batch: seq<Completion>, k: nat)
    requires FirstReportsCount(t, batch) && k < |batch|
    ensures DispositionOf(t, queues, batch, k) == AnswerInOrder(t, queues, batch, k)
  {
    if Fenced(t, batch[k]) {
      var i := FirstOf(batch, k);
      if i == k {
        FirstIsNotBeaten(batch, k);
        forall m | 0 <= m < |batch| && SameKey(batch[m], batch[k]) && batch[m].outcome.Succeeded?
          ensures batch[k].outcome.Succeeded?
        {
          assert m > k ==> Yields(batch, k, m);
        }
      } else {
        assert Yields(batch, i, k) && !First(batch, k);
        if batch[i].outcome.Succeeded? == batch[k].outcome.Succeeded? {
          BeatenByFirst(batch, i, k);
        } else {
          assert HasSuccess(batch, batch[k]);
        }
      }
    }
  }

  lemma AgreementYields(t: Executions, queues: Queues, batch: seq<Completion>, i: nat, k: nat)
    requires i < k < |batch| && First(batch, i) && SameKey(batch[i], batch[k]) && Fenced(t, batch[i])
    requires DispositionOf(t, queues, batch, i) == AnswerInOrder(t, queues, batch, i)
    requires DispositionOf(t, queues, batch, k) == AnswerInOrder(t, queues, batch, k)
    ensures Yields(batch, i, k)
  {
    assert !First(batch, k);
    assert CompleteOne(t, queues, batch[i]).1 != Ignored;
    assert batch[k].outcome.Succeeded? ==> HasSuccess(batch, batch[i]);
    if batch[i].outcome.Succeeded? == batch[k].outcome.Succeeded? {
      BeatenByFirst(batch, i, k);
      if batch[k].outcome.Crashed? {
        assert HasSuccess(batch, batch[i]) <==> HasSuccess(batch, batch[k]);
      }
    }
  }

  /** Where only first reports count, each row goes where its first report sends it. */
  lemma RowsAgree(t: Executions, queues: Queues, batch: seq<Completion>, u: Executions, disp: seq<Disposition>,
                  j: JobId)
    requires CompleteTx(t, queues, batch, u, disp) && FirstReportsCount(t, batch) && j in t
    ensures u[j] == CompleteOneByOne(t, queues, batch).0[j]
  {
    assert RowAfter(t, batch, disp, j, u[j]);
    if Touches(t, batch, j) {
      var k :| 0 <= k < |batch| && batch[k].jobId == j && Fenced(t, batch[k]);
      var f := FirstOf(batch, k);
      FirstDecides(t, queues, batch, f);
      forall m | 0 <= m < |batch| && batch[m].jobId == j && Fenced(t, batch[m]) && disp[m] != Ignored ensures m == f {
        AnswersAgree(t, queues, batch, m);
        assert First(batch, m) && SameKey(batch[m], batch[f]);
      }
    } else {
      Untouched(t, queues, batch, j);
    }
  }

  /** A partitioned and chunked batch does what its items would do one by one in arrival order, in table
      and answers, if and only if every repeated report of a running attempt yields to the first. */
  lemma BatchIsOneByOneIff(t: Executions, queues: Queues, batch: seq<Completion>, u: Executions, disp: seq<Disposition>)
    requires CompleteTx(t, queues, batch, u, disp)
    ensures (u, disp) == CompleteOneByOne(t, queues, batch) <==> FirstReportsCount(t, batch)
    ensures disp == CompleteOneByOne(t, queues, batch).1 <==> FirstReportsCount(t, batch)
  {
    var (v, answers) := CompleteOneByOne(t, queues, batch);
    forall i | 0 <= i < |batch|
      ensures disp[i] == DispositionOf(t, queues, batch, i) && answers[i] == AnswerInOrder(t, queues, batch, i)
    {
      OneByOneAnswers(t, queues, batch, i);
    }
    if FirstReportsCount(t, batch) {
      forall i | 0 <= i < |batch| ensures disp[i] == answers[i] {
        AnswersAgree(t, queues, batch, i);
      }
      forall j | j in t ensures u[j] == v[j] {
        RowsAgree(t, queues, batch, u, disp, j);
      }
      assert u == v && disp == answers;
    }
    if disp == answers {
      forall i, k | 0 <= i < k < |batch| && First(batch, i) && SameKey(batch[i], batch[k]) && Fenced(t, batch[i])
        ensures Yields(batch, i, k)
      {
        AgreementYields(t, queues, batch, i, k);
      }
    }
  }

  /** … in particular whenever no key repeats. */
  lemma BatchIsOneByOne(t: Executions, queues: Queues, batch: seq<Completion>, u: Executions, disp: seq<Disposition>)
    requires CompleteTx(t, queues, batch, u, disp) && DistinctKeys(batch)
    ensures (u, disp) == CompleteOneByOne(t, queues, batch)
  {
    BatchIsOneByOneIff(t, queues, batch, u, disp);
  }

  lemma OneAlone(t: Executions, queues: Queues, c: Completion)
    ensures CompleteOneByOne(t, queues, [c]) == (CompleteOne(t, queues, c).0, [CompleteOne(t, queues, c).1])
  {
    var first := [c][..0];
    assert first == [] && CompleteOneByOne(t, queues, first) == (t, []);
    var d := CompleteOne(t, queues, c).1;
    assert [] + [d] == [d];
  }

  /** The ranks of two items of one kind. */
  lemma RanksOfTwo(batch: seq<Completion>)
    requires |batch| == 2 && batch[0].outcome.Succeeded? == batch[1].outcome.Succeeded?
    ensures Rank(batch, 0) == 0 && Rank(batch, 1) == 1
  {
    var succeeded := batch[0].outcome.Succeeded?;
    assert RankUpTo(batch, 0, succeeded) == 0;
    assert RankUpTo(batch, 1, succeeded) == 1;
  }

  /** Two reports of one attempt in one statement are both answered as if they had taken effect. */
  lemma RepeatedReportIsAnsweredTwice(t: Executions, queues: Queues, c: Completion, u: Executions,
                                      disp: seq<Disposition>)
    requires Fenced(t, c) && CompleteTx(t, queues, [c, c], u, disp)
    ensures disp[0] == disp[1] == CompleteOne(t, queues, c).1 != Ignored
    ensures disp != CompleteOneByOne(t, queues, [c, c]).1
  {
    var batch := [c, c];
    RanksOfTwo(batch);
    assert First(batch, 0) && SameKey(batch[0], batch[1]);
    assert !Yields(batch, 0, 1);
    BatchIsOneByOneIff(t, queues, batch, u, disp);
    BeatenByFirst(batch, 0, 1);
    FirstIsNotBeaten(batch, 0);
    assert disp[0] == DispositionOf(t, queues, batch, 0) && disp[1] == DispositionOf(t, queues, batch, 1);
    assert HasSuccess(batch, c) ==> c.outcome.Succeeded?;
  }

  /** A failure followed by a success of the same attempt: one by one the row fails and the success is
      ignored, but the batch completes it, so even the tables differ. */
  lemma LateSuccessCompletes(t: Executions, queues: Queues, failed: Completion, succeeded: Completion, u: Executions,
                             disp: seq<Disposition>)
    requires Fenced(t, failed) && SameKey(failed, succeeded)
    requires failed.outcome.Crashed? && succeeded.outcome.Succeeded?
    requires CompleteTx(t, queues, [failed, succeeded], u, disp)
    ensures u[failed.jobId].status == Completed && disp == [Ignored, Finished]
    ensures CompleteOneByOne(t, queues, [failed, succeeded]).0[failed.jobId].status == Failed
  {
    var batch := [failed, succeeded];
    assert batch[0] == failed && batch[1] == succeeded;
    FirstDecides(t, queues, batch, 0);
    SuccessBeatsFailure(t, queues, batch, u, disp, 0);
    assert HasSuccess(batch, failed);
    assert !BeatenByEarlierChunk(batch, 1);
    assert disp[1] == DispositionOf(t, queues, batch, 1);
  }
}
