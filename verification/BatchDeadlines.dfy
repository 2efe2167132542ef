/** Which batches are run, and with what timeout. */
module BatchDeadlines {
  import opened Batching
  import opened BatchTasks

  const INT_MAX: nat := 0x7fff_ffff
  const UINT64_SIZE: nat := 0x1_0000_0000_0000_0000

  /** When the task times out; one without a timeout after the greatest `int` of microseconds. Wraps around. */
  function Deadline(task: BatchingSessionTask): nat {
    (task.enqueueTime + if task.timeoutMillis <= 0 then INT_MAX else task.timeoutMillis * 1000) % UINT64_SIZE
  }

  ghost predicate AllExpired(batch: seq<BatchingSessionTask>, now: nat) {
    forall k :: 0 <= k < |batch| ==> Deadline(batch[k]) <= now
  }

  /** The latest deadline that has not passed; zero if all have. */
  function LatestDeadline(batch: seq<BatchingSessionTask>, now: nat): nat {
    if batch == [] then 0
    else
      var earlier, deadline := LatestDeadline(batch[..|batch| - 1], now), Deadline(batch[|batch| - 1]);
      if deadline > now && deadline > earlier then deadline else earlier
  }

  lemma {:induction false} LatestDeadlineIs(batch: seq<BatchingSessionTask>, now: nat)
    ensures forall k :: 0 <= k < |batch| && Deadline(batch[k]) > now ==>
      Deadline(batch[k]) <= LatestDeadline(batch, now)
    ensures if AllExpired(batch, now) then LatestDeadline(batch, now) == 0
            else exists k :: 0 <= k < |batch| && now < Deadline(batch[k]) == LatestDeadline(batch, now)
  {
    if batch != [] {
      var init := batch[..|batch| - 1];
      LatestDeadlineIs(init, now);
      assert batch == init + [batch[|batch| - 1]];
      if !AllExpired(init, now) {
        var k :| 0 <= k < |init| && now < Deadline(init[k]) == LatestDeadline(init, now);
        assert batch[k] == init[k];
      }
    }
  }

  method FindDeadline(batch: seq<BatchingSessionTask>, now: nat) returns (allExceeded: bool, latest: nat)
    ensures allExceeded <==> AllExpired(batch, now)
    ensures latest == LatestDeadline(batch, now)
  {
    allExceeded, latest := true, 0;
    for k := 0 to |batch|
      invariant allExceeded <==> AllExpired(batch[..k], now)
      invariant latest == LatestDeadline(batch[..k], now)
    {
      assert batch[..k + 1][..k] == batch[..k] && batch[..k + 1][k] == batch[k];
      if Deadline(batch[k]) > now {
        allExceeded := false;
        if Deadline(batch[k]) > latest {
          latest := Deadline(batch[k]);
        }
      }
    }
    assert batch[..|batch|] == batch;
  }

  /** The timeout that the batch is run with; zero stands for none. */
  function RunTimeoutMillis(latest: nat, now: nat): int {
    if latest == INT_MAX then 0 else (latest - now) / 1000
  }

  /**
    Timeouts in numbers. A task is due a thousand microseconds after it was enqueued for each millisecond of
    its timeout, or the greatest `int` of microseconds after if it has none, at 64 bits. The batch expires
    once all its tasks are due; until then it is run with what is left, in whole milliseconds, until the last
    of them is due, or without a timeout if that is at the greatest `int`.
   */
  lemma TimeoutsInNumbers(batch: seq<BatchingSessionTask>, now: nat, due: seq<nat>) returns (last: nat)
    requires |due| == |batch| && forall k :: 0 <= k < |batch| ==> IsDue(batch[k], due[k])
    ensures AllExpired(batch, now) <==> forall k :: 0 <= k < |due| ==> due[k] <= now
    ensures !AllExpired(batch, now) ==>
      && last < |due| && now < due[last] && (forall k :: 0 <= k < |due| ==> due[k] <= due[last])
      && RunTimeoutMillis(LatestDeadline(batch, now), now)
           == if due[last] == 2_147_483_647 then 0 else (due[last] - now) / 1000
  {
    last := 0;
    LatestDeadlineIs(batch, now);
    if !AllExpired(batch, now) {
      last :| 0 <= last < |batch| && now < Deadline(batch[last]) == LatestDeadline(batch, now);
      assert IsDue(batch[last], due[last]);
      forall k | 0 <= k < |due| ensures due[k] <= due[last] {
        assert IsDue(batch[k], due[k]);
      }
    }
  }

  /** When the task is due. */
  ghost predicate IsDue(task: BatchingSessionTask, due: nat) {
    var wait := if task.timeoutMillis > 0 then 1000 * task.timeoutMillis else 2_147_483_647;
    due == (task.enqueueTime + wait) % 0x1_0000_0000_0000_0000
  }

  function NewestEnqueueTime(batch: seq<BatchingSessionTask>): nat
    requires batch != []
  {
    var init, last := batch[..|batch| - 1], batch[|batch| - 1].enqueueTime;
    if init == [] || NewestEnqueueTime(init) < last then last else NewestEnqueueTime(init)
  }

  lemma {:induction false} NewestEnqueueTimeIs(batch: seq<BatchingSessionTask>)
    requires batch != []
    ensures forall k :: 0 <= k < |batch| ==> batch[k].enqueueTime <= NewestEnqueueTime(batch)
    ensures exists k :: 0 <= k < |batch| && batch[k].enqueueTime == NewestEnqueueTime(batch)
  {
    var init := batch[..|batch| - 1];
    assert batch == init + [batch[|batch| - 1]];
    if init != [] {
      NewestEnqueueTimeIs(init);
      var k :| 0 <= k < |init| && init[k].enqueueTime == NewestEnqueueTime(init);
      assert batch[k] == init[k];
    }
  }

  /**
    Tasks without a timeout are meant to wait as long as they have to, and to be run without a timeout. The
    code instead gives each a deadline, an absolute time, and compares the latest one with the greatest
    `int`. So a batch of such tasks is run at all, and without a timeout, exactly if the newest of them has
    not waited for that long, and either was enqueued at time zero or has less than a millisecond left.
   */
  lemma NoTimeoutIsPassedOnIff(batch: seq<BatchingSessionTask>, now: nat)
    requires batch != [] && forall k :: 0 <= k < |batch| ==> batch[k].timeoutMillis <= 0
    requires NewestEnqueueTime(batch) + INT_MAX < UINT64_SIZE
    ensures var e := NewestEnqueueTime(batch);
      !AllExpired(batch, now) && RunTimeoutMillis(LatestDeadline(batch, now), now) == 0
      <==> now < e + INT_MAX && (e == 0 || e + INT_MAX - now < 1000)
    ensures AllExpired(batch, now) <==> NewestEnqueueTime(batch) + INT_MAX <= now
  {
    var e := NewestEnqueueTime(batch);
    NewestEnqueueTimeIs(batch);
    LatestDeadlineIs(batch, now);
    assert forall k :: 0 <= k < |batch| ==> Deadline(batch[k]) == batch[k].enqueueTime + INT_MAX;
    var newest :| 0 <= newest < |batch| && batch[newest].enqueueTime == e;
    assert Deadline(batch[newest]) == e + INT_MAX;
  }

  /** A task without a timeout that is run with one if it is taken at once, and refused if it has to wait for long. */
  lemma UnlimitedTaskExpires(view: TaskView, d: Destination)
    ensures var batch := [BatchingSessionTask(view, 5_000_000, 0, d)];
      && RunTimeoutMillis(LatestDeadline(batch, 5_000_000), 5_000_000) == 2_147_483
      && AllExpired(batch, 5_000_000 + INT_MAX)
  {
    var batch := [BatchingSessionTask(view, 5_000_000, 0, d)];
    assert Deadline(batch[0]) == 5_000_000 + INT_MAX;
    assert batch[..0] == [] && LatestDeadline([], 5_000_000) == 0;
    assert LatestDeadline(batch, 5_000_000) == 5_000_000 + INT_MAX;
  }
}
