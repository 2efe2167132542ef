/**
  The streaming batch scheduler and the single-task scheduler on mutable objects. Each method is one
  critical section, tied to its transition in `StreamingScheduling`, and keeps that module's invariant.
 */
module StreamingBatchSchedulers {
  import opened Common
  import opened S = StreamingScheduling

  /** A batch handed to a batch thread; the scheduler keeps a pointer to it while it is open. */
  class Batch {
    var tasks: seq<Task>
    var closed: bool
    var finished: bool

    constructor ()
      ensures View() == BatchView([], false, false)
    {
      tasks, closed, finished := [], false, false;
    }

    ghost function View(): BatchView
      reads this
    {
      BatchView(tasks, closed, finished)
    }
  }

  /** The one-slot deferred closer and the local state of its background thread. */
  class SingleTaskScheduler {
    var updatedTask: Option<Closure>
    var lastTaskTime: nat
    var currentTask: Option<Closure>
    var firing: bool

    constructor ()
      ensures View() == Closer(None, 0, None, false)
    {
      updatedTask, lastTaskTime, currentTask, firing := None, 0, None, false;
    }

    ghost function View(): Closer
      reads this
    {
      Closer(updatedTask, lastTaskTime, currentTask, firing)
    }

    /** The monotonicity check on the times is this method's precondition. */
    method Schedule(closure: Closure)
      requires lastTaskTime <= closure.time
      modifies this
      ensures View() == Supersede(old(View()), closure)
    {
      lastTaskTime := closure.time;
      updatedTask := Some(closure);
    }
  }

  class StreamingBatchScheduler {
    const options: Options
    var openBatch: Batch?
    var openBatchNum: nat
    var numBatchesInProgress: int
    var batchCloser: SingleTaskScheduler?

    ghost var started: seq<Batch>
    ghost var clock: nat
    ghost var accepted: seq<Task>
    ghost var newest: Option<Closure>

    ghost function Batches(): seq<BatchView>
      reads this, started
    {
      seq(|started|, i requires 0 <= i < |started| reads this, started => started[i].View())
    }

    ghost function View(): State
      reads this, started, batchCloser
    {
      State(Batches(), numBatchesInProgress,
            if batchCloser == null then Closer(None, 0, None, false) else batchCloser.View(),
            clock, accepted, newest)
    }

    ghost predicate Linked()
      reads this
    {
      && ValidOptions(options)
      && (forall i, j :: 0 <= i < j < |started| ==> started[i] != started[j])
      && openBatchNum == |started|
      && openBatch == (if started == [] then null else started[|started| - 1])
    }

    /** The pointers agree with the history, and the state satisfies the invariant of every run. */
    ghost predicate Valid()
      reads this, started, batchCloser
    {
      Linked() && Inv(options, View())
    }

    constructor (o: Options)
      requires ValidOptions(o)
      ensures Valid() && View() == INITIAL_STATE && options == o
    {
      options := o;
      openBatch, openBatchNum, numBatchesInProgress, batchCloser := null, 0, 0, null;
      started, clock, accepted, newest := [], 0, [], None;
    }

    /** Rejects a zero batch size or thread count. */
    static method Create(o: Options) returns (status: Status, scheduler: StreamingBatchScheduler?)
      ensures status == OK <==> o.maxBatchSize > 0 && o.numThreads > 0
      ensures status.Error? ==> status.code == InvalidArgument
      ensures status == OK <==> scheduler != null
      ensures scheduler != null ==> fresh(scheduler) && scheduler.Valid() && scheduler.View() == INITIAL_STATE
    {
      if o.maxBatchSize <= 0 {
        return Error(InvalidArgument, "max_batch_size must be positive"), null;
      }
      if o.numThreads <= 0 {
        return Error(InvalidArgument, "num_batch_threads must be positive"), null;
      }
      scheduler := new StreamingBatchScheduler(o);
      status := OK;
    }

    /** The open batch object, if any. */
    ghost function Open(): set<Batch>
      reads this
    {
      if openBatch == null then {} else {openBatch}
    }

    ghost function CloserObject(): set<SingleTaskScheduler>
      reads this
    {
      if batchCloser == null then {} else {batchCloser}
    }

    method StartNewBatch()
      requires Linked()
      modifies this`openBatch, this`openBatchNum, this`numBatchesInProgress, this`started, Open()`closed
      ensures Linked() && openBatch != null && fresh(openBatch)
      ensures View() == S.StartNewBatch(old(View()))
      ensures forall b :: b in old(started) ==> b in started
      ensures batchCloser == old(batchCloser)
    {
      if openBatch != null {
        openBatch.closed := true;
      }
      label closed:
      assert Batches() == CloseLast(old(Batches()));
      var batch := new Batch();
      numBatchesInProgress := numBatchesInProgress + 1;
      openBatch := batch;
      openBatchNum := openBatchNum + 1;
      started := started + [batch];
      assert Batches() == CloseLast(old(Batches())) + [BatchView([], false, false)];
    }

    /** Only called with an open batch; the time is the monotone clock's reading plus the timeout. */
    method ScheduleCloseOfCurrentOpenBatch(closeTime: nat)
      requires Linked() && openBatch != null
      requires View().closer.lastTime <= closeTime
      modifies this`batchCloser, this`newest, CloserObject()
      ensures Linked() && View() == ScheduleClose(old(View()), closeTime)
      ensures batchCloser != null && (batchCloser == old(batchCloser) || fresh(batchCloser))
    {
      if batchCloser == null {
        batchCloser := new SingleTaskScheduler();
      }
      var batchNumToClose := openBatchNum;
      batchCloser.Schedule(Closure(closeTime, batchNumToClose));
      newest := Some(Closure(closeTime, batchNumToClose));
      assert Batches() == old(Batches());
    }

    /** The part of `Schedule` that runs once `task` has a batch with a thread. */
    method AppendTask(task: Task)
      requires Linked() && openBatch != null
      modifies this`accepted, openBatch
      ensures Linked() && View() == AddTask(old(View()), task)
    {
      ghost var before := View();
      openBatch.tasks := openBatch.tasks + [task];
      accepted := accepted + [task];
      assert Batches() == AddTask(before, task).batches;
    }

    method AddToOpenBatch(task: Task, now: nat)
      requires Linked() && openBatch != null && now == clock
      requires options.timeoutMicros > 0 ==> View().closer.lastTime <= clock + options.timeoutMicros
      modifies this, Open(), CloserObject()
      ensures Linked() && View() == Accept(options, old(View()), task)
    {
      ghost var ready := View();
      if options.timeoutMicros > 0 && openBatch.tasks == [] {
        ScheduleCloseOfCurrentOpenBatch(now + options.timeoutMicros);
      }
      assert View() == Arm(options, ready);
      AppendTask(task);
      CloseFullBatch();
    }

    method CloseFullBatch()
      requires Linked() && openBatch != null
      modifies this, Open()
      ensures Linked() && batchCloser == old(batchCloser) && View() == Rollover(options, old(View()))
    {
      if SizeOf(openBatch.tasks) == options.maxBatchSize {
        StartNewBatch();
      }
    }

    method PrepareOpenBatch(task: Task)
      requires Linked()
      modifies this, Open()
      ensures Linked() && openBatch != null && View() == Prepare(options, old(View()), task)
      ensures openBatch == old(openBatch) || fresh(openBatch)
      ensures batchCloser == old(batchCloser)
    {
      if openBatch == null || SizeOf(openBatch.tasks) + task.size > options.maxBatchSize {
        StartNewBatch();
      }
    }

    /** The critical section of `Schedule`, for a task that respects the size limit. */
    method ScheduleLocked(task: Task, now: nat) returns (status: Status)
      requires Linked() && now == clock && task.size <= options.maxBatchSize && ChecksPass(options, View(), task)
      modifies this, Open(), CloserObject()
      ensures Linked() && (View(), status) == S.Schedule(options, old(View()), task, now)
    {
      PrepareOpenBatch(task);
      if numBatchesInProgress > options.numThreads {
        assert openBatch.tasks == [] by {
          assert openBatch.View() == View().batches[|started| - 1];
        }
        return Error(Unavailable, "all batch threads are busy");
      }
      AddToOpenBatch(task, now);
      return OK;
    }

    method ReadClock(now: nat)
      requires Linked()
      modifies this`clock
      ensures Linked() && clock == now && View() == old(View()).(now := now)
    {
      clock := now;
      assert Batches() == old(Batches());
    }

    /** Hands `task` to a batch that has a thread, or leaves it with the caller. */
    method Schedule(task: Task, now: nat) returns (status: Status, left: Option<Task>)
      requires Valid() && clock <= now
      modifies this, Open(), CloserObject()
      ensures Valid()
      ensures (View(), status) == S.Schedule(options, old(View()), task, now)
      ensures left == if status == OK then None else Some(task)
    {
      ScheduleKeepsInv(options, View(), task, now);
      InvImpliesChecks(options, View(), task, now);
      ReadClock(now);
      if task.size > options.maxBatchSize {
        return Error(InvalidArgument, "Task size is larger than maximum batch size"), Some(task);
      }
      status := ScheduleLocked(task, now);
      left := if status == OK then None else Some(task);
    }

    method SchedulingCapacity() returns (capacity: int)
      requires Valid()
      ensures capacity == Capacity(options, View()) >= 0
    {
      UnitTaskAccepted(options, View(), Task(0, 1));
      if numBatchesInProgress > options.numThreads {
        return 0;
      }
      var numIdleThreads := options.numThreads - numBatchesInProgress;
      var openBatchCapacity := if openBatch == null then 0 else options.maxBatchSize - SizeOf(openBatch.tasks);
      return numIdleThreads * options.maxBatchSize + openBatchCapacity;
    }

    /** Runs the closure that the closer thread has committed to. */
    method RunCurrentTask()
      requires Linked() && batchCloser != null && batchCloser.firing && batchCloser.currentTask.Some?
      modifies this, Open(), batchCloser
      ensures Linked() && batchCloser == old(batchCloser)
      ensures View() == RunClosure(old(View()), old(View()).closer.current.value)
        .(closer := old(View()).closer.(current := None, firing := false))
    {
      var batchNumToClose := batchCloser.currentTask.value.batchNum;
      if openBatchNum == batchNumToClose {
        StartNewBatch();
      }
      batchCloser.currentTask, batchCloser.firing := None, false;
    }

    /** One turn of the closer thread's loop at time `now`. */
    method CloserThreadTurn(now: nat)
      requires Valid() && clock <= now && batchCloser != null
      modifies this, Open(), batchCloser
      ensures Valid() && View() == CloserTurn(old(View()), now)
    {
      CloserTurnKeepsInv(options, View(), now);
      ghost var before := View();
      ReadClock(now);
      var closer := batchCloser;
      if closer.firing {
        RunCurrentTask();
      } else if closer.currentTask.Some? && closer.currentTask.value.time > now {
        // Still asleep.
      } else if closer.updatedTask.Some? {
        closer.currentTask, closer.updatedTask := closer.updatedTask, None;
      } else {
        closer.firing := closer.currentTask.Some?;
      }
      assert Batches() == CloserTurn(before, now).batches;
    }

    /** The batch thread reports that the callback of a closed batch has returned. */
    method BatchDone(batch: Batch, ghost i: nat)
      requires Valid() && i < |started| && started[i] == batch
      requires batch.closed && !batch.finished
      modifies this`numBatchesInProgress, batch`finished
      ensures Valid() && View() == FinishBatch(old(View()), i)
    {
      FinishBatchKeepsInv(options, View(), i);
      batch.finished := true;
      numBatchesInProgress := numBatchesInProgress - 1;
      assert Batches() == old(FinishBatch(View(), i).batches);
    }
  }
}
