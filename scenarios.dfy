/**
 * Whole-object scenarios: a fresh assistant driven through its public
 * calls and one worker or message step at a time, with the outcome each
 * scenario must have.
 */
module Scenarios {
  import opened Wrappers
  import opened Messages
  import opened Tasks
  import opened Interceptor
  import opened Scheduler
  import opened MeoAssistance

  method Fresh() returns (a: Assistance)
    ensures fresh(a)
    ensures !a.inited && a.threadIdle && !a.threadExit && a.tasks == [] && a.msgs == []
    ensures a.hasCallback && a.emulators == map[]
  {
    a := new Assistance(true, map[], map[], OtherConnect, map[], "");
  }

  /** Before a capture target is bound every append is refused and the queue stays empty. */
  method AppendBeforeInit(entry: string, order: seq<string>) returns (process: bool, infrast: bool, pending: seq<Task>)
    ensures !process && !infrast && pending == []
  {
    var a := Fresh();
    process := a.AppendProcessTask(entry, "", DefaultRetries);
    infrast := a.AppendInfrast(order, DroneUses(true, true), false);
    pending := a.tasks;
  }

  /** stop() always succeeds, and a second one leaves the assistant as the first did. */
  method StopTwice(entry: string) returns (first: bool, second: bool, idle: bool, pending: seq<Task>)
    ensures first && second && idle && pending == []
  {
    var a := Fresh();
    var _ := a.CatchFake();
    var _ := a.AppendProcessTask(entry, "", DefaultRetries);
    var _ := a.Start();
    first := a.Stop();
    second := a.Stop();
    idle, pending := a.threadIdle, a.tasks;
  }

  /** start() succeeds once; a second start while running is refused. */
  method StartTwice() returns (first: bool, second: bool)
    ensures first && !second
  {
    var a := Fresh();
    var _ := a.CatchFake();
    first := a.Start();
    second := a.Start();
  }

  /** Two tasks of one chain: the first run completes no chain, since the next task continues it. */
  method SameChainNext(x: string, y: string, chain: string) returns (queued: seq<Message>, pending: seq<Task>)
    requires chain != ""
    ensures queued == [] && pending == [ProcessTask(y, chain, DefaultRetries)]
  {
    var a := Fresh();
    var _ := a.CatchFake();
    var _ := a.AppendProcessTask(x, chain, DefaultRetries);
    var _ := a.AppendProcessTask(y, chain, DefaultRetries);
    var _ := a.Start();
    QuietStep(a);
    queued, pending := a.msgs, a.tasks;
  }

  /**
   * Tasks of chains A then B, both runs succeeding: TaskChainCompleted(A)
   * after the first, then TaskChainCompleted(B) and AllTasksCompleted.
   */
  method ChainChange(x: string, y: string, chainA: string, chainB: string)
    returns (queued: seq<Message>, pending: seq<Task>)
    requires chainA != "" && chainB != "" && chainA != chainB
    ensures queued == [ChainDone(chainA), ChainDone(chainB), AllDone]
    ensures pending == []
  {
    var a := Fresh();
    var _ := a.CatchFake();
    var _ := a.AppendProcessTask(x, chainA, DefaultRetries);
    var _ := a.AppendProcessTask(y, chainB, DefaultRetries);
    var _ := a.Start();
    QuietStep(a);
    assert a.msgs == [ChainDone(chainA)];
    QuietStep(a);
    queued, pending := a.msgs, a.tasks;
  }

  /** A worker step whose run succeeds without posting anything. */
  method QuietStep(a: Assistance)
    requires !a.threadExit && !a.threadIdle && a.tasks != []
    modifies a
    ensures a.threadExit == old(a.threadExit) && a.threadIdle == old(a.threadIdle)
    ensures a.tasks == old(a.tasks)[1..]
    ensures a.msgs == old(a.msgs) + CompletionEvents(true, old(a.tasks)[0].chain, a.tasks)
  {
    assert !AnyFatal([]);
    var _ := a.WorkerStep(RunOutcome(true, []));
  }

  /**
   * A screenshot failure while a task runs stops the assistant: the
   * remaining tasks are discarded, the worker is left idle, and the
   * failure is queued before the task's error.
   */
  method CaptureFailureDuringRun(x: string, y: string, chain: string)
    returns (ran: Option<Task>, pending: seq<Task>, idle: bool, queued: seq<Message>)
    requires chain != ""
    ensures ran == Some(ProcessTask(x, chain, DefaultRetries))
    ensures pending == [] && idle
    ensures queued == [Message(ImageIsEmpty, NoDetail), ChainError(chain)]
  {
    var a := Fresh();
    var _ := a.CatchFake();
    var _ := a.AppendProcessTask(x, chain, DefaultRetries);
    var _ := a.AppendProcessTask(y, chain, DefaultRetries);
    var _ := a.Start();
    var failure := Message(ImageIsEmpty, NoDetail);
    assert AnyFatal([failure]) by {
      assert IsFatal([failure][0].kind);
    }
    ran := a.WorkerStep(RunOutcome(false, [failure]));
    assert a.msgs[..1] == [failure];
    pending, idle, queued := a.tasks, a.threadIdle, a.msgs;
  }

  /** The message loop hands queued messages to the callback in the order they were queued. */
  method DeliveryOrder(m1: Message, m2: Message) returns (d1: Option<Message>, d2: Option<Message>, d3: Option<Message>)
    ensures d1 == Some(m1) && d2 == Some(m2) && d3 == None
  {
    var a := Fresh();
    a.AppendCallback(m1);
    a.AppendCallback(m2);
    d1 := a.MsgStep();
    d2 := a.MsgStep();
    d3 := a.MsgStep();
  }

  /** Binding an emulator name the configuration lacks fails and leaves the assistant uninitialised. */
  method CatchUnknownEmulator(name: string, tryCapture: (EmulatorInfo, bool) -> bool)
    returns (r: Result<bool, CatchError>, inited: bool)
    requires name != ""
    ensures r == Failure(UnknownEmulator(name)) && !inited
  {
    var a := Fresh();
    r := a.CatchEmulator(name, tryCapture);
    inited := a.inited;
  }
}
