/**
 * The decisions of one worker-loop iteration (working_proc): which task
 * leaves the queue and which completion messages follow a run.
 */
module Scheduler {
  import opened Wrappers
  import opened Messages
  import opened Tasks
  import opened Interceptor

  function ChainDone(chain: string): Message {
    Message(TaskChainCompleted, ChainDetail(chain))
  }

  const AllDone: Message := Message(AllTasksCompleted, NoDetail)

  function ChainError(chain: string): Message {
    Message(TaskError, ChainDetail(chain))
  }

  /**
   * The messages the worker posts after running a task of chain `chain`,
   * `rest` being the queue once the task is popped. A success completes the
   * chain when no task of the same chain comes next, and completes
   * everything when nothing comes next; a failure reports only the error.
   */
  function CompletionEvents(success: bool, chain: string, rest: seq<Task>): (r: seq<Message>)
    ensures !success ==> r == [ChainError(chain)]
    ensures success ==> (ChainDone(chain) in r <==> rest == [] || rest[0].chain != chain)
    ensures success ==> (AllDone in r <==> rest == [])
    ensures success ==> forall m :: m in r ==> m == ChainDone(chain) || m == AllDone
    ensures success && |r| == 2 ==> r[0] == ChainDone(chain) && r[1] == AllDone
  {
    if success then
      (if rest == [] || rest[0].chain != chain then [ChainDone(chain)] else [])
      + (if rest == [] then [AllDone] else [])
    else
      [ChainError(chain)]
  }

  /**
   * std::queue::pop as line 428 calls it, on the queue that run() left:
   * None stands for popping an empty queue, which is undefined behaviour.
   */
  function PopAsWritten(q: seq<Task>): Option<seq<Task>> {
    if q == [] then None else Some(q[1..])
  }

  /**
   * A task that reports a capture failure while it runs makes task_callback
   * call stop(), which empties the queue; the pop that follows then pops an
   * empty queue, whatever the queue held before the run.
   */
  lemma {:induction false} CaptureFailureLeavesNothingToPop(q: seq<Task>, posted: seq<Message>, k: nat)
    requires k < |posted| && IsFatal(posted[k].kind)
    ensures PopAsWritten(QueueAfterRun(q, posted)) == None
  {
    assert AnyFatal(posted);
  }

  /**
   * The queue after one worker iteration, as intended: the task that ran is
   * removed, unless a capture failure during its run already emptied the queue.
   */
  function StepQueue(q: seq<Task>, posted: seq<Message>): (r: seq<Task>)
    requires q != []
    ensures AnyFatal(posted) ==> r == []
    ensures !AnyFatal(posted) ==> r == q[1..]
  {
    var left := QueueAfterRun(q, posted);
    if left == [] then [] else left[1..]
  }

  /**
   * The unguarded pop of line 428 and the intended step agree exactly when
   * the run posted no capture failure.
   */
  lemma {:induction false} PopAgreesWithStep(q: seq<Task>, posted: seq<Message>)
    requires q != []
    ensures !AnyFatal(posted) <==> PopAsWritten(QueueAfterRun(q, posted)) == Some(StepQueue(q, posted))
  {
  }

  /** The chain labels of a queue, in order. */
  function Labels(q: seq<Task>): seq<string> {
    seq(|q|, i requires 0 <= i < |q| => q[i].chain)
  }

  /** Reference definition of chains: each maximal run of equal labels, once. */
  function Collapse(ls: seq<string>): seq<string> {
    if |ls| <= 1 then ls
    else (if ls[0] == ls[1] then [] else [ls[0]]) + Collapse(ls[1..])
  }

  function ChainDones(ls: seq<string>): seq<Message> {
    seq(|ls|, i requires 0 <= i < |ls| => ChainDone(ls[i]))
  }

  /** The messages posted while the worker drains `q`, every run succeeding. */
  function DrainEvents(q: seq<Task>): seq<Message> {
    if q == [] then [] else CompletionEvents(true, q[0].chain, q[1..]) + DrainEvents(q[1..])
  }

  /**
   * Chains are detected by label adjacency: draining a queue whose runs
   * all succeed posts one TaskChainCompleted per maximal run of equal
   * labels, in queue order, then one AllTasksCompleted.
   */
  lemma {:induction false} DrainEmitsOneCompletionPerChain(q: seq<Task>)
    ensures DrainEvents(q) == ChainDones(Collapse(Labels(q))) + (if q == [] then [] else [AllDone])
    decreases |q|
  {
    if q != [] {
      DrainEmitsOneCompletionPerChain(q[1..]);
      if q[1..] == [] {
        assert Labels(q) == [q[0].chain];
        assert ChainDones([q[0].chain]) == [ChainDone(q[0].chain)];
      } else {
        DrainStep(q);
      }
    }
  }

  /** The chain a task closes when a task follows it: its own iff the next label differs. */
  function ClosedBefore(q: seq<Task>): seq<string>
    requires |q| >= 2
  {
    if q[0].chain == q[1].chain then [] else [q[0].chain]
  }

  /** One more task in front of a non-empty queue adds its chain's completion iff the label changes there. */
  lemma {:induction false} DrainStep(q: seq<Task>)
    requires |q| >= 2
    requires DrainEvents(q[1..]) == ChainDones(Collapse(Labels(q[1..]))) + [AllDone]
    ensures DrainEvents(q) == ChainDones(Collapse(Labels(q))) + [AllDone]
  {
    var front, tail := ChainDones(ClosedBefore(q)), ChainDones(Collapse(Labels(q[1..])));
    DrainHead(q);
    assert front + tail == ChainDones(Collapse(Labels(q))) by {
      CollapseHead(q);
      ChainDonesConcat(ClosedBefore(q), Collapse(Labels(q[1..])));
    }
    assert front + (tail + [AllDone]) == (front + tail) + [AllDone];
  }

  lemma {:induction false} DrainHead(q: seq<Task>)
    requires |q| >= 2
    ensures DrainEvents(q) == ChainDones(ClosedBefore(q)) + DrainEvents(q[1..])
  {
    assert CompletionEvents(true, q[0].chain, q[1..]) == ChainDones(ClosedBefore(q));
  }

  lemma {:induction false} CollapseHead(q: seq<Task>)
    requires |q| >= 2
    ensures Collapse(Labels(q)) == ClosedBefore(q) + Collapse(Labels(q[1..]))
  {
    LabelsCons(q);
    CollapseCons(q[0].chain, Labels(q[1..]));
  }

  lemma {:induction false} LabelsCons(q: seq<Task>)
    requires |q| >= 2
    ensures Labels(q) == [q[0].chain] + Labels(q[1..])
    ensures Labels(q[1..])[0] == q[1].chain
  {
  }

  lemma {:induction false} CollapseCons(x: string, ls: seq<string>)
    requires ls != []
    ensures Collapse([x] + ls) == (if x == ls[0] then [] else [x]) + Collapse(ls)
  {
    assert ([x] + ls)[1..] == ls;
  }

  lemma {:induction false} ChainDonesConcat(xs: seq<string>, ys: seq<string>)
    ensures ChainDones(xs + ys) == ChainDones(xs) + ChainDones(ys)
  {
  }

  /**
   * Chains A, A, B: exactly one TaskChainCompleted(A), after the second A,
   * then TaskChainCompleted(B) and AllTasksCompleted.
   */
  lemma ChainBoundaryExample(t1: Task, t2: Task, t3: Task)
    requires t1.chain == t2.chain != t3.chain
    ensures DrainEvents([t1, t2, t3]) == [ChainDone(t1.chain), ChainDone(t3.chain), AllDone]
  {
    DrainEmitsOneCompletionPerChain([t1, t2, t3]);
    assert Labels([t1, t2, t3]) == [t1.chain, t1.chain, t3.chain];
    assert Collapse([t1.chain, t3.chain]) == [t1.chain, t3.chain];
  }
}
