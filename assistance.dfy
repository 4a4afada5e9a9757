/**
 * The assistant object (asst::Assistance): its lifecycle flags, its task
 * queue and message queue, and the public calls that change them. The
 * worker and message threads are replaced by WorkerStep and MsgStep, one
 * loop iteration each; locking, waiting and the inter-task delay are not
 * modelled.
 */
module MeoAssistance {
  import opened Wrappers
  import opened DropStatistics
  import opened Messages
  import opened Tasks
  import opened Interceptor
  import opened Scheduler
  import PenguinReport

  /** The configured connection type catch_default dispatches on. */
  datatype ConnectType = Emulator | Custom | OtherConnect

  /** A configured capture target, handed to try_capture as it is. */
  datatype EmulatorInfo = EmulatorInfo(descriptor: string)

  /** The exception `std::map::at` throws for an emulator name the configuration lacks. */
  datatype CatchError = UnknownEmulator(name: string)

  /** What one run() of a task did: its return value, and the messages it posted through task_callback meanwhile. */
  datatype RunOutcome = RunOutcome(success: bool, posted: seq<Message>)

  /** The fields task_callback changes, as they were at some moment. */
  datatype Snapshot = Snapshot(idle: bool, tasks: seq<Task>, cacheClears: nat, dropCount: map<string, int>, msgs: seq<Message>)

  class Assistance {
    /** A capture target is bound (m_inited). */
    var inited: bool
    /** No task may start (m_thread_idle); also the running task's exit flag. */
    var threadIdle: bool
    /** Both loops must end (m_thread_exit). */
    var threadExit: bool
    /** The pending tasks, front first (m_tasks_queue). */
    var tasks: seq<Task>
    /** The messages awaiting the callback, front first (m_msg_queue). */
    var msgs: seq<Message>
    /** How many times the template cache was cleared. */
    var cacheClears: nat
    /** The item collaborator's drop accumulator. */
    var dropCount: map<string, int>
    /** The configuration's Penguin Statistics report parameter. */
    var penguinReportExtraParam: string

    /** A callback was registered (m_callback is not null). */
    const hasCallback: bool
    /** The item collaborator's name table. */
    const itemNames: map<string, string>
    /** The configured emulators, by name. */
    const emulators: map<string, EmulatorInfo>
    const connectType: ConnectType

    constructor (hasCallback: bool, itemNames: map<string, string>, emulators: map<string, EmulatorInfo>,
                 connectType: ConnectType, dropCount: map<string, int>, penguinParam: string)
      ensures this.hasCallback == hasCallback && this.itemNames == itemNames
      ensures this.emulators == emulators && this.connectType == connectType
      ensures this.dropCount == dropCount && penguinReportExtraParam == penguinParam
      ensures !inited && threadIdle && !threadExit
      ensures tasks == [] && msgs == [] && cacheClears == 0
    {
      this.hasCallback := hasCallback;
      this.itemNames := itemNames;
      this.emulators := emulators;
      this.connectType := connectType;
      this.dropCount := dropCount;
      penguinReportExtraParam := penguinParam;
      inited, threadIdle, threadExit := false, true, false;
      tasks, msgs, cacheClears := [], [], 0;
    }

    /** The destructor's effect on the flags, before it joins both threads. */
    method Shutdown()
      modifies this`threadExit, this`threadIdle
      ensures threadExit && threadIdle
    {
      threadExit := true;
      threadIdle := true;
    }

    /** Marks the assistant idle, discards every pending task and clears the template cache; always succeeds. */
    method Stop() returns (r: bool)
      modifies this`threadIdle, this`tasks, this`cacheClears
      ensures r && threadIdle && tasks == []
      ensures cacheClears == old(cacheClears) + 1
    {
      threadIdle := true;
      tasks := [];
      cacheClears := cacheClears + 1;
      r := true;
    }

    /** Lets the worker run: refused, changing nothing, unless idle and initialised. */
    method Start() returns (r: bool)
      modifies this`threadIdle
      ensures r <==> old(threadIdle) && inited
      ensures threadIdle == (old(threadIdle) && !r)
    {
      if !threadIdle || !inited {
        return false;
      }
      threadIdle := false;
      r := true;
    }

    /**
     * Stops, then binds a capture target: the named emulator, or with an
     * empty name the first configured one whose capture succeeds. A name
     * the configuration lacks throws, leaving `inited` as it was.
     */
    method CatchEmulator(emulatorName: string, tryCapture: (EmulatorInfo, bool) -> bool)
      returns (r: Result<bool, CatchError>)
      modifies this`threadIdle, this`tasks, this`cacheClears, this`inited
      ensures threadIdle && tasks == [] && cacheClears == old(cacheClears) + 1
      ensures emulatorName == "" ==>
        r == Success(exists name :: name in emulators && tryCapture(emulators[name], false))
      ensures emulatorName != "" && emulatorName in emulators ==>
        r == Success(tryCapture(emulators[emulatorName], false))
      ensures emulatorName != "" && emulatorName !in emulators ==> r == Failure(UnknownEmulator(emulatorName))
      ensures inited == if r.Success? then r.value else old(inited)
    {
      var _ := Stop();
      var ret := false;
      if emulatorName == "" {
        var remaining := emulators.Keys;
        while remaining != {} && !ret
          invariant remaining <= emulators.Keys
          invariant !ret ==> forall name :: name in emulators && name !in remaining ==> !tryCapture(emulators[name], false)
          invariant ret ==> exists name :: name in emulators && tryCapture(emulators[name], false)
          decreases |remaining|
        {
          var name :| name in remaining;
          ret := tryCapture(emulators[name], false);
          remaining := remaining - {name};
        }
      } else {
        if emulatorName !in emulators {
          return Failure(UnknownEmulator(emulatorName));
        }
        ret := tryCapture(emulators[emulatorName], false);
      }
      inited := ret;
      r := Success(ret);
    }

    /** Stops, then binds the emulator configured as "Custom" (a remote target). */
    method CatchCustom(tryCapture: (EmulatorInfo, bool) -> bool) returns (r: Result<bool, CatchError>)
      modifies this`threadIdle, this`tasks, this`cacheClears, this`inited
      ensures threadIdle && tasks == [] && cacheClears == old(cacheClears) + 1
      ensures "Custom" in emulators ==> r == Success(tryCapture(emulators["Custom"], true))
      ensures "Custom" !in emulators ==> r == Failure(UnknownEmulator("Custom"))
      ensures inited == if r.Success? then r.value else old(inited)
    {
      var _ := Stop();
      if "Custom" !in emulators {
        return Failure(UnknownEmulator("Custom"));
      }
      var ret := tryCapture(emulators["Custom"], true);
      inited := ret;
      r := Success(ret);
    }

    /** Stops, then counts as initialised without any capture target. */
    method CatchFake() returns (r: bool)
      modifies this`threadIdle, this`tasks, this`cacheClears, this`inited
      ensures r && inited
      ensures threadIdle && tasks == [] && cacheClears == old(cacheClears) + 1
    {
      var _ := Stop();
      inited := true;
      r := true;
    }

    /** Binds the target the configured connection type names; any other type fails. */
    method CatchDefault(tryCapture: (EmulatorInfo, bool) -> bool) returns (r: Result<bool, CatchError>)
      modifies this`threadIdle, this`tasks, this`cacheClears, this`inited
      ensures connectType == OtherConnect ==> r == Success(false) && unchanged(this)
      ensures connectType == Emulator ==>
        r == Success(exists name :: name in emulators && tryCapture(emulators[name], false))
      ensures connectType == Custom ==>
        r == if "Custom" in emulators then Success(tryCapture(emulators["Custom"], true)) else Failure(UnknownEmulator("Custom"))
      ensures connectType != OtherConnect ==> threadIdle && tasks == [] && cacheClears == old(cacheClears) + 1
      ensures inited == if connectType != OtherConnect && r.Success? then r.value else old(inited)
    {
      match connectType
      case Emulator => r := CatchEmulator("", tryCapture);
      case Custom => r := CatchCustom(tryCapture);
      case OtherConnect => r := Success(false);
    }

    /** Appends one process task; refused before initialisation. */
    method AppendProcessTask(task: string, chain: string, retries: Retries) returns (r: bool)
      modifies this`tasks
      ensures r == inited
      ensures tasks == if inited then old(tasks) + [ProcessTask(task, chain, retries)] else old(tasks)
      ensures inited ==> tasks[|tasks| - 1].chain == (if chain == "" then task else chain)
    {
      if !inited {
        return false;
      }
      var chainName := chain;
      if chainName == "" {
        chainName := task;
      }
      tasks := tasks + [Task(chainName, Process(task, retries))];
      r := true;
    }

    /** Appends the "Fight" chain's task, then starts unless only appending; refused before initialisation. */
    method AppendFight(medicine: int, stone: int, times: int, onlyAppend: bool) returns (r: bool)
      modifies this`tasks, this`threadIdle
      ensures !inited ==> !r && tasks == old(tasks) && threadIdle == old(threadIdle)
      ensures inited ==> tasks == old(tasks) + [Task("Fight", Fight(medicine, stone, times))]
      ensures inited && onlyAppend ==> r && threadIdle == old(threadIdle)
      ensures inited && !onlyAppend ==> r == old(threadIdle) && !threadIdle
    {
      if !inited {
        return false;
      }
      tasks := tasks + [Task("Fight", Fight(medicine, stone, times))];
      if !onlyAppend {
        r := Start();
        return;
      }
      r := true;
    }

    /** Appends the award task; `onlyAppend` is ignored and the worker is never started. */
    method AppendAward(onlyAppend: bool) returns (r: bool)
      modifies this`tasks
      ensures r == inited
      ensures tasks == if inited then old(tasks) + [Task("ReceiveAward", Process("AwardBegin", DefaultRetries))] else old(tasks)
    {
      r := AppendProcessTask("AwardBegin", "ReceiveAward", DefaultRetries);
    }

    /** Appends the friend-visit task; `onlyAppend` is ignored and the worker is never started. */
    method AppendVisit(onlyAppend: bool) returns (r: bool)
      modifies this`tasks
      ensures r == inited
      ensures tasks == if inited then old(tasks) + [Task("Visit", Process("VisitBegin", DefaultRetries))] else old(tasks)
    {
      r := AppendProcessTask("VisitBegin", "Visit", DefaultRetries);
    }

    /** Appends the "Mall" chain (and its shopping task if asked), then starts unless only appending. */
    method AppendMall(withShopping: bool, onlyAppend: bool) returns (r: bool)
      modifies this`tasks, this`threadIdle
      ensures !inited ==> !r && tasks == old(tasks) && threadIdle == old(threadIdle)
      ensures inited ==> tasks == old(tasks) + [Task("Mall", Process("MallBegin", DefaultRetries))]
                                 + (if withShopping then [Task("Mall", CreditShopping)] else [])
      ensures inited && onlyAppend ==> r && threadIdle == old(threadIdle)
      ensures inited && !onlyAppend ==> r == old(threadIdle) && !threadIdle
    {
      if !inited {
        return false;
      }
      var _ := AppendProcessTask("MallBegin", "Mall", DefaultRetries);
      if withShopping {
        tasks := tasks + [Task("Mall", CreditShopping)];
      }
      if !onlyAppend {
        r := Start();
        return;
      }
      r := true;
    }

    /** Appends the "OpenRecruit" chain's task and starts; refused before initialisation. */
    method StartRecruitCalc(requiredLevel: seq<int>, setTime: bool) returns (r: bool)
      modifies this`tasks, this`threadIdle
      ensures !inited ==> !r && tasks == old(tasks) && threadIdle == old(threadIdle)
      ensures inited ==> tasks == old(tasks) + [Task("OpenRecruit", Recruit(requiredLevel, setTime))]
      ensures inited ==> r == old(threadIdle) && !threadIdle
    {
      if !inited {
        return false;
      }
      tasks := tasks + [Task("OpenRecruit", Recruit(requiredLevel, setTime))];
      r := Start();
    }
    /**
     * Appends one infrastructure shift: InfrastBegin, the info task, then
     * per name of `order` its facility task, its drone assist and another
     * InfrastBegin; starts unless only appending. Refused before initialisation.
     */
    method AppendInfrast(order: seq<string>, drones: DroneUses, onlyAppend: bool) returns (r: bool)
      modifies this`tasks, this`threadIdle
      ensures !inited ==> !r && tasks == old(tasks) && threadIdle == old(threadIdle)
      ensures inited ==> tasks == old(tasks) + InfrastTasks(order, drones)
      ensures inited && onlyAppend ==> r && threadIdle == old(threadIdle)
      ensures inited && !onlyAppend ==> r == old(threadIdle) && !threadIdle
    {
      if !inited {
        return false;
      }
      ghost var before := tasks;
      var _ := AppendProcessTask("InfrastBegin", InfrastChain, DefaultRetries);
      tasks := tasks + [InfrastInfoTask];
      ghost var head := tasks;
      AppendSegments(order, drones);
      InfrastTasksAppended(before, head, tasks, order, drones);
      if !onlyAppend {
        r := Start();
        return;
      }
      r := true;
    }

    /** append_infrast's loop over `order`. */
    method AppendSegments(order: seq<string>, drones: DroneUses)
      requires inited
      modifies this`tasks
      ensures tasks == old(tasks) + Segments(order, drones)
    {
      var i := 0;
      while i < |order|
        invariant 0 <= i <= |order|
        invariant tasks == old(tasks) + Segments(order[..i], drones)
      {
        ghost var prev := tasks;
        AppendSegment(order[i], drones);
        SegmentsSnoc(old(tasks), prev, tasks, order, i, drones);
        i := i + 1;
      }
      assert order[..i] == order;
    }

    /** One iteration of append_infrast's loop: the named facility's shift and drone assist, then InfrastBegin. */
    method AppendSegment(name: string, drones: DroneUses)
      requires inited
      modifies this`tasks
      ensures tasks == old(tasks) + Segment(name, drones)
    {
      AppendShiftPart(name, drones);
      var _ := AppendProcessTask("InfrastBegin", InfrastChain, DefaultRetries);
      SegmentSplit(name, drones);
    }

    /** The branches over the facility name: its shift task, then its drone assist when the flag asks for one. */
    method AppendShiftPart(name: string, drones: DroneUses)
      requires inited
      modifies this`tasks
      ensures tasks == old(tasks) + ShiftPart(name, drones)
    {
      if name == "Dorm" {
        tasks := tasks + [Task(InfrastChain, InfrastShift(Dorm))];
      } else if name == "Mfg" {
        tasks := tasks + [Task(InfrastChain, InfrastShift(Mfg))];
        if drones.mfg {
          var _ := AppendProcessTask("DroneAssist-MFG", InfrastChain, DefaultRetries);
        }
      } else if name == "Trade" {
        tasks := tasks + [Task(InfrastChain, InfrastShift(Trade))];
        if drones.trade {
          var _ := AppendProcessTask("DroneAssist-Trade", InfrastChain, DefaultRetries);
        }
      } else if name == "Power" {
        tasks := tasks + [Task(InfrastChain, InfrastShift(Power))];
      } else if name == "Office" {
        tasks := tasks + [Task(InfrastChain, InfrastShift(Office))];
      } else if name == "Reception" {
        tasks := tasks + [Task(InfrastChain, InfrastShift(Reception))];
      }
    }

    /** Stores the drop-report parameter for a Penguin Statistics id (empty clears it). */
    method SetPenguinId(id: string)
      modifies this`penguinReportExtraParam
      ensures penguinReportExtraParam == PenguinReport.ExtraParam(id)
    {
      if id == "" {
        penguinReportExtraParam := "";
      } else {
        penguinReportExtraParam := PenguinReport.HeaderPrefix + id + "\"";
      }
    }

    /** Queues a message at the tail of the message queue. */
    method AppendCallback(m: Message)
      modifies this`msgs
      ensures msgs == old(msgs) + [m]
    {
      msgs := msgs + [m];
    }

    /**
     * The interceptor every message goes through: a capture failure stops
     * the assistant, a drop report is enriched; the message is queued either way.
     */
    method TaskCallback(m: Message)
      modifies this`threadIdle, this`tasks, this`cacheClears, this`dropCount, this`msgs
      ensures IsFatal(m.kind) ==> threadIdle && tasks == [] && cacheClears == old(cacheClears) + 1
      ensures !IsFatal(m.kind) ==> threadIdle == old(threadIdle) && tasks == old(tasks) && cacheClears == old(cacheClears)
      ensures dropCount == AccAfter(old(dropCount), m)
      ensures |msgs| == |old(msgs)| + 1 && msgs[..|old(msgs)|] == old(msgs)
      ensures Intercepted(m, msgs[|old(msgs)|], old(dropCount), itemNames)
    {
      var detail := m.detail;
      if IsFatal(m.kind) {
        var _ := Stop();
      } else if m.kind == StageDrops && detail.ReportDetail? {
        var dst, acc' := OrganizeStageDrop(detail.report, dropCount, itemNames);
        dropCount := acc';
        detail := ReportDetail(dst);
      }
      AppendCallback(Message(m.kind, detail));
    }

    /**
     * The state after task_callback has handled `done`, starting from
     * `s`, having queued `outs`.
     */
    ghost predicate Handled(s: Snapshot, done: seq<Message>, outs: seq<Message>)
      reads this
    {
      && threadIdle == (s.idle || AnyFatal(done))
      && tasks == QueueAfterRun(s.tasks, done)
      && cacheClears == s.cacheClears + FatalCount(done)
      && dropCount == AccAfterAll(s.dropCount, done)
      && msgs == s.msgs + outs
      && InterceptedAll(done, outs, s.dropCount, itemNames)
    }

    ghost function Snap(): Snapshot
      reads this
    {
      Snapshot(threadIdle, tasks, cacheClears, dropCount, msgs)
    }

    /** task_callback on the next posted message, as one step of Handled. */
    method HandleNext(m: Message, ghost s: Snapshot, ghost done: seq<Message>, ghost outs: seq<Message>)
      returns (ghost outs': seq<Message>)
      requires Handled(s, done, outs)
      modifies this`threadIdle, this`tasks, this`cacheClears, this`dropCount, this`msgs
      ensures Handled(s, done + [m], outs')
    {
      ghost var before := msgs;
      AnyFatalSnoc(done, m);
      TaskCallback(m);
      ghost var out := msgs[|before|];
      assert msgs == before + [out];
      InterceptedAllSnoc(done, outs, m, out, s.dropCount, itemNames);
      outs' := outs + [out];
    }

    /** The messages a running task posts through task_callback, handled in order. */
    method TaskCallbacks(posted: seq<Message>)
      modifies this`threadIdle, this`tasks, this`cacheClears, this`dropCount, this`msgs
      ensures threadIdle == (old(threadIdle) || AnyFatal(posted))
      ensures tasks == QueueAfterRun(old(tasks), posted)
      ensures cacheClears == old(cacheClears) + FatalCount(posted)
      ensures dropCount == AccAfterAll(old(dropCount), posted)
      ensures |msgs| == |old(msgs)| + |posted| && msgs[..|old(msgs)|] == old(msgs)
      ensures InterceptedAll(posted, msgs[|old(msgs)|..], old(dropCount), itemNames)
    {
      ghost var s := Snap();
      ghost var outs: seq<Message> := [];
      assert posted[..0] == [];
      var i := 0;
      while i < |posted|
        invariant 0 <= i <= |posted|
        invariant Handled(s, posted[..i], outs)
      {
        outs := HandleNext(posted[i], s, posted[..i], outs);
        assert posted[..i + 1] == posted[..i] + [posted[i]];
        i := i + 1;
      }
      assert posted[..i] == posted;
      assert msgs[|s.msgs|..] == outs;
    }

    /**
     * The completion messages of a run: handed to task_callback, which
     * queues them unchanged, since none is a capture failure or a drop report.
     */
    method PostCompletion(success: bool, chain: string)
      modifies this`threadIdle, this`tasks, this`cacheClears, this`dropCount, this`msgs
      ensures msgs == old(msgs) + CompletionEvents(success, chain, tasks)
      ensures threadIdle == old(threadIdle) && tasks == old(tasks)
      ensures cacheClears == old(cacheClears) && dropCount == old(dropCount)
    {
      if success {
        if tasks == [] || chain != tasks[0].chain {
          TaskCallback(ChainDone(chain));
        }
        if tasks == [] {
          TaskCallback(AllDone);
        }
      } else {
        TaskCallback(ChainError(chain));
      }
    }

    /**
     * One iteration of the worker loop. Not idle and with a task pending:
     * run the front task (whose run may post messages), remove it, and post
     * its completion messages. Otherwise: become idle.
     */
    method WorkerStep(run: RunOutcome) returns (ran: Option<Task>)
      modifies this`threadIdle, this`tasks, this`cacheClears, this`dropCount, this`msgs
      ensures old(threadExit) || old(threadIdle) || old(tasks) == [] ==>
        && ran == None && tasks == old(tasks) && msgs == old(msgs)
        && cacheClears == old(cacheClears) && dropCount == old(dropCount)
      ensures old(threadExit) ==> threadIdle == old(threadIdle)
      ensures !old(threadExit) && (old(threadIdle) || old(tasks) == []) ==> threadIdle
      ensures !old(threadExit) && !old(threadIdle) && old(tasks) != [] ==>
        && ran == Some(old(tasks)[0])
        && tasks == StepQueue(old(tasks), run.posted)
        && threadIdle == AnyFatal(run.posted)
        && cacheClears == old(cacheClears) + FatalCount(run.posted)
        && dropCount == AccAfterAll(old(dropCount), run.posted)
        && |msgs| >= |old(msgs)| + |run.posted|
        && msgs[..|old(msgs)|] == old(msgs)
        && InterceptedAll(run.posted, msgs[|old(msgs)|..|old(msgs)| + |run.posted|], old(dropCount), itemNames)
        && msgs[|old(msgs)| + |run.posted|..] == CompletionEvents(run.success, old(tasks)[0].chain, tasks)
    {
      if threadExit {
        return None;
      }
      if threadIdle || tasks == [] {
        threadIdle := true;
        return None;
      }
      ran := Some(tasks[0]);
      RunAndPop(run.posted);
      ghost var afterRun := msgs;
      PostCompletion(run.success, ran.value.chain);
      assert msgs[..|afterRun|] == afterRun;
    }

    /** Runs the front task, whose run posts `posted`, then pops it if the queue still holds anything. */
    method RunAndPop(posted: seq<Message>)
      requires tasks != []
      modifies this`threadIdle, this`tasks, this`cacheClears, this`dropCount, this`msgs
      ensures tasks == StepQueue(old(tasks), posted)
      ensures threadIdle == (old(threadIdle) || AnyFatal(posted))
      ensures cacheClears == old(cacheClears) + FatalCount(posted)
      ensures dropCount == AccAfterAll(old(dropCount), posted)
      ensures |msgs| == |old(msgs)| + |posted| && msgs[..|old(msgs)|] == old(msgs)
      ensures InterceptedAll(posted, msgs[|old(msgs)|..], old(dropCount), itemNames)
    {
      TaskCallbacks(posted);
      if tasks != [] {
        tasks := tasks[1..];
      }
    }

    /** One iteration of the message loop: hand the front message to the callback, if any. */
    method MsgStep() returns (delivered: Option<Message>)
      modifies this`msgs
      ensures threadExit || old(msgs) == [] ==> msgs == old(msgs) && delivered == None
      ensures !threadExit && old(msgs) != [] ==>
        && msgs == old(msgs)[1..]
        && delivered == if hasCallback then Some(old(msgs)[0]) else None
    {
      if threadExit || msgs == [] {
        return None;
      }
      var m := msgs[0];
      msgs := msgs[1..];
      delivered := if hasCallback then Some(m) else None;
    }
  }
}
