/**
 * The queued tasks and the task lists the append_* builders produce.
 *
 * A task is an opaque record: its chain label and the kind of work with
 * the parameters the builder set. What the task does when it runs is not
 * part of this model.
 */
module Tasks {
  import opened Wrappers

  /** The infrastructure facilities append_infrast knows by name. */
  datatype Facility = Dorm | Mfg | Trade | Power | Office | Reception

  /** The retry count handed to a process task: the declaration's default, or an explicit one. */
  datatype Retries = DefaultRetries | RetryTimes(times: int)

  datatype TaskKind =
    | Process(entry: string, retries: Retries)
      /** The process task append_fight configures, with its three times limits. */
    | Fight(medicine: int, stone: int, times: int)
    | CreditShopping
    | Recruit(requiredLevel: seq<int>, setTime: bool)
    | InfrastInfo
    | InfrastShift(facility: Facility)

  datatype Task = Task(chain: string, kind: TaskKind)

  /** The two UsesOfDrones flags append_infrast tests (DronesMfg, DronesTrade). */
  datatype DroneUses = DroneUses(mfg: bool, trade: bool)

  const InfrastChain: string := "Infrast"

  /** The task append_process_task builds; an empty chain label defaults to the entry task's name. */
  function ProcessTask(entry: string, chain: string, retries: Retries): Task {
    Task(if chain == "" then entry else chain, Process(entry, retries))
  }

  /** The process task that enters (or returns to) the infrastructure main screen. */
  const InfrastBegin: Task := Task(InfrastChain, Process("InfrastBegin", DefaultRetries))

  const InfrastInfoTask: Task := Task(InfrastChain, InfrastInfo)

  /** The drone-assist process task of the "Infrast" chain. */
  function DroneAssist(entry: string): Task {
    Task(InfrastChain, Process(entry, DefaultRetries))
  }

  function FacilityNamed(name: string): Option<Facility> {
    if name == "Dorm" then Some(Dorm)
    else if name == "Mfg" then Some(Mfg)
    else if name == "Trade" then Some(Trade)
    else if name == "Power" then Some(Power)
    else if name == "Office" then Some(Office)
    else if name == "Reception" then Some(Reception)
    else None
  }

  /** The drone-assist task that follows a facility's shift, if the flags ask for one. */
  function DroneTasks(f: Facility, drones: DroneUses): seq<Task> {
    if f == Mfg && drones.mfg then [DroneAssist("DroneAssist-MFG")]
    else if f == Trade && drones.trade then [DroneAssist("DroneAssist-Trade")]
    else []
  }

  /** What one iteration over `order` appends for a known facility. */
  function ShiftSegment(f: Facility, drones: DroneUses): seq<Task> {
    [Task(InfrastChain, InfrastShift(f))] + DroneTasks(f, drones) + [InfrastBegin]
  }

  /** What one iteration over `order` appends; an unknown name gets only the trailing InfrastBegin. */
  function Segment(name: string, drones: DroneUses): seq<Task> {
    match FacilityNamed(name)
    case None => [InfrastBegin]
    case Some(f) => ShiftSegment(f, drones)
  }

  /** A segment without its trailing InfrastBegin: the facility's shift and drone assist, if the name is known. */
  function ShiftPart(name: string, drones: DroneUses): seq<Task> {
    match FacilityNamed(name)
    case None => []
    case Some(f) => [Task(InfrastChain, InfrastShift(f))] + DroneTasks(f, drones)
  }

  lemma SegmentSplit(name: string, drones: DroneUses)
    ensures Segment(name, drones) == ShiftPart(name, drones) + [InfrastBegin]
  {
  }

  function Segments(order: seq<string>, drones: DroneUses): seq<Task>
    decreases |order|
  {
    if order == [] then []
    else Segments(order[..|order| - 1], drones) + Segment(order[|order| - 1], drones)
  }

  /** Appending one more segment to a list that holds the segments of a prefix of `order`. */
  lemma {:induction false} SegmentsSnoc(base: seq<Task>, prev: seq<Task>, next: seq<Task>, order: seq<string>, i: int, drones: DroneUses)
    requires 0 <= i < |order|
    requires prev == base + Segments(order[..i], drones)
    requires next == prev + Segment(order[i], drones)
    ensures next == base + Segments(order[..i + 1], drones)
  {
    assert order[..i + 1][..i] == order[..i];
  }

  /** The whole list append_infrast appends. */
  function InfrastTasks(order: seq<string>, drones: DroneUses): seq<Task> {
    [InfrastBegin, InfrastInfoTask] + Segments(order, drones)
  }

  /** The head append_infrast pushes before its loop, followed by the loop's segments, is the whole list. */
  lemma {:induction false} InfrastTasksAppended(before: seq<Task>, head: seq<Task>, after: seq<Task>, order: seq<string>, drones: DroneUses)
    requires head == before + [InfrastBegin] + [InfrastInfoTask]
    requires after == head + Segments(order, drones)
    ensures after == before + InfrastTasks(order, drones)
  {
  }

  /** The facility a name stands for, as a list of zero or one. */
  function FacilityList(name: string): seq<Facility> {
    match FacilityNamed(name)
    case Some(f) => [f]
    case None => []
  }

  /** Reference definition: the known facilities of `order`, in order. */
  function KnownFacilities(order: seq<string>): seq<Facility> {
    if order == [] then [] else FacilityList(order[0]) + KnownFacilities(order[1..])
  }

  /** The facilities whose shift tasks occur in `ts`, in order. */
  function ShiftsIn(ts: seq<Task>): seq<Facility> {
    if ts == [] then []
    else (if ts[0].kind.InfrastShift? then [ts[0].kind.facility] else []) + ShiftsIn(ts[1..])
  }

  lemma {:induction false} ShiftsInConcat(a: seq<Task>, b: seq<Task>)
    ensures ShiftsIn(a + b) == ShiftsIn(a) + ShiftsIn(b)
    decreases |a|
  {
    if a == [] {
      assert a + b == b;
    } else {
      assert (a + b)[0] == a[0];
      assert (a + b)[1..] == a[1..] + b;
      ShiftsInConcat(a[1..], b);
    }
  }

  lemma {:induction false} KnownFacilitiesSnoc(order: seq<string>, name: string)
    ensures KnownFacilities(order + [name]) == KnownFacilities(order) + FacilityList(name)
    decreases |order|
  {
    if order == [] {
      assert [name][1..] == [];
    } else {
      assert (order + [name])[1..] == order[1..] + [name];
      KnownFacilitiesSnoc(order[1..], name);
    }
  }

  lemma FacilityNamedInjective(name: string)
    ensures FacilityNamed(name) == Some(Mfg) <==> name == "Mfg"
    ensures FacilityNamed(name) == Some(Trade) <==> name == "Trade"
  {
    assert "Dorm" != "Mfg" && "Dorm" != "Trade";
  }

  lemma ShiftSegmentEnds(f: Facility, drones: DroneUses)
    ensures ShiftSegment(f, drones)[|ShiftSegment(f, drones)| - 1] == InfrastBegin
    ensures multiset(ShiftSegment(f, drones))[InfrastBegin] == 1
  {
    var front := [Task(InfrastChain, InfrastShift(f))] + DroneTasks(f, drones);
    assert InfrastBegin !in front;
    assert ShiftSegment(f, drones) == front + [InfrastBegin];
    assert multiset(front + [InfrastBegin]) == multiset(front) + multiset{InfrastBegin};
  }

  lemma ShiftSegmentChains(f: Facility, drones: DroneUses)
    ensures forall i :: 0 <= i < |ShiftSegment(f, drones)| ==> ShiftSegment(f, drones)[i].chain == InfrastChain
  {
    var shift := Task(InfrastChain, InfrastShift(f));
    var d := DroneTasks(f, drones);
    if d == [] {
      assert ShiftSegment(f, drones) == [shift, InfrastBegin];
    } else {
      assert ShiftSegment(f, drones) == [shift, d[0], InfrastBegin];
    }
  }

  lemma {:induction false} ShiftsInNone(ts: seq<Task>)
    requires forall i :: 0 <= i < |ts| ==> !ts[i].kind.InfrastShift?
    ensures ShiftsIn(ts) == []
    decreases |ts|
  {
    if ts != [] {
      ShiftsInNone(ts[1..]);
    }
  }

  lemma ShiftSegmentShifts(f: Facility, drones: DroneUses)
    ensures ShiftsIn(ShiftSegment(f, drones)) == [f]
  {
    var shift := Task(InfrastChain, InfrastShift(f));
    var rest := DroneTasks(f, drones) + [InfrastBegin];
    assert ShiftSegment(f, drones) == [shift] + rest;
    ShiftsInConcat([shift], rest);
    ShiftsInNone(rest);
    assert ShiftsIn([shift]) == [f] by {
      assert [shift][1..] == [];
    }
  }

  /** What one facility name contributes: its shift, and one InfrastBegin, last. */
  lemma SegmentShape(name: string, drones: DroneUses)
    ensures |Segment(name, drones)| >= 1 && Segment(name, drones)[|Segment(name, drones)| - 1] == InfrastBegin
    ensures forall i :: 0 <= i < |Segment(name, drones)| ==> Segment(name, drones)[i].chain == InfrastChain
    ensures multiset(Segment(name, drones))[InfrastBegin] == 1
    ensures ShiftsIn(Segment(name, drones)) == FacilityList(name)
  {
    match FacilityNamed(name)
    case None =>
      assert ShiftsIn([InfrastBegin]) == [];
    case Some(f) =>
      ShiftSegmentEnds(f, drones);
      ShiftSegmentChains(f, drones);
      ShiftSegmentShifts(f, drones);
  }

  /** What one facility name contributes in drone-assist tasks. */
  lemma SegmentDrones(name: string, drones: DroneUses)
    ensures multiset(Segment(name, drones))[DroneAssist("DroneAssist-MFG")] == if drones.mfg && name == "Mfg" then 1 else 0
    ensures multiset(Segment(name, drones))[DroneAssist("DroneAssist-Trade")] == if drones.trade && name == "Trade" then 1 else 0
  {
    var mfg, trade := DroneAssist("DroneAssist-MFG"), DroneAssist("DroneAssist-Trade");
    assert mfg != InfrastBegin && trade != InfrastBegin && mfg != trade;
    FacilityNamedInjective(name);
    match FacilityNamed(name)
    case None =>
    case Some(f) =>
      var shift := Task(InfrastChain, InfrastShift(f));
      assert shift != mfg && shift != trade;
  }

  lemma {:induction false} InfrastStep(order: seq<string>, drones: DroneUses)
    requires order != []
    ensures InfrastTasks(order, drones)
         == InfrastTasks(order[..|order| - 1], drones) + Segment(order[|order| - 1], drones)
  {
  }

  /** Every task append_infrast appends belongs to the "Infrast" chain. */
  lemma {:induction false} InfrastAllInChain(order: seq<string>, drones: DroneUses)
    ensures forall i :: 0 <= i < |InfrastTasks(order, drones)| ==> InfrastTasks(order, drones)[i].chain == InfrastChain
    decreases |order|
  {
    if order != [] {
      var init := order[..|order| - 1];
      InfrastAllInChain(init, drones);
      InfrastStep(order, drones);
      SegmentShape(order[|order| - 1], drones);
    }
  }

  /** The list for `init + [last]` is the list for `init` followed by one segment. */
  lemma {:induction false} InfrastSnoc(init: seq<string>, last: string, drones: DroneUses)
    ensures InfrastTasks(init + [last], drones) == InfrastTasks(init, drones) + Segment(last, drones)
  {
    InfrastStep(init + [last], drones);
    assert (init + [last])[..|init|] == init;
  }

  lemma {:induction false} InfrastCountStep(init: seq<string>, last: string, drones: DroneUses)
    ensures multiset(InfrastTasks(init + [last], drones))[InfrastBegin]
         == multiset(InfrastTasks(init, drones))[InfrastBegin] + 1
  {
    var a, b := InfrastTasks(init, drones), Segment(last, drones);
    InfrastSnoc(init, last, drones);
    SegmentShape(last, drones);
    assert multiset(a + b) == multiset(a) + multiset(b);
  }

  /** One InfrastBegin per name in `order`, plus the leading one. */
  lemma {:induction false} InfrastBeginCount(order: seq<string>, drones: DroneUses)
    ensures multiset(InfrastTasks(order, drones))[InfrastBegin] == |order| + 1
    decreases |order|
  {
    if order == [] {
      assert InfrastInfoTask != InfrastBegin;
    } else {
      var init, last := order[..|order| - 1], order[|order| - 1];
      assert order == init + [last];
      InfrastBeginCount(init, drones);
      InfrastCountStep(init, last, drones);
    }
  }

  /**
   * append_infrast starts with InfrastBegin then the info task, ends with
   * InfrastBegin, and appends one InfrastBegin per name in `order` plus the
   * leading one.
   */
  lemma InfrastFrame(order: seq<string>, drones: DroneUses)
    ensures |InfrastTasks(order, drones)| >= 2
    ensures InfrastTasks(order, drones)[0] == InfrastBegin
    ensures InfrastTasks(order, drones)[1] == InfrastInfoTask
    ensures order != [] ==> InfrastTasks(order, drones)[|InfrastTasks(order, drones)| - 1] == InfrastBegin
    ensures multiset(InfrastTasks(order, drones))[InfrastBegin] == |order| + 1
  {
    InfrastBeginCount(order, drones);
    if order != [] {
      var init, last := order[..|order| - 1], order[|order| - 1];
      assert order == init + [last];
      InfrastEndsWithBegin(init, last, drones);
    }
  }

  lemma {:induction false} InfrastEndsWithBegin(init: seq<string>, last: string, drones: DroneUses)
    ensures var c := InfrastTasks(init + [last], drones); c[|c| - 1] == InfrastBegin
  {
    var a, b := InfrastTasks(init, drones), Segment(last, drones);
    InfrastSnoc(init, last, drones);
    SegmentShape(last, drones);
    assert (a + b)[|a + b| - 1] == b[|b| - 1];
  }

  /**
   * The shift tasks append_infrast appends are those of the known
   * facilities of `order`, in the same order; unknown names add none.
   */
  lemma {:induction false} InfrastShiftsFollowOrder(order: seq<string>, drones: DroneUses)
    ensures ShiftsIn(InfrastTasks(order, drones)) == KnownFacilities(order)
    decreases |order|
  {
    if order == [] {
      assert InfrastTasks(order, drones) == [InfrastBegin] + [InfrastInfoTask];
      ShiftsInConcat([InfrastBegin], [InfrastInfoTask]);
      assert ShiftsIn([InfrastBegin]) == [] by {
        assert !InfrastBegin.kind.InfrastShift?;
        assert [InfrastBegin][1..] == [];
      }
      assert ShiftsIn([InfrastInfoTask]) == [] by {
        assert [InfrastInfoTask][1..] == [];
      }
    } else {
      var init, last := order[..|order| - 1], order[|order| - 1];
      assert order == init + [last];
      InfrastShiftsFollowOrder(init, drones);
      InfrastShiftsStep(init, last, drones);
      KnownFacilitiesSnoc(init, last);
    }
  }

  lemma {:induction false} InfrastShiftsStep(init: seq<string>, last: string, drones: DroneUses)
    ensures ShiftsIn(InfrastTasks(init + [last], drones)) == ShiftsIn(InfrastTasks(init, drones)) + FacilityList(last)
  {
    InfrastStep(init + [last], drones);
    assert (init + [last])[..|init|] == init;
    ShiftsInConcat(InfrastTasks(init, drones), Segment(last, drones));
    SegmentShape(last, drones);
  }

  lemma {:induction false} InfrastDronesStep(init: seq<string>, last: string, drones: DroneUses)
    ensures var a, c := InfrastTasks(init, drones), InfrastTasks(init + [last], drones);
      && multiset(c)[DroneAssist("DroneAssist-MFG")]
         == multiset(a)[DroneAssist("DroneAssist-MFG")] + (if drones.mfg && last == "Mfg" then 1 else 0)
      && multiset(c)[DroneAssist("DroneAssist-Trade")]
         == multiset(a)[DroneAssist("DroneAssist-Trade")] + (if drones.trade && last == "Trade" then 1 else 0)
  {
    var a, b := InfrastTasks(init, drones), Segment(last, drones);
    InfrastSnoc(init, last, drones);
    SegmentDrones(last, drones);
    assert multiset(a + b) == multiset(a) + multiset(b);
  }

  /**
   * A drone-assist task follows each "Mfg" (resp. "Trade") entry of
   * `order` exactly when its drone flag is set.
   */
  lemma {:induction false} InfrastDroneAssists(order: seq<string>, drones: DroneUses)
    ensures multiset(InfrastTasks(order, drones))[DroneAssist("DroneAssist-MFG")]
         == if drones.mfg then multiset(order)["Mfg"] else 0
    ensures multiset(InfrastTasks(order, drones))[DroneAssist("DroneAssist-Trade")]
         == if drones.trade then multiset(order)["Trade"] else 0
    decreases |order|
  {
    if order == [] {
      assert DroneAssist("DroneAssist-MFG") != InfrastBegin && DroneAssist("DroneAssist-MFG") != InfrastInfoTask;
      assert DroneAssist("DroneAssist-Trade") != InfrastBegin && DroneAssist("DroneAssist-Trade") != InfrastInfoTask;
    } else {
      var init, last := order[..|order| - 1], order[|order| - 1];
      assert order == init + [last];
      InfrastDroneAssists(init, drones);
      InfrastDronesStep(init, last, drones);
      assert multiset(order) == multiset(init) + multiset{last};
    }
  }
}
