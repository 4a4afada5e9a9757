/** The messages the assistant posts towards the caller's callback. */
module Messages {
  import opened DropStatistics

  /**
   * The message kinds the core treats specially (AsstMsg); `OtherMsg`
   * stands for every other kind a task may post, which the core passes on
   * unchanged.
   */
  datatype AsstMsg =
    | InitFaild
    | TaskChainCompleted
    | AllTasksCompleted
    | TaskError
    | PtrIsNull
    | ImageIsEmpty
    | StageDrops
    | OtherMsg(name: string)

  /**
   * The JSON detail of a message: the empty value, `{"task_chain": ...}`,
   * a drop report, or any other document (kept opaque).
   */
  datatype Detail =
    | NoDetail
    | ChainDetail(taskChain: string)
    | ReportDetail(report: DropReport)
    | OtherDetail(json: string)

  datatype Message = Message(kind: AsstMsg, detail: Detail)
}
