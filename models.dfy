/** Plain values the engine passes around: a consumed record (pkg/models/record.go, whose key
    the source converts to a string wherever it addresses the store) and the registration of
    a running worker (`WorkerMeta`, pkg/core/worker.go). */
module Models {
  import opened Base

  datatype Record = Record(key: string, value: seq<byte>)

  /** A worker as the join engine sees it: its id and which input it consumes (index 0 is the
      left side of a join, every other index the right side). */
  datatype WorkerMeta = WorkerMeta(workerId: string, topicIndex: int, alive: bool)

  /** What a call into user code did: it returned, with an error or nil, or it panicked with
      a value. */
  datatype CallOutcome = Completed(err: Option<Error>) | Panicked(value: string)

  /** `ProcessorCallbacks` as the engine reads it (pkg/models/callbacks.go, with the `Join`
      callback that pkg/core/core.go reads): each callback is present or nil. `onInit` is what
      the `OnInit` callback does when called. */
  datatype Callbacks = Callbacks(
    process: Option<Record -> CallOutcome>,
    join: Option<(Record, Record) -> Option<Error>>,
    onInit: Option<CallOutcome>,
    hasOnExit: bool)
}
