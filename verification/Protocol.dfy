/** Task states, limits and the process-wide task id counter. */
module Protocol {

  datatype Option<+T> = None | Some(value: T)

  datatype TaskState =
    | CREATED
    | QUEUED
    | DISPATCHED
    | PROCESSING
    | COMPLETED
    | FAILED
    | TIMEOUT
    | RETRYING

  const MAX_TYPE_LEN := 32
  const MAX_PAYLOAD_LEN := 1024

  /** The global counter behind new_task_id. Ids are kept as numbers; the
      decimal strings of the program name the same ids one to one. */
  class TaskIdCounter {
    var counter: nat

    constructor ()
      ensures counter == 0
    {
      counter := 0;
    }

    method NewTaskId() returns (id: nat)
      modifies this
      ensures id == counter == old(counter) + 1
    {
      counter := counter + 1;
      id := counter;
    }
  }
}
