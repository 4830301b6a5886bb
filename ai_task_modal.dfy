/** The store that opens and closes the "create task with AI" modal
    (fullstack/src/features/tasks/hooks/use-create-ai-task-modal.ts). */
module AiTaskModal {
  class ModalStore {
    var isOpen: bool

    /** The modal starts closed. */
    constructor ()
      ensures !isOpen
    {
      isOpen := false;
    }

    method Open()
      modifies this
      ensures isOpen
    {
      isOpen := true;
    }

    method Close()
      modifies this
      ensures !isOpen
    {
      isOpen := false;
    }
  }

  datatype Call = OpenCall | CloseCall

  /** Whether the modal is open after `calls`, one after the other, starting
      from `start`: the last call decides, and no call means no change. */
  function Replay(start: bool, calls: seq<Call>): (open: bool)
    ensures |calls| == 0 ==> open == start
    ensures |calls| > 0 ==> (open <==> calls[|calls| - 1] == OpenCall)
    decreases |calls|
  {
    if |calls| == 0 then start
    else Replay(calls[0] == OpenCall, calls[1..])
  }

  /** Both calls are idempotent: repeating the last call changes nothing. */
  lemma CallsIdempotent(start: bool, calls: seq<Call>, c: Call)
    ensures Replay(start, calls + [c, c]) == Replay(start, calls + [c])
  {
  }
}
