/** The durable cell: the saved state and the saved snapshot, each replaced as a whole. */
module Persistence {
  import opened Types

  class JSONPersister {
    var state: Option<Saved>
    var snapshot: Option<Snapshot>

    constructor ()
      ensures state == None && snapshot == None
    {
      state, snapshot := None, None;
    }

    method SaveState(currentTerm: nat, votedFor: int, log: seq<Entry>)
      modifies this`state
      ensures state == Some(Saved(currentTerm, votedFor, log))
    {
      state := Some(Saved(currentTerm, votedFor, log));
    }

    /** The state saved last, or term 0 without a vote and an empty log. */
    method LoadState() returns (currentTerm: nat, votedFor: int, log: seq<Entry>)
      ensures state.Some? ==> state.value == Saved(currentTerm, votedFor, log)
      ensures state.None? ==> currentTerm == 0 && votedFor == -1 && log == []
    {
      match state
      case Some(saved) => currentTerm, votedFor, log := saved.term, saved.votedFor, saved.log;
      case None => currentTerm, votedFor, log := 0, -1, [];
    }

    method ClearState()
      modifies this`state
      ensures state == None
    {
      state := None;
    }

    method SaveSnapshot(s: Snapshot)
      modifies this`snapshot
      ensures snapshot == Some(s)
    {
      snapshot := Some(s);
    }

    method LoadSnapshot() returns (s: Option<Snapshot>)
      ensures s == snapshot
    {
      s := snapshot;
    }
  }
}
