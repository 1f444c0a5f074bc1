/**
 The process-local coordinator: job sessions, cancel flags and live ownership. Each method is one
 critical section of its lock, hence one operation of the thread that calls it.
 */
module BackfillRuntime {
  import opened Options
  import opened BackfillSystem

  /** A stream's checkpoint row as captured at job creation. */
  datatype Snapshot = Snapshot(checkpointType: string, value: map<string, string>)

  datatype Session = Session(fromSnapshot: bool, checkpointType: string, value: map<string, string>, chunksDone: nat)

  function EphemeralSession(snapshot: Option<Snapshot>): Session {
    match snapshot
    case None => Session(false, "NONE", map[], 0)
    case Some(s) => Session(true, s.checkpointType, s.value, 0)
  }

  class BackfillRuntimeCoordinator {
    var ephemeralByJob: map<JobId, Session>
    var cancelRequested: set<JobId>
    var ownedJobs: set<JobId>

    constructor ()
      ensures ephemeralByJob == map[] && cancelRequested == {} && ownedJobs == {}
    {
      ephemeralByJob, cancelRequested, ownedJobs := map[], {}, {};
    }

    method RegisterJobSession(j: JobId, snapshot: Option<Snapshot>)
      modifies this`ephemeralByJob
      ensures ephemeralByJob == old(ephemeralByJob)[j := EphemeralSession(snapshot)]
    {
      ephemeralByJob := ephemeralByJob[j := EphemeralSession(snapshot)];
    }

    method ClearJobSession(j: JobId)
      modifies this
      ensures ephemeralByJob == old(ephemeralByJob) - {j}
      ensures cancelRequested == old(cancelRequested) - {j} && ownedJobs == old(ownedJobs) - {j}
    {
      ephemeralByJob := ephemeralByJob - {j};
      cancelRequested := cancelRequested - {j};
      ownedJobs := ownedJobs - {j};
    }

    method ClaimJobOwner(j: JobId) returns (claimed: bool)
      modifies this`ownedJobs
      ensures claimed == (j !in old(ownedJobs)) && ownedJobs == old(ownedJobs) + {j}
    {
      if j in ownedJobs {
        return false;
      }
      ownedJobs := ownedJobs + {j};
      return true;
    }

    method ReleaseJobOwner(j: JobId)
      modifies this`ownedJobs
      ensures ownedJobs == old(ownedJobs) - {j}
    {
      ownedJobs := ownedJobs - {j};
    }

    method RequestCancel(j: JobId)
      modifies this`cancelRequested
      ensures cancelRequested == old(cancelRequested) + {j}
    {
      cancelRequested := cancelRequested + {j};
    }

    /** What the coordinator of a new process holds. */
    method Reset()
      modifies this
      ensures ephemeralByJob == map[] && cancelRequested == {} && ownedJobs == {}
    {
      ephemeralByJob, cancelRequested, ownedJobs := map[], {}, {};
    }
  }
}
