/** The clock columns of a tournament row, and the conditional updates that the recovery service runs on them. */
module TournamentClocks {
  import opened Sums
  import opened TableTypes
  import opened PlayedTime

  class TournamentClock {
    var status: Status
    const startedAt: int
    var pausedAt: Option<int>
    var pausedMs: int

    /** The clock these columns stand for. */
    function AsClock(): Clock
      reads this
    {
      Clock(status, startedAt, pausedAt, pausedMs)
    }

    constructor (startedAt: int)
      ensures AsClock() == Clock(ONGOING, startedAt, None, 0)
    {
      this.startedAt := startedAt;
      status, pausedAt, pausedMs := ONGOING, None, 0;
    }

    method MarkSyncing(at: int) returns (count: nat)
      modifies this
      ensures AsClock() == PauseAt(old(AsClock()), at)
      ensures count == if old(status) == ONGOING then 1 else 0
    {
      if status != ONGOING {
        return 0;
      }
      status := SYNCING;
      pausedAt := Some(at);
      count := 1;
    }

    /** The read of `completeSync`; `None` when there is nothing to complete. */
    method ReadSync(now: int) returns (read: Option<SyncRead>)
      ensures read.Some? <==> status == SYNCING && pausedAt.Some?
      ensures read.Some? ==> read.value == SyncRead(pausedAt.value, pausedMs, now)
    {
      if status != SYNCING || pausedAt.None? {
        return None;
      }
      read := Some(SyncRead(pausedAt.value, pausedMs, now));
    }

    /** Its conditional update, however much later, and the base it then writes to the cache. */
    method CompleteSync(read: SyncRead) returns (done: bool, cachedBase: int)
      modifies this
      ensures AsClock() == CommitSync(old(AsClock()), read)
      ensures done <==> SyncMatches(old(AsClock()), read)
      ensures cachedBase == startedAt + read.pausedMs + Delta(read)
    {
      var delta := Max(0, read.readAt - read.pausedAt);
      cachedBase := startedAt + read.pausedMs + delta;
      done := status == SYNCING && pausedAt == Some(read.pausedAt);
      if done {
        status := ONGOING;
        pausedAt := None;
        pausedMs := pausedMs + delta;
      }
    }
  }
}
