/** The consumer of field-status messages: it range-checks the status and,
    only when it is valid, asks the field repository once to record it. */
module TalhaoStatusConsumers {
  import opened Domain

  const MinStatus: int := 1
  const MaxStatus: int := 3

  datatype TalhaoStatusUpdateMessage = TalhaoStatusUpdateMessage(talhaoId: Guid, status: int)

  /** One request to the repository's status update. */
  datatype StatusUpdate = StatusUpdate(talhaoId: Guid, status: int)

  /** What the consumer logs; none of the three is an error. */
  datatype ConsumeLog = InvalidStatusIgnored | StatusUpdated | TalhaoNotFound

  /** A status the StatusTalhao enumeration accepts: 1, 2 or 3. */
  predicate IsValidStatus(status: int) {
    !(status < MinStatus || status > MaxStatus)
  }

  /** The bounds are inclusive: exactly 1, 2 and 3 pass. */
  lemma ValidStatusesAreOneToThree(status: int)
    ensures IsValidStatus(status) <==> status in {1, 2, 3}
  {
  }

  /** The repository's status update, seen from the consumer: every call is
      recorded, and it reports whether the field was known. */
  class StatusUpdater {
    /** Fields the repository can find. */
    const known: set<Guid>
    /** Every status update requested so far, oldest first. */
    var calls: seq<StatusUpdate>

    constructor (known: set<Guid>)
      ensures this.known == known && calls == []
    {
      this.known := known;
      calls := [];
    }

    method AtualizarStatus(talhaoId: Guid, status: int) returns (ok: bool)
      modifies this`calls
      ensures ok == (talhaoId in known)
      ensures calls == old(calls) + [StatusUpdate(talhaoId, status)]
    {
      calls := calls + [StatusUpdate(talhaoId, status)];
      ok := talhaoId in known;
    }
  }

  class TalhaoStatusConsumer {
    const repository: StatusUpdater

    constructor (repository: StatusUpdater)
      ensures this.repository == repository
    {
      this.repository := repository;
    }

    /** An out-of-range status is ignored without touching the repository; a
        valid one causes exactly one update call. A field the repository does
        not find is only logged: consumption completes either way. */
    method Consume(msg: TalhaoStatusUpdateMessage) returns (log: ConsumeLog)
      modifies repository`calls
      ensures !IsValidStatus(msg.status) ==>
                log == InvalidStatusIgnored && repository.calls == old(repository.calls)
      ensures IsValidStatus(msg.status) ==>
                && repository.calls == old(repository.calls) + [StatusUpdate(msg.talhaoId, msg.status)]
                && log == (if msg.talhaoId in repository.known then StatusUpdated else TalhaoNotFound)
    {
      if !IsValidStatus(msg.status) {
        return InvalidStatusIgnored;
      }
      var ok := repository.AtualizarStatus(msg.talhaoId, msg.status);
      log := if ok then StatusUpdated else TalhaoNotFound;
    }
  }
}
