/** The tables and transactions of src/ledger/models.py as objects that methods update. */
module LedgerDatabase {
  import opened Wrappers
  import opened Domain
  import opened Sealing
  import opened Protocol

  class Database {
    var events: seq<Event>
    var checkpoints: seq<Checkpoint>
    var nextSequence: int
    var writers: map<nat, Writer>
    var sealer: Option<SealerTxn>

    ghost function State(): System
      reads this
    {
      System(Tables(events, checkpoints), nextSequence, writers, sealer)
    }

    constructor ()
      ensures State() == INIT
    {
      events, checkpoints, nextSequence, writers, sealer := [], [], 1, map[], None;
    }
  }
}
