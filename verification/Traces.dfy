/** Running the statements of one transaction, whatever the others do in between. */
module Traces {
  import opened Tables
  import opened Protocol

  /** One statement: the committed tables it saw, and what it was answered. */
  datatype Turn = Turn(db: Tables, reply: Reply)

  /** The transaction of the transition system after these statements. */
  ghost function Advances(tx: Tx, trace: seq<Turn>): Tx {
    if trace == [] then tx
    else var n := |trace| - 1; Advance(trace[n].db, Advances(tx, trace[..n]), trace[n].reply)
  }

  lemma AdvancesAppend(tx: Tx, trace: seq<Turn>, turn: Turn)
    ensures Advances(tx, trace + [turn]) == Advance(turn.db, Advances(tx, trace), turn.reply)
  {
    assert (trace + [turn])[..|trace|] == trace;
  }
}
