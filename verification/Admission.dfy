/**
 * Concurrent Reserve transactions, statement by statement, under READ COMMITTED: the advisory
 * lock is held until the transaction ends, each COUNT sees only committed rows, and a
 * transaction's own insert becomes visible when it commits. Settlements commit at any moment.
 */
module Admission {
  import opened Basics

  datatype Phase =
    | Begun                 // waiting for the advisory lock
    | Locked                // holds it, has not counted yet
    | Admitted(seen: nat)   // counted below the limit, now charging and inserting
    | Ended                 // committed or rolled back

  datatype State = State(outstanding: set<Id>, holder: Option<Id>, txs: map<Id, Phase>)

  datatype Step =
    | Begin(tx: Id)
    | TakeLock(tx: Id)
    | CountActive(tx: Id)   // ErrBusy, hence rollback, when the limit is reached
    | Rollback(tx: Id)      // any other statement fails
    | Commit(tx: Id)        // the reservation row named after the transaction appears
    | SettleCommit(row: Id)

  function Apply(s: State, limit: int, step: Step): State
  {
    match step
    case Begin(tx) =>
      if tx in s.txs then s else s.(txs := s.txs[tx := Begun])
    case TakeLock(tx) =>
      if tx !in s.txs || s.txs[tx] != Begun || s.holder.Some? then s
      else s.(holder := Some(tx), txs := s.txs[tx := Locked])
    case CountActive(tx) =>
      if tx !in s.txs || s.txs[tx] != Locked then s
      else if |s.outstanding| >= limit then s.(holder := None, txs := s.txs[tx := Ended])
      else s.(txs := s.txs[tx := Admitted(|s.outstanding|)])
    case Rollback(tx) =>
      if tx !in s.txs || s.txs[tx].Ended? then s
      else s.(holder := if s.holder == Some(tx) then None else s.holder, txs := s.txs[tx := Ended])
    case Commit(tx) =>
      if tx !in s.txs || !s.txs[tx].Admitted? then s
      else State(s.outstanding + {tx}, if s.holder == Some(tx) then None else s.holder, s.txs[tx := Ended])
    case SettleCommit(row) => s.(outstanding := s.outstanding - {row})
  }

  function Run(limit: int, steps: seq<Step>): State
  {
    if steps == [] then State({}, None, map[])
    else Apply(Run(limit, steps[..|steps| - 1]), limit, steps[|steps| - 1])
  }

  ghost predicate Inv(s: State, limit: int)
  {
    && (|s.outstanding| <= limit || s.outstanding == {})
    && (forall tx :: tx in s.txs && (s.txs[tx].Locked? || s.txs[tx].Admitted?) ==> s.holder == Some(tx))
    && (forall tx :: tx in s.txs && s.txs[tx].Admitted? ==> |s.outstanding| <= s.txs[tx].seen < limit)
  }

  lemma SetShrinks(s: set<Id>, x: Id)
    ensures |s - {x}| <= |s| && |s + {x}| <= |s| + 1
  {
    if x in s {
      assert s + {x} == s;
      assert |s - {x}| == |s| - 1;
    } else {
      assert s - {x} == s;
    }
  }

  lemma CommitKeepsInv(s: State, limit: int, tx: Id)
    requires Inv(s, limit)
    ensures Inv(Apply(s, limit, Commit(tx)), limit)
  {
    SetShrinks(s.outstanding, tx);
  }

  lemma StepKeepsInv(s: State, limit: int, step: Step)
    requires Inv(s, limit)
    ensures Inv(Apply(s, limit, step), limit)
  {
    match step
    case SettleCommit(row) => SetShrinks(s.outstanding, row);
    case Commit(tx) => CommitKeepsInv(s, limit, tx);
    case _ =>
  }

  /** Global admission bound: no interleaving lets outstanding reservations exceed the limit. */
  lemma {:induction false} AdmissionBound(limit: int, steps: seq<Step>)
    ensures Inv(Run(limit, steps), limit)
    ensures |Run(limit, steps).outstanding| <= Max(limit, 0)
  {
    if steps == [] {
    } else {
      AdmissionBound(limit, steps[..|steps| - 1]);
      StepKeepsInv(Run(limit, steps[..|steps| - 1]), limit, steps[|steps| - 1]);
    }
  }
}
