/** The nightly diff of app/workers/reconciliation_worker.py: the loops as they are meant,
    over the reference each remote row carries, and the worker as written, which asks those
    rows for a field they do not have. */
module Reconciliation {
  import opened Types

  type Ref = nat

  /** A row the provider returned; its reference may be absent or empty. */
  datatype RemoteTx = RemoteTx(reference: Option<Ref>, id: nat, amount: int, status: nat)

  datatype LocalTx = LocalTx(txId: Ref, status: TxStatus, amount: int)

  datatype OnlyRemote = OnlyRemote(txId: Ref, id: nat, amount: int, status: nat)
  datatype OnlyLocal = OnlyLocal(txId: Ref, status: TxStatus, amount: int)
  datatype Mismatch = Mismatch(txId: Ref, localAmount: int, remoteAmount: int)

  /** The last remote row with this reference: later rows replace earlier ones. */
  function LastRemote(remote: seq<RemoteTx>, r: Ref): Option<RemoteTx> {
    if remote == [] then None
    else if remote[|remote| - 1].reference == Some(r) then Some(remote[|remote| - 1])
    else LastRemote(remote[..|remote| - 1], r)
  }

  /** It is there iff some row has the reference, and no later row has it. */
  lemma {:induction false} LastRemoteMeans(remote: seq<RemoteTx>, r: Ref)
    ensures LastRemote(remote, r).Some? <==> exists i :: 0 <= i < |remote| && remote[i].reference == Some(r)
    ensures forall i | 0 <= i < |remote| && remote[i].reference == Some(r)
                       && forall j | i < j < |remote| :: remote[j].reference != Some(r) ::
              LastRemote(remote, r) == Some(remote[i])
  {
    if remote != [] {
      var n := |remote| - 1;
      LastRemoteMeans(remote[..n], r);
      assert forall i | 0 <= i < n :: remote[..n][i] == remote[i];
    }
  }

  ghost predicate UniqueIds(local: seq<LocalTx>) {
    forall i, j | 0 <= i < j < |local| :: local[i].txId != local[j].txId
  }

  ghost predicate IsLocal(local: seq<LocalTx>, r: Ref) {
    exists i :: 0 <= i < |local| && local[i].txId == r
  }

  predicate Pending(tx: LocalTx) {
    tx.status.Verified? || tx.status.Settling?
  }

  /** Everything the provider knows is ours, everything of ours that should have got there
      is known to the provider, and amounts agree wherever both sides have the row. */
  ghost predicate Reconciled(remote: seq<RemoteTx>, local: seq<LocalTx>) {
    && (forall r: Ref :: LastRemote(remote, r).Some? ==> IsLocal(local, r))
    && (forall i | 0 <= i < |local| :: LastRemote(remote, local[i].txId).None? ==> Pending(local[i]))
    && (forall i | 0 <= i < |local| ::
          LastRemote(remote, local[i].txId).Some? ==>
            LastRemote(remote, local[i].txId).value.amount == local[i].amount)
  }

  ghost predicate ReportsRemote(remote: seq<RemoteTx>, local: seq<LocalTx>, m: OnlyRemote) {
    && LastRemote(remote, m.txId).Some? && !IsLocal(local, m.txId)
    && var tx := LastRemote(remote, m.txId).value;
       m == OnlyRemote(m.txId, tx.id, tx.amount, tx.status)
  }

  ghost predicate ReportsLocal(remote: seq<RemoteTx>, tx: LocalTx, m: OnlyLocal) {
    m == OnlyLocal(tx.txId, tx.status, tx.amount) && LastRemote(remote, tx.txId).None? && !Pending(tx)
  }

  ghost predicate ReportsMismatch(remote: seq<RemoteTx>, tx: LocalTx, m: Mismatch) {
    && LastRemote(remote, tx.txId).Some?
    && m == Mismatch(tx.txId, tx.amount, LastRemote(remote, tx.txId).value.amount)
    && m.localAmount != m.remoteAmount
  }

  ghost predicate ReportedIn(remote: seq<RemoteTx>, local: seq<LocalTx>, m: OnlyLocal) {
    exists i :: 0 <= i < |local| && ReportsLocal(remote, local[i], m)
  }

  ghost predicate MismatchIn(remote: seq<RemoteTx>, local: seq<LocalTx>, m: Mismatch) {
    exists i :: 0 <= i < |local| && ReportsMismatch(remote, local[i], m)
  }

  /** nomba_by_ref, a dict: its keys in insertion order and what they map to. */
  method IndexRemote(remote: seq<RemoteTx>) returns (keys: seq<Ref>, byRef: map<Ref, RemoteTx>)
    ensures forall r: Ref :: r in byRef <==> LastRemote(remote, r).Some?
    ensures forall r | r in byRef :: byRef[r] == LastRemote(remote, r).value
    ensures forall r: Ref :: r in keys <==> r in byRef
    ensures forall i, j | 0 <= i < j < |keys| :: keys[i] != keys[j]
  {
    keys, byRef := [], map[];
    for k := 0 to |remote|
      invariant forall r: Ref :: r in byRef <==> LastRemote(remote[..k], r).Some?
      invariant forall r | r in byRef :: byRef[r] == LastRemote(remote[..k], r).value
      invariant forall r: Ref :: r in keys <==> r in byRef
      invariant forall i, j | 0 <= i < j < |keys| :: keys[i] != keys[j]
    {
      assert remote[..k + 1][..k] == remote[..k];
      if remote[k].reference.Some? {
        var r := remote[k].reference.value;
        if r !in byRef {
          keys := keys + [r];
        }
        byRef := byRef[r := remote[k]];
      }
    }
    assert remote[..|remote|] == remote;
  }

  method DiffRemote(remote: seq<RemoteTx>, local: seq<LocalTx>, keys: seq<Ref>, byRef: map<Ref, RemoteTx>,
          localIds: set<Ref>)
    returns (missing: seq<OnlyRemote>)
    requires forall r: Ref :: r in byRef <==> LastRemote(remote, r).Some?
    requires forall r | r in byRef :: byRef[r] == LastRemote(remote, r).value
    requires forall r: Ref :: r in keys <==> r in byRef
    requires forall i, j | 0 <= i < j < |keys| :: keys[i] != keys[j]
    requires forall r: Ref :: r in localIds <==> IsLocal(local, r)
    ensures forall m: OnlyRemote :: m in missing <==> ReportsRemote(remote, local, m)
    ensures forall i, j | 0 <= i < j < |missing| :: missing[i].txId != missing[j].txId
  {
    missing := [];
    for k := 0 to |keys|
      invariant forall m: OnlyRemote :: m in missing <==> m.txId in keys[..k] && ReportsRemote(remote, local, m)
      invariant forall i, j | 0 <= i < j < |missing| :: missing[i].txId != missing[j].txId
    {
      var r := keys[k];
      assert keys[..k + 1] == keys[..k] + [r] && r !in keys[..k];
      if r !in localIds {
        var tx := byRef[r];
        assert forall i | 0 <= i < |missing| :: missing[i] in missing;
        missing := missing + [OnlyRemote(r, tx.id, tx.amount, tx.status)];
      }
    }
    assert keys[..|keys|] == keys;
  }

  method DiffLocal(remote: seq<RemoteTx>, local: seq<LocalTx>, byRef: map<Ref, RemoteTx>)
    returns (missing: seq<OnlyLocal>, mismatches: seq<Mismatch>)
    requires UniqueIds(local)
    requires forall r: Ref :: r in byRef <==> LastRemote(remote, r).Some?
    requires forall r | r in byRef :: byRef[r] == LastRemote(remote, r).value
    ensures forall m: OnlyLocal :: m in missing <==> ReportedIn(remote, local, m)
    ensures forall m: Mismatch :: m in mismatches <==> MismatchIn(remote, local, m)
    ensures forall i, j | 0 <= i < j < |missing| :: missing[i].txId != missing[j].txId
    ensures forall i, j | 0 <= i < j < |mismatches| :: mismatches[i].txId != mismatches[j].txId
  {
    missing, mismatches := [], [];
    for k := 0 to |local|
      invariant forall m: OnlyLocal :: m in missing <==> ReportedIn(remote, local[..k], m)
      invariant forall m: Mismatch :: m in mismatches <==> MismatchIn(remote, local[..k], m)
      invariant forall i, j | 0 <= i < j < |missing| :: missing[i].txId != missing[j].txId
      invariant forall i, j | 0 <= i < j < |mismatches| :: mismatches[i].txId != mismatches[j].txId
    {
      var tx := local[k];
      assert forall i | 0 <= i < |missing| :: missing[i] in missing;
      assert forall i | 0 <= i < |mismatches| :: mismatches[i] in mismatches;
      if tx.txId !in byRef {
        if !(tx.status.Verified? || tx.status.Settling?) {
          missing := missing + [OnlyLocal(tx.txId, tx.status, tx.amount)];
        }
      } else if tx.amount != byRef[tx.txId].amount {
        mismatches := mismatches + [Mismatch(tx.txId, tx.amount, byRef[tx.txId].amount)];
      }
    }
  }

  lemma {:induction false} FlagMeaning(remote: seq<RemoteTx>, local: seq<LocalTx>,
          missingInLocal: seq<OnlyRemote>, missingInRemote: seq<OnlyLocal>, mismatches: seq<Mismatch>)
    requires forall m: OnlyRemote :: m in missingInLocal <==> ReportsRemote(remote, local, m)
    requires forall m: OnlyLocal :: m in missingInRemote <==> ReportedIn(remote, local, m)
    requires forall m: Mismatch :: m in mismatches <==> MismatchIn(remote, local, m)
    ensures missingInLocal == [] && missingInRemote == [] && mismatches == [] <==> Reconciled(remote, local)
  {
    if missingInLocal != [] {
      assert missingInLocal[0] in missingInLocal;
    } else if missingInRemote != [] {
      assert missingInRemote[0] in missingInRemote;
    } else if mismatches != [] {
      assert mismatches[0] in mismatches;
    } else {
      forall r: Ref | LastRemote(remote, r).Some? ensures IsLocal(local, r) {
        var tx := LastRemote(remote, r).value;
        assert OnlyRemote(r, tx.id, tx.amount, tx.status) !in missingInLocal;
      }
      forall i | 0 <= i < |local|
        ensures LastRemote(remote, local[i].txId).None? ==> Pending(local[i])
        ensures LastRemote(remote, local[i].txId).Some? ==>
                LastRemote(remote, local[i].txId).value.amount == local[i].amount
      {
        assert OnlyLocal(local[i].txId, local[i].status, local[i].amount) !in missingInRemote;
        if LastRemote(remote, local[i].txId).Some? {
          assert Mismatch(local[i].txId, local[i].amount,
                  LastRemote(remote, local[i].txId).value.amount) !in mismatches;
        }
      }
    }
  }

  /** Each key that is missing or differs is reported in exactly one list, once, with the
      right particulars, and the flag is down exactly when the two sides reconcile. */
  method Diff(remote: seq<RemoteTx>, local: seq<LocalTx>)
    returns (missingInLocal: seq<OnlyRemote>, missingInRemote: seq<OnlyLocal>, mismatches: seq<Mismatch>,
            discrepancies: bool)
    requires UniqueIds(local)
    ensures forall m: OnlyRemote :: m in missingInLocal <==> ReportsRemote(remote, local, m)
    ensures forall m: OnlyLocal :: m in missingInRemote <==> ReportedIn(remote, local, m)
    ensures forall m: Mismatch :: m in mismatches <==> MismatchIn(remote, local, m)
    ensures forall i, j | 0 <= i < j < |missingInLocal| :: missingInLocal[i].txId != missingInLocal[j].txId
    ensures forall i, j | 0 <= i < j < |missingInRemote| :: missingInRemote[i].txId != missingInRemote[j].txId
    ensures forall i, j | 0 <= i < j < |mismatches| :: mismatches[i].txId != mismatches[j].txId
    ensures discrepancies <==> !Reconciled(remote, local)
  {
    var keys, byRef := IndexRemote(remote);
    var localIds := set tx | tx in local :: tx.txId;
    forall r: Ref ensures r in localIds <==> IsLocal(local, r) {
    }
    missingInLocal := DiffRemote(remote, local, keys, byRef, localIds);
    missingInRemote, mismatches := DiffLocal(remote, local, byRef);
    discrepancies := missingInLocal != [] || missingInRemote != [] || mismatches != [];
    FlagMeaning(remote, local, missingInLocal, missingInRemote, mismatches);
  }

  lemma {:induction false} NoneListed<T>(list: seq<T>)
    ensures list == [] || exists m :: m in list
  {
    if list != [] {
      assert list[0] in list;
    }
  }

  datatype Report = Report(missingInLocal: seq<OnlyRemote>, missingInRemote: seq<OnlyLocal>,
          mismatches: seq<Mismatch>, discrepancies: bool)

  /** The worker as written: indexing the first remote row raises, so it returns its lists if
      and only if there are none; they then name every local row that is not pending. */
  method RunReconciliation(remote: seq<RemoteTx>, local: seq<LocalTx>) returns (report: Option<Report>)
    requires UniqueIds(local)
    ensures report.Some? <==> remote == []
    ensures report.Some? ==>
              && report.value.missingInLocal == [] && report.value.mismatches == []
              && (forall m: OnlyLocal :: m in report.value.missingInRemote <==>
                    exists i :: 0 <= i < |local| && local[i].status !in {Verified, Settling}
                                && m == OnlyLocal(local[i].txId, local[i].status, local[i].amount))
              && (report.value.discrepancies <==>
                    exists i :: 0 <= i < |local| && local[i].status !in {Verified, Settling})
  {
    if remote != [] {
      return None;
    }
    var missingInLocal, missingInRemote, mismatches, discrepancies := Diff(remote, local);
    assert forall m: OnlyLocal :: ReportedIn(remote, local, m) <==>
        exists i :: 0 <= i < |local| && ReportsLocal(remote, local[i], m);
    NoneListed(missingInLocal);
    NoneListed(mismatches);
    return Some(Report(missingInLocal, missingInRemote, mismatches, discrepancies));
  }

  /** No key is reported in two of the lists. */
  lemma {:induction false} ReportedOnce(remote: seq<RemoteTx>, local: seq<LocalTx>, i: nat, j: nat, a: OnlyRemote,
          b: OnlyLocal, c: Mismatch)
    requires UniqueIds(local) && i < |local| && j < |local|
    requires ReportsRemote(remote, local, a) && ReportsLocal(remote, local[i], b)
            && ReportsMismatch(remote, local[j], c)
    ensures a.txId != b.txId && b.txId != c.txId && a.txId != c.txId
  {
  }
}
