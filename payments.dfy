/** The payments collection viewed by transaction id: the lookup the payment
    handler makes before inserting, and the uniqueness it thereby keeps. */
module Payments {
  import opened Types

  /** `payments.findOne({transactionId: tx})` finds a document. */
  predicate HasTransaction(ps: seq<Payment>, tx: string): (r: bool)
    ensures r <==> exists p :: p in ps && p.transactionId == tx
  {
    exists i :: 0 <= i < |ps| && ps[i].transactionId == tx
  }

  /** The number of payments recorded for a transaction id. */
  function CountTransaction(ps: seq<Payment>, tx: string): (n: nat)
    ensures n <= |ps|
  {
    if ps == [] then 0
    else (if ps[0].transactionId == tx then 1 else 0) + CountTransaction(ps[1..], tx)
  }

  /** No two payments share a transaction id. */
  predicate UniqueTransactions(ps: seq<Payment>)
  {
    forall i, j :: 0 <= i < j < |ps| ==> ps[i].transactionId != ps[j].transactionId
  }

  /** The lookup finds nothing exactly when no payment is counted. */
  lemma {:induction false} CountZeroIffAbsent(ps: seq<Payment>, tx: string)
    ensures CountTransaction(ps, tx) == 0 <==> !HasTransaction(ps, tx)
  {
    if ps != [] {
      CountZeroIffAbsent(ps[1..], tx);
      if HasTransaction(ps[1..], tx) {
        var i :| 0 <= i < |ps[1..]| && ps[1..][i].transactionId == tx;
        assert ps[i + 1].transactionId == tx;
      }
      if HasTransaction(ps, tx) && ps[0].transactionId != tx {
        var i :| 0 <= i < |ps| && ps[i].transactionId == tx;
        assert ps[1..][i - 1].transactionId == tx;
      }
    }
  }

  /** Appending one payment adds one to its own transaction id's count and
      leaves every other count alone. */
  lemma {:induction false} CountAppend(ps: seq<Payment>, p: Payment, tx: string)
    ensures CountTransaction(ps + [p], tx) ==
            CountTransaction(ps, tx) + (if p.transactionId == tx then 1 else 0)
  {
    if ps != [] {
      assert (ps + [p])[1..] == ps[1..] + [p];
      CountAppend(ps[1..], p, tx);
    }
  }

  /** With unique transaction ids no id is counted more than once. */
  lemma {:induction false} UniqueCountAtMostOne(ps: seq<Payment>, tx: string)
    requires UniqueTransactions(ps)
    ensures CountTransaction(ps, tx) <= 1
  {
    if ps != [] {
      assert UniqueTransactions(ps[1..]) by {
        forall i, j | 0 <= i < j < |ps[1..]|
          ensures ps[1..][i].transactionId != ps[1..][j].transactionId
        {
          assert ps[1..][i] == ps[i + 1] && ps[1..][j] == ps[j + 1];
        }
      }
      UniqueCountAtMostOne(ps[1..], tx);
      if ps[0].transactionId == tx {
        assert !HasTransaction(ps[1..], tx) by {
          forall i | 0 <= i < |ps[1..]| ensures ps[1..][i].transactionId != tx {
            assert ps[1..][i] == ps[i + 1];
          }
        }
        CountZeroIffAbsent(ps[1..], tx);
      }
    }
  }

  /** Inserting only when the lookup finds nothing keeps the ids unique. */
  lemma UniqueAppend(ps: seq<Payment>, p: Payment)
    requires UniqueTransactions(ps) && !HasTransaction(ps, p.transactionId)
    ensures UniqueTransactions(ps + [p])
  {
    forall i, j | 0 <= i < j < |ps + [p]|
      ensures (ps + [p])[i].transactionId != (ps + [p])[j].transactionId
    {
      if j == |ps| {
        assert (ps + [p])[i] == ps[i];
      }
    }
  }
}
