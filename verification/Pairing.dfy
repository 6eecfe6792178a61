/** Answered histories position by position, without recursion. */
module Pairing {
  import opened History

  /** A message that makes calls, at `k`, is followed at once by a permutation of their results. */
  ghost predicate BatchAt(history: seq<Message>, k: nat)
    requires k < |history|
  {
    var n := |CallsOf(history[k])|;
    k + n < |history| && IsBatch(history[k], history[k + 1..k + n + 1])
  }

  /** A result, at `k`, is among those that directly follow a message with calls. */
  ghost predicate Owed(history: seq<Message>, k: nat) {
    exists j: nat :: Owes(history, j, k)
  }

  ghost predicate Owes(history: seq<Message>, j: nat, k: nat) {
    j < k < |history| && !history[j].Tool? && k <= j + |CallsOf(history[j])|
  }

  ghost predicate InPlace(history: seq<Message>, k: nat)
    requires k < |history|
  {
    if history[k].Tool? then Owed(history, k) else BatchAt(history, k)
  }

  ghost predicate AllInPlace(history: seq<Message>) {
    forall k :: 0 <= k < |history| ==> InPlace(history, k)
  }

  lemma {:induction false} ToolsByIndex(messages: seq<Message>)
    ensures AllTools(messages) <==> forall k :: 0 <= k < |messages| ==> messages[k].Tool?
  {
    if messages != [] {
      ToolsByIndex(messages[1..]);
    }
  }

  /** What happens after a first batch does not depend on it. */
  lemma ShiftedInPlace(history: seq<Message>, m: nat, k: nat)
    requires m <= k < |history|
    requires forall j :: 0 <= j < m ==> !Owes(history, j, k)
    ensures InPlace(history, k) <==> InPlace(history[m..], k - m)
  {
    var rest := history[m..];
    if history[k].Tool? {
      if Owed(history, k) {
        var j: nat :| Owes(history, j, k);
        assert Owes(rest, j - m, k - m);
      }
      if Owed(rest, k - m) {
        var j: nat :| Owes(rest, j, k - m);
        assert Owes(history, j + m, k);
      }
    } else {
      var n := |CallsOf(history[k])|;
      if k + n < |history| {
        assert history[k + 1..k + n + 1] == rest[k - m + 1..k - m + n + 1];
      }
    }
  }

  lemma FirstBatch(history: seq<Message>, k: nat)
    requires history != [] && BatchAt(history, 0) && |CallsOf(history[0])| < k < |history|
    ensures forall j :: 0 <= j <= |CallsOf(history[0])| ==> !Owes(history, j, k)
  {
    var n := |CallsOf(history[0])|;
    ToolsByIndex(history[1..n + 1]);
    forall j | 0 <= j <= n ensures !Owes(history, j, k) {
      if j > 0 {
        assert history[1..n + 1][j - 1].Tool?;
      }
    }
  }

  lemma InsideBatch(history: seq<Message>, k: nat)
    requires history != [] && BatchAt(history, 0) && 0 < k <= |CallsOf(history[0])|
    ensures InPlace(history, k)
  {
    var n := |CallsOf(history[0])|;
    ToolsByIndex(history[1..n + 1]);
    assert history[1..n + 1][k - 1].Tool?;
    assert Owes(history, 0, k);
  }

  /** A history is answered exactly when every one of its messages is in place. */
  lemma {:induction false} AnsweredIsInPlace(history: seq<Message>)
    ensures Answered(history) <==> AllInPlace(history)
    decreases |history|
  {
    if history != [] {
      var n := |CallsOf(history[0])|;
      if n < |history| && IsBatch(history[0], history[1..n + 1]) {
        assert BatchAt(history, 0);
        var rest := history[n + 1..];
        AnsweredIsInPlace(rest);
        forall k | 0 <= k < |history| ensures k <= n ==> InPlace(history, k)
          ensures k > n ==> (InPlace(history, k) <==> InPlace(rest, k - n - 1))
        {
          if 0 < k <= n {
            InsideBatch(history, k);
          } else if k > n {
            FirstBatch(history, k);
            ShiftedInPlace(history, n + 1, k);
          }
        }
        forall k | 0 <= k < |rest| ensures InPlace(rest, k) <==> InPlace(history, k + n + 1) {
        }
      } else {
        assert !InPlace(history, 0);
      }
    }
  }
}
