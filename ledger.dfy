/** Vote rows and the counters they back.

    Both kinds of vote in the festival (a user's upvote of a film, and a
    user's upvote of a film's proposal for one event) are rows holding a
    (subject, user) pair. The cached counters `total_upvotes` and
    `upvote_count` are meant to equal the number of such rows for their
    subject; `Tally` is that number. */
module Ledger {

  /** The users holding a vote row on subject `k`. */
  function Voters<K(==), U(==,!new)>(votes: set<(K, U)>, k: K): (r: set<U>)
  {
    set p | p in votes && p.0 == k :: p.1
  }

  /** The number of vote rows on subject `k`: the value its counter must hold. */
  function Tally<K(==), U(==,!new)>(votes: set<(K, U)>, k: K): nat
  {
    |Voters(votes, k)|
  }

  /** Casting a new vote on `k` raises the tally of `k` by exactly one and
      leaves the tally of every other subject as it was. */
  lemma TallyAfterCast<K, U(!new)>(votes: set<(K, U)>, k: K, u: U, j: K)
    requires (k, u) !in votes
    ensures Tally(votes + {(k, u)}, j) == Tally(votes, j) + (if j == k then 1 else 0)
  {
    if j == k {
      assert Voters(votes + {(k, u)}, j) == Voters(votes, j) + {u};
    } else {
      assert Voters(votes + {(k, u)}, j) == Voters(votes, j);
    }
  }

  /** Withdrawing an existing vote on `k` lowers the tally of `k` by exactly
      one and leaves the tally of every other subject as it was. */
  lemma TallyAfterWithdraw<K, U(!new)>(votes: set<(K, U)>, k: K, u: U, j: K)
    requires (k, u) in votes
    ensures Tally(votes - {(k, u)}, j) == Tally(votes, j) - (if j == k then 1 else 0)
  {
    if j == k {
      assert Voters(votes - {(k, u)}, j) == Voters(votes, j) - {u};
    } else {
      assert Voters(votes - {(k, u)}, j) == Voters(votes, j);
    }
  }

  /** A subject that holds a vote has a positive tally, so a counter equal to
      the tally can be decremented without going below zero. */
  lemma TallyPositive<K, U(!new)>(votes: set<(K, U)>, k: K, u: U)
    requires (k, u) in votes
    ensures Tally(votes, k) >= 1
  {
    assert u in Voters(votes, k);
  }

  /** A subject that no vote row mentions has a tally of zero. */
  lemma TallyOfUnmentioned<K, U(!new)>(votes: set<(K, U)>, k: K)
    requires forall p :: p in votes ==> p.0 != k
    ensures Tally(votes, k) == 0
  {
    assert Voters(votes, k) == {};
  }
}
