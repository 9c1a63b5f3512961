/** The dialog's reads of the user that lack the guard used for the projected figures.
    Lines 101-112 (and 177, 223) check that a user exists before reading it, but the
    lookup of the user's position (line 69) and the isolation warning (lines 138, 142)
    read the user's fields unguarded, so with no user the dialog yields no value at all:
    evaluation stops at line 69, before the isolation warning is reached. */
module UnguardedUserReads {
  import opened Wrappers
  import opened Snapshots
  import opened SupplyModal

  /** The result of evaluating an expression that may read a field of an absent user. */
  datatype Evaluation<T> = Value(v: T) | AbsentUserRead

  /** The isolation warning as the dialog evaluates it, including the unguarded
      position lookup before it: with a user it agrees with the guarded definition;
      without one a field of nothing is read. */
  function IsolationWarningAsWritten(user: Option<User>, reserve: Reserve, position: Option<UserReserve>): (r: Evaluation<bool>)
    ensures r.AbsentUserRead? <==> user.None?
    ensures r.Value? ==> r.v == ShowIsolationWarning(user, reserve, position)
  {
    match user
    case None => AbsentUserRead
    case Some(u) => Value(ShowIsolationWarning(user, reserve, position))
  }

  /** With no user the written expression has no value, while the guarded definition
      used by the projection shows no warning. */
  lemma NoUserLeavesIsolationWarningUndefined(reserve: Reserve, position: Option<UserReserve>)
    ensures IsolationWarningAsWritten(None, reserve, position) == AbsentUserRead
    ensures !ShowIsolationWarning(None, reserve, position)
  {
  }
}
