/** The trip lifecycle: the constant table of legal status successors and what it implies. */
module TripStateMachine {

  datatype TripStatus = DRAFT | REVIEW | SUBMITTED | VERIFIED | PAID | COMPLETED | CANCELLED

  predicate IsTerminal(s: TripStatus) {
    s == COMPLETED || s == CANCELLED
  }

  /** The `TripStateTransitions` record: the legal successors of `s`, in table order. */
  function AllowedNext(s: TripStatus): (next: seq<TripStatus>)
    ensures next == [] <==> IsTerminal(s)
    ensures |next| <= 2
  {
    match s
    case DRAFT => [REVIEW, CANCELLED]
    case REVIEW => [SUBMITTED, CANCELLED]
    case SUBMITTED => [VERIFIED, CANCELLED]
    case VERIFIED => [PAID, CANCELLED]
    case PAID => [COMPLETED, CANCELLED]
    case COMPLETED => []
    case CANCELLED => []
  }

  /** The forward chain a trip goes through when it is not cancelled. */
  const Lifecycle: seq<TripStatus> := [DRAFT, REVIEW, SUBMITTED, VERIFIED, PAID, COMPLETED]

  /** The ordinal of a status in the enumeration's declaration order. */
  function Rank(s: TripStatus): nat {
    match s
    case DRAFT => 0
    case REVIEW => 1
    case SUBMITTED => 2
    case VERIFIED => 3
    case PAID => 4
    case COMPLETED => 5
    case CANCELLED => 6
  }

  /** An independent statement of the lifecycle: a live trip may be cancelled or moved one stage along the chain. */
  ghost predicate LifecycleStep(s: TripStatus, t: TripStatus) {
    !IsTerminal(s) &&
    (t == CANCELLED || exists i :: 0 <= i < |Lifecycle| - 1 && Lifecycle[i] == s && Lifecycle[i + 1] == t)
  }

  /** Consecutive statuses of `p` are legal steps of the table. */
  predicate ValidPath(p: seq<TripStatus>) {
    |p| <= 1 || (p[1] in AllowedNext(p[0]) && ValidPath(p[1..]))
  }

  lemma TerminalHasNoSuccessor(s: TripStatus, t: TripStatus)
    requires IsTerminal(s)
    ensures t !in AllowedNext(s)
  {
  }

  lemma CancelAllowedFromLiveStatus(s: TripStatus)
    requires !IsTerminal(s)
    ensures CANCELLED in AllowedNext(s)
  {
  }

  /** A live status has exactly two successors: the next stage of the chain, then CANCELLED. */
  lemma ExactlyTwoSuccessors(s: TripStatus)
    requires !IsTerminal(s)
    ensures Rank(s) + 1 < |Lifecycle| && Lifecycle[Rank(s)] == s
    ensures AllowedNext(s) == [Lifecycle[Rank(s) + 1], CANCELLED]
  {
  }

  /** The table and the lifecycle chain describe the same relation. */
  lemma AllowedNextIsLifecycle(s: TripStatus, t: TripStatus)
    ensures t in AllowedNext(s) <==> LifecycleStep(s, t)
  {
    if t in AllowedNext(s) && t != CANCELLED {
      ExactlyTwoSuccessors(s);
      var i := Rank(s);
      assert Lifecycle[i] == s && Lifecycle[i + 1] == t;
    }
    if LifecycleStep(s, t) && t != CANCELLED {
      var i :| 0 <= i < |Lifecycle| - 1 && Lifecycle[i] == s && Lifecycle[i + 1] == t;
      assert i == Rank(s);
    }
  }

  /** Every legal step strictly increases the rank; in particular there are no self-loops. */
  lemma StepIncreasesRank(s: TripStatus, t: TripStatus)
    requires t in AllowedNext(s)
    ensures Rank(s) < Rank(t)
    ensures s != t
  {
  }

  lemma DraftNeverReentered(s: TripStatus)
    ensures DRAFT !in AllowedNext(s)
  {
  }

  /** Along a legal path the rank grows by at least one per step. */
  lemma {:induction false} PathRankGrows(p: seq<TripStatus>)
    requires ValidPath(p) && |p| >= 1
    ensures Rank(p[|p| - 1]) >= Rank(p[0]) + |p| - 1
  {
    if |p| > 1 {
      PathRankGrows(p[1..]);
      StepIncreasesRank(p[0], p[1]);
    }
  }

  /** No legal path returns to the status it started from: the table has no cycles. */
  lemma NoCycles(p: seq<TripStatus>)
    requires ValidPath(p) && |p| >= 2
    ensures p[0] != p[|p| - 1]
  {
    PathRankGrows(p);
  }

  /** Every status on a legal path except the last one is live. */
  lemma {:induction false} PathInteriorIsLive(p: seq<TripStatus>, i: nat)
    requires ValidPath(p) && i < |p| - 1
    ensures !IsTerminal(p[i])
  {
    if i > 0 {
      PathInteriorIsLive(p[1..], i - 1);
    }
  }

  /** A legal path visits at most six statuses, so a trip changes status at most five times. */
  lemma PathIsShort(p: seq<TripStatus>)
    requires ValidPath(p)
    ensures |p| <= 6
  {
    if |p| >= 2 {
      var q := p[..|p| - 1];
      ValidPathPrefix(p, |p| - 1);
      PathInteriorIsLive(p, |p| - 2);
      PathRankGrows(q);
      assert q[|q| - 1] == p[|p| - 2];
    }
  }

  lemma {:induction false} ValidPathPrefix(p: seq<TripStatus>, n: nat)
    requires ValidPath(p) && n <= |p|
    ensures ValidPath(p[..n])
  {
    if n > 1 {
      ValidPathPrefix(p[1..], n - 1);
      assert p[..n][1..] == p[1..][..n - 1];
    }
  }
}
