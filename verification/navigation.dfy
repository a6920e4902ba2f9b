/**
 Forward and backward moves of the wizard position. The position is a plain
 integer in the source; the moves clamp it so that, starting anywhere in
 [1, TotalSteps], it never leaves that range.
 */
module Navigation {

  const TotalSteps: int := 8

  predicate InRange(step: int)
  {
    1 <= step <= TotalSteps
  }

  /** One step forward, but never past the last step. */
  function GoNext(s: int): (r: int)
    ensures InRange(s) ==> InRange(r)
    ensures s < TotalSteps ==> r == s + 1
    ensures s >= TotalSteps ==> r == TotalSteps
  {
    if s + 1 < TotalSteps then s + 1 else TotalSteps
  }

  /** One step back, but never before the first step. */
  function GoBack(s: int): (r: int)
    ensures InRange(s) ==> InRange(r)
    ensures s > 1 ==> r == s - 1
    ensures s <= 1 ==> r == 1
  {
    if s - 1 > 1 then s - 1 else 1
  }

  /** Away from the last step, going back undoes going forward. */
  lemma BackUndoesNext(s: int)
    requires 1 <= s < TotalSteps
    ensures GoBack(GoNext(s)) == s
  {
  }

  /** Away from the first step, going forward undoes going back. */
  lemma NextUndoesBack(s: int)
    requires 1 < s <= TotalSteps
    ensures GoNext(GoBack(s)) == s
  {
  }

  /** A sequence of moves, `true` for forward and `false` for back. */
  function Moves(s: int, forward: seq<bool>): int
    decreases |forward|
  {
    if forward == [] then s
    else Moves(if forward[0] then GoNext(s) else GoBack(s), forward[1..])
  }

  /** Moves never leave [1, TotalSteps], and each one changes the position by
      at most one, so after n moves it is within n of where it started. */
  lemma {:induction false} MovesStayInRange(s: int, forward: seq<bool>)
    requires InRange(s)
    ensures InRange(Moves(s, forward))
    ensures s - |forward| <= Moves(s, forward) <= s + |forward|
    decreases |forward|
  {
    if forward != [] {
      var s' := if forward[0] then GoNext(s) else GoBack(s);
      MovesStayInRange(s', forward[1..]);
    }
  }

  /** Enough forward moves reach the last step from anywhere in range, and
      it takes exactly TotalSteps - s of them. */
  lemma {:induction false} ForwardReachesLast(s: int, n: nat)
    requires InRange(s)
    ensures Moves(s, seq(n, _ => true)) == if s + n < TotalSteps then s + n else TotalSteps
    decreases n
  {
    if n > 0 {
      assert seq(n, _ => true)[1..] == seq(n - 1, _ => true);
      ForwardReachesLast(GoNext(s), n - 1);
    }
  }
}
