/** The four-corner collection protocol of the calibration widget, as a
    function of the state counter alone. States 0..3 wait for the top-left,
    top-right, bottom-left and bottom-right touch; Done (-1) is terminal. */
module CornerProtocol {

  const Done: int := -1

  /** The counter after the switch of a release: waiting states advance by
      one, every other value matches no case and stays. */
  function Advance(s: int): int
  {
    if 0 <= s <= 3 then s + 1 else s
  }

  /** A release runs the fit when the advanced counter reaches 4. */
  predicate Fires(s: int)
  {
    Advance(s) == 4
  }

  /** The state after one release: the fit resets a counter of 4 to Done. */
  function Next(s: int): int
  {
    if Fires(s) then Done else Advance(s)
  }

  /** The state after n releases from state s. */
  function After(s: int, n: nat): int
    decreases n
  {
    if n == 0 then s else After(Next(s), n - 1)
  }

  /** How many of n releases from state s run the fit. */
  function FitCount(s: int, n: nat): nat
    decreases n
  {
    if n == 0 then 0 else (if Fires(s) then 1 else 0) + FitCount(Next(s), n - 1)
  }

  /** Among the reachable states, only the one waiting for the last corner
      fires, and one release moves a waiting state to the next corner or,
      from the last corner, to Done. */
  lemma NextOnReachable(s: int)
    requires Done <= s <= 3
    ensures Fires(s) <==> s == 3
    ensures Done <= Next(s) <= 3
    ensures 0 <= s < 3 ==> Next(s) == s + 1
    ensures s == 3 || s == Done ==> Next(s) == Done
  {
  }

  /** Done is terminal: later releases neither leave it nor run the fit. */
  lemma {:induction false} DoneIsTerminal(n: nat)
    ensures After(Done, n) == Done
    ensures FitCount(Done, n) == 0
  {
    if n > 0 {
      DoneIsTerminal(n - 1);
    }
  }

  /** From the state waiting for corner k, n releases reach corner k + n while
      it is below 4, and Done from then on; the fit runs once exactly when
      k + n reaches 4. */
  lemma {:induction false} ReleasesFrom(k: int, n: nat)
    requires 0 <= k <= 3
    decreases n
    ensures After(k, n) == (if k + n < 4 then k + n else Done)
    ensures FitCount(k, n) == (if k + n < 4 then 0 else 1)
  {
    if n > 0 {
      if k < 3 {
        ReleasesFrom(k + 1, n - 1);
      } else {
        DoneIsTerminal(n - 1);
      }
    }
  }

  /** A whole session from the initial state: after n releases the widget
      waits for corner n while n < 4, and is Done from the fourth release on;
      the fit has run once in total from then on, and never before. */
  lemma {:induction false} SessionFromStart(n: nat)
    ensures After(0, n) == (if n < 4 then n else Done)
    ensures FitCount(0, n) == (if n < 4 then 0 else 1)
  {
    ReleasesFrom(0, n);
  }
}
