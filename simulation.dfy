/** The win-ratio accumulators: play a number of games with one fixed strategy
    and report the fraction that were won. The doors the show draws at random
    for each game are given as a sequence of draws, one per game. */
module Simulation {
  import opened Trial

  /** The two draws of one game: the door hiding the prize and the player's door. */
  datatype Draw = Draw(prize: Door, choice: Door)

  /** Dividing the number of wins by a game count of zero. */
  datatype SimError = ZeroDivision

  datatype Result<T> = Ok(value: T) | Err(error: SimError)

  /** The number of draws whose first guess hit the prize door. */
  function CountRight(draws: seq<Draw>): (n: nat)
    ensures n <= |draws|
  {
    if draws == [] then 0
    else
      var last := draws[|draws| - 1];
      CountRight(draws[..|draws| - 1]) + if last.choice == last.prize then 1 else 0
  }

  /** The number of draws whose first guess missed the prize door. */
  function CountWrong(draws: seq<Draw>): (n: nat)
    ensures n <= |draws|
  {
    if draws == [] then 0
    else
      var last := draws[|draws| - 1];
      CountWrong(draws[..|draws| - 1]) + if last.choice != last.prize then 1 else 0
  }

  /** Every draw either hits or misses, so the two counts make up all games. */
  lemma {:induction false} RightPlusWrong(draws: seq<Draw>)
    ensures CountRight(draws) + CountWrong(draws) == |draws|
  {
    if draws != [] {
      RightPlusWrong(draws[..|draws| - 1]);
    }
  }

  /** A win count over a game count lies between 0 and 1; with a negative game
      count no game is played and the ratio is 0. */
  lemma RatioInUnitInterval(won: nat, numSims: int)
    requires numSims != 0
    requires if numSims < 0 then won == 0 else won <= numSims
    ensures 0.0 <= won as real / numSims as real <= 1.0
  {
  }

  /** Plays `numSims` games, switching every time, and returns wins / numSims.
      Each game's host reveal is picked nondeterministically. */
  method SimulateSwitch(numSims: int, draws: seq<Draw>) returns (r: Result<real>)
    requires |draws| == if numSims < 0 then 0 else numSims
    ensures r.Err? <==> numSims == 0
    ensures r.Ok? ==> r.value == CountWrong(draws) as real / numSims as real
    ensures r.Ok? ==> 0.0 <= r.value <= 1.0
    ensures numSims == 1 ==> r == Ok(0.0) || r == Ok(1.0)
  {
    var won := 0;
    for i := 0 to |draws|
      invariant 0 <= won <= i
      invariant won == CountWrong(draws[..i])
    {
      var show := Reveal(draws[i].prize, draws[i].choice);
      won := won + DidYouWin(draws[i].prize, draws[i].choice, true, show);
      assert draws[..i + 1][..i] == draws[..i];
    }
    assert draws[..|draws|] == draws;
    if numSims == 0 {
      return Err(ZeroDivision);
    }
    RatioInUnitInterval(won, numSims);
    r := Ok(won as real / numSims as real);
  }

  /** Plays `numSims` games, sticking every time, and returns wins / numSims.
      Each game's host reveal is picked nondeterministically. */
  method SimulateStick(numSims: int, draws: seq<Draw>) returns (r: Result<real>)
    requires |draws| == if numSims < 0 then 0 else numSims
    ensures r.Err? <==> numSims == 0
    ensures r.Ok? ==> r.value == CountRight(draws) as real / numSims as real
    ensures r.Ok? ==> 0.0 <= r.value <= 1.0
    ensures numSims == 1 ==> r == Ok(0.0) || r == Ok(1.0)
  {
    var won := 0;
    for i := 0 to |draws|
      invariant 0 <= won <= i
      invariant won == CountRight(draws[..i])
    {
      var show := Reveal(draws[i].prize, draws[i].choice);
      won := won + DidYouWin(draws[i].prize, draws[i].choice, false, show);
      assert draws[..i + 1][..i] == draws[..i];
    }
    assert draws[..|draws|] == draws;
    if numSims == 0 {
      return Err(ZeroDivision);
    }
    RatioInUnitInterval(won, numSims);
    r := Ok(won as real / numSims as real);
  }

  /** Two parts that make up a positive whole are fractions of it summing to one. */
  lemma FractionsOfWhole(x: real, y: real, n: real)
    requires n > 0.0 && x + y == n
    ensures x / n + y / n == 1.0
  {
  }

  /** On the same draws, the switching and sticking ratios add up to one. */
  lemma ComplementaryRatios(numSims: int, draws: seq<Draw>)
    requires numSims >= 1 && |draws| == numSims
    ensures CountWrong(draws) as real / numSims as real + CountRight(draws) as real / numSims as real == 1.0
  {
    RightPlusWrong(draws);
    FractionsOfWhole(CountWrong(draws) as real, CountRight(draws) as real, numSims as real);
  }

  /** Every game the show can set up, one draw per (prize, choice) pair:
      each pair is listed, and none twice. */
  function AllDraws(): (r: seq<Draw>)
    ensures |r| == 9
    ensures forall d: Draw :: d in r
    ensures forall i, j :: 0 <= i < j < |r| ==> r[i] != r[j]
  {
    var r := [Draw(1, 1), Draw(1, 2), Draw(1, 3),
              Draw(2, 1), Draw(2, 2), Draw(2, 3),
              Draw(3, 1), Draw(3, 2), Draw(3, 3)];
    assert forall d: Draw :: d in r by {
      // The pair (p, c) sits at index 3 * (p - 1) + c - 1.
      forall d: Draw ensures d in r {
        assert r[3 * (d.prize - 1) + d.choice - 1] == d;
      }
    }
    r
  }

  /** Over the nine possible games, sticking wins three and switching six. */
  lemma ExhaustiveCounts()
    ensures CountRight(AllDraws()) == 3 && CountWrong(AllDraws()) == 6
  {
    var a := AllDraws();
    assert CountRight(a[..1]) == 1 && CountWrong(a[..1]) == 0;
    assert a[..2][..1] == a[..1];
    assert CountRight(a[..2]) == 1 && CountWrong(a[..2]) == 1;
    assert a[..3][..2] == a[..2];
    assert CountRight(a[..3]) == 1 && CountWrong(a[..3]) == 2;
    assert a[..4][..3] == a[..3];
    assert CountRight(a[..4]) == 1 && CountWrong(a[..4]) == 3;
    assert a[..5][..4] == a[..4];
    assert CountRight(a[..5]) == 2 && CountWrong(a[..5]) == 3;
    assert a[..6][..5] == a[..5];
    assert CountRight(a[..6]) == 2 && CountWrong(a[..6]) == 4;
    assert a[..7][..6] == a[..6];
    assert CountRight(a[..7]) == 2 && CountWrong(a[..7]) == 5;
    assert a[..8][..7] == a[..7];
    assert CountRight(a[..8]) == 2 && CountWrong(a[..8]) == 6;
    assert a[..9][..8] == a[..8];
    assert a[..9] == a;
  }
}
