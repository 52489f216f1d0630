/** One game of the three-door Monty Hall show: which doors the host may open,
    the door a switching player moves to, and whether the player wins. */
module Trial {

  /** A door of the show; the game always has exactly the doors 1, 2 and 3. */
  type Door = d: int | 1 <= d <= 3 witness 1

  /** Every door, in increasing order. */
  const AllDoors: seq<Door> := [1, 2, 3]

  /** The doors of `doors` that are neither `a` nor `b`. */
  function Excluding(doors: seq<Door>, a: Door, b: Door): (r: seq<Door>)
    ensures forall d :: d in r <==> d in doors && d != a && d != b
    ensures |r| <= |doors|
  {
    if doors == [] then []
    else if doors[0] != a && doors[0] != b then [doors[0]] + Excluding(doors[1..], a, b)
    else Excluding(doors[1..], a, b)
  }

  /** The doors the host may open: all doors except the prize door and the
      player's door. There are two when the player guessed right, else one. */
  function CanShow(prize: Door, choice: Door): (r: seq<Door>)
    ensures forall d: Door :: d in r <==> d != prize && d != choice
    ensures |r| == if prize == choice then 2 else 1
  {
    Excluding(AllDoors, prize, choice)
  }

  /** The host opens one of the admissible doors; which one is left open,
      as the show picks it at random. */
  method Reveal(prize: Door, choice: Door) returns (show: Door)
    ensures show in CanShow(prize, choice)
    ensures show != prize && show != choice
  {
    var candidates := CanShow(prize, choice);
    assert candidates[0] in candidates;
    show :| show in candidates;
  }

  /** The door a switching player ends on: the first door that is neither the
      opened door nor the original choice. With those two it makes up all three doors. */
  function SwitchedChoice(show: Door, choice: Door): (d: Door)
    requires show != choice
    ensures d != show && d != choice
    ensures {show, choice, d} == {1, 2, 3}
  {
    var remaining := Excluding(AllDoors, show, choice);
    var third: Door := 6 - show - choice;
    assert third in remaining;
    remaining[0]
  }

  /** The outcome of one game: 1 when the player wins, 0 otherwise. A sticking
      player wins exactly when the first guess was right; a switching player
      wins exactly when it was wrong, whichever admissible door was opened. */
  function DidYouWin(prize: Door, choice: Door, switch: bool, show: Door): (r: int)
    requires show in CanShow(prize, choice)
    ensures r == 0 || r == 1
    ensures r == 1 <==> if switch then choice != prize else choice == prize
  {
    if switch then
      (if SwitchedChoice(show, choice) == prize then 1 else 0)
    else
      (if choice == prize then 1 else 0)
  }

  /** Which door the host opens never changes the outcome. */
  lemma OutcomeIndependentOfReveal(prize: Door, choice: Door, switch: bool, show1: Door, show2: Door)
    requires show1 in CanShow(prize, choice) && show2 in CanShow(prize, choice)
    ensures DidYouWin(prize, choice, switch, show1) == DidYouWin(prize, choice, switch, show2)
  {
  }

  /** Prize behind door 2, player on door 1: the host must open door 3, so
      sticking loses and switching (to door 2) wins. */
  lemma PrizeTwoChoiceOne()
    ensures CanShow(2, 1) == [3]
    ensures DidYouWin(2, 1, false, 3) == 0 && DidYouWin(2, 1, true, 3) == 1
  {
  }
}
