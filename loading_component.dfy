/**
 * The loading screen (src/Screen/LoadingComponent.js): a counter of one to
 * three dots, advanced by a periodic tick, and the "Loading..." text.
 */
module LoadingComponent {

  /** The dot counts the screen cycles through. */
  predicate InRange(dots: nat)
  {
    1 <= dots <= 3
  }

  /** One tick: `prev < 3 ? prev + 1 : 1`. */
  function NextDots(dots: nat): (next: nat)
    ensures InRange(next)
    ensures dots < 3 ==> next == dots + 1
    ensures dots >= 3 ==> next == 1
  {
    if dots < 3 then dots + 1 else 1
  }

  /** `n` ticks in a row. */
  function Ticks(dots: nat, n: nat): (after: nat)
    ensures n > 0 ==> InRange(after)
    decreases n
  {
    if n == 0 then dots else Ticks(NextDots(dots), n - 1)
  }

  /** From any count in range, three ticks come back to it. */
  lemma ThreeTicksCycle(dots: nat)
    requires InRange(dots)
    ensures Ticks(dots, 3) == dots
  {
  }

  /** Ticking is periodic with period three: any number of whole cycles changes nothing. */
  lemma {:induction false} TicksPeriodic(dots: nat, k: nat)
    requires InRange(dots)
    ensures Ticks(dots, 3 * k) == dots
  {
    if k > 0 {
      TicksAdd(dots, 3, 3 * (k - 1));
      ThreeTicksCycle(dots);
      TicksPeriodic(dots, k - 1);
    }
  }

  lemma {:induction false} TicksAdd(dots: nat, m: nat, n: nat)
    ensures Ticks(dots, m + n) == Ticks(Ticks(dots, m), n)
    decreases m
  {
    if m > 0 {
      TicksAdd(NextDots(dots), m - 1, n);
    }
  }

  /** `".".repeat(n)` */
  function Repeat(c: char, n: nat): (s: string)
    ensures |s| == n
    ensures forall i :: 0 <= i < n ==> s[i] == c
  {
    if n == 0 then "" else [c] + Repeat(c, n - 1)
  }

  /** The text under the title: "Loading" and then exactly `dots` full stops. */
  function LoadingText(dots: nat): (text: string)
    ensures |text| == 7 + dots
    ensures text[..7] == "Loading"
    ensures forall i :: 7 <= i < |text| ==> text[i] == '.'
  {
    "Loading" + Repeat('.', dots)
  }

  class Loader {
    var dots: nat

    ghost predicate Valid()
      reads this
    {
      InRange(dots)
    }

    /** The counter starts at one dot. */
    constructor ()
      ensures Valid() && dots == 1
    {
      dots := 1;
    }

    /** The interval callback. */
    method Tick()
      requires Valid()
      modifies this
      ensures Valid()
      ensures dots == NextDots(old(dots))
    {
      dots := if dots < 3 then dots + 1 else 1;
    }

    function Text(): (text: string)
      requires Valid()
      reads this
      ensures |text| == 7 + dots
    {
      LoadingText(dots)
    }
  }

  /** Three ticks of the interval leave the counter where it was. */
  method TickThrice(loader: Loader)
    requires loader.Valid()
    modifies loader
    ensures loader.Valid() && loader.dots == old(loader.dots)
  {
    loader.Tick();
    loader.Tick();
    loader.Tick();
  }
}
