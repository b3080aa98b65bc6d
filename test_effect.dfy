/**
 * The strip test: the whole strip red, green, blue, then white, over and over.
 */
module Test {
  import opened Led

  /** The four colours of one test cycle, in order. */
  const Cycle: seq<Color> := [Red, Green, Blue, White]

  /** The colour emitted by an update that starts with the counter at k. */
  function TestColor(k: nat): (c: Color)
    ensures k < 3 ==> c == Cycle[k]
    ensures k >= 3 ==> c == White
  {
    match k + 1
    case 1 => Red
    case 2 => Green
    case 3 => Blue
    case _ => White
  }

  /** The counter after an update: one further, except that 4 and beyond reset it. */
  function TestNext(k: nat): (n: nat)
    ensures n <= 3
    ensures k < 3 ==> n == k + 1
    ensures k >= 3 ==> n == 0
  {
    if 1 <= k + 1 <= 3 then k + 1 else 0
  }

  class TestEffect {
    /** The source's `iterator`: how many colours of the cycle were shown. */
    var iter: nat

    constructor ()
      ensures iter == 0
    {
      iter := 0;
    }

    method Update() returns (r: Result<LedData, EffectError>)
      modifies this
      ensures iter == TestNext(old(iter))
      ensures r == Ok(Fill(TestColor(old(iter))))
    {
      iter := iter + 1;
      if iter == 1 {
        r := Ok(Fill(Red));
      } else if iter == 2 {
        r := Ok(Fill(Green));
      } else if iter == 3 {
        r := Ok(Fill(Blue));
      } else {
        iter := 0;
        r := Ok(Fill(White));
      }
    }
  }

  /** The counter after m updates starting from k. */
  function Iterate(k: nat, m: nat): nat {
    if m == 0 then k else TestNext(Iterate(k, m - 1))
  }

  /**
   * Starting from a fresh effect, update number m (counting from 0) shows
   * colour m mod 4 of red, green, blue, white.
   */
  lemma {:induction false} CycleFromStart(m: nat)
    ensures Iterate(0, m) == m % 4
    ensures TestColor(Iterate(0, m)) == Cycle[m % 4]
  {
    if m > 0 {
      CycleFromStart(m - 1);
    }
  }

  /** From any counter in [0, 3] the counter, and so the colour, repeats every four updates. */
  lemma {:induction false} PeriodFour(k: nat, m: nat)
    requires k <= 3
    ensures Iterate(k, m + 4) == Iterate(k, m)
    ensures TestColor(Iterate(k, m + 4)) == TestColor(Iterate(k, m))
  {
    if m == 0 {
      assert Iterate(k, 1) == TestNext(k);
      assert Iterate(k, 2) == TestNext(TestNext(k));
      assert Iterate(k, 3) == TestNext(TestNext(TestNext(k)));
    } else {
      PeriodFour(k, m - 1);
      assert Iterate(k, m + 4) == TestNext(Iterate(k, m - 1 + 4));
    }
  }
}
