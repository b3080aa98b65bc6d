/**
 * The rainbow effect: a fixed gradient across the strip, rotated one pixel
 * further to the right on every update.
 *
 * The gradient's per-pixel colour comes from floating-point sine waves; here it
 * is an input, `gradient(i)` being the colour computed for pixel i.
 */
module Rainbow {
  import opened Led

  /** `VecDeque::rotate_right(k)`: the last k elements move to the front. */
  function RotateRight<T>(s: seq<T>, k: nat): (r: seq<T>)
    requires k <= |s|
    ensures |r| == |s|
    ensures r[..k] == s[|s| - k..] && r[k..] == s[..|s| - k]
  {
    s[|s| - k..] + s[..|s| - k]
  }

  /** Element i of the input lands at position (i + k) mod |s|. */
  lemma RotateRightMoves<T>(s: seq<T>, k: nat, i: nat)
    requires k <= |s| && i < |s|
    ensures RotateRight(s, k)[(i + k) % |s|] == s[i]
  {
    WrapOnce(i + k, |s|);
    RotateRightAt(s, k, (i + k) % |s|);
  }

  /** A whole turn of the strip does not change a position. */
  lemma ShiftByTurn(x: nat)
    ensures (x + LED_SIZE) % LED_SIZE == x % LED_SIZE
  {
  }

  /** Below 2n, reducing modulo n subtracts n at most once. */
  lemma WrapOnce(x: nat, n: nat)
    requires 0 < n && x < 2 * n
    ensures x % n == if x < n then x else x - n
  {
    if x >= n {
      assert x == n + (x - n);
    }
  }

  /** Position j of the output holds the input element k places to its left, wrapping. */
  lemma RotateRightAt<T>(s: seq<T>, k: nat, j: nat)
    requires k <= |s| && j < |s|
    ensures RotateRight(s, k)[j] == if j >= k then s[j - k] else s[j - k + |s|]
  {
  }

  /** The unrotated gradient, one colour per pixel. */
  function Gradient(gradient: nat -> Color): (f: LedData)
    ensures IsFrame(f)
  {
    seq(LED_SIZE, i requires 0 <= i < LED_SIZE => gradient(i))
  }

  /** The frame emitted by an update that starts with the counter at k. */
  function RainbowFrame(gradient: nat -> Color, k: nat): (f: LedData)
    requires k < LED_SIZE
    ensures IsFrame(f)
  {
    RotateRight(Gradient(gradient), k)
  }

  /** The counter after an update: one further, back to 0 at the strip length. */
  function NextIterator(k: nat): (n: nat)
    ensures n < LED_SIZE
    ensures k < LED_SIZE ==> n == (k + 1) % LED_SIZE
  {
    if k + 1 >= LED_SIZE then 0 else k + 1
  }

  class RainbowEffect {
    /** The source's `iterator`: how far the gradient is rotated on the next update. */
    var iter: nat

    predicate Valid()
      reads this
    {
      iter < LED_SIZE
    }

    constructor ()
      ensures Valid() && iter == 0
    {
      iter := 0;
    }

    /** Builds the gradient, rotates it by the counter, then advances the counter. */
    method Update(gradient: nat -> Color) returns (r: Result<LedData, EffectError>)
      requires Valid()
      modifies this
      ensures Valid()
      ensures r == Ok(RainbowFrame(gradient, old(iter)))
      ensures iter == NextIterator(old(iter))
    {
      var data: LedData := [];
      var i := 0;
      while i < LED_SIZE
        invariant 0 <= i <= LED_SIZE
        invariant data == seq(i, j requires 0 <= j < i => gradient(j))
      {
        data := data + [gradient(i)];
        i := i + 1;
      }
      assert data == Gradient(gradient);
      data := RotateRight(data, iter);
      iter := iter + 1;
      if iter >= |data| {
        iter := 0;
      }
      r := Ok(data);
    }
  }

  /** Two consecutive frames differ by a rotation of one pixel. */
  lemma ConsecutiveFrames(gradient: nat -> Color, k: nat)
    requires k < LED_SIZE
    ensures RainbowFrame(gradient, NextIterator(k)) == RotateRight(RainbowFrame(gradient, k), 1)
  {
    var g := Gradient(gradient);
    var prev := RainbowFrame(gradient, k);
    var next := RainbowFrame(gradient, NextIterator(k));
    var n := LED_SIZE;
    forall j | 0 <= j < n ensures next[j] == RotateRight(prev, 1)[j] {
      RotateRightAt(prev, 1, j);
      var i := if j >= 1 then j - 1 else j - 1 + n;
      RotateRightAt(g, k, i);
      RotateRightAt(g, NextIterator(k), j);
    }
  }

  /** The counter after m updates starting from k. */
  function Iterate(k: nat, m: nat): nat {
    if m == 0 then k else NextIterator(Iterate(k, m - 1))
  }

  /** After m updates the counter has moved m places, modulo the strip length. */
  lemma {:induction false} IterateAdvances(k: nat, m: nat)
    requires k < LED_SIZE
    ensures Iterate(k, m) == (k + m) % LED_SIZE
  {
    if m > 0 {
      IterateAdvances(k, m - 1);
    }
  }

  /** After LED_SIZE updates the counter, and so the frame, is back where it started. */
  lemma Period(gradient: nat -> Color, k: nat)
    requires k < LED_SIZE
    ensures Iterate(k, LED_SIZE) == k
    ensures RainbowFrame(gradient, Iterate(k, LED_SIZE)) == RainbowFrame(gradient, k)
  {
    IterateAdvances(k, LED_SIZE);
  }
}
