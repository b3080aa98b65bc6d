/**
 * The random effect: the strip is walked block by block, and every pixel gets
 * a freshly drawn "led strip friendly" colour.
 */
module Random {
  import opened Led
  import opened Helpers

  const BLOCK_SIZE: nat := 10

  /**
   * The frame produced from the generator `rng`, whose k-th colour draw is
   * `rng(k)`.
   */
  function RandomFrame(rng: nat -> ColorDraw): (f: LedData)
    ensures IsFrame(f)
  {
    Drawn(rng, LED_SIZE)
  }

  /** The first n colours drawn from `rng`. */
  function Drawn(rng: nat -> ColorDraw, n: nat): (s: seq<Color>)
    ensures |s| == n
  {
    seq(n, i requires 0 <= i < n => RandomColor(rng(i)))
  }

  lemma DrawnNext(rng: nat -> ColorDraw, n: nat)
    ensures Drawn(rng, n + 1) == Drawn(rng, n) + [RandomColor(rng(n))]
  {
  }

  /** Every pixel of a random frame has channels that add up to 255. */
  lemma RandomFrameSums(rng: nat -> ColorDraw)
    ensures forall i :: 0 <= i < |RandomFrame(rng)| ==> ChannelSum(RandomFrame(rng)[i]) == 255
  {
    var f := RandomFrame(rng);
    forall i | 0 <= i < |f| ensures ChannelSum(f[i]) == 255 {
      RandomColorSum(rng(i));
    }
  }

  /**
   * Within a block the pixels need not agree: each one is its own draw, so any
   * two admissible colours can be the first two pixels.
   */
  lemma BlocksNeedNotBeUniform(a: Color, b: Color)
    requires ChannelSum(a) == 255 && ChannelSum(b) == 255
    ensures exists rng: nat -> ColorDraw :: RandomFrame(rng)[0] == a && RandomFrame(rng)[1] == b
  {
    var da, db := DrawFor(a), DrawFor(b);
    var rng := (k: nat) => if k == 0 then da else db;
    RandomColorCovers(a);
    RandomColorCovers(b);
    var f := RandomFrame(rng);
    assert f[0] == RandomColor(rng(0));
    assert f[1] == RandomColor(rng(1));
  }

  class RandomEffect {
    constructor () {}

    /** Pushes LED_SIZE / BLOCK_SIZE blocks of BLOCK_SIZE random colours. */
    method Update(rng: nat -> ColorDraw) returns (r: Result<LedData, EffectError>)
      ensures r == Ok(RandomFrame(rng))
    {
      var data: seq<Color> := [];
      var block := 0;
      while block < LED_SIZE / BLOCK_SIZE
        invariant 0 <= block <= LED_SIZE / BLOCK_SIZE
        invariant |data| == block * BLOCK_SIZE
        invariant data == Drawn(rng, |data|)
      {
        var j := 0;
        while j < BLOCK_SIZE
          invariant 0 <= j <= BLOCK_SIZE
          invariant |data| == block * BLOCK_SIZE + j
          invariant data == Drawn(rng, |data|)
        {
          var c := GetRandomColorWithRng(rng(|data|));
          DrawnNext(rng, |data|);
          data := data + [c];
          j := j + 1;
        }
        block := block + 1;
      }
      var frame := VecToLedData(data);
      r := Ok(frame.value);
    }

    /** The effect asks for one second between updates. */
    function GetConfig(): (config: EffectConfig)
      ensures config.delayMillis == 1000
    {
      EffectConfig(1000)
    }
  }
}
