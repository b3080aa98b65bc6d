/**
 * Colour helpers: the "led strip friendly" random colour, whose three channels
 * always add up to 255, and the length-checked conversion to strip data.
 *
 * Randomness is an input: a generator is a stream of raw draws, and
 * `gen_range(lo..hi)` maps a raw draw into the half-open range.
 */
module Helpers {
  import opened Led

  /** The four raw draws one colour consumes, in the order they are taken. */
  datatype ColorDraw = ColorDraw(first: nat, second: nat, swap2: nat, swap1: nat)

  /**
   * `rng.gen_range(lo..hi)`: some value of the half-open range. An empty range
   * makes the generator panic, hence the precondition.
   */
  function GenRange(lo: int, hi: int, raw: nat): (v: int)
    requires lo < hi
    ensures lo <= v < hi
    ensures raw < hi - lo ==> v == lo + raw
  {
    lo + raw % (hi - lo)
  }

  /** Exchanges the elements at `i` and `j`. */
  function Swap<T>(s: seq<T>, i: nat, j: nat): (t: seq<T>)
    requires i < |s| && j < |s|
    ensures |t| == |s| && t[i] == s[j] && t[j] == s[i]
    ensures forall k :: 0 <= k < |s| && k != i && k != j ==> t[k] == s[k]
  {
    s[i := s[j]][j := s[i]]
  }

  lemma SwapPermutes<T>(s: seq<T>, i: nat, j: nat)
    requires i < |s| && j < |s|
    ensures multiset(Swap(s, i, j)) == multiset(s)
  {
  }

  /** A shuffle of `n` elements consumes one draw per position n-1 down to 1. */
  predicate RoundsFor(n: nat, picks: seq<nat>) {
    |picks| == if n == 0 then 0 else n - 1
  }

  /**
   * The Fisher-Yates steps for positions i down to 1: position p is exchanged
   * with an index drawn from 0..p+1, using the draw `picks[|s| - 1 - p]`.
   */
  function ShuffleDown<T>(s: seq<T>, picks: seq<nat>, i: nat): (t: seq<T>)
    requires RoundsFor(|s|, picks) && i <= |picks|
    ensures |t| == |s|
    decreases i
  {
    if i == 0 then s
    else ShuffleDown(Swap(s, i, GenRange(0, i + 1, picks[|s| - 1 - i])), picks, i - 1)
  }

  /** `slice.shuffle(rng)`: the whole sequence shuffled with the given draws. */
  function Shuffled<T>(s: seq<T>, picks: seq<nat>): (t: seq<T>)
    requires RoundsFor(|s|, picks)
    ensures |t| == |s|
  {
    ShuffleDown(s, picks, |picks|)
  }

  /** Every step exchanges two elements, so the result is a permutation of the input. */
  lemma {:induction false} ShuffleDownPermutes<T>(s: seq<T>, picks: seq<nat>, i: nat)
    requires RoundsFor(|s|, picks) && i <= |picks|
    ensures multiset(ShuffleDown(s, picks, i)) == multiset(s)
    decreases i
  {
    if i > 0 {
      var j := GenRange(0, i + 1, picks[|s| - 1 - i]);
      SwapPermutes(s, i, j);
      ShuffleDownPermutes(Swap(s, i, j), picks, i - 1);
    }
  }

  /** One step of the shuffle, unfolded. */
  lemma ShuffleDownStep<T>(s: seq<T>, picks: seq<nat>, i: nat)
    requires RoundsFor(|s|, picks) && 0 < i <= |picks|
    ensures ShuffleDown(s, picks, i)
         == ShuffleDown(Swap(s, i, GenRange(0, i + 1, picks[|s| - 1 - i])), picks, i - 1)
  {
  }

  /** Exchanges two elements of an array in place. */
  method Exchange<T>(a: array<T>, i: nat, j: nat)
    requires i < a.Length && j < a.Length
    modifies a
    ensures a[..] == Swap(old(a[..]), i, j)
  {
    a[i], a[j] := a[j], a[i];
  }

  /** The in-place shuffle of an array, one exchange per position from the back. */
  method Shuffle<T>(a: array<T>, picks: seq<nat>)
    requires RoundsFor(a.Length, picks)
    modifies a
    ensures a[..] == Shuffled(old(a[..]), picks)
    ensures multiset(a[..]) == multiset(old(a[..]))
  {
    ghost var original := a[..];
    var i := |picks|;
    while i > 0
      invariant 0 <= i <= |picks|
      invariant ShuffleDown(a[..], picks, i) == Shuffled(original, picks)
    {
      var j := GenRange(0, i + 1, picks[a.Length - 1 - i]);
      ShuffleDownStep(a[..], picks, i);
      Exchange(a, i, j);
      i := i - 1;
    }
    ShuffleDownPermutes(original, picks, |picks|);
  }

  /** The three channels before the shuffle: c0, c1 and 255 - c0 - c1. */
  function Channels(d: ColorDraw): (c: seq<u8>)
    ensures |c| == 3
    ensures c[0] <= 254 && c[1] <= 254 - c[0] && c[2] >= 1
    ensures c[0] as int + c[1] as int + c[2] as int == 255
  {
    var c0 := GenRange(0, 255, d.first) as u8;
    var c1 := GenRange(0, (255 - c0) as int, d.second) as u8;
    [c0, c1, 255 - c0 - c1]
  }

  function ColorOf(c: seq<u8>): Color
    requires |c| == 3
  {
    Color(c[0], c[1], c[2])
  }

  lemma ChannelsOfColor(c: seq<u8>)
    requires |c| == 3
    ensures var k := ColorOf(c); [k.r, k.g, k.b] == c
  {
  }

  /** The colour `get_random_color_with_rng` returns for the draws `d`. */
  function RandomColor(d: ColorDraw): Color {
    ColorOf(Shuffled(Channels(d), [d.swap2, d.swap1]))
  }

  /** `get_random_color_with_rng`: fill a three-element array, then shuffle it in place. */
  method GetRandomColorWithRng(d: ColorDraw) returns (c: Color)
    ensures c == RandomColor(d)
  {
    var channels := new u8[3](_ => 0);
    channels[0] := GenRange(0, 255, d.first) as u8;
    channels[1] := GenRange(0, (255 - channels[0]) as int, d.second) as u8;
    channels[2] := 255 - channels[0] - channels[1];
    ghost var drawn := [channels[0], channels[1], channels[2]];
    assert channels[..] == drawn;
    assert drawn == Channels(d);
    var picks := [d.swap2, d.swap1];
    Shuffle(channels, picks);
    c := Color(channels[0], channels[1], channels[2]);
    assert c == ColorOf(channels[..]);
  }

  /** `get_random_color`: the same colour, drawn from the thread's own generator. */
  method GetRandomColor(d: ColorDraw) returns (c: Color)
    ensures c == RandomColor(d)
    ensures ChannelSum(c) == 255
  {
    c := GetRandomColorWithRng(d);
    RandomColorSum(d);
  }

  function Sum3(s: seq<u8>): int
    requires |s| == 3
  {
    s[0] as int + s[1] as int + s[2] as int
  }

  lemma SwapKeepsSum3(s: seq<u8>, i: nat, j: nat)
    requires |s| == 3 && i < 3 && j < 3
    ensures Sum3(Swap(s, i, j)) == Sum3(s)
  {
  }

  /** The two exchanges `shuffle` makes on three elements. */
  lemma ShuffleOfThree(s: seq<u8>, d: ColorDraw)
    requires |s| == 3
    ensures Shuffled(s, [d.swap2, d.swap1])
         == Swap(Swap(s, 2, GenRange(0, 3, d.swap2)), 1, GenRange(0, 2, d.swap1))
  {
    var picks := [d.swap2, d.swap1];
    var once := Swap(s, 2, GenRange(0, 3, picks[0]));
    var twice := Swap(once, 1, GenRange(0, 2, picks[1]));
    assert ShuffleDown(s, picks, 2) == ShuffleDown(once, picks, 1);
    assert ShuffleDown(once, picks, 1) == ShuffleDown(twice, picks, 0);
  }

  /** Every random colour's channels add up to exactly 255. */
  lemma RandomColorSum(d: ColorDraw)
    ensures ChannelSum(RandomColor(d)) == 255
  {
    var s := Channels(d);
    var once := Swap(s, 2, GenRange(0, 3, d.swap2));
    ShuffleOfThree(s, d);
    SwapKeepsSum3(s, 2, GenRange(0, 3, d.swap2));
    SwapKeepsSum3(once, 1, GenRange(0, 2, d.swap1));
  }

  /** The returned channels are the three drawn channels in some order. */
  lemma RandomColorPermutes(d: ColorDraw)
    ensures var c := RandomColor(d); multiset([c.r, c.g, c.b]) == multiset(Channels(d))
  {
    var picks := [d.swap2, d.swap1];
    ShuffleDownPermutes(Channels(d), picks, |picks|);
    ChannelsOfColor(Shuffled(Channels(d), picks));
  }

  /** Draws that make `get_random_color_with_rng` return `c`. */
  function DrawFor(c: Color): ColorDraw {
    if c.b >= 1 then ColorDraw(c.r as nat, c.g as nat, 2, 1)
    else if c.g >= 1 then ColorDraw(c.r as nat, c.b as nat, 1, 1)
    else ColorDraw(c.b as nat, c.g as nat, 0, 1)
  }

  /** Every colour whose channels add up to 255 is a possible random colour. */
  lemma RandomColorCovers(c: Color)
    requires ChannelSum(c) == 255
    ensures RandomColor(DrawFor(c)) == c
  {
    var d := DrawFor(c);
    ShuffleOfThree(Channels(d), d);
  }

  /** The random colours are exactly the colours whose channels add up to 255. */
  lemma RandomColorRange(c: Color)
    ensures (exists d :: RandomColor(d) == c) <==> ChannelSum(c) == 255
  {
    if ChannelSum(c) == 255 {
      RandomColorCovers(c);
    }
    if d :| RandomColor(d) == c {
      RandomColorSum(d);
    }
  }

  /**
   * `vec_to_led_data`: the data unchanged when it has LED_SIZE pixels; `None`
   * stands for the failed length assertion.
   */
  function VecToLedData(data: seq<Color>): (r: Option<LedData>)
    ensures r.Some? <==> |data| == LED_SIZE
    ensures r.Some? ==> r.value == data && IsFrame(r.value)
  {
    if |data| == LED_SIZE then Some(data) else None
  }
}
