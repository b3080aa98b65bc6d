/** Shared vocabulary of the controller: strip size, bytes, colours and frames. */
module Led {

  /** Number of pixels on the strip. */
  const LED_SIZE: nat := 170

  /** An unsigned 8-bit value; arithmetic on it is checked to stay in range. */
  newtype u8 = x: int | 0 <= x < 256

  /** One pixel: three 8-bit channels. */
  datatype Color = Color(r: u8, g: u8, b: u8)

  /** A sequence of pixels; a well-formed frame has exactly LED_SIZE of them. */
  type LedData = seq<Color>

  datatype Option<T> = None | Some(value: T)

  datatype Result<T, E> = Ok(value: T) | Err(error: E)

  /** What a failed effect update reports. */
  datatype EffectError = EffectError(message: string)

  /** How long an effect asks to wait between two updates. */
  datatype EffectConfig = EffectConfig(delayMillis: nat)

  const Black := Color(0, 0, 0)
  const White := Color(255, 255, 255)
  const Red := Color(255, 0, 0)
  const Green := Color(0, 255, 0)
  const Blue := Color(0, 0, 255)

  predicate IsFrame(data: LedData) {
    |data| == LED_SIZE
  }

  /** Sum of the three channels, as an unbounded integer. */
  function ChannelSum(c: Color): (n: int)
    ensures 0 <= n <= 3 * 255
  {
    c.r as int + c.g as int + c.b as int
  }

  /** A frame of LED_SIZE copies of one colour (`[c; LED_SIZE].to_vec()`). */
  function Fill(c: Color): (f: LedData)
    ensures IsFrame(f)
    ensures forall i :: 0 <= i < |f| ==> f[i] == c
  {
    seq(LED_SIZE, _ => c)
  }

  /** A frame in which every pixel has the same colour. */
  predicate Uniform(f: LedData) {
    forall i :: 0 <= i < |f| ==> f[i] == f[0]
  }
}
