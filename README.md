# LED strip controller: a Dafny model of the daemon's data path

This project models the background process of a controller that drives a
170-pixel addressable light strip over sACN (ANSI E1.31). The daemon holds one
effect in a shared slot. On every tick it asks that effect for a frame, swaps
in an all-black frame if the update failed, and hands the frame to the sACN
library as bytes in blue, red, green order. A remote "set effect" command
replaces the slot's effect with a freshly built one.

The model covers:

- the shared vocabulary (`led.dfy`): `LED_SIZE`, `u8`, `Color`, frames;
- the effect names and the web-status switch (`cli.dfy`): the
  case-insensitive lookups and the variant list;
- the colour helpers (`helpers.dfy`): the random colour whose channels sum to
  255, the in-place Fisher-Yates shuffle it uses, and the length check on
  strip data;
- the four effects, one class each: rainbow (`rainbow.dfy`), strip test
  (`test_effect.dfy`), random (`random_effect.dfy`) and editor-mode colour
  (`coding.dfy`);
- the effect box, the factory and a value-level step function
  (`effects.dfy`);
- the daemon (`daemon.dfy`): the frame encoder, `send_data`, the effect
  slot, the command interface, `create_effect`, start-up, one render tick and
  a finite run of ticks.

Inputs from outside the model are explicit parameters. These are:

- the rainbow's sine gradient, as a function from pixel index to colour. The
  source computes it from the pixel index alone, so it is one fixed parameter
  for a whole run of ticks, not a per-tick input;
- the editor's mode string;
- the random generator, as a stream of raw draws (`ColorDraw`);
- whether the sACN library accepted the packet;
- whether the single-instance lock was acquired.

`gen_range(lo..hi)` is modelled as `lo + raw % (hi - lo)`. Its precondition
`lo < hi` is the generator's panic on an empty range. The shuffle follows
rand 0.8's `SliceRandom::shuffle`: for each position i from len-1 down to 1,
swap position i with an index drawn from `0..i+1`.

Where the code and the intended design of the system differ, the model
follows the code:

- A failed `update` is not skipped: the daemon sends an all-black frame.
- The render loop sleeps a fixed 10 ms. It never asks the effect for its
  delay, so the random effect's one-second `get_config` has no effect on
  pacing.
- The random effect draws a fresh colour for every pixel, not one per block
  of ten. Its first channel is drawn from [0, 254] and the three channels sum
  to exactly 255.
- `RandomEffect::update` is written against a `Result<Option<LedData>>`
  signature, while the trait in `src/main.rs` returns `Result<LedData>`. The
  model follows the trait, and the random effect's frame is always present.

## Model

| member | source | states |
|---|---|---|
| `Cli.AllClientTypes` | src/main.rs:53-61 | the variant list holds each of the four client types exactly once, in declaration order |
| `Cli.ParseClientType` | src/main.rs:63-73 | the lookup returns variant k exactly when the lower-cased input equals k's keyword; every other string is the failure case (the panic) |
| `Cli.NameRoundTrip` | src/main.rs:56-69 | parsing a variant's own identifier, e.g. "RainbowEffect", returns that variant |
| `Cli.ParseIgnoresCase` | src/main.rs:63-69 | any spelling of a variant's name that differs only in letter case selects that variant |
| `Cli.ParseWebStatus` | src/main.rs:97-109 | the status is Off exactly when the lower-cased input is "off", "false" or "0"; "on", "true", "1" and every other string give On |
| `Cli.WebStatusIgnoresCase` | src/main.rs:99-107 | two strings equal up to letter case give the same web status |
| `Effects.InitialState` | src/main.rs:75-89 | the state each `new()` builds has the requested kind and is well formed; the rainbow and test counters start at 0 |
| `Effects.IntoEffect` | src/main.rs:75-89 | each kind yields a newly allocated effect object of the same-named class, in its `new()` state |
| `Effects.Update` | src/main.rs:111-118 | dispatching `update` to the boxed effect yields the value-level output and next state of that effect's old state |
| `Effects.NextState` | src/main.rs:111-118 | an update keeps the state well formed and never changes the kind of effect |
| `Effects.OutputIsFrame` | src/daemon.rs:39-41 | no modelled effect's update fails, and every frame it yields has exactly LED_SIZE pixels |
| `Effects.FirstUpdate` | src/daemon.rs:114-117 | the first frame after installing kind k: unrotated gradient for the rainbow, all red for the test, the random or mode frame otherwise |
| `Effects.UpdatesKeepKind` | src/daemon.rs:38-48 | however many ticks run, the installed effect stays of the same kind; only the command interface changes it |
| `Effects.IterateRainbow` | src/effects/rainbow.rs:31-34 | m updates of a rainbow effect leave it a rainbow effect whose counter has taken m increment-and-reset steps |
| `Effects.IterateTest` | src/effects/test.rs:12-21 | m updates of a test effect leave it a test effect whose counter has taken m steps |
| `Effects.RainbowStepRotates` | src/effects/rainbow.rs:27-34 | under the fixed gradient, each rainbow frame is the previous frame rotated right by one pixel, whatever the other inputs |
| `Effects.RainbowRunRepeats` | src/effects/rainbow.rs:13-37 | under the fixed gradient, the rainbow's frame m + LED_SIZE equals frame m, whatever the other inputs |
| `Effects.TestRunRepeats` | src/effects/test.rs:11-23 | from any counter in [0,3], the test pattern's frame m + 4 equals frame m |
| `Helpers.Channels` | src/helpers.rs:15-17 | before the shuffle c0 is in [0,254] and c1 in [0,254-c0], a non-empty range; c2 = 255-c0-c1 is at least 1 with no u8 underflow; the three sum to 255 |
| `Helpers.Shuffle` | src/helpers.rs:19 | the in-place shuffle leaves the array equal to the Fisher-Yates result of its old contents and a permutation of them |
| `Helpers.ShuffleDownPermutes` | src/helpers.rs:19 | every sequence of shuffle steps preserves the multiset of elements |
| `Helpers.ShuffleOfThree` | src/helpers.rs:19 | on three elements the shuffle is a swap of position 2 with a draw from 0..3, then position 1 with a draw from 0..2 |
| `Helpers.GetRandomColorWithRng` | src/helpers.rs:12-21 | filling the channel array and shuffling it yields the random colour determined by the draws |
| `Helpers.RandomColorSum` | src/helpers.rs:15-20 | every random colour's three channels sum to exactly 255 |
| `Helpers.RandomColorPermutes` | src/helpers.rs:19-20 | the returned colour's channels are the three drawn channels in some order |
| `Helpers.RandomColorCovers` | src/helpers.rs:12-21 | every colour whose channels sum to 255 is produced by some draws |
| `Helpers.RandomColorRange` | src/helpers.rs:12-21 | the possible random colours are exactly the colours whose channels sum to 255 |
| `Helpers.GetRandomColor` | src/helpers.rs:6-9 | the thread-generator variant returns the same colour for the same draws, so it has the same result set, all summing to 255 |
| `Helpers.VecToLedData` | src/helpers.rs:23-27 | the conversion succeeds exactly when the length is LED_SIZE and then returns every element unchanged and in order |
| `Rainbow.RainbowEffect.constructor` | src/effects/rainbow.rs:10-12 | a new rainbow effect starts with its counter at 0 |
| `Rainbow.RainbowEffect.Update` | src/effects/rainbow.rs:13-37 | the loop builds the LED_SIZE-pixel gradient; the result is Ok of it rotated right by the old counter, always with k < len; the counter becomes (old+1) mod LED_SIZE |
| `Rainbow.RotateRight` | src/effects/rainbow.rs:27-28 | rotating right by k puts the last k elements first and the rest after them, each part in its original order |
| `Rainbow.Gradient` | src/effects/rainbow.rs:14-25 | the gradient built pixel by pixel has exactly LED_SIZE pixels |
| `Rainbow.RotateRightMoves` | src/effects/rainbow.rs:27-29 | rotating right by k moves element i to position (i+k) mod n |
| `Rainbow.RotateRightAt` | src/effects/rainbow.rs:28 | position j of the rotated frame holds the element k places to its left, wrapping around |
| `Rainbow.NextIterator` | src/effects/rainbow.rs:31-34 | the counter after an update is (old+1) mod LED_SIZE and stays below LED_SIZE |
| `Rainbow.ConsecutiveFrames` | src/effects/rainbow.rs:27-34 | each frame is the previous frame rotated right by one pixel |
| `Rainbow.IterateAdvances` | src/effects/rainbow.rs:31-34 | after m updates the counter has advanced by m modulo LED_SIZE |
| `Rainbow.Period` | src/effects/rainbow.rs:27-34 | after exactly LED_SIZE updates the counter and the frame are back at their starting values |
| `Test.TestEffect.constructor` | src/effects/test.rs:8-10 | a new test effect starts with its counter at 0 |
| `Test.TestEffect.Update` | src/effects/test.rs:11-23 | the update emits LED_SIZE copies of the colour for the old counter and moves the counter on |
| `Test.TestColor` | src/effects/test.rs:14-21 | from counter 0, 1, 2 the colour is red, green, blue; from 3 or any larger value it is white |
| `Test.TestNext` | src/effects/test.rs:12-21 | from 0, 1, 2 the counter becomes 1, 2, 3; from 3 or more it resets to 0; it is always in [0,3] |
| `Test.CycleFromStart` | src/effects/test.rs:12-21 | from a new effect, update m shows colour m mod 4 of red, green, blue, white |
| `Test.PeriodFour` | src/effects/test.rs:12-21 | from any counter in [0,3] the counter and colour repeat with period 4 |
| `Random.RandomEffect.Update` | src/effects/random.rs:13-23 | the nested block loops push exactly (LED_SIZE/BLOCK_SIZE)·BLOCK_SIZE = LED_SIZE colours, pixel k from the k-th draw, so the length assertion holds and the result is Ok |
| `Random.RandomFrameSums` | src/effects/random.rs:17-19 | every pixel of a random frame has channels summing to 255 |
| `Random.BlocksNeedNotBeUniform` | src/effects/random.rs:17-21 | any two admissible colours can be the first two pixels of one block, so blocks are not uniform |
| `Random.RandomEffect.GetConfig` | src/effects/random.rs:25-29 | the random effect declares a delay of one second |
| `Coding.ParseMode` | src/effects/coding.rs:50-57 | "n" gives Normal, "i" Insert, "v" and "V" Visual; "c" and every other string, "N" and "I" included, give Command |
| `Coding.ModeColor` | src/effects/coding.rs:59-64 | Normal is (0,0,255), Insert (0,255,0), Visual (100,0,255) and Command (255,0,0), and each of these colours belongs to that mode alone |
| `Coding.ModeColorsDistinct` | src/effects/coding.rs:59-64 | two modes have the same colour only if they are the same mode |
| `Coding.ModeFrame` | src/effects/coding.rs:59-66 | the frame is LED_SIZE copies of the mode's colour: Normal (0,0,255), Insert (0,255,0), Visual (100,0,255), Command (255,0,0) |
| `Coding.CodingEffect.Update` | src/effects/coding.rs:46-67 | the update returns Ok of the frame for the reported mode string |
| `Daemon.Encode` | src/daemon.rs:74-77 | the payload has exactly three bytes per pixel, 3·LED_SIZE for a frame |
| `Daemon.EncodeAt` | src/daemon.rs:74-77 | for pixel i = (r,g,b) the payload holds b at 3i, r at 3i+1 and g at 3i+2, in pixel order |
| `Daemon.DecodeEncode` | src/daemon.rs:74-77 | reading each byte triple back as (p[3i+1], p[3i+2], p[3i]) recovers the original frame |
| `Daemon.EncodeDecode` | src/daemon.rs:74-77 | every byte string whose length is a multiple of three is the encoding of exactly the frame decoded from it |
| `Daemon.FrameFitsUniverse` | src/daemon.rs:71-81 | a frame of LED_SIZE pixels encodes to 510 bytes, within the 512 slots of one DMX512 universe |
| `Daemon.SendData` | src/daemon.rs:70-88 | IncorrectLength and nothing sent exactly when the length is not LED_SIZE; otherwise the encoded bytes go to the library, and the result is SacnError if it refuses and Ok if it accepts |
| `Daemon.UnwrapOrBlack` | src/daemon.rs:41 | a successful update's frame passes through unchanged; a failed one is replaced by LED_SIZE black pixels |
| `Daemon.FailedUpdateSendsBlack` | src/daemon.rs:39-46 | a tick whose update failed hands 3·LED_SIZE zero bytes to the library |
| `Daemon.TickSendsWholeFrame` | src/daemon.rs:39-46 | every tick sends a well-sized frame, so the send fails only, as SacnError, when the library refuses |
| `Daemon.EffectSlot.constructor` | src/daemon.rs:25 | the shared slot is created holding exactly the starting effect |
| `Daemon.BusInterface.SetEffect` | src/daemon.rs:114-117 | the slot now holds a newly allocated effect of the requested kind in its initial state; nothing of the old effect survives |
| `Daemon.StartingKind` | src/daemon.rs:51-62 | an explicit effect argument wins; without one the test flag selects the test effect, and otherwise the rainbow |
| `Daemon.CreateEffect` | src/daemon.rs:51-62 | the starting effect is a new object of the starting kind in its initial state |
| `Daemon.StartDaemon` | src/daemon.rs:16-29 | without the lock the daemon stops; with it, one new slot holding the starting effect is shared with the command interface |
| `Daemon.Tick` | src/daemon.rs:39-46 | one tick updates the installed effect, falls back to black on failure, sends that frame, and keeps the same effect installed |
| `Daemon.RunTicks` | src/daemon.rs:38-48 | after n ticks the effect has advanced n steps; tick i sent exactly what one tick sends from the state after i updates (its bytes and verdict), never IncorrectLength, and Ok exactly when the library accepted; a failure does not stop the loop |
| `Daemon.RainbowRunResends` | src/daemon.rs:38-46 | in a run that starts on the rainbow, tick i + LED_SIZE puts the same bytes on the wire as tick i, and has the same outcome when the library decides alike |

## Left out

- Start-up orchestration in `src/main.rs` (`main`, `fork`, the tokio runtime, opening the lock file): process and filesystem I/O. The lock's outcome is the `lockAcquired` parameter of `StartDaemon`.
- The D-Bus connection and the controller process (`src/controller.rs`), including the web-status HTTPS request: inter-process and network I/O. Only the command handler's effect on the slot is modelled.
- `end_daemon` (`process::exit`): ending the process cannot be expressed as a state change.
- `Arc<Mutex<..>>` locking: its purpose is concurrency. The slot is a plain sequential object, and each tick holds it for one `update` call.
- `SacnSource` set-up, the destination address and ports, the universe registration and E1.31 packet framing: these are foreign library calls. The library's verdict is the `libraryAccepts` input.
- The 10 ms sleep of the render loop and the one-second sleep in the test effect: timing only.
- The universe number (`UNIVERSE`, 1) that the source registers and sends on: it only selects the destination on the wire, which the `libraryAccepts` verdict already covers.
- The rainbow's `f64` sine gradient: floating point. It is the `gradient` input; the `u8` type keeps every channel in [0,255].
- The editor RPC session, `find_nvim_socket` and `get_mode` in `src/effects/coding.rs`: local I/O. The mode string is an input, and the panics of `CodingEffect::new` when no socket is found are not modelled.
- All of `src/effects/typing_ripple.rs` and `src/effects/music_visualiser.rs`: device input, audio input and `f32` arithmetic.
- `Effect::register` and `Effect::unregister`: no-op defaults that no shown code calls.
- Lower-casing covers ASCII letters only. The one non-ASCII character Unicode lower-cases to an ASCII letter is KELVIN SIGN, to `k`, and no keyword contains a `k`, so the lookups decide the same way.
- Logging (`println!`) of send errors.
- `Helpers.GenRange`: the model states only that a draw lands in the half-open range and that every value of the range can be drawn. It does not model rand's uniform distribution, because probabilities are outside the model.
- `Test.TestEffect.Update`: the counter is an unbounded `nat`, so `usize` overflow on `+= 1` is not modelled. Every update leaves the counter at most 3, so overflow cannot arise from a new effect.
