/**
 * The background process: the shared effect slot, the remote "set effect"
 * command, the render tick and the frame encoder.
 *
 * The frame bytes become the DMX512 slot data that sACN (ANSI E1.31) carries;
 * the packet framing and socket belong to the sACN library, whose outcome is
 * the input `libraryAccepts`.
 */
module Daemon {
  import opened Led
  import opened Cli
  import opened Effects
  import Test

  /** Slots available in one DMX512 universe. */
  const DMX_SLOTS: nat := 512

  datatype SendDataErr = IncorrectLength | SacnError

  /**
   * What `send_data` reports, together with the bytes it handed to the sACN
   * library (`None` when it returned before sending).
   */
  datatype SendOutcome = SendOutcome(result: Result<(), SendDataErr>, payload: Option<seq<u8>>)

  /** Flattens each pixel (r, g, b) into the wire bytes b, r, g, in pixel order. */
  function Encode(data: LedData): (p: seq<u8>)
    ensures |p| == 3 * |data|
  {
    if data == [] then [] else [data[0].b, data[0].r, data[0].g] + Encode(data[1..])
  }

  /** Pixel i occupies bytes 3i, 3i+1, 3i+2 as blue, red, green. */
  lemma {:induction false} EncodeAt(data: LedData, i: nat)
    requires i < |data|
    ensures Encode(data)[3 * i] == data[i].b
    ensures Encode(data)[3 * i + 1] == data[i].r
    ensures Encode(data)[3 * i + 2] == data[i].g
  {
    if i > 0 {
      EncodeAt(data[1..], i - 1);
    }
  }

  /** Reads the wire bytes back: each triple (b, r, g) is the pixel (r, g, b). */
  function Decode(p: seq<u8>): (data: LedData)
    requires |p| % 3 == 0
    ensures 3 * |data| == |p|
  {
    if p == [] then [] else [Color(p[1], p[2], p[0])] + Decode(p[3..])
  }

  lemma {:induction false} DecodeEncode(data: LedData)
    ensures Decode(Encode(data)) == data
  {
    if data != [] {
      assert Encode(data)[3..] == Encode(data[1..]);
      DecodeEncode(data[1..]);
    }
  }

  lemma {:induction false} EncodeDecode(p: seq<u8>)
    requires |p| % 3 == 0
    ensures Encode(Decode(p)) == p
  {
    if p != [] {
      assert Decode(p)[1..] == Decode(p[3..]);
      EncodeDecode(p[3..]);
    }
  }

  /** A frame of LED_SIZE pixels fills 510 of the 512 slots of one universe. */
  lemma FrameFitsUniverse(data: LedData)
    requires IsFrame(data)
    ensures |Encode(data)| == 3 * LED_SIZE <= DMX_SLOTS
  {
  }

  /**
   * `send_data`: refuses a frame of the wrong length without sending anything;
   * otherwise hands the encoded bytes to the library and reports its verdict.
   */
  function SendData(data: LedData, libraryAccepts: bool): (o: SendOutcome)
    ensures o.result == Err(IncorrectLength) <==> !IsFrame(data)
    ensures !IsFrame(data) ==> o.payload.None?
    ensures IsFrame(data) ==> o.payload == Some(Encode(data))
    ensures o.result == Err(SacnError) <==> IsFrame(data) && !libraryAccepts
    ensures o.result == Ok(()) <==> IsFrame(data) && libraryAccepts
  {
    if |data| != LED_SIZE then
      SendOutcome(Err(IncorrectLength), None)
    else
      var bytes := Encode(data);
      if !libraryAccepts then SendOutcome(Err(SacnError), Some(bytes))
      else SendOutcome(Ok(()), Some(bytes))
  }

  /** `update().unwrap_or(...)`: a failed update stands for an all-black frame. */
  function UnwrapOrBlack(r: Result<LedData, EffectError>): (data: LedData)
    ensures r.Ok? ==> data == r.value
    ensures r.Err? ==> IsFrame(data) && forall i :: 0 <= i < |data| ==> data[i] == Black
  {
    if r.Ok? then r.value else Fill(Black)
  }

  /** A tick whose update failed puts 3 * LED_SIZE zero bytes on the wire. */
  lemma FailedUpdateSendsBlack(e: EffectError, libraryAccepts: bool)
    ensures SendData(UnwrapOrBlack(Err(e)), libraryAccepts).payload
         == Some(seq(3 * LED_SIZE, _ => 0 as u8))
  {
    var data := UnwrapOrBlack(Err(e));
    var p := Encode(data);
    var zeros := seq(3 * LED_SIZE, _ => 0 as u8);
    forall j | 0 <= j < 3 * LED_SIZE ensures p[j] == zeros[j] {
      var i := j / 3;
      assert j == 3 * i || j == 3 * i + 1 || j == 3 * i + 2;
      EncodeAt(data, i);
    }
    assert p == zeros;
  }

  /**
   * Every tick of the daemon sends a frame of the right length, so its send
   * fails only when the library does.
   */
  lemma TickSendsWholeFrame(s: EffectState, gradient: nat -> Color, inputs: Inputs, libraryAccepts: bool)
    requires StateValid(s)
    ensures var o := SendData(UnwrapOrBlack(Output(s, gradient, inputs)), libraryAccepts);
      && o.result != Err(IncorrectLength)
      && (o.result == Ok(()) <==> libraryAccepts)
      && o.payload.Some? && |o.payload.value| == 3 * LED_SIZE
  {
    OutputIsFrame(s, gradient, inputs);
  }

  /** The mutex-guarded holder of the one live effect. */
  class EffectSlot {
    var effect: EffectBox

    constructor (b: EffectBox)
      ensures effect == b
    {
      effect := b;
    }

    function Object(): object
      reads this
    {
      ObjectOf(effect)
    }

    predicate Valid()
      reads this, Object()
    {
      BoxValid(effect)
    }

    function State(): EffectState
      reads this, Object()
    {
      StateOf(effect)
    }
  }

  /** The remote command interface; it shares the slot with the render loop. */
  class BusInterface {
    const slot: EffectSlot

    constructor (slot: EffectSlot)
      ensures this.slot == slot
    {
      this.slot := slot;
    }

    /** Replaces the installed effect by a new one of kind k; nothing of the old one survives. */
    method SetEffect(k: ClientType)
      modifies slot
      ensures slot.Valid() && fresh(slot.Object())
      ensures slot.State() == InitialState(k)
    {
      var b := IntoEffect(k);
      slot.effect := b;
    }
  }

  /** The kind of effect the daemon starts with. */
  function StartingKind(args: Args): (k: ClientType)
    ensures args.effect.Some? ==> k == args.effect.value
    ensures args.effect.None? ==> (k == TestEffect <==> args.test)
    ensures args.effect.None? ==> k == TestEffect || k == RainbowEffect
  {
    match args.effect
    case Some(kind) => kind
    case None => if args.test then TestEffect else RainbowEffect
  }

  /** `create_effect`: an explicit effect wins, then the test flag, then the rainbow. */
  method CreateEffect(args: Args) returns (b: EffectBox)
    ensures fresh(ObjectOf(b)) && BoxValid(b)
    ensures StateOf(b) == InitialState(StartingKind(args))
  {
    match args.effect {
      case Some(kind) =>
        b := IntoEffect(kind);
      case None =>
        if args.test {
          var e := new Test.TestEffect();
          b := TestBox(e);
        } else {
          b := IntoEffect(RainbowEffect);
        }
    }
  }

  /**
   * Daemon start-up: without the single-instance lock it stops; otherwise it
   * builds the starting effect and shares one slot with the command interface.
   */
  method StartDaemon(args: Args, lockAcquired: bool) returns (bus: Option<BusInterface>)
    ensures bus.None? <==> !lockAcquired
    ensures bus.Some? ==> fresh(bus.value) && fresh(bus.value.slot) && fresh(bus.value.slot.Object())
    ensures bus.Some? ==> bus.value.slot.Valid()
    ensures bus.Some? ==> bus.value.slot.State() == InitialState(StartingKind(args))
  {
    if !lockAcquired {
      return None;
    }
    var b := CreateEffect(args);
    var slot := new EffectSlot(b);
    var iface := new BusInterface(slot);
    bus := Some(iface);
  }

  /**
   * One pass of the render loop: update the installed effect under the lock,
   * fall back to black on failure, send the frame. A send error is only
   * reported; nothing else depends on it.
   */
  method Tick(slot: EffectSlot, gradient: nat -> Color, inputs: Inputs, libraryAccepts: bool)
    returns (data: LedData, outcome: SendOutcome)
    requires slot.Valid()
    modifies slot.Object()
    ensures slot.effect == old(slot.effect) && slot.Valid()
    ensures slot.State() == NextState(old(slot.State()))
    ensures data == UnwrapOrBlack(Output(old(slot.State()), gradient, inputs))
    ensures outcome == SendData(data, libraryAccepts)
  {
    var r := Update(slot.effect, gradient, inputs);
    data := UnwrapOrBlack(r);
    outcome := SendData(data, libraryAccepts);
  }

  /** Tick i of a run from state `start` sent what `Tick` sends from the state after i updates. */
  ghost predicate SentAt(start: EffectState, gradient: nat -> Color, schedule: seq<(Inputs, bool)>,
                         outcomes: seq<SendOutcome>, i: nat)
    requires StateValid(start) && i < |schedule| && i < |outcomes|
  {
    outcomes[i] == SendData(UnwrapOrBlack(Output(Iterate(start, i), gradient, schedule[i].0)), schedule[i].1)
  }

  /** Appending tick n's outcome keeps the earlier ticks' records and records tick n. */
  lemma SentAtAppend(start: EffectState, gradient: nat -> Color, schedule: seq<(Inputs, bool)>,
                     outcomes: seq<SendOutcome>, outcome: SendOutcome)
    requires StateValid(start) && |outcomes| < |schedule|
    requires forall i :: 0 <= i < |outcomes| ==> SentAt(start, gradient, schedule, outcomes, i)
    requires outcome == SendData(UnwrapOrBlack(Output(Iterate(start, |outcomes|), gradient, schedule[|outcomes|].0)),
                                 schedule[|outcomes|].1)
    ensures forall i :: 0 <= i <= |outcomes| ==> SentAt(start, gradient, schedule, outcomes + [outcome], i)
  {
    var extended := outcomes + [outcome];
    forall i | 0 <= i <= |outcomes| ensures SentAt(start, gradient, schedule, extended, i) {
      if i < |outcomes| {
        assert SentAt(start, gradient, schedule, outcomes, i);
        assert extended[i] == outcomes[i];
      }
    }
  }

  /**
   * In a run that starts on the rainbow, tick i + LED_SIZE sends the same bytes
   * as tick i, and reports the same result when the library decides alike.
   */
  lemma RainbowRunResends(start: EffectState, gradient: nat -> Color, schedule: seq<(Inputs, bool)>,
                          outcomes: seq<SendOutcome>, i: nat)
    requires start.RainbowState? && StateValid(start)
    requires i + LED_SIZE < |schedule| && |outcomes| == |schedule|
    requires SentAt(start, gradient, schedule, outcomes, i)
    requires SentAt(start, gradient, schedule, outcomes, i + LED_SIZE)
    ensures outcomes[i + LED_SIZE].payload == outcomes[i].payload
    ensures schedule[i + LED_SIZE].1 == schedule[i].1 ==> outcomes[i + LED_SIZE] == outcomes[i]
  {
    RainbowRunRepeats(start.iter, i, gradient, schedule[i].0, schedule[i + LED_SIZE].0);
  }

  /**
   * The first |schedule| passes of the render loop, each with its own inputs
   * and library verdict; the rainbow's gradient is the same on every pass.
   */
  method RunTicks(slot: EffectSlot, gradient: nat -> Color, schedule: seq<(Inputs, bool)>)
    returns (outcomes: seq<SendOutcome>)
    requires slot.Valid()
    modifies slot.Object()
    ensures slot.effect == old(slot.effect) && slot.Valid()
    ensures StateValid(old(slot.State()))
    ensures slot.State() == Iterate(old(slot.State()), |schedule|)
    ensures |outcomes| == |schedule|
    ensures forall i :: 0 <= i < |schedule| ==> SentAt(old(slot.State()), gradient, schedule, outcomes, i)
    ensures forall i :: 0 <= i < |schedule| ==>
      outcomes[i].result != Err(IncorrectLength) && (outcomes[i].result == Ok(()) <==> schedule[i].1)
  {
    ghost var start := slot.State();
    outcomes := [];
    var n := 0;
    while n < |schedule|
      invariant 0 <= n <= |schedule|
      invariant slot.effect == old(slot.effect) && slot.Valid()
      invariant StateValid(start) && slot.State() == Iterate(start, n)
      invariant |outcomes| == n
      invariant forall i :: 0 <= i < n ==> SentAt(start, gradient, schedule, outcomes, i)
      invariant forall i :: 0 <= i < n ==>
        outcomes[i].result != Err(IncorrectLength) && (outcomes[i].result == Ok(()) <==> schedule[i].1)
    {
      ghost var before := slot.State();
      var data, outcome := Tick(slot, gradient, schedule[n].0, schedule[n].1);
      TickSendsWholeFrame(before, gradient, schedule[n].0, schedule[n].1);
      SentAtAppend(start, gradient, schedule, outcomes, outcome);
      outcomes := outcomes + [outcome];
      n := n + 1;
    }
  }
}
