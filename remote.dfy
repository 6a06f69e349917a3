/** `RemoteWidget` and `main`: the input events that reach `triggerAction`,
    the widget's toggle map, and the process lifecycle around them (open the
    device, run the user interface, close the device). Qt's event loop is a
    finite sequence of input events delivered in order. */
module Remote {
  import opened Wrappers
  import opened FlircDevice
  import opened Toggle

  /** The carrier frequency and repeat count `triggerAction` always uses. */
  const Frequency: u16 := 2300
  const Repeats: u8 := 0

  /** The mouse buttons `mousePressEvent` can see; only the middle one acts. */
  datatype MouseButton = LeftButton | RightButton | MiddleButton | OtherButton

  /** One input the widget receives: a click of the button with a label, a
      wheel turn with its vertical angle delta, or a mouse press. */
  datatype InputEvent = Clicked(name: string) | Wheel(deltaY: int) | MousePress(button: MouseButton)

  /** `wheelEvent`: a positive delta triggers "Up", a negative one "Down",
      zero nothing. */
  function WheelAction(deltaY: int): (r: Option<string>)
    ensures r == Some("Up") <==> deltaY > 0
    ensures r == Some("Down") <==> deltaY < 0
    ensures r == None <==> deltaY == 0
  {
    if deltaY > 0 then Some("Up")
    else if deltaY < 0 then Some("Down")
    else None
  }

  /** `mousePressEvent`: the middle button triggers "Select", every other
      button nothing. */
  function MousePressAction(button: MouseButton): (r: Option<string>)
    ensures r == Some("Select") <==> button == MiddleButton
    ensures r == None <==> button != MiddleButton
  {
    if button == MiddleButton then Some("Select") else None
  }

  /** The actions one input event triggers, in order (none or one). */
  function Actions(event: InputEvent): seq<string> {
    match event
    case Clicked(name) => [name]
    case Wheel(deltaY) => WheelAction(deltaY).ToSeq()
    case MousePress(button) => MousePressAction(button).ToSeq()
  }

  /** The actions a sequence of input events triggers, in order. */
  function Triggered(events: seq<InputEvent>): seq<string>
    decreases |events|
  {
    if events == [] then []
    else Triggered(events[..|events| - 1]) + Actions(events[|events| - 1])
  }

  /** The transmit call `triggerAction` makes for a selected sequence. */
  function Outgoing(code: seq<u16>): Transmission {
    Transmission(code, NarrowLength(|code|), Frequency, Repeats)
  }

  /** The transmit calls for selected sequences, one each, in order. */
  function Wire(codes: seq<seq<u16>>): seq<Transmission> {
    seq(|codes|, i requires 0 <= i < |codes| => Outgoing(codes[i]))
  }

  /** What reaches the vendor library: nothing while the handle is negative. */
  function Submitted(device: int, codes: seq<seq<u16>>): seq<Transmission> {
    if device < 0 then [] else Wire(codes)
  }

  /** The transmit calls for a concatenation are the concatenated calls. */
  lemma WireConcat(xs: seq<seq<u16>>, ys: seq<seq<u16>>)
    ensures Wire(xs + ys) == Wire(xs) + Wire(ys)
  {
  }

  /** Every transmit `triggerAction` submits from a well-formed table uses the
      carrier 2300 Hz, no repeats, and the untruncated length of its data. */
  lemma TransmissionsUseFixedCarrier(codes: map<string, CodePair>, state: map<string, int>, actions: seq<string>)
    requires WellFormed(codes)
    ensures forall t :: t in Wire(SentAfter(codes, state, actions)) ==>
      t.frequency == 2300 && t.repeats == 0 && t.len as int == |t.code| && Transmittable(t.code)
  {
    SentIsTransmittable(codes, state, actions);
  }

  /** The widget: a read-only code table, the toggle map, and the global
      device session that `sendIRCode` uses. */
  class RemoteWidget {
    const irCodes: map<string, CodePair>
    var globalState: map<string, int>
    const session: DeviceSession

    /** Every flag the widget has recorded is 0 or 1. */
    ghost predicate Valid()
      reads this
    {
      Binary(globalState)
    }

    constructor (session: DeviceSession, codes: map<string, CodePair>)
      ensures Valid()
      ensures this.session == session && irCodes == codes && globalState == map[]
    {
      this.session := session;
      irCodes := codes;
      globalState := map[];
    }

    /** `triggerAction`: for a catalogued action, flip its flag, then send
        `.first` if the new flag is 0 and `.second` otherwise, at 2300 Hz with
        no repeats; an unknown action does nothing. `driverResult` is what the
        vendor answers to a transmit, and `report` what the background task
        reports on it. */
    method TriggerAction(action: string, driverResult: int) returns (report: Option<Report>)
      requires Valid()
      modifies this`globalState, session`log
      ensures Valid()
      ensures globalState == StateAfter(irCodes, old(globalState), [action])
      ensures session.log == old(session.log) + Submitted(session.device, SentAfter(irCodes, old(globalState), [action]))
      ensures report.Some? <==> action in irCodes && session.device >= 0
      ensures report.Some? ==> report.value == CompletionReport(driverResult)
    {
      assert [action][..0] == [];
      report := None;
      if action in irCodes {
        var state := if action in globalState then globalState[action] else 0;
        globalState := globalState[action := 1 - state];
        var code := if globalState[action] == 0 then irCodes[action].first else irCodes[action].second;
        report := session.SendIRCode(code, Frequency, Repeats, driverResult);
      }
    }

    /** `buttonClicked`: the button's label goes straight to `triggerAction`. */
    method ButtonClicked(action: string, driverResult: int) returns (report: Option<Report>)
      requires Valid()
      modifies this`globalState, session`log
      ensures Valid()
      ensures globalState == StateAfter(irCodes, old(globalState), Actions(Clicked(action)))
      ensures session.log == old(session.log) + Submitted(session.device, SentAfter(irCodes, old(globalState), Actions(Clicked(action))))
      ensures report.Some? <==> |session.log| == |old(session.log)| + 1
      ensures report.Some? ==> report.value == CompletionReport(driverResult)
    {
      report := TriggerAction(action, driverResult);
    }

    /** `wheelEvent`: scrolling up triggers "Up", down "Down". */
    method WheelEvent(deltaY: int, driverResult: int) returns (report: Option<Report>)
      requires Valid()
      modifies this`globalState, session`log
      ensures Valid()
      ensures globalState == StateAfter(irCodes, old(globalState), Actions(Wheel(deltaY)))
      ensures session.log == old(session.log) + Submitted(session.device, SentAfter(irCodes, old(globalState), Actions(Wheel(deltaY))))
      ensures report.Some? <==> |session.log| == |old(session.log)| + 1
      ensures report.Some? ==> report.value == CompletionReport(driverResult)
    {
      report := None;
      if deltaY > 0 {
        report := TriggerAction("Up", driverResult);
      } else if deltaY < 0 {
        report := TriggerAction("Down", driverResult);
      }
    }

    /** `mousePressEvent`: a middle click triggers "Select". */
    method MousePressEvent(button: MouseButton, driverResult: int) returns (report: Option<Report>)
      requires Valid()
      modifies this`globalState, session`log
      ensures Valid()
      ensures globalState == StateAfter(irCodes, old(globalState), Actions(MousePress(button)))
      ensures session.log == old(session.log) + Submitted(session.device, SentAfter(irCodes, old(globalState), Actions(MousePress(button))))
      ensures report.Some? <==> |session.log| == |old(session.log)| + 1
      ensures report.Some? ==> report.value == CompletionReport(driverResult)
    {
      report := None;
      if button == MiddleButton {
        report := TriggerAction("Select", driverResult);
      }
    }

    /** Qt's event loop routing one input event to the handler for it. */
    method Dispatch(event: InputEvent, driverResult: int) returns (report: Option<Report>)
      requires Valid()
      modifies this`globalState, session`log
      ensures Valid()
      ensures globalState == StateAfter(irCodes, old(globalState), Actions(event))
      ensures session.log == old(session.log) + Submitted(session.device, SentAfter(irCodes, old(globalState), Actions(event)))
      ensures report.Some? <==> |session.log| == |old(session.log)| + 1
      ensures report.Some? ==> report.value == CompletionReport(driverResult)
    {
      match event {
        case Clicked(name) => report := ButtonClicked(name, driverResult);
        case Wheel(deltaY) => report := WheelEvent(deltaY, driverResult);
        case MousePress(button) => report := MousePressEvent(button, driverResult);
      }
    }
  }

  /** Delivering event `i` after the first `i` events: the flags thread
      through and the transmit calls concatenate. */
  lemma DeliverOneMore(codes: map<string, CodePair>, events: seq<InputEvent>, i: nat)
    requires i < |events|
    ensures StateAfter(codes, map[], Triggered(events[..i + 1]))
         == StateAfter(codes, StateAfter(codes, map[], Triggered(events[..i])), Actions(events[i]))
    ensures Wire(SentAfter(codes, map[], Triggered(events[..i + 1])))
         == Wire(SentAfter(codes, map[], Triggered(events[..i])))
            + Wire(SentAfter(codes, StateAfter(codes, map[], Triggered(events[..i])), Actions(events[i])))
  {
    var done, now := Triggered(events[..i]), Actions(events[i]);
    assert events[..i + 1][..i] == events[..i];
    assert Triggered(events[..i + 1]) == done + now;
    StateAfterConcat(codes, map[], done, now);
    SentAfterConcat(codes, map[], done, now);
    WireConcat(SentAfter(codes, map[], done), SentAfter(codes, StateAfter(codes, map[], done), now));
  }

  /** `main` around the table it builds (`codes`): open the device (exit
      code -1 and no window when that fails), deliver `events` to the widget,
      then close the device and return what the event loop returned.
      `vendor[i]` is what the vendor answers to a transmit of event `i`.
      `transmitted` is every call of the transmit primitive and `closes` every
      call of the close primitive. */
  method RunApplication(codes: map<string, CodePair>, openResult: int, events: seq<InputEvent>, vendor: seq<int>, execResult: int)
    returns (exitCode: int, transmitted: seq<Transmission>, closes: nat)
    requires |vendor| == |events|
    ensures openResult < 0 ==> exitCode == -1 && transmitted == [] && closes == 0
    ensures openResult >= 0 ==> exitCode == execResult && closes == 1
    ensures openResult >= 0 ==> transmitted == Wire(SentAfter(codes, map[], Triggered(events)))
  {
    var session := new DeviceSession();
    var ok := session.InitializeDevice(openResult);
    if !ok {
      return -1, session.log, session.closeCalls;
    }
    var window := new RemoteWidget(session, codes);
    var i := 0;
    while i < |events|
      invariant 0 <= i <= |events|
      invariant window.Valid() && window.session == session && window.irCodes == codes
      invariant session.device == openResult && session.closeCalls == 0
      invariant window.globalState == StateAfter(codes, map[], Triggered(events[..i]))
      invariant session.log == Wire(SentAfter(codes, map[], Triggered(events[..i])))
    {
      var report := window.Dispatch(events[i], vendor[i]);
      DeliverOneMore(codes, events, i);
      i := i + 1;
    }
    assert events[..|events|] == events;
    session.CloseDevice();
    return execResult, session.log, session.closeCalls;
  }
}
