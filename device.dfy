/** The process-wide Flirc device handle and the transmit path of `sendIRCode`.
    The vendor primitives (`fl_open_device`, `fl_transmit_raw`, `fl_close_device`)
    are foreign: their results are parameters, and every call of the transmit
    primitive is recorded in a log instead of reaching hardware. */
module FlircDevice {
  import opened Wrappers

  /** C++ `uint16_t` and `uint8_t`. */
  newtype u16 = x: int | 0 <= x < 0x1_0000
  newtype u8 = x: int | 0 <= x < 0x100

  /** The arguments of one call of `fl_transmit_raw`: the pulse data, the
      length as narrowed to `uint16_t`, the carrier frequency and the repeats. */
  datatype Transmission = Transmission(code: seq<u16>, len: u16, frequency: u16, repeats: u8)

  /** What the background task reports once the vendor transmit returns. */
  datatype Report = TransmitFailed | TransmitSucceeded

  /** `uint16_t len = code.size();` -- the implicit narrowing of a `size_t`. */
  function NarrowLength(n: nat): (r: u16)
    ensures n < 0x1_0000 ==> r as int == n
    ensures r as int <= n
  {
    (n % 0x1_0000) as u16
  }

  /** The report of the background task for the vendor's result: a negative
      result is a failure, anything else a success; there is no retry. */
  function CompletionReport(driverResult: int): (r: Report)
    ensures r == TransmitFailed <==> driverResult < 0
  {
    if driverResult < 0 then TransmitFailed else TransmitSucceeded
  }

  /** The global `device` handle together with what the vendor library has
      been asked to do so far. */
  class DeviceSession {
    /** The handle; negative means "not open". */
    var device: int
    /** Every `fl_transmit_raw` call, in submission order. */
    var log: seq<Transmission>
    /** How many times `fl_close_device` has been called. */
    var closeCalls: nat

    /** `int device = -1;` at program start. */
    constructor ()
      ensures device == -1 && log == [] && closeCalls == 0
    {
      device := -1;
      log := [];
      closeCalls := 0;
    }

    /** `initializeDevice`: the handle becomes whatever the open primitive
        returned, and success means that result is not negative. */
    method InitializeDevice(openResult: int) returns (ok: bool)
      modifies this`device
      ensures device == openResult
      ensures ok <==> device >= 0
    {
      device := openResult;
      if device < 0 {
        return false;
      }
      return true;
    }

    /** `closeDevice`: only an open handle is closed (one call of the close
        primitive, then -1); otherwise nothing at all happens. */
    method CloseDevice()
      modifies this`device, this`closeCalls
      ensures device < 0
      ensures old(device) >= 0 ==> device == -1 && closeCalls == old(closeCalls) + 1
      ensures old(device) < 0 ==> device == old(device) && closeCalls == old(closeCalls)
    {
      if device >= 0 {
        closeCalls := closeCalls + 1;
        device := -1;
      }
    }

    /** `sendIRCode`: refuses while the handle is negative; otherwise submits
        exactly one transmit of `code` with its narrowed length, whatever the
        vendor answers (`driverResult`): there is no retry. The asynchronous
        task is modelled as an atomic append to `log`, and the task's report
        on the vendor's answer is returned. */
    method SendIRCode(code: seq<u16>, frequency: u16, repeats: u8, driverResult: int) returns (report: Option<Report>)
      modifies this`log
      ensures report.None? <==> device < 0
      ensures report.Some? ==> report.value == CompletionReport(driverResult)
      ensures device >= 0 ==> log == old(log) + [Transmission(code, NarrowLength(|code|), frequency, repeats)]
      ensures device < 0 ==> log == old(log)
    {
      if device < 0 {
        return None;
      }
      log := log + [Transmission(code, NarrowLength(|code|), frequency, repeats)];
      return Some(CompletionReport(driverResult));
    }
  }

  /** Closing twice: the close primitive runs at most once and the handle ends
      negative, whatever `fl_open_device` returned. */
  method CloseTwice(openResult: int) returns (handle: int, closes: nat)
    ensures handle < 0
    ensures openResult >= 0 ==> handle == -1 && closes == 1
    ensures openResult < 0 ==> handle == openResult && closes == 0
  {
    var session := new DeviceSession();
    var ok := session.InitializeDevice(openResult);
    session.CloseDevice();
    session.CloseDevice();
    handle, closes := session.device, session.closeCalls;
  }
}
