/**
  The serial sensor-frame recogniser of main.c (`sensorReadingReceiveHandler`) and the
  telemetry cache it publishes into.

  The attached microcontroller sends lines of the form
  `[\r\n]sensors:temp=<f>,humi=<f>,pres=<f>,alti=<f>:`. One iteration of the handler's
  endless loop reads at most `readSize` bytes into a 128-byte buffer, drops reads that are
  not longer than the `sensors:` mark, skips a leading CR LF (and then shrinks `readSize`
  by two for good), checks the mark, scans backwards from `readSize - 1` for the closing
  `:`, overwrites it with NUL, scans the four floats and publishes them.
*/
module SensorFrame {
  import opened CString

  /** A C `float`, kept as its IEEE-754 bit pattern: the model never computes with it. */
  type Float32 = bv32

  const ReadBufMax: int := 128
  const InitialReadSize: int := 64
  const SensorMark: string := "sensors:"

  /** The four floats of one frame, in the order the frame lists them. */
  datatype Reading = Reading(temperature: Float32, humidity: Float32, pressure: Float32, altitude: Float32)

  /** The shared cache: `lastTemperature` .. `lastAltitude` and `sensorReadingFromArduino`. */
  datatype CacheState = CacheState(last: Reading, fromArduino: bool)

  /** Everything one iteration reads or writes: the read buffer, the persistent `readSize`,
      the handler's own `temp`/`humi`/`pres`/`alti` (they outlive the iteration) and the cache. */
  datatype ReceiverState = ReceiverState(buf: seq<char>, readSize: int, scanned: Reading, cache: CacheState)

  /** What `read(fd, readBuf, readSize)` does: fail (-1), or deliver bytes, of which it
      takes at most `readSize`. */
  datatype ReadEvent = ReadFailed | ReadBytes(bytes: seq<char>)

  /** `sscanf(p, "sensors:temp=%f,humi=%f,pres=%f,alti=%f", ...)`: the values it converted, in
      order, before it stopped. Floating-point parsing itself is not modelled. */
  type Scanner = seq<char> -> seq<Float32>

  /** The bounds that keep every index of the handler inside `readBuf`. */
  predicate ReceiverInvariant(s: ReceiverState) {
    |s.buf| == ReadBufMax && |SensorMark| <= s.readSize <= InitialReadSize && s.readSize % 2 == 0
  }

  /** `readLen`, the value `read` returns. */
  function ReadLength(ev: ReadEvent, readSize: nat): (n: int)
    ensures -1 <= n <= readSize
    ensures n == -1 <==> ev.ReadFailed?
  {
    match ev
    case ReadFailed => -1
    case ReadBytes(b) => if |b| < readSize then |b| else readSize
  }

  /** The bytes `read` stores at the start of the buffer. */
  function Delivered(ev: ReadEvent, readSize: nat): (d: seq<char>)
    ensures |d| <= readSize
    ensures ev.ReadBytes? ==> |d| == ReadLength(ev, readSize) && d == ev.bytes[..|d|]
    ensures ev.ReadFailed? ==> d == []
  {
    match ev
    case ReadFailed => []
    case ReadBytes(b) => b[..ReadLength(ev, readSize)]
  }

  /** The buffer after a read: the delivered bytes, then whatever earlier reads left behind. */
  function AfterRead(buf: seq<char>, d: seq<char>): (r: seq<char>)
    requires |d| <= |buf|
    ensures |r| == |buf| && r[..|d|] == d && r[|d|..] == buf[|d|..]
  {
    d + buf[|d|..]
  }

  /** The length guard, as it is evidently meant: a signed comparison, so a failed read (-1)
      is dropped like any other short read. */
  predicate AcceptsRead(readLen: int) {
    readLen > |SensorMark|
  }

  /** The length guard as written at main.c:194: C converts `readLen` (an `ssize_t`) to
      `size_t` before comparing it with `strlen(sensormark)`. */
  predicate AcceptsReadAsWritten(readLen: int) {
    SizeT(readLen) > |SensorMark|
  }

  /** The two guards agree on every length a successful read can return. */
  lemma GuardsAgreeOnSuccessfulReads(readLen: int)
    requires 0 <= readLen < 0x1_0000_0000
    ensures AcceptsReadAsWritten(readLen) == AcceptsRead(readLen)
  {
  }

  /** A failed read passes the guard as written, and is dropped by the intended one. */
  lemma ReadErrorPassesGuardAsWritten()
    ensures AcceptsReadAsWritten(-1) && !AcceptsRead(-1)
  {
    assert SizeT(-1) == 0xFFFF_FFFF;
  }

  /** The new `readSize` as written: after a failed read the guard still lets stale buffer
      contents through, so a leftover CR LF shrinks `readSize` even when it is already 8. */
  function ReadSizeAfterAsWritten(readSize: int, readLen: int, buf: seq<char>): int
    requires |buf| >= 2
  {
    if AcceptsReadAsWritten(readLen) && buf[0] == '\r' && buf[1] == '\n' then SizeT(readSize - 2) else readSize
  }

  /** The input that shows it: `readSize` is 8, the read fails, and the buffer still starts
      with CR LF. `readSize` becomes 6, so the backward scan would start at `p[5]`, below the
      mark's own `:` at `p[7]`, and nothing stops it before the start of the buffer. */
  lemma StaleCrLfShrinksReadSizeAsWritten(buf: seq<char>)
    requires |buf| == ReadBufMax && buf[0] == '\r' && buf[1] == '\n'
    ensures ReadSizeAfterAsWritten(|SensorMark|, -1, buf) == 6 < |SensorMark|
  {
    ReadErrorPassesGuardAsWritten();
  }

  predicate StartsWithCrLf(buf: seq<char>)
    requires |buf| >= 2
  {
    buf[0] == '\r' && buf[1] == '\n'
  }

  /** Where the frame starts: `p` is `readBuf + 2` after a CR LF, else `readBuf`. */
  function FrameOffset(buf: seq<char>): (off: nat)
    requires |buf| >= 2
    ensures off == 0 || off == 2
    ensures off == 2 <==> StartsWithCrLf(buf)
  {
    if StartsWithCrLf(buf) then 2 else 0
  }

  /** The backward scan `while (p[index] != ':') index--;` started at `from`: it ends at the
      last `:` at or below `from`, and never below the mark's own `:` at index 7. */
  function LastColon(p: seq<char>, from: int): (k: int)
    requires |SensorMark| - 1 <= from < |p| && p[|SensorMark| - 1] == ':'
    ensures |SensorMark| - 1 <= k <= from && p[k] == ':'
    ensures forall j :: k < j <= from ==> p[j] != ':'
    decreases from
  {
    if p[from] == ':' then from else LastColon(p, from - 1)
  }

  /** What the local `temp`, `humi`, `pres`, `alti` hold after `sscanf`: the converted values
      replace the first ones, the others keep what an earlier iteration (or nothing) left. */
  function ApplyScan(prev: Reading, vals: seq<Float32>): (r: Reading)
    ensures |vals| == 0 ==> r == prev
    ensures r.temperature == if |vals| > 0 then vals[0] else prev.temperature
    ensures r.humidity == if |vals| > 1 then vals[1] else prev.humidity
    ensures r.pressure == if |vals| > 2 then vals[2] else prev.pressure
    ensures r.altitude == if |vals| > 3 then vals[3] else prev.altitude
  {
    Reading(if |vals| > 0 then vals[0] else prev.temperature,
            if |vals| > 1 then vals[1] else prev.humidity,
            if |vals| > 2 then vals[2] else prev.pressure,
            if |vals| > 3 then vals[3] else prev.altitude)
  }

  /** The frame was recognised in this iteration: long enough, and the mark matched. */
  predicate Recognises(s: ReceiverState, ev: ReadEvent)
    requires ReceiverInvariant(s)
  {
    var buf := AfterRead(s.buf, Delivered(ev, s.readSize));
    AcceptsRead(ReadLength(ev, s.readSize)) && MarkAt(buf, FrameOffset(buf))
  }

  /** `readSize` after the optional CR LF skip (main.c:199, never undone). */
  function SizeAfterSkip(readSize: int, buf: seq<char>): int
    requires |buf| >= 2
  {
    if StartsWithCrLf(buf) then readSize - 2 else readSize
  }

  predicate MarkAt(buf: seq<char>, off: nat)
    requires off + |SensorMark| <= |buf|
  {
    buf[off..off + |SensorMark|] == SensorMark
  }

  /** The buffer index of the `:` the backward scan stops on, for a frame at `off` whose
      scan starts at `p[size - 1]`. */
  function ClosingColon(buf: seq<char>, off: nat, size: int): int
    requires off <= 2 && |SensorMark| <= size && off + size <= |buf| && MarkAt(buf, off)
  {
    assert buf[off..][|SensorMark| - 1] == buf[off..off + |SensorMark|][|SensorMark| - 1];
    off + LastColon(buf[off..], size - 1)
  }

  /** The scan stops on the last `:` of the frame at or below `p[size - 1]`, and never before
      the mark's own `:`. */
  lemma ClosingColonIsLast(buf: seq<char>, off: nat, size: int)
    requires off <= 2 && |SensorMark| <= size && off + size <= |buf| && MarkAt(buf, off)
    ensures var c := ClosingColon(buf, off, size);
            && off + |SensorMark| - 1 <= c < off + size && buf[c] == ':'
            && forall a :: c < a < off + size ==> buf[a] != ':'
  {
    var c := ClosingColon(buf, off, size);
    assert buf[c] == buf[off..][c - off];
    forall a | c < a < off + size
      ensures buf[a] != ':'
    {
      assert buf[a] == buf[off..][a - off];
    }
  }

  /** The branch of a recognised frame: NUL over the closing `:`, `sscanf` on the frame, and
      the four values and the flag published together. */
  function Publish(buf: seq<char>, off: nat, size: int, prev: Reading, scan: Scanner): (r: ReceiverState)
    requires |buf| == ReadBufMax && off <= 2 && |SensorMark| <= size <= InitialReadSize
    requires MarkAt(buf, off)
    ensures r.readSize == size && |r.buf| == |buf|
  {
    var marked := buf[ClosingColon(buf, off, size) := Nul];
    var vals := ApplyScan(prev, scan(CStr(marked[off..])));
    ReceiverState(marked, size, vals, CacheState(vals, true))
  }

  /** What the loop body does with the bytes once the length guard has let them through: the
      optional CR LF skip, the mark, and the recognised frame. */
  function Accepted(s: ReceiverState, scan: Scanner): (r: ReceiverState)
    requires ReceiverInvariant(s) && (StartsWithCrLf(s.buf) ==> |SensorMark| < s.readSize)
    ensures ReceiverInvariant(r)
  {
    var off := FrameOffset(s.buf);
    var size := SizeAfterSkip(s.readSize, s.buf);
    if !MarkAt(s.buf, off) then s.(readSize := size)
    else Publish(s.buf, off, size, s.scanned, scan)
  }

  /** What the loop body does with the bytes once they are in the buffer, under the intended
      (signed) length guard. */
  function Processed(s: ReceiverState, readLen: int, scan: Scanner): (r: ReceiverState)
    requires ReceiverInvariant(s) && readLen <= s.readSize
    ensures ReceiverInvariant(r)
  {
    if !AcceptsRead(readLen) then s else Accepted(s, scan)
  }

  /** The loop body under the guard as written (unsigned). It is stated only where the
      indices stay inside the buffer: the case `StaleCrLfShrinksReadSizeAsWritten` shows,
      a CR LF over a `readSize` of 8, is excluded. */
  function ProcessedAsWritten(s: ReceiverState, readLen: int, scan: Scanner): (r: ReceiverState)
    requires ReceiverInvariant(s) && readLen <= s.readSize
    requires AcceptsReadAsWritten(readLen) && StartsWithCrLf(s.buf) ==> |SensorMark| < s.readSize
    ensures ReceiverInvariant(r)
  {
    if !AcceptsReadAsWritten(readLen) then s else Accepted(s, scan)
  }

  /** As written, a failed read over a buffer still holding a frame publishes that stale frame
      again and sets the flag, so the main loop sends the old readings once more; as
      intended the failed read changes nothing. */
  lemma StaleFrameRepublishedAsWritten(s: ReceiverState, scan: Scanner)
    requires ReceiverInvariant(s) && MarkAt(s.buf, FrameOffset(s.buf))
    requires StartsWithCrLf(s.buf) ==> |SensorMark| < s.readSize
    ensures Processed(s, -1, scan) == s
    ensures var r := ProcessedAsWritten(s, -1, scan);
            && r.cache == CacheState(r.scanned, true)
            && r.scanned == ApplyScan(s.scanned, scan(CStr(r.buf[FrameOffset(s.buf)..])))
            && r.buf[ClosingColon(s.buf, FrameOffset(s.buf), r.readSize)] == Nul
  {
    ReadErrorPassesGuardAsWritten();
  }

  /** One iteration of the receive loop under the intended (signed) length guard. */
  function Step(s: ReceiverState, ev: ReadEvent, scan: Scanner): (r: ReceiverState)
    requires ReceiverInvariant(s)
    ensures ReceiverInvariant(r)
  {
    Processed(s.(buf := AfterRead(s.buf, Delivered(ev, s.readSize))), ReadLength(ev, s.readSize), scan)
  }

  /** Under the intended guard, a read no longer than the mark, and a failed read, changes
      nothing but the buffer. */
  lemma ShortReadChangesNothing(s: ReceiverState, ev: ReadEvent, scan: Scanner)
    requires ReceiverInvariant(s) && ReadLength(ev, s.readSize) <= |SensorMark|
    ensures Step(s, ev, scan) == s.(buf := AfterRead(s.buf, Delivered(ev, s.readSize)))
  {
  }

  /** Without the mark (after the optional CR LF) the cache and the scanned values stay. */
  lemma MissingMarkKeepsCache(s: ReceiverState, ev: ReadEvent, scan: Scanner)
    requires ReceiverInvariant(s) && !Recognises(s, ev)
    ensures Step(s, ev, scan).cache == s.cache && Step(s, ev, scan).scanned == s.scanned
    ensures Step(s, ev, scan).buf == AfterRead(s.buf, Delivered(ev, s.readSize))
  {
  }

  /** `readSize` shrinks by exactly two when an accepted read starts with CR LF, and only then. */
  lemma ReadSizeUpdate(s: ReceiverState, ev: ReadEvent, scan: Scanner)
    requires ReceiverInvariant(s)
    ensures var buf := AfterRead(s.buf, Delivered(ev, s.readSize));
            Step(s, ev, scan).readSize ==
              if AcceptsRead(ReadLength(ev, s.readSize)) && StartsWithCrLf(buf) then s.readSize - 2 else s.readSize
  {
  }

  /** Once the mark matched: the scan stops on the last `:` of the frame at or below
      `readSize - 1` (never before the mark's own `:`); exactly that byte differs from the
      buffer as read and is now NUL; the scanned values go to the cache together with the
      flag, whatever `sscanf` managed to convert. */
  lemma RecognisedFrame(s: ReceiverState, ev: ReadEvent, scan: Scanner)
    requires ReceiverInvariant(s) && Recognises(s, ev)
    ensures var buf := AfterRead(s.buf, Delivered(ev, s.readSize));
            var off := FrameOffset(buf);
            var r := Step(s, ev, scan);
            var c := ClosingColon(buf, off, r.readSize);
            && off + |SensorMark| - 1 <= c < off + r.readSize
            && buf[c] == ':' && r.buf[c] == Nul
            && (forall a :: c < a < off + r.readSize ==> buf[a] != ':')
            && (forall a :: 0 <= a < |buf| && a != c ==> r.buf[a] == buf[a])
            && r.scanned == ApplyScan(s.scanned, scan(CStr(r.buf[off..])))
            && r.cache == CacheState(r.scanned, true)
  {
    var buf := AfterRead(s.buf, Delivered(ev, s.readSize));
    var read := s.(buf := buf);
    var off, size := FrameOffset(buf), SizeAfterSkip(s.readSize, buf);
    assert Step(s, ev, scan) == Processed(read, ReadLength(ev, s.readSize), scan);
    assert Processed(read, ReadLength(ev, s.readSize), scan) == Accepted(read, scan);
    assert Accepted(read, scan) == Publish(buf, off, size, s.scanned, scan);
    PublishedFrame(buf, off, size, s.scanned, scan);
  }

  /** What `Publish` leaves: NUL on exactly the closing `:`, and the scanned values, with the
      flag, in the cache. */
  lemma PublishedFrame(buf: seq<char>, off: nat, size: int, prev: Reading, scan: Scanner)
    requires |buf| == ReadBufMax && off <= 2 && |SensorMark| <= size <= InitialReadSize
    requires MarkAt(buf, off)
    ensures var r := Publish(buf, off, size, prev, scan);
            var c := ClosingColon(buf, off, size);
            && off + |SensorMark| - 1 <= c < off + size
            && buf[c] == ':' && r.buf[c] == Nul
            && (forall a :: c < a < off + size ==> buf[a] != ':')
            && (forall a :: 0 <= a < |buf| && a != c ==> r.buf[a] == buf[a])
            && r.scanned == ApplyScan(prev, scan(CStr(r.buf[off..])))
            && r.cache == CacheState(r.scanned, true)
  {
    ClosingColonIsLast(buf, off, size);
  }

  /** Several iterations of the loop, one read each. */
  function Run(s: ReceiverState, evs: seq<ReadEvent>, scan: Scanner): (r: ReceiverState)
    requires ReceiverInvariant(s)
    ensures ReceiverInvariant(r)
    decreases |evs|
  {
    if evs == [] then s else Run(Step(s, evs[0], scan), evs[1..], scan)
  }

  /** How many reads of a run were accepted and started with CR LF. */
  function CrLfFrames(s: ReceiverState, evs: seq<ReadEvent>, scan: Scanner): nat
    requires ReceiverInvariant(s)
    decreases |evs|
  {
    if evs == [] then 0
    else
      var buf := AfterRead(s.buf, Delivered(evs[0], s.readSize));
      (if AcceptsRead(ReadLength(evs[0], s.readSize)) && StartsWithCrLf(buf) then 1 else 0)
        + CrLfFrames(Step(s, evs[0], scan), evs[1..], scan)
  }

  /** Across any number of iterations `readSize` never grows, the CR LF skips add up (the
      decrement is never undone), and it never drops below the mark's length. */
  lemma {:induction false} RunReadSize(s: ReceiverState, evs: seq<ReadEvent>, scan: Scanner)
    requires ReceiverInvariant(s)
    ensures Run(s, evs, scan).readSize == s.readSize - 2 * CrLfFrames(s, evs, scan)
    ensures |SensorMark| <= Run(s, evs, scan).readSize <= s.readSize
    decreases |evs|
  {
    if evs != [] {
      ReadSizeUpdate(s, evs[0], scan);
      RunReadSize(Step(s, evs[0], scan), evs[1..], scan);
    }
  }

  /** From the handler's initial `readSize` of 64, at most 28 accepted reads can start with
      CR LF, and after the 28th `readSize` is the mark's length. */
  lemma CrLfFramesExhaustReadSize(s: ReceiverState, evs: seq<ReadEvent>, scan: Scanner)
    requires ReceiverInvariant(s) && s.readSize == InitialReadSize
    ensures CrLfFrames(s, evs, scan) <= 28
    ensures CrLfFrames(s, evs, scan) == 28 <==> Run(s, evs, scan).readSize == |SensorMark|
  {
    RunReadSize(s, evs, scan);
  }

  /** A run that never recognises a frame leaves the cache as it found it. */
  predicate NoFrame(s: ReceiverState, evs: seq<ReadEvent>, scan: Scanner)
    requires ReceiverInvariant(s)
    decreases |evs|
  {
    evs == [] || (!Recognises(s, evs[0]) && NoFrame(Step(s, evs[0], scan), evs[1..], scan))
  }

  lemma {:induction false} RunWithoutFrameKeepsCache(s: ReceiverState, evs: seq<ReadEvent>, scan: Scanner)
    requires ReceiverInvariant(s) && NoFrame(s, evs, scan)
    ensures Run(s, evs, scan).cache == s.cache
    decreases |evs|
  {
    if evs != [] {
      MissingMarkKeepsCache(s, evs[0], scan);
      RunWithoutFrameKeepsCache(Step(s, evs[0], scan), evs[1..], scan);
    }
  }

  /** Once `readSize` is the mark's length no read is longer than the mark, so every later
      iteration drops its read: no frame is recognised again, and neither `readSize` nor the
      cache ever changes. */
  lemma {:induction false} StuckAtMarkLength(s: ReceiverState, evs: seq<ReadEvent>, scan: Scanner)
    requires ReceiverInvariant(s) && s.readSize == |SensorMark|
    ensures NoFrame(s, evs, scan)
    ensures Run(s, evs, scan).readSize == |SensorMark| && Run(s, evs, scan).cache == s.cache
    decreases |evs|
  {
    if evs != [] {
      ShortReadChangesNothing(s, evs[0], scan);
      StuckAtMarkLength(Step(s, evs[0], scan), evs[1..], scan);
    }
  }

  /** The cache shared by the receive thread (writer) and the main loop (reader). */
  class TelemetryCache {
    var lastTemperature: Float32
    var lastHumidity: Float32
    var lastPressure: Float32
    var lastAltitude: Float32
    var sensorReadingFromArduino: bool

    function Snapshot(): CacheState
      reads this
    {
      CacheState(Reading(lastTemperature, lastHumidity, lastPressure, lastAltitude), sensorReadingFromArduino)
    }

    /** The section under `mutex_for_sensor_reading_buffer`, taken as one atomic update: the
        four readings and the flag are written together. */
    method Store(r: Reading)
      modifies this
      ensures Snapshot() == CacheState(r, true)
    {
      lastTemperature := r.temperature;
      lastHumidity := r.humidity;
      lastPressure := r.pressure;
      lastAltitude := r.altitude;
      sensorReadingFromArduino := true;
    }

    /** The static initialisers: all readings 0.0, no reading yet. */
    constructor ()
      ensures Snapshot() == CacheState(Reading(0, 0, 0, 0), false)
    {
      lastTemperature, lastHumidity, lastPressure, lastAltitude := 0, 0, 0, 0;
      sensorReadingFromArduino := false;
    }
  }

  /** The receive thread: its buffer, its persistent `readSize` and float locals, and the cache. */
  class SensorReceiver {
    const readBuf: array<char>
    const cache: TelemetryCache
    var readSize: int
    var temp: Float32
    var humi: Float32
    var pres: Float32
    var alti: Float32

    ghost function State(): ReceiverState
      reads this, readBuf, cache
    {
      ReceiverState(readBuf[..], readSize, Reading(temp, humi, pres, alti), cache.Snapshot())
    }

    ghost predicate Valid()
      reads this, readBuf, cache
    {
      ReceiverInvariant(State())
    }

    /** The handler's entry: `readSize` is 64; the buffer and the float locals start with
        whatever the stack held (`initialBuf`, `initialLocals`). */
    constructor (cache: TelemetryCache, initialBuf: seq<char>, initialLocals: Reading)
      requires |initialBuf| == ReadBufMax
      ensures fresh(readBuf) && this.cache == cache
      ensures Valid() && State() == ReceiverState(initialBuf, InitialReadSize, initialLocals, cache.Snapshot())
    {
      this.cache := cache;
      readBuf := new char[ReadBufMax](i requires 0 <= i < ReadBufMax => initialBuf[i]);
      readSize := InitialReadSize;
      temp, humi, pres, alti := initialLocals.temperature, initialLocals.humidity,
                                initialLocals.pressure, initialLocals.altitude;
      new;
      assert readBuf[..] == initialBuf;
    }

    /** The backward scan for the closing `:` in the frame that starts at `off`. */
    static method FindLastColon(p: array<char>, off: nat, from: int) returns (index: int)
      requires off + from < p.Length && |SensorMark| - 1 <= from
      requires p[off + |SensorMark| - 1] == ':'
      ensures index == LastColon(p[off..], from)
    {
      ghost var frame := p[off..];
      assert frame[|SensorMark| - 1] == p[off + |SensorMark| - 1];
      index := from;
      while p[off + index] != ':'
        invariant |SensorMark| - 1 <= index <= from
        invariant forall j :: index < j <= from ==> frame[j] != ':'
        decreases index
      {
        assert frame[index] == p[off + index];
        index := index - 1;
      }
      assert frame[index] == p[off + index];
    }

    /** `read` storing its bytes at the start of the buffer. */
    static method ReadInto(buf: array<char>, d: seq<char>)
      requires |d| <= buf.Length
      modifies buf
      ensures buf[..] == AfterRead(old(buf[..]), d)
    {
      forall i | 0 <= i < |d| {
        buf[i] := d[i];
      }
      assert buf[..] == AfterRead(old(buf[..]), d);
    }

    /** The `for` loop comparing the frame with `sensors:` byte by byte. */
    static method MatchesMark(p: array<char>, off: nat) returns (valid: bool)
      requires off + |SensorMark| <= p.Length
      ensures valid == (p[off..off + |SensorMark|] == SensorMark)
    {
      valid := true;
      var i := 0;
      while i < |SensorMark|
        invariant 0 <= i <= |SensorMark|
        invariant forall j :: 0 <= j < i ==> p[off..off + |SensorMark|][j] == SensorMark[j]
      {
        if p[off + i] != SensorMark[i] {
          assert p[off..off + |SensorMark|][i] != SensorMark[i];
          valid := false;
          return;
        }
        i := i + 1;
      }
    }

    /** The backward scan from `readSize - 1` and the NUL written over the colon it stops at. */
    method TerminateFrame(off: nat)
      requires readBuf.Length == ReadBufMax && off <= 2 && |SensorMark| <= readSize <= InitialReadSize
      requires MarkAt(readBuf[..], off)
      modifies readBuf
      ensures readBuf[..] == old(readBuf[..])[ClosingColon(old(readBuf[..]), off, readSize) := Nul]
    {
      ghost var buf := readBuf[..];
      assert readBuf[off + |SensorMark| - 1] == buf[off..off + |SensorMark|][|SensorMark| - 1];
      var index := FindLastColon(readBuf, off, readSize - 1);
      assert buf[off..] == readBuf[off..];
      readBuf[off + index] := Nul;
    }

    /** The recognised-frame branch: NUL over the closing `:`, `sscanf`, and the locked
        update of the cache. */
    method PublishFrame(off: nat, scan: Scanner)
      requires readBuf.Length == ReadBufMax && off <= 2 && |SensorMark| <= readSize <= InitialReadSize
      requires MarkAt(readBuf[..], off)
      modifies readBuf, this`temp, this`humi, this`pres, this`alti, cache
      ensures State() == Publish(old(readBuf[..]), off, readSize, old(Reading(temp, humi, pres, alti)), scan)
    {
      ghost var buf, prev := readBuf[..], Reading(temp, humi, pres, alti);
      TerminateFrame(off);
      ghost var marked := readBuf[..];
      assert marked == buf[ClosingColon(buf, off, readSize) := Nul];
      var vals := scan(CStr(readBuf[off..]));
      var r := ApplyScan(Reading(temp, humi, pres, alti), vals);
      assert r == ApplyScan(prev, scan(CStr(marked[off..])));
      temp, humi, pres, alti := r.temperature, r.humidity, r.pressure, r.altitude;
      cache.Store(r);
      assert readBuf[..] == marked;
      assert State() == ReceiverState(marked, readSize, r, CacheState(r, true));
      assert Publish(buf, off, readSize, prev, scan) == ReceiverState(marked, readSize, r, CacheState(r, true));
    }

    /** The optional `\r\n` skip, which shortens every later read by two bytes. */
    method SkipCrLf() returns (off: nat)
      requires Valid()
      modifies this
      ensures off == FrameOffset(readBuf[..]) && readSize == SizeAfterSkip(old(readSize), readBuf[..])
      ensures temp == old(temp) && humi == old(humi) && pres == old(pres) && alti == old(alti)
    {
      off := 0;
      if readBuf[0] == '\r' && readBuf[1] == '\n' {
        off := 2;
        readSize := readSize - 2;
      }
    }

    /** The loop body after the `read`: the length guard, the `\r\n` skip, the mark, and the
        recognised frame. */
    method ProcessRead(readLen: int, scan: Scanner)
      requires Valid() && readLen <= readSize
      modifies this, readBuf, cache
      ensures Valid()
      ensures State() == Processed(old(State()), readLen, scan)
    {
      ghost var s := State();
      if readLen > |SensorMark| {
        assert Processed(s, readLen, scan) == Accepted(s, scan);
        var off := SkipCrLf();
        assert readBuf[..] == s.buf && cache.Snapshot() == s.cache;
        var valid := MatchesMark(readBuf, off);
        if valid {
          assert Accepted(s, scan) == Publish(s.buf, off, readSize, s.scanned, scan);
          PublishFrame(off, scan);
        } else {
          assert Accepted(s, scan) == s.(readSize := readSize);
          assert State() == s.(readSize := readSize);
        }
      }
    }

    /** One iteration of the receive loop. */
    method ReceiveOnce(ev: ReadEvent, scan: Scanner)
      requires Valid()
      modifies this, readBuf, cache
      ensures Valid()
      ensures State() == Step(old(State()), ev, scan)
    {
      var readLen := ReadLength(ev, readSize);
      ReadInto(readBuf, Delivered(ev, readSize));
      ProcessRead(readLen, scan);
    }
  }
}
