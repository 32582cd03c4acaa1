/**
  The main loop of main.c, one iteration: take a locked snapshot of the cached readings and
  the "reading received" flag, and when the flag is set compose the telemetry message and
  hand it to the IoT Hub module.

  `%.2f` formatting of a float is an input (`FloatText`); the decimal `%0Nd` fields of the
  timestamp are modelled exactly.
*/
module Telemetry {
  import opened Wrappers
  import opened SensorFrame
  import IoTHub

  /** `sprintf("%.2f", x)` for a reading. */
  type FloatText = Float32 -> string

  /** The longest `%.2f` text of a 32-bit float ("-340282346638528859811704183484516925440.00"). */
  const FloatTextMax: int := 43
  /** `messageBody` is a 1024-byte array. */
  const MessageBodySize: int := 1024

  /** The broken-down local time `localtime_r` fills in (`tm_year` counts from 1900, `tm_mon`
      from 0). */
  datatype Tm = Tm(year: int, mon: int, mday: int, hour: int, min: int, sec: int)

  /** The calendar fields the timestamp is meant to show. */
  datatype DateTime = DateTime(year: int, month: int, day: int, hour: int, minute: int, second: int)

  function CalendarOf(tm: Tm): DateTime {
    DateTime(tm.year + 1900, tm.mon + 1, tm.mday, tm.hour, tm.min, tm.sec)
  }

  /** The ranges `localtime_r` produces, for years written with at most four digits. */
  predicate ValidTm(tm: Tm) {
    && 0 <= tm.year + 1900 <= 9999
    && 0 <= tm.mon <= 11 && 1 <= tm.mday <= 31
    && 0 <= tm.hour <= 23 && 0 <= tm.min <= 59 && 0 <= tm.sec <= 60
  }

  predicate IsDigit(c: char) { '0' <= c <= '9' }

  predicate AllDigits(s: string) { forall i :: 0 <= i < |s| ==> IsDigit(s[i]) }

  function DigitChar(d: nat): (c: char)
    requires d < 10
    ensures IsDigit(c) && c as int - '0' as int == d
  {
    ['0', '1', '2', '3', '4', '5', '6', '7', '8', '9'][d]
  }

  function Pow10(w: nat): (p: nat)
    ensures p >= 1
  {
    if w == 0 then 1 else 10 * Pow10(w - 1)
  }

  /** The decimal digits of `n`, most significant first, without leading zeros. */
  function Digits(n: nat): (r: string)
    ensures 1 <= |r| && AllDigits(r)
    ensures r[0] == '0' ==> n == 0
  {
    if n < 10 then [DigitChar(n)] else Digits(n / 10) + [DigitChar(n % 10)]
  }

  /** The number a string of decimal digits denotes. */
  function ParseDecimal(s: string): nat
    requires AllDigits(s)
  {
    if s == [] then 0 else 10 * ParseDecimal(s[..|s| - 1]) + (s[|s| - 1] as int - '0' as int)
  }

  function Zeros(k: nat): (z: string)
    ensures |z| == k && AllDigits(z)
  {
    seq(k, _ => '0')
  }

  /** `%0<width>d`: the decimal text of `n`, zero-padded to `width` characters, a minus sign
      counting towards the width; wider numbers are printed in full. */
  function PadDecimal(n: int, width: nat): (r: string)
  {
    if n >= 0 then
      var d := Digits(n);
      if |d| < width then Zeros(width - |d|) + d else d
    else
      var d := Digits(-n);
      "-" + if |d| + 1 < width then Zeros(width - 1 - |d|) + d else d
  }

  /** `"%04d/%02d/%02dT%02d:%02d:%02d"` of `tm_year + 1900`, `tm_mon + 1`, `tm_mday`,
      `tm_hour`, `tm_min`, `tm_sec`. */
  function Timestamp(tm: Tm): string {
    PadDecimal(tm.year + 1900, 4) + "/" + PadDecimal(tm.mon + 1, 2) + "/" + PadDecimal(tm.mday, 2) + "T"
      + PadDecimal(tm.hour, 2) + ":" + PadDecimal(tm.min, 2) + ":" + PadDecimal(tm.sec, 2)
  }

  /** Reading a timestamp back: `YYYY/MM/DDThh:mm:ss`, every field decimal. */
  function ParseTimestamp(ts: string): Option<DateTime> {
    if |ts| == 19 && ts[4] == '/' && ts[7] == '/' && ts[10] == 'T' && ts[13] == ':' && ts[16] == ':'
       && AllDigits(ts[0..4]) && AllDigits(ts[5..7]) && AllDigits(ts[8..10])
       && AllDigits(ts[11..13]) && AllDigits(ts[14..16]) && AllDigits(ts[17..19])
    then
      Some(DateTime(ParseDecimal(ts[0..4]), ParseDecimal(ts[5..7]), ParseDecimal(ts[8..10]),
                    ParseDecimal(ts[11..13]), ParseDecimal(ts[14..16]), ParseDecimal(ts[17..19])))
    else None
  }

  lemma {:induction false} ParseDigits(n: nat)
    ensures ParseDecimal(Digits(n)) == n
  {
    if n >= 10 {
      var d := Digits(n);
      assert d[..|d| - 1] == Digits(n / 10);
      ParseDigits(n / 10);
    }
  }

  lemma {:induction false} DigitsFit(n: nat, w: nat)
    requires 1 <= w && n < Pow10(w)
    ensures |Digits(n)| <= w
  {
    if n >= 10 {
      assert w >= 2;
      assert n / 10 < Pow10(w - 1);
      DigitsFit(n / 10, w - 1);
    }
  }

  lemma {:induction false} ParseAfterZeros(k: nat, s: string)
    requires AllDigits(s)
    ensures AllDigits(Zeros(k) + s) && ParseDecimal(Zeros(k) + s) == ParseDecimal(s)
    decreases |s|, k
  {
    var z := Zeros(k) + s;
    if s == [] {
      assert z == Zeros(k);
      if k > 0 {
        assert z[..|z| - 1] == Zeros(k - 1) + [];
        ParseAfterZeros(k - 1, []);
      }
    } else {
      assert z[..|z| - 1] == Zeros(k) + s[..|s| - 1];
      ParseAfterZeros(k, s[..|s| - 1]);
    }
  }

  /** A number that fits the width prints as exactly `width` digits that read back as it. */
  lemma PadDecimalRoundTrip(n: int, width: nat)
    requires 1 <= width && 0 <= n < Pow10(width)
    ensures |PadDecimal(n, width)| == width && AllDigits(PadDecimal(n, width))
    ensures ParseDecimal(PadDecimal(n, width)) == n
  {
    DigitsFit(n, width);
    ParseDigits(n);
    var d := Digits(n);
    if |d| < width {
      ParseAfterZeros(width - |d|, d);
    }
  }

  /** Where the six fields and the separators of a joined timestamp sit. */
  lemma JoinedTimestampLayout(y: string, mo: string, d: string, h: string, mi: string, sec: string)
    requires |y| == 4 && |mo| == 2 && |d| == 2 && |h| == 2 && |mi| == 2 && |sec| == 2
    ensures var ts := y + "/" + mo + "/" + d + "T" + h + ":" + mi + ":" + sec;
            && |ts| == 19
            && ts[4] == '/' && ts[7] == '/' && ts[10] == 'T' && ts[13] == ':' && ts[16] == ':'
            && ts[0..4] == y && ts[5..7] == mo && ts[8..10] == d
            && ts[11..13] == h && ts[14..16] == mi && ts[17..19] == sec
  {
    var ts := y + "/" + mo + "/" + d + "T" + h + ":" + mi + ":" + sec;
    assert ts[0..4] == y;
    assert ts[5..7] == mo;
    assert ts[8..10] == d;
    assert ts[11..13] == h;
    assert ts[14..16] == mi;
    assert ts[17..19] == sec;
  }

  /** Six zero-padded fields joined with the timestamp's separators read back as those fields. */
  lemma ParseJoinedTimestamp(y: string, mo: string, d: string, h: string, mi: string, sec: string)
    requires |y| == 4 && |mo| == 2 && |d| == 2 && |h| == 2 && |mi| == 2 && |sec| == 2
    requires AllDigits(y) && AllDigits(mo) && AllDigits(d) && AllDigits(h) && AllDigits(mi) && AllDigits(sec)
    ensures ParseTimestamp(y + "/" + mo + "/" + d + "T" + h + ":" + mi + ":" + sec)
            == Some(DateTime(ParseDecimal(y), ParseDecimal(mo), ParseDecimal(d),
                             ParseDecimal(h), ParseDecimal(mi), ParseDecimal(sec)))
  {
    JoinedTimestampLayout(y, mo, d, h, mi, sec);
    var ts := y + "/" + mo + "/" + d + "T" + h + ":" + mi + ":" + sec;
    assert AllDigits(ts[0..4]) && AllDigits(ts[5..7]) && AllDigits(ts[8..10]);
    assert AllDigits(ts[11..13]) && AllDigits(ts[14..16]) && AllDigits(ts[17..19]);
  }

  /** For every time `localtime_r` produces, the timestamp is 19 characters in the shape
      `YYYY/MM/DDThh:mm:ss` and shows the calendar year (`tm_year + 1900`) and month
      (`tm_mon + 1`), each field zero-padded. */
  lemma TimestampRoundTrip(tm: Tm)
    requires ValidTm(tm)
    ensures |Timestamp(tm)| == 19
    ensures ParseTimestamp(Timestamp(tm)) == Some(CalendarOf(tm))
  {
    assert Pow10(2) == 100 && Pow10(4) == 10000;
    PadDecimalRoundTrip(tm.year + 1900, 4);
    PadDecimalRoundTrip(tm.mon + 1, 2);
    PadDecimalRoundTrip(tm.mday, 2);
    PadDecimalRoundTrip(tm.hour, 2);
    PadDecimalRoundTrip(tm.min, 2);
    PadDecimalRoundTrip(tm.sec, 2);
    ParseJoinedTimestamp(PadDecimal(tm.year + 1900, 4), PadDecimal(tm.mon + 1, 2), PadDecimal(tm.mday, 2),
                         PadDecimal(tm.hour, 2), PadDecimal(tm.min, 2), PadDecimal(tm.sec, 2));
  }

  /** The message `sprintf` composes into `messageBody`: temperature, humidity and pressure
      with two decimals, and the timestamp. */
  function TelemetryBody(fmt: FloatText, r: Reading, tm: Tm): string {
    ComposeBody(fmt(r.temperature), fmt(r.humidity), fmt(r.pressure), Timestamp(tm))
  }

  /** The altitude is never part of the message: readings that differ only in altitude give
      the same body. */
  lemma BodyIgnoresAltitude(fmt: FloatText, r: Reading, altitude: Float32, tm: Tm)
    ensures TelemetryBody(fmt, r.(altitude := altitude), tm) == TelemetryBody(fmt, r, tm)
  {
  }

  /** The `sprintf` template of the message, on the texts of its fields. */
  function ComposeBody(t: string, h: string, p: string, ts: string): string {
    "{\"temperature\":" + t + ",\"humidity\":" + h + ",\"pressure\":" + p + ",\"timestamp\":\"" + ts + "\"}"
  }

  /** Where the pieces of a composed body sit. */
  lemma ComposedBodyLayout(t: string, h: string, p: string, ts: string)
    ensures var body := ComposeBody(t, h, p, ts);
            && |body| == 55 + |t| + |h| + |p| + |ts|
            && body[15..15 + |t|] == t
            && body[27 + |t|..27 + |t| + |h|] == h
            && body[39 + |t| + |h|..39 + |t| + |h| + |p|] == p
            && body[53 + |t| + |h| + |p|..53 + |t| + |h| + |p| + |ts|] == ts
  {
    var body := ComposeBody(t, h, p, ts);
    assert body[15..15 + |t|] == t;
    assert body[27 + |t|..27 + |t| + |h|] == h;
    assert body[39 + |t| + |h|..39 + |t| + |h| + |p|] == p;
    assert body[53 + |t| + |h| + |p|..53 + |t| + |h| + |p| + |ts|] == ts;
  }

  /** The body (`TelemetryBody` is `ComposeBody` of the three `%.2f` texts and the timestamp)
      carries the formatted readings and the timestamp at fixed places, and with its terminator
      it fits the 1024-byte buffer for every float. */
  lemma BodyLayout(t: string, h: string, p: string, tm: Tm)
    requires ValidTm(tm)
    requires |t| <= FloatTextMax && |h| <= FloatTextMax && |p| <= FloatTextMax
    ensures var body := ComposeBody(t, h, p, Timestamp(tm));
            && |body| == 74 + |t| + |h| + |p|
            && |body| + 1 <= MessageBodySize
            && body[15..15 + |t|] == t
            && body[27 + |t|..27 + |t| + |h|] == h
            && body[39 + |t| + |h|..39 + |t| + |h| + |p|] == p
            && ParseTimestamp(body[53 + |t| + |h| + |p|..72 + |t| + |h| + |p|]) == Some(CalendarOf(tm))
  {
    TimestampRoundTrip(tm);
    ComposedBodyLayout(t, h, p, Timestamp(tm));
  }

  /** One iteration of the main loop, up to the sleep: snapshot under the mutex, and send only
      when the snapshot says a reading was received. `sent` is the message composed, if any. */
  method MainLoopIteration(cache: TelemetryCache, hub: IoTHub.IoTHubSession, fmt: FloatText, tm: Tm,
                           created: bool, gpioReadOk: bool, probes: seq<bool>, o: IoTHub.SetupOutcome)
    returns (sent: Option<string>)
    requires hub.Valid() && true in probes
    modifies hub
    ensures hub.Valid()
    ensures sent == if cache.sensorReadingFromArduino then Some(TelemetryBody(fmt, cache.Snapshot().last, tm)) else None
    ensures hub.State() == match sent
                           case None => old(hub.State())
                           case Some(body) => IoTHub.SendMessage(old(hub.State()), body, created, gpioReadOk, o)
  {
    var snapshot := cache.Snapshot();
    var isSend := snapshot.fromArduino;
    sent := None;
    if isSend {
      var messageBody := TelemetryBody(fmt, snapshot.last, tm);
      hub.AzureIoTHubSendMessage(messageBody, created, gpioReadOk, probes, o);
      sent := Some(messageBody);
    }
  }
}
