/** The boot timestamp a restart sensor reports: moved only when the computed one moves materially. */
module RestartSensor {
  import opened Prelude

  const UPTIME_DEVIATION: real := 30.0

  function Distance(a: real, b: real): real { if a < b then b - a else a - b }

  /** The value after one read, given the boot time the reading implies (None without an uptime). */
  function Report(last: Option<real>, computed: Option<real>): Option<real> {
    if computed.None? then last
    else if last.None? || Distance(computed.value, last.value) > UPTIME_DEVIATION then computed
    else last
  }

  function Reports(last: Option<real>, readings: seq<Option<real>>): Option<real> {
    if readings == [] then last
    else Report(Reports(last, readings[..|readings| - 1]), readings[|readings| - 1])
  }

  /** After a read with an uptime the report is within the deviation of the computed boot time... */
  lemma WithinDeviation(last: Option<real>, readings: seq<Option<real>>)
    requires readings != [] && readings[|readings| - 1].Some?
    ensures var shown := Reports(last, readings);
            shown.Some? && -30.0 <= shown.value - readings[|readings| - 1].value <= 30.0
  {}

  /** ...and it moves at a read exactly when the computed boot time is further away than that. */
  lemma MovesIffFar(last: Option<real>, readings: seq<Option<real>>, computed: real)
    ensures var before := Reports(last, readings);
            var after := Reports(last, readings + [Some(computed)]);
            if before.Some? && -30.0 <= computed - before.value <= 30.0
            then after == before else after == Some(computed)
  {
    assert (readings + [Some(computed)])[..|readings|] == readings;
  }

  /** Jitter inside a window no wider than the deviation that contains the report never moves it. */
  lemma {:induction false} SteadyInWindow(shown: real, readings: seq<Option<real>>, low: real)
    requires low <= shown <= low + 30.0
    requires forall r | r in readings && r.Some? :: low <= r.value <= low + 30.0
    ensures Reports(Some(shown), readings) == Some(shown)
  {
    if readings != [] {
      var n := |readings| - 1;
      assert forall r | r in readings[..n] :: r in readings;
      SteadyInWindow(shown, readings[..n], low);
    }
  }

  /** Whatever is reported was once computed: the sensor invents no timestamps. */
  lemma {:induction false} ReportWasRead(readings: seq<Option<real>>)
    ensures Reports(None, readings).Some? ==> Reports(None, readings) in readings
    ensures Reports(None, readings).None? <==> forall r | r in readings :: r.None?
  {
    if readings != [] {
      var n := |readings| - 1;
      ReportWasRead(readings[..n]);
      assert readings == readings[..n] + [readings[n]];
    }
  }

  class BondLastRestartSensor {
    var lastRestart: Option<real>

    constructor ()
      ensures lastRestart == None
    {
      lastRestart := None;
    }

    method NativeValue(now: real, uptime: Option<real>) returns (value: Option<real>)
      modifies this
      ensures value == lastRestart == Report(old(lastRestart), if uptime.None? then None else Some(now - uptime.value))
    {
      if uptime.None? { return lastRestart; }
      var restart := now - uptime.value;
      if lastRestart.None? || Distance(restart, lastRestart.value) > UPTIME_DEVIATION {
        lastRestart := Some(restart);
      }
      return lastRestart;
    }
  }
}
