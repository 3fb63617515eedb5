/** The state every venue client shares: the 429 back-off controller and the
    clock-skew check on source timestamps. Time is in whole seconds and the
    wait is returned to the caller instead of slept. */
module BaseClient {
  import opened JsonValue

  /** Escalating waits, in seconds, for the 1st, 2nd and 3rd-or-later hit. */
  const WAIT_TABLE: seq<nat> := [30, 60, 120]
  /** Hits count towards escalation for this long after the window's anchor. */
  const ESCALATION_WINDOW_SECONDS: int := 1800
  /** A source timestamp may differ from the local clock by at most this much. */
  const MAX_CLOCK_SKEW_SECONDS: int := 10

  /** The normalised market record both venue clients return:
      `{"title", "bid", "ask", "raw"}`. */
  datatype Market = Market(title: Json, bid: real, ask: real, raw: Json)

  /** The filter both clients apply before returning a market. */
  predicate ValidQuote(bid: real, ask: real) {
    0.0 <= bid <= 1.0 && 0.0 <= ask <= 1.0 && bid <= ask
  }

  /** `retry_count` and `last_429_time` of a client. */
  datatype Backoff = Backoff(retryCount: nat, last429Time: Option<int>)

  /** `not self.last_429_time`: no anchor yet (a timestamp of 0 is falsy too). */
  predicate NoAnchor(t: Option<int>) {
    t.None? || t.value == 0
  }

  /** `[30, 60, 120][min(retry_count - 1, 2)]` for a count of at least 1. */
  function WaitFor(count: nat): (wait: nat)
    requires count >= 1
    ensures wait == if count == 1 then 30 else if count == 2 then 60 else 120
  {
    WAIT_TABLE[if count - 1 < 2 then count - 1 else 2]
  }

  /** `handle_rate_limit` exactly as written: the reset branch keeps the old
      anchor, so `last_429_time` is only ever set by the very first hit. */
  function RateLimitStepAsWritten(b: Backoff, now: int): (r: (Backoff, nat))
    ensures r.1 in {30, 60, 120}
    ensures r.0.retryCount >= 1 && r.1 == WaitFor(r.0.retryCount)
    ensures !NoAnchor(b.last429Time) ==> r.0.last429Time == b.last429Time
    ensures NoAnchor(b.last429Time) ==> r == (Backoff(1, Some(now)), 30)
    ensures !NoAnchor(b.last429Time) && now - b.last429Time.value < ESCALATION_WINDOW_SECONDS ==>
      r.0.retryCount == b.retryCount + 1
    ensures !NoAnchor(b.last429Time) && now - b.last429Time.value >= ESCALATION_WINDOW_SECONDS ==>
      r.0.retryCount == 1 && r.1 == 30
  {
    if NoAnchor(b.last429Time) then (Backoff(1, Some(now)), 30)
    else if now - b.last429Time.value < ESCALATION_WINDOW_SECONDS then
      (Backoff(b.retryCount + 1, b.last429Time), WaitFor(b.retryCount + 1))
    else (Backoff(1, b.last429Time), 30)
  }

  /** `handle_rate_limit` with the anchor moved to the hit that restarts the
      tally, so that a new burst escalates again. */
  function RateLimitStep(b: Backoff, now: int): (r: (Backoff, nat))
    ensures r.1 in {30, 60, 120}
    ensures r.0.retryCount >= 1 && r.0.last429Time.Some?
    ensures r.1 == WaitFor(r.0.retryCount)
  {
    if NoAnchor(b.last429Time) then (Backoff(1, Some(now)), 30)
    else if now - b.last429Time.value < ESCALATION_WINDOW_SECONDS then
      (Backoff(b.retryCount + 1, b.last429Time), WaitFor(b.retryCount + 1))
    else (Backoff(1, Some(now)), 30)
  }

  /** The three branches of the controller: a first hit, a hit inside the
      window, and a hit after it. */
  lemma RateLimitStepCases(b: Backoff, now: int)
    ensures NoAnchor(b.last429Time) ==>
      RateLimitStep(b, now) == (Backoff(1, Some(now)), 30)
    ensures !NoAnchor(b.last429Time) && now - b.last429Time.value < ESCALATION_WINDOW_SECONDS ==>
      RateLimitStep(b, now).0 == Backoff(b.retryCount + 1, b.last429Time)
    ensures !NoAnchor(b.last429Time) && now - b.last429Time.value >= ESCALATION_WINDOW_SECONDS ==>
      RateLimitStep(b, now) == (Backoff(1, Some(now)), 30)
  {
  }

  /** With the anchor moved, a hit that restarts the tally opens a new window:
      the next hit inside it waits 60 s again. */
  lemma BurstAfterResetEscalates(b: Backoff, reset: int, next: int)
    requires !NoAnchor(b.last429Time) && reset - b.last429Time.value >= ESCALATION_WINDOW_SECONDS
    requires reset != 0 && 0 <= next - reset < ESCALATION_WINDOW_SECONDS
    ensures Replay(b, [reset, next]).1 == [30, 60]
    ensures Replay(b, [reset, next]).0 == Backoff(2, Some(reset))
  {
    var first := RateLimitStep(b, reset);
    assert first == (Backoff(1, Some(reset)), 30);
    assert [reset, next][1..] == [next];
    assert RateLimitStep(first.0, next) == (Backoff(2, Some(reset)), 60);
    assert [next][1..] == [];
    assert Replay(Backoff(2, Some(reset)), []) == (Backoff(2, Some(reset)), []);
    var second := Replay(Backoff(1, Some(reset)), [next]);
    assert second.0 == Backoff(2, Some(reset));
    assert second.1 == [60];
  }

  /** A run of hits at the given times: the final state and the waits. */
  function Replay(b: Backoff, times: seq<int>): (r: (Backoff, seq<nat>))
    ensures |r.1| == |times|
    decreases |times|
  {
    if times == [] then (b, [])
    else
      var step := RateLimitStep(b, times[0]);
      var rest := Replay(step.0, times[1..]);
      (rest.0, [step.1] + rest.1)
  }

  function ReplayAsWritten(b: Backoff, times: seq<int>): (r: (Backoff, seq<nat>))
    ensures |r.1| == |times|
    decreases |times|
  {
    if times == [] then (b, [])
    else
      var step := RateLimitStepAsWritten(b, times[0]);
      var rest := ReplayAsWritten(step.0, times[1..]);
      (rest.0, [step.1] + rest.1)
  }

  /** Inside one window the i-th further hit counts `c + i + 1` and waits
      accordingly: 30, then 60, then 120 for every later hit. */
  lemma {:induction false} BurstEscalates(c: nat, anchor: int, times: seq<int>)
    requires anchor != 0
    requires forall i :: 0 <= i < |times| ==> times[i] - anchor < ESCALATION_WINDOW_SECONDS
    ensures Replay(Backoff(c, Some(anchor)), times).0 == Backoff(c + |times|, Some(anchor))
    ensures forall i :: 0 <= i < |times| ==> Replay(Backoff(c, Some(anchor)), times).1[i] == WaitFor(c + i + 1)
    decreases |times|
  {
    if times != [] {
      BurstEscalates(c + 1, anchor, times[1..]);
      var rest := Replay(Backoff(c + 1, Some(anchor)), times[1..]);
      assert Replay(Backoff(c, Some(anchor)), times).1 == [WaitFor(c + 1)] + rest.1;
    }
  }

  /** From a fresh client, hits within 30 minutes of the first (which is not
      at time 0) wait 30 s, 60 s, then 120 s for every later one. */
  lemma FirstBurstWaits(times: seq<int>)
    requires |times| >= 1 && times[0] != 0
    requires forall i :: 0 <= i < |times| ==> times[i] - times[0] < ESCALATION_WINDOW_SECONDS
    ensures forall i :: 0 <= i < |times| ==>
      Replay(Backoff(0, None), times).1[i] == if i == 0 then 30 else if i == 1 then 60 else 120
  {
    BurstEscalates(1, times[0], times[1..]);
    var rest := Replay(Backoff(1, Some(times[0])), times[1..]);
    assert Replay(Backoff(0, None), times).1 == [30] + rest.1;
  }

  /** Inside the first 30 minutes after the anchor the code as written and the
      corrected controller agree hit for hit: they differ only in the reset
      branch. */
  lemma {:induction false} AsWrittenAgreesWithinWindow(c: nat, anchor: int, times: seq<int>)
    requires anchor != 0
    requires forall i :: 0 <= i < |times| ==> times[i] - anchor < ESCALATION_WINDOW_SECONDS
    ensures ReplayAsWritten(Backoff(c, Some(anchor)), times) == Replay(Backoff(c, Some(anchor)), times)
    decreases |times|
  {
    if times != [] {
      assert RateLimitStepAsWritten(Backoff(c, Some(anchor)), times[0])
        == RateLimitStep(Backoff(c, Some(anchor)), times[0])
        == (Backoff(c + 1, Some(anchor)), WaitFor(c + 1));
      AsWrittenAgreesWithinWindow(c + 1, anchor, times[1..]);
    }
  }

  /** As written, hits within 30 minutes of the first-ever hit (not at time
      0) escalate too: they wait 30 s, 60 s, then 120 s for every later one,
      and the i-th hit leaves the count at i + 1. */
  lemma AsWrittenFirstBurstWaits(times: seq<int>)
    requires |times| >= 1 && times[0] != 0
    requires forall i :: 0 <= i < |times| ==> times[i] - times[0] < ESCALATION_WINDOW_SECONDS
    ensures ReplayAsWritten(Backoff(0, None), times).0 == Backoff(|times|, Some(times[0]))
    ensures forall i :: 0 <= i < |times| ==>
      ReplayAsWritten(Backoff(0, None), times).1[i] == if i == 0 then 30 else if i == 1 then 60 else 120
  {
    AsWrittenAgreesWithinWindow(1, times[0], times[1..]);
    BurstEscalates(1, times[0], times[1..]);
    var rest := ReplayAsWritten(Backoff(1, Some(times[0])), times[1..]);
    assert ReplayAsWritten(Backoff(0, None), times).1 == [30] + rest.1;
  }

  /** As written, once a hit falls 30 minutes after the first-ever hit, every
      later hit restarts the tally at 1 and waits 30 s: the anchor never moves. */
  lemma {:induction false} AsWrittenNeverEscalatesAgain(c: nat, anchor: int, times: seq<int>)
    requires anchor != 0
    requires forall i :: 0 <= i < |times| ==> times[i] - anchor >= ESCALATION_WINDOW_SECONDS
    ensures ReplayAsWritten(Backoff(c, Some(anchor)), times).0.last429Time == Some(anchor)
    ensures forall i :: 0 <= i < |times| ==> ReplayAsWritten(Backoff(c, Some(anchor)), times).1[i] == 30
    decreases |times|
  {
    if times != [] {
      AsWrittenNeverEscalatesAgain(1, anchor, times[1..]);
      var rest := ReplayAsWritten(Backoff(1, Some(anchor)), times[1..]);
      assert ReplayAsWritten(Backoff(c, Some(anchor)), times).1 == [30] + rest.1;
    }
  }

  /** Hits at 100 s, 1900 s and 1901 s: as written the third hit, one second
      after the second, still waits only 30 s; with the anchor moved it waits 60 s. */
  lemma StaleAnchorCounterexample()
    ensures ReplayAsWritten(Backoff(0, None), [100, 1900, 1901]).1 == [30, 30, 30]
    ensures Replay(Backoff(0, None), [100, 1900, 1901]).1 == [30, 30, 60]
  {
    assert ReplayAsWritten(Backoff(1, Some(100)), [1901]).1 == [30];
    assert ReplayAsWritten(Backoff(1, Some(100)), [1900, 1901]).1 == [30, 30];
    assert Replay(Backoff(1, Some(1900)), [1901]).1 == [60];
    assert Replay(Backoff(1, Some(100)), [1900, 1901]).1 == [30, 60];
  }

  /** A source timestamp rejected as too far from the local clock. */
  datatype TimestampError = TimestampTooOld(source: string, deltaSeconds: int)

  /** `validate_timestamp`: the timestamp itself when it is within 10 s of
      `now` in either direction (exactly 10 s is accepted). */
  function ValidateTimestamp(source: string, ts: int, now: int): (r: Result<int, TimestampError>)
    ensures r.Ok? <==> -MAX_CLOCK_SKEW_SECONDS <= now - ts <= MAX_CLOCK_SKEW_SECONDS
    ensures r.Ok? ==> r.value == ts
    ensures r.Err? ==> r.error.deltaSeconds > MAX_CLOCK_SKEW_SECONDS
  {
    var delta := if now - ts < 0 then ts - now else now - ts;
    if delta > MAX_CLOCK_SKEW_SECONDS then Err(TimestampTooOld(source, delta)) else Ok(ts)
  }

  /** `BaseAPIClient`: the per-venue back-off state. */
  class ApiClient {
    const name: string
    const interval: int
    var retryCount: nat
    var last429Time: Option<int>

    constructor (name: string, pollingInterval: int)
      ensures this.name == name && interval == pollingInterval
      ensures retryCount == 0 && last429Time == None
    {
      this.name := name;
      interval := pollingInterval;
      retryCount := 0;
      last429Time := None;
    }

    function State(): Backoff
      reads this
    {
      Backoff(retryCount, last429Time)
    }

    /** One rate-limit hit at `now`, as the source handles it: returns the
        wait it sleeps. A hit after the window restarts the tally but keeps
        the old anchor. */
    method HandleRateLimit(now: int) returns (wait: nat)
      modifies this
      ensures (State(), wait) == RateLimitStepAsWritten(old(State()), now)
      ensures wait in {30, 60, 120}
    {
      if NoAnchor(last429Time) {
        last429Time := Some(now);
        retryCount := 1;
        wait := 30;
      } else if now - last429Time.value < ESCALATION_WINDOW_SECONDS {
        retryCount := retryCount + 1;
        wait := WAIT_TABLE[if retryCount - 1 < 2 then retryCount - 1 else 2];
      } else {
        retryCount := 1;
        wait := 30;
      }
    }
  }
}
