/** The retry loops of the Rust clients (src/bin/load/retry.rs) and of the synchronous Python helper
    (python/ai_protocol/protocol.py). What the network and the clock do is given by a script, read turn by turn. */
module Retry {
  import opened Wrappers
  import opened Responses
  import opened Text

  const MAX_ATTEMPTS: nat := 5

  // ---------- Retry-After ----------

  predicate IsSpace(c: char) {
    c == ' ' || c == '\t'
  }

  function TrimLeft(s: string): string {
    if s != [] && IsSpace(s[0]) then TrimLeft(s[1..]) else s
  }

  function TrimRight(s: string): string {
    if s != [] && IsSpace(s[|s| - 1]) then TrimRight(s[..|s| - 1]) else s
  }

  function Trim(s: string): string {
    TrimRight(TrimLeft(s))
  }

  /** The seconds a response asks to wait: one when the header is missing or malformed. */
  function Seconds(r: Response): nat {
    var raw := Trim(if r.retryAfter.Some? then r.retryAfter.value else "1");
    if IsNumber(raw) then Number(raw) else 1
  }

  predicate Blank(s: string) {
    forall i | 0 <= i < |s| :: IsSpace(s[i])
  }

  lemma {:induction false} TrimLeftBlank(left: string, s: string)
    requires Blank(left) && (s == [] || !IsSpace(s[0]))
    ensures TrimLeft(left + s) == s
  {
    if left == [] {
      assert left + s == s;
    } else {
      assert (left + s)[1..] == left[1..] + s;
      TrimLeftBlank(left[1..], s);
    }
  }

  lemma {:induction false} TrimRightBlank(s: string, right: string)
    requires Blank(right) && (s == [] || !IsSpace(s[|s| - 1]))
    ensures TrimRight(s + right) == s
  {
    if right == [] {
      assert s + right == s;
    } else {
      var shorter := right[..|right| - 1];
      assert (s + right)[..|s + right| - 1] == s + shorter;
      TrimRightBlank(s, shorter);
    }
  }

  /** Trimming takes the blanks on both sides, and nothing else. */
  lemma TrimBlanks(left: string, core: string, right: string)
    requires Blank(left) && Blank(right)
    requires core == [] || (!IsSpace(core[0]) && !IsSpace(core[|core| - 1]))
    ensures Trim(left + core + right) == core
  {
    if core == [] {
      assert left + core + right == (left + right) + core;
      TrimLeftBlank(left + right, core);
    } else {
      assert left + core + right == left + (core + right);
      TrimLeftBlank(left, core + right);
    }
    TrimRightBlank(core, if core == [] then [] else right);
  }

  /** A padded header asks for the seconds of its numeral; any other text, like a missing header, asks for one. */
  lemma SecondsOfHeader(r: Response, left: string, core: string, right: string)
    requires Blank(left) && Blank(right)
    requires core == [] || (!IsSpace(core[0]) && !IsSpace(core[|core| - 1]))
    ensures r.retryAfter == Some(left + core + right) ==> Seconds(r) == if IsNumber(core) then Number(core) else 1
    ensures r.retryAfter == None ==> Seconds(r) == 1
  {
    TrimBlanks(left, core, right);
    TrimBlanks("", "1", "");
    assert Number("1") == 1 && "" + "1" + "" == "1";
  }

  /** So a number of seconds written out in decimal is the number waited for. */
  lemma SecondsOfNumeral(r: Response, left: string, n: nat, right: string)
    requires Blank(left) && Blank(right) && r.retryAfter == Some(left + Decimal(n) + right)
    ensures Seconds(r) == n
  {
    var s := Decimal(n);
    assert IsDigit(s[0]) && IsDigit(s[|s| - 1]);
    SecondsOfHeader(r, left, s, right);
  }

  const MAX_DELAY: nat := 86400

  // ---------- The discipline both loops keep ----------

  /** One attempt: an answer, or no answer that could be read. */
  datatype Exchange = Answered(response: Response) | Lost

  /** Every attempt but the last was answered with a response that may be retried, and there are at most five. */
  predicate Disciplined(script: nat -> Exchange, attempts: nat) {
    && attempts <= MAX_ATTEMPTS
    && forall n | 1 <= n < attempts :: script(n).Answered? && SafeToRetry(script(n).response)
  }

  /** The Rust loop. It ends well exactly on a success, and otherwise only when it may not go on: an attempt is
      lost, its answer is not retryable or is the fifth, or the delay is past the client deadline. Before each
      retry it waits the seconds asked for. */
  method Run(script: nat -> Exchange) returns (ok: bool, attempts: nat, waits: seq<nat>)
    ensures 1 <= attempts && Disciplined(script, attempts)
    ensures ok <==> script(attempts).Answered? && IsSuccess(script(attempts).response.status)
    ensures !ok && attempts < MAX_ATTEMPTS && script(attempts).Answered? && SafeToRetry(script(attempts).response)
            ==> Seconds(script(attempts).response) > MAX_DELAY
    ensures |waits| == attempts - 1
    ensures forall n | 1 <= n < attempts :: waits[n - 1] == Seconds(script(n).response) <= MAX_DELAY
  {
    waits := [];
    for number := 1 to MAX_ATTEMPTS + 1
      invariant number <= MAX_ATTEMPTS && |waits| == number - 1
      invariant forall n | 1 <= n < number :: script(n).Answered? && SafeToRetry(script(n).response)
      invariant forall n | 1 <= n < number :: waits[n - 1] == Seconds(script(n).response) <= MAX_DELAY
    {
      attempts := number;
      var exchange := script(number);
      if exchange.Lost? {
        return false, attempts, waits;
      }
      var response := exchange.response;
      if IsSuccess(response.status) {
        return true, attempts, waits;
      }
      if number == MAX_ATTEMPTS || !SafeToRetry(response) {
        return false, attempts, waits;
      }
      var seconds := Seconds(response);
      if seconds > MAX_DELAY {
        return false, attempts, waits;
      }
      waits := waits + [seconds];
    }
    assert false;
  }

  /** The time left at the three points where the synchronous helper reads the clock. */
  datatype Clock = Clock(before: int, received: int, sleeping: int)

  datatype Outcome = Ended(response: Response) | DeadlineExceeded | Raised

  /** The synchronous Python loop: it returns the answer of the last attempt, or stops at the deadline before an
      attempt, after one, or when the delay would pass it. */
  method Execute(script: nat -> Exchange, clock: nat -> Clock) returns (outcome: Outcome, attempts: nat)
    ensures Disciplined(script, attempts)
    ensures outcome.Ended? ==>
              && attempts >= 1 && script(attempts) == Answered(outcome.response)
              && (attempts == MAX_ATTEMPTS || !PySafeToRetry(outcome.response))
    ensures outcome.Raised? ==> attempts >= 1 && script(attempts).Lost?
    ensures outcome.DeadlineExceeded? ==>
              || (attempts < MAX_ATTEMPTS && clock(attempts + 1).before <= 0)
              || (attempts >= 1 && script(attempts).Answered?
                  && (clock(attempts).received <= 0
                      || (attempts < MAX_ATTEMPTS && SafeToRetry(script(attempts).response)
                          && Seconds(script(attempts).response) >= clock(attempts).sleeping)))
    ensures forall n | 1 <= n <= attempts :: clock(n).before > 0
    ensures forall n | 1 <= n < attempts :: clock(n).received > 0 && Seconds(script(n).response) < clock(n).sleeping
  {
    hide SafeToRetry, PySafeToRetry, Seconds;
    attempts := 0;
    for attempt := 1 to MAX_ATTEMPTS + 1
      invariant attempts == attempt - 1 && attempt <= MAX_ATTEMPTS
      invariant forall n | 1 <= n <= attempts :: script(n).Answered? && SafeToRetry(script(n).response)
      invariant forall n | 1 <= n <= attempts :: clock(n).before > 0
      invariant forall n | 1 <= n <= attempts ::
                  clock(n).received > 0 && Seconds(script(n).response) < clock(n).sleeping
    {
      if clock(attempt).before <= 0 {
        return DeadlineExceeded, attempts;
      }
      attempts := attempt;
      var exchange := script(attempt);
      if exchange.Lost? {
        return Raised, attempts;
      }
      if clock(attempt).received <= 0 {
        return DeadlineExceeded, attempts;
      }
      ClassifiersAgree(exchange.response);
      if PySafeToRetry(exchange.response) && attempt < MAX_ATTEMPTS {
        if Seconds(exchange.response) >= clock(attempt).sleeping {
          return DeadlineExceeded, attempts;
        }
      } else {
        return Ended(exchange.response), attempts;
      }
    }
    assert false;
  }
}
