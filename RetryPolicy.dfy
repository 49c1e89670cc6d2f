/** The retry policy that allows exactly one attempt until it is reset. */
module RetryPolicy {
  import opened Wrappers
  import opened Decimal
  import opened Durations

  const ONE := 1
  const EXHAUSTED := "Number of attempts (1) exhausted."

  class RunOnce {
    var remainingAttempts: int
    const duration: Duration

    /** The only values the counter takes: one attempt left, or none. */
    ghost predicate Valid()
      reads this
    {
      remainingAttempts == 0 || remainingAttempts == ONE
    }

    constructor (duration: Duration)
      ensures Valid() && remainingAttempts == ONE && this.duration == duration
    {
      remainingAttempts := ONE;
      this.duration := duration;
    }

    function HasNextAttempt(): (b: bool)
      reads this
      ensures b <==> remainingAttempts == ONE
    {
      remainingAttempts == ONE
    }

    /** The first call spends the attempt and yields the delay in milliseconds;
        later calls fail with IllegalStateException and change nothing. */
    method NextAttemptInMillis() returns (r: Result<Int64, string>)
      requires Valid()
      modifies this
      ensures Valid()
      ensures old(HasNextAttempt()) ==> r == Success(ToMillis(duration)) && !HasNextAttempt()
      ensures !old(HasNextAttempt()) ==> r == Failure(EXHAUSTED) && remainingAttempts == old(remainingAttempts)
    {
      if remainingAttempts == ONE {
        remainingAttempts := remainingAttempts - 1;
        r := Success(ToMillis(duration));
      } else {
        assert DigitChar(1) == '1';
        assert IntToString(ONE) == "1";
        assert "Number of attempts (" + "1" + ") exhausted." == EXHAUSTED;
        r := Failure("Number of attempts (" + IntToString(ONE) + ") exhausted.");
      }
    }

    /** Attempts made so far: 0 before the attempt is spent, 1 after. */
    function Attempts(): (n: int)
      reads this
      requires Valid()
      ensures n == ONE - remainingAttempts
      ensures n == 0 <==> HasNextAttempt()
    {
      if HasNextAttempt() then 0 else 1
    }

    method Reset()
      modifies this
      ensures Valid() && HasNextAttempt()
    {
      remainingAttempts := ONE;
    }
  }

  /** A whole cycle: the attempt is granted once, refused next, and granted again after reset. */
  method RunOnceCycle(d: Duration) returns (first: Result<Int64, string>, second: Result<Int64, string>, third: Result<Int64, string>)
    ensures first == Success(ToMillis(d))
    ensures second == Failure(EXHAUSTED)
    ensures third == first
  {
    var policy := new RunOnce(d);
    first := policy.NextAttemptInMillis();
    assert policy.Attempts() == 1;
    second := policy.NextAttemptInMillis();
    policy.Reset();
    assert policy.Attempts() == 0;
    third := policy.NextAttemptInMillis();
  }
}
