/**
 * The inactivity period read from the configuration file. Reading the file and
 * converting its text with int() are I/O and are not modelled; only the range
 * check that decides whether the run may start is (Track_EDGAR.py, lines 37-43).
 */
module Config {
  import opened Wrappers

  /** Largest accepted inactivity period: one day, in seconds. */
  const MaxPeriod: int := 86400

  /** Why the run stops before any row is read. */
  datatype ConfigError = PeriodOutOfRange(period: int)

  predicate ValidPeriod(period: int) {
    1 <= period <= MaxPeriod
  }

  /**
   * The source raises and aborts when `period <= 0 or period > 86400`;
   * otherwise the period is used unchanged.
   */
  function CheckPeriod(period: int): (r: Result<int, ConfigError>)
    ensures r.Success? <==> 0 < period && period <= 86400
    ensures r.Success? ==> r.value == period
    ensures r.Failure? ==> r.error == PeriodOutOfRange(period)
  {
    if period <= 0 || period > MaxPeriod then Failure(PeriodOutOfRange(period))
    else Success(period)
  }
}
