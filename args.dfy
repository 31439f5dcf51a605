/**
 * The argument checks of two commands: `agg`, which starts the polling loop,
 * and `browse`, which chooses how many posts to show.
 */
module Args {
  import opened Wrappers
  import opened Dispatch

  /** A time.Duration, in nanoseconds. */
  type Duration = int

  /** Go's int on a 64-bit platform, the result type of strconv.Atoi. */
  type Int64 = x: int | -0x8000_0000_0000_0000 <= x < 0x8000_0000_0000_0000

  /** Go's int32. */
  type Int32 = x: int | -0x8000_0000 <= x < 0x8000_0000

  /** How `agg` ends before its first scrape, or the interval it polls at. */
  datatype AggStart =
    | Rejected(message: string)      // handlerAgg returns this error
    | TickerPanics(interval: Duration) // time.NewTicker panics on a non-positive interval
    | Polling(interval: Duration)    // the ticker loop runs with this interval

  /**
   * handlerAgg up to the ticker loop. `parseDuration` is time.ParseDuration,
   * giving the duration or its error's text.
   */
  function Agg(cmd: Command, parseDuration: string -> Result<Duration, string>): (r: AggStart)
    ensures r.Rejected? <==> |cmd.args| < 1 || |cmd.args| > 2 || parseDuration(cmd.args[0]).Err?
    ensures |cmd.args| < 1 || |cmd.args| > 2 ==>
      r == Rejected("usage: " + cmd.name + " <time_between_reqs>")
    ensures 1 <= |cmd.args| <= 2 && parseDuration(cmd.args[0]).Err? ==>
      r == Rejected("invalid duration: " + parseDuration(cmd.args[0]).error)
    ensures r.Polling? <==>
      1 <= |cmd.args| <= 2 && parseDuration(cmd.args[0]).Ok? && parseDuration(cmd.args[0]).value > 0
    ensures !r.Rejected? ==> r.interval == parseDuration(cmd.args[0]).value
  {
    if |cmd.args| < 1 || |cmd.args| > 2 then
      Rejected("usage: " + cmd.name + " <time_between_reqs>")
    else match parseDuration(cmd.args[0])
      case Err(e) => Rejected("invalid duration: " + e)
      case Ok(d) => if d <= 0 then TickerPanics(d) else Polling(d)
  }

  /** The number of posts `browse` shows when it is given no limit. */
  const DefaultLimit: Int64 := 2

  /**
   * The limit of handlerBrowse: the default unless there is exactly one
   * argument, which must then be an integer. `atoi` is strconv.Atoi, giving
   * the value or its error's text.
   */
  function BrowseLimit(cmd: Command, atoi: string -> Result<Int64, string>): (r: Result<Int64, string>)
    ensures |cmd.args| != 1 ==> r == Ok(DefaultLimit)
    ensures |cmd.args| == 1 ==> (r.Ok? <==> atoi(cmd.args[0]).Ok?)
    ensures |cmd.args| == 1 && atoi(cmd.args[0]).Ok? ==> r.value == atoi(cmd.args[0]).value
    ensures |cmd.args| == 1 && atoi(cmd.args[0]).Err? ==>
      r == Err("invalid limit: " + atoi(cmd.args[0]).error)
  {
    if |cmd.args| == 1 then
      match atoi(cmd.args[0])
      case Ok(n) => Ok(n)
      case Err(e) => Err("invalid limit: " + e)
    else Ok(DefaultLimit)
  }

  /**
   * Go's int32(x): the int32 congruent to x modulo 2^32, so a value already
   * in range is kept.
   */
  function ToInt32(x: int): (r: Int32)
    ensures (r - x) % 0x1_0000_0000 == 0
    ensures -0x8000_0000 <= x < 0x8000_0000 ==> r == x
  {
    (x + 0x8000_0000) % 0x1_0000_0000 - 0x8000_0000
  }
}
