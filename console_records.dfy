/**
 * Record construction for console forwarding: which records one console call
 * hands to the sender, and what each of them holds. Everything here is a pure
 * function of the configuration, the `forward-logs` flag, the channel called
 * and the call's arguments.
 */
module ConsoleRecords {
  import opened Wrappers

  /** The console methods that can be wrapped (`console.log`, `console.error`, ...). */
  datatype Channel = Log | Debug | Info | Warn | Error

  /** Severity of a log record (`StatusType`). */
  datatype Status = Debug | Info | Warn | Error

  /** The value of `ErrorSource.CONSOLE`. */
  const CONSOLE: string := "console"

  /** The `error` object of a record sent on the error-forwarding path. */
  datatype ErrorInfo = ErrorInfo(origin: string, stack: Option<string>)

  /** A record handed to the sender; `None` fields are absent (`undefined`). */
  datatype LogRecord = LogRecord(
    message: string,
    status: Status,
    origin: Option<string>,
    error: Option<ErrorInfo>)

  /** The part of the logs configuration the collection reads. */
  datatype Configuration = Configuration(forwardConsoleLogs: set<Channel>, forwardErrorsToLogs: bool)

  /** Sum of the lengths of the arguments. */
  function TotalLength(args: seq<string>): nat
  {
    if args == [] then 0 else |args[0]| + TotalLength(args[1..])
  }

  /** The message of a record: the arguments joined by a single space. */
  function Join(args: seq<string>): (r: string)
    ensures args == [] ==> r == ""
    ensures args != [] ==> |r| == TotalLength(args) + |args| - 1
    ensures args != [] ==> args[0] <= r
  {
    if args == [] then ""
    else if |args| == 1 then args[0]
    else args[0] + " " + Join(args[1..])
  }

  /** Cuts a string at every space; the inverse of Join on space-free arguments. */
  function Split(s: string): (r: seq<string>)
    ensures |r| >= 1
    ensures forall i :: 0 <= i < |r| ==> ' ' !in r[i]
  {
    if s == [] then [""]
    else
      var rest := Split(s[1..]);
      if s[0] == ' ' then [""] + rest
      else [[s[0]] + rest[0]] + rest[1..]
  }

  lemma {:induction false} JoinCons(a: string, rest: seq<string>)
    requires rest != []
    ensures Join([a] + rest) == a + " " + Join(rest)
  {
    assert ([a] + rest)[1..] == rest;
  }

  lemma {:induction false} SplitPrefix(a: string, t: string)
    requires ' ' !in a
    ensures Split(a + t) == [a + Split(t)[0]] + Split(t)[1..]
  {
    if a == [] {
      var st := Split(t);
      assert a + t == t && a + st[0] == st[0];
      assert st == [st[0]] + st[1..];
    } else {
      assert (a + t)[0] == a[0];
      assert (a + t)[1..] == a[1..] + t;
      SplitPrefix(a[1..], t);
      assert [a[0]] + (a[1..] + Split(t)[0]) == a + Split(t)[0];
    }
  }

  /** Splitting a message at its spaces gives back arguments that hold no space. */
  lemma {:induction false} SplitJoin(args: seq<string>)
    requires args != []
    requires forall i :: 0 <= i < |args| ==> ' ' !in args[i]
    ensures Split(Join(args)) == args
  {
    if |args| == 1 {
      SplitPrefix(args[0], "");
      assert args[0] + "" == args[0];
    } else {
      var j := Join(args[1..]);
      assert Join(args) == args[0] + (" " + j);
      SplitPrefix(args[0], " " + j);
      assert (" " + j)[1..] == j;
      SplitJoin(args[1..]);
      assert (" " + j)[0] == ' ';
      assert Split(" " + j) == [""] + args[1..];
      assert args[0] + "" == args[0];
      assert args == [args[0]] + args[1..];
    }
  }

  /** Joining the pieces of a split string gives the string back. */
  lemma {:induction false} JoinSplit(s: string)
    ensures Join(Split(s)) == s
  {
    if s != [] {
      var rest := Split(s[1..]);
      JoinSplit(s[1..]);
      if s[0] == ' ' {
        JoinCons("", rest);
        assert s == " " + s[1..];
      } else if |rest| == 1 {
        assert s == [s[0]] + s[1..];
      } else {
        JoinCons(rest[0], rest[1..]);
        assert rest == [rest[0]] + rest[1..];
        JoinCons([s[0]] + rest[0], rest[1..]);
        assert s == [s[0]] + s[1..];
      }
    }
  }

  /** The severity a channel's records get. */
  function StatusOf(ch: Channel): (s: Status)
    ensures s == Status.Error <==> ch == Channel.Error
    ensures ch == Channel.Log ==> s == Status.Info
  {
    match ch
    case Log => Status.Info
    case Debug => Status.Debug
    case Info => Status.Info
    case Warn => Status.Warn
    case Error => Status.Error
  }

  /** The record of the general (`forwardConsoleLogs`) path. */
  function GeneralRecord(ch: Channel, args: seq<string>): LogRecord
  {
    LogRecord(Join(args), StatusOf(ch), Some(CONSOLE), None)
  }

  /** The record of the error-forwarding (`forwardErrorsToLogs`) path. */
  function ErrorRecord(forwardLogs: bool, args: seq<string>): LogRecord
  {
    LogRecord(Join(args), Status.Error,
              if forwardLogs then Some(CONSOLE) else None,
              Some(ErrorInfo(CONSOLE, None)))
  }

  /** Does the general path fire for a call on `ch`? */
  predicate ForwardsGenerally(cfg: Configuration, forwardLogs: bool, ch: Channel)
  {
    forwardLogs && ch in cfg.forwardConsoleLogs
  }

  /** Does the error-forwarding path fire for a call on `ch`? */
  predicate ForwardsError(cfg: Configuration, ch: Channel)
  {
    ch == Channel.Error && cfg.forwardErrorsToLogs
  }

  /** A record that came from the console, so the console handler must not print it again. */
  predicate FromConsole(rec: LogRecord)
  {
    rec.origin == Some(CONSOLE) || (rec.error.Some? && rec.error.value.origin == CONSOLE)
  }

  /**
   * The records one call `console.<ch>(...args)` hands to the sender, in order,
   * while the collection is installed.
   */
  function Forward(cfg: Configuration, forwardLogs: bool, ch: Channel, args: seq<string>): (r: seq<LogRecord>)
    // every record carries the arguments joined by a space
    ensures forall rec :: rec in r ==> rec.message == Join(args)
    // a general record is sent exactly when the channel is configured and the flag is on;
    // it has the channel's severity and origin "console"
    ensures (exists rec :: rec in r && rec.error.None?) <==> ForwardsGenerally(cfg, forwardLogs, ch)
    ensures forall rec :: rec in r && rec.error.None? ==> rec.status == StatusOf(ch) && rec.origin == Some(CONSOLE)
    // an error record is sent exactly when the error channel is called with forwardErrorsToLogs;
    // its error object is {origin: console, stack: undefined} whatever the flag, and it has
    // origin "console" exactly when the flag is on
    ensures (exists rec :: rec in r && rec.error.Some?) <==> ForwardsError(cfg, ch)
    ensures forall rec :: rec in r && rec.error.Some? ==>
              && rec.status == Status.Error
              && rec.error.value == ErrorInfo(CONSOLE, None)
              && (rec.origin == Some(CONSOLE) <==> forwardLogs)
              && (rec.origin.None? <==> !forwardLogs)
    // at most one record of each kind, the general one first
    ensures |r| <= 2 && (|r| == 2 ==> r[0].error.None? && r[1].error.Some?)
    // with the flag off nothing carries an origin, and only the error channel sends anything
    ensures !forwardLogs ==> forall rec :: rec in r ==> rec.origin.None?
    ensures !forwardLogs && ch != Channel.Error ==> r == []
    // nothing forwarded is echoed again by a console-printing handler
    ensures forall rec :: rec in r ==> FromConsole(rec)
  {
    (if ForwardsGenerally(cfg, forwardLogs, ch) then [GeneralRecord(ch, args)] else [])
    + (if ForwardsError(cfg, ch) then [ErrorRecord(forwardLogs, args)] else [])
  }
}
