/**
 * The behaviour the console collection's test suite pins down, one method per
 * case: each sets up a fresh console and sender, starts the collection, makes
 * the case's console call, stops the collection as the suite's teardown does,
 * and returns what the spies observed.
 */
module ConsoleCollectionSuite {
  import opened Wrappers
  import opened ConsoleRecords
  import opened ConsoleCollection

  const FOO_BAR: seq<string> := ["foo", "bar"]

  lemma FooBarMessage()
    ensures Join(FOO_BAR) == "foo bar"
  {
    JoinCons("foo", ["bar"]);
  }

  /** With `forward-logs` on and `log` forwarded, `console.log('foo', 'bar')` sends one info record. */
  method SendsConsoleLogsWhenFlagOn() returns (sent: seq<LogRecord>, native: seq<Call>)
    ensures sent == [LogRecord("foo bar", Status.Info, Some(CONSOLE), None)]
    ensures native == [Call(Channel.Log, FOO_BAR)]
  {
    var s := new Sender({Handler.Http});
    var console := new Interceptor();
    var stop := console.Start(Configuration({Channel.Log}, false), true, s);
    console.Invoke(Channel.Log, FOO_BAR);
    FooBarMessage();
    sent, native := s.sent, console.native;
    Release(stop);
  }

  /** With `forward-logs` off, the same call sends nothing but still reaches `console.log`. */
  method NoConsoleLogsWhenFlagOff() returns (sent: seq<LogRecord>, native: seq<Call>)
    ensures sent == []
    ensures native == [Call(Channel.Log, FOO_BAR)]
  {
    var s := new Sender({Handler.Http});
    var console := new Interceptor();
    var stop := console.Start(Configuration({Channel.Log}, false), false, s);
    console.Invoke(Channel.Log, FOO_BAR);
    sent, native := s.sent, console.native;
    Release(stop);
  }

  /** `console.error` with `forwardErrorsToLogs`: the last record sent, for either flag value. */
  method ConsoleErrorRecord(flag: bool) returns (last: LogRecord, native: seq<Call>)
    ensures last.origin == (if flag then Some(CONSOLE) else None)
    ensures last.error == Some(ErrorInfo(CONSOLE, None))
    ensures last.message == "foo bar" && last.status == Status.Error
    ensures native == [Call(Channel.Error, FOO_BAR)]
  {
    var s := new Sender({Handler.Http});
    var console := new Interceptor();
    var stop := console.Start(Configuration({}, true), flag, s);
    console.Invoke(Channel.Error, FOO_BAR);
    FooBarMessage();
    last, native := s.sent[|s.sent| - 1], console.native;
    Release(stop);
  }

  /**
   * With the console handler switched on after start, one `console.log` reaches
   * the original channel once and is not printed again through `display`.
   */
  method NoDoublePrintWithConsoleHandler() returns (nativeCount: nat, displayed: seq<LogRecord>)
    ensures nativeCount == 1
    ensures displayed == []
  {
    var s := new Sender({Handler.Http});
    var console := new Interceptor();
    var stop := console.Start(Configuration({Channel.Log}, false), true, s);
    s.SetHandler({Handler.Console});
    console.Invoke(Channel.Log, FOO_BAR);
    nativeCount, displayed := |console.native|, s.displayed;
    Release(stop);
  }

  /**
   * After the `stop` handle is called, and once more, a call is only passed
   * through; a `noop` handle on a console never started changes nothing either.
   */
  method StopRemovesInterception() returns (sent: seq<LogRecord>, native: seq<Call>, stillInstalled: bool)
    ensures sent == []
    ensures native == [Call(Channel.Log, FOO_BAR), Call(Channel.Error, FOO_BAR)]
    ensures !stillInstalled
  {
    var s := new Sender({Handler.Http});
    var console := new Interceptor();
    Release(Noop);
    var stop := console.Start(Configuration({Channel.Log}, true), true, s);
    Release(stop);
    Release(stop);
    console.Invoke(Channel.Log, FOO_BAR);
    console.Invoke(Channel.Error, FOO_BAR);
    sent, native, stillInstalled := s.sent, console.native, console.installed;
  }

  /**
   * A handle kept from an earlier session does not remove the wrappers of a
   * later one: each start returns its own `stop`.
   */
  method StaleHandleKeepsLaterSession() returns (stillInstalled: bool, sent: seq<LogRecord>)
    ensures stillInstalled
    ensures sent == [LogRecord("foo bar", Status.Info, Some(CONSOLE), None)]
  {
    var s := new Sender({Handler.Http});
    var console := new Interceptor();
    var first := console.Start(Configuration({Channel.Log}, false), true, s);
    Release(first);
    var second := console.Start(Configuration({Channel.Log}, false), true, s);
    Release(first);
    console.Invoke(Channel.Log, FOO_BAR);
    FooBarMessage();
    stillInstalled, sent := console.installed, s.sent;
    Release(second);
  }
}
