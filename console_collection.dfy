/**
 * The console collection: wrappers installed on the console channels that
 * pass every call through to the original channel and hand the records built
 * by ConsoleRecords.Forward to a sender.
 */
module ConsoleCollection {
  import opened Wrappers
  import opened ConsoleRecords

  /** The sender's handler kinds (`HandlerType`). */
  datatype Handler = Http | Console

  /** One call that reached an original (unwrapped) console channel. */
  datatype Call = Call(channel: Channel, args: seq<string>)

  /** Would the sender's console handler print `rec` again through `display`? */
  predicate Echoes(handlers: set<Handler>, rec: LogRecord)
  {
    Console in handlers && !FromConsole(rec)
  }

  /**
   * The sender the collection delivers to. `sent` is every record handed to its
   * send function; `displayed` is every record its console handler printed
   * through `display`.
   */
  class Sender {
    var handlers: set<Handler>
    var sent: seq<LogRecord>
    var displayed: seq<LogRecord>

    constructor (initial: set<Handler>)
      ensures handlers == initial && sent == [] && displayed == []
    {
      handlers := initial;
      sent := [];
      displayed := [];
    }

    /** `sender.setHandler(...)`: replaces the active handler set. */
    method SetHandler(hs: set<Handler>)
      modifies this
      ensures handlers == hs
      ensures sent == old(sent) && displayed == old(displayed)
    {
      handlers := hs;
    }

    /**
     * Receives one record. The console handler, if active now, echoes it unless
     * it came from the console, whose own channel already printed it.
     */
    method Deliver(rec: LogRecord)
      modifies this
      ensures handlers == old(handlers)
      ensures sent == old(sent) + [rec]
      ensures displayed == old(displayed) + (if Echoes(handlers, rec) then [rec] else [])
    {
      sent := sent + [rec];
      if Echoes(handlers, rec) {
        displayed := displayed + [rec];
      }
    }
  }

  /**
   * The host console with the collection's wrappers. `native` is every call
   * that reached an original channel; while `installed`, calls are also turned
   * into records for `sender`, using the configuration and the `forward-logs`
   * flag read at start. `session` numbers the starts, so that a `stop` handle
   * acts only on the session that returned it.
   */
  class Interceptor {
    var installed: bool
    var configuration: Configuration
    var forwardLogs: bool
    var sender: Sender?
    var native: seq<Call>
    var session: nat

    ghost predicate Valid()
      reads this
    {
      installed <==> sender != null
    }

    constructor ()
      ensures Valid() && !installed && native == [] && session == 0
    {
      installed := false;
      configuration := Configuration({}, false);
      forwardLogs := false;
      sender := null;
      native := [];
      session := 0;
    }

    /**
     * `startConsoleCollection(configuration, sender)`: installs the wrappers
     * and returns the `stop` handle of this session.
     */
    method Start(cfg: Configuration, flag: bool, s: Sender) returns (stop: StopHandle)
      requires Valid() && !installed
      modifies this
      ensures Valid() && installed
      ensures configuration == cfg && forwardLogs == flag && sender == s
      ensures native == old(native)
      ensures session == old(session) + 1
      ensures stop == Uninstall(this, session)
    {
      session := session + 1;
      installed := true;
      configuration := cfg;
      forwardLogs := flag;
      sender := s;
      stop := Uninstall(this, session);
    }

    /** The `stop` handle's work: removes the wrappers; a second call changes nothing. */
    method Stop()
      requires Valid()
      modifies this
      ensures Valid() && !installed
      ensures native == old(native) && session == old(session)
      ensures !old(installed) ==> unchanged(this)
    {
      installed := false;
      sender := null;
    }

    /**
     * `console.<ch>(...args)`: the original channel is called exactly once;
     * while installed, the sender receives exactly Forward's records and its
     * console handler, whatever handlers it has at this moment, prints none of them.
     */
    method Invoke(ch: Channel, args: seq<string>)
      requires Valid()
      modifies this, sender
      ensures Valid()
      ensures native == old(native) + [Call(ch, args)]
      ensures installed == old(installed) && sender == old(sender) && session == old(session)
      ensures configuration == old(configuration) && forwardLogs == old(forwardLogs)
      ensures sender != null ==>
                && sender.sent == old(sender.sent) + Forward(configuration, forwardLogs, ch, args)
                && sender.displayed == old(sender.displayed)
                && sender.handlers == old(sender.handlers)
    {
      native := native + [Call(ch, args)];
      if installed {
        if ForwardsGenerally(configuration, forwardLogs, ch) {
          sender.Deliver(GeneralRecord(ch, args));
        }
        if ForwardsError(configuration, ch) {
          sender.Deliver(ErrorRecord(forwardLogs, args));
        }
      }
    }
  }

  /** The value of a `stop` handle: `noop`, or the one a start of `target` returned. */
  datatype StopHandle = Noop | Uninstall(target: Interceptor, session: nat)

  /** Does calling `stop` now remove wrappers, i.e. is its session still installed? */
  predicate Live(stop: StopHandle)
    reads if stop.Uninstall? then {stop.target} else {}
  {
    stop.Uninstall? && stop.target.installed && stop.target.session == stop.session
  }

  /**
   * Calls a `stop` handle. The handle of the installed session removes the
   * wrappers; `noop`, a second call, and the handle of an earlier session
   * change nothing.
   */
  method Release(stop: StopHandle)
    requires stop.Uninstall? ==> stop.target.Valid()
    modifies if stop.Uninstall? then {stop.target} else {}
    ensures stop.Uninstall? ==> stop.target.Valid()
    ensures old(Live(stop)) ==> !stop.target.installed
    ensures old(Live(stop)) ==> stop.target.native == old(stop.target.native)
    ensures old(Live(stop)) ==> stop.target.session == old(stop.target.session)
    ensures stop.Uninstall? && !old(Live(stop)) ==> unchanged(stop.target)
  {
    match stop
    case Noop =>
    case Uninstall(target, session) =>
      if target.installed && target.session == session {
        target.Stop();
      }
  }
}
