/**
 * The stream session of the AirSafe 2 stream client
 * (airsafe-v2-targets-stream-examples/serverless/aws-lambda/client.py):
 * the timer and its stop rule, the classification of decoded lines, the
 * per-client state, and the `stream` loop with its three outcomes.
 *
 * The HTTP response is a status code plus the sequence of lines it yields,
 * each already decoded (or not decodable) and paired with the elapsed time
 * the timer reads when the line has been handled.
 */
module Session {
  import opened Wrappers
  import Filters

  const StreamV2Url: string := "https://api.airsafe.spire.com/v2/targets/stream"
  const MaxTimeBetweenPositionTokens: int := 15
  /** Twice the keep-alive period: the read timeout and the graceful-stop window. */
  const MinReasonableTimeout: int := 2 * MaxTimeBetweenPositionTokens
  const Unauthorized: int := 401

  // ---------------------------------------------------------------- timer

  /** The timer's timeout: a number of time units, or infinity when no timeout is given. */
  datatype Limit = Finite(units: int) | Infinity

  function TimerLimit(timeout: Option<int>): Limit
  {
    match timeout
    case None => Infinity
    case Some(t) => Finite(t)
  }

  /** `_Timer.up`: the elapsed time strictly exceeds the timeout. */
  predicate Up(limit: Limit, elapsed: int)
  {
    match limit
    case Infinity => false
    case Finite(t) => elapsed > t
  }

  /** `_Timer.remaining`: the timeout minus the elapsed time (infinite without timeout). */
  function Remaining(limit: Limit, elapsed: int): Limit
  {
    match limit
    case Infinity => Infinity
    case Finite(t) => Finite(t - elapsed)
  }

  predicate Below(l: Limit, n: int)
  {
    l.Finite? && l.units < n
  }

  datatype MessageKey = PositionTokenKey | TargetKey | StatusKey
  datatype StopKind = HardTimeout | GracefulTimeout

  /**
   * `_general_callback`: the decision taken after every line. A hard stop
   * when the timer is up comes first; otherwise a graceful stop when the
   * last line was a position token and less than the minimum reasonable
   * timeout remains.
   */
  function StopDecision(limit: Limit, elapsed: int, last: Option<MessageKey>): (d: Option<StopKind>)
    ensures limit == Infinity ==> d == None
    ensures limit.Finite? ==>
      (d == Some(HardTimeout) <==> elapsed > limit.units)
    ensures limit.Finite? ==>
      (d == Some(GracefulTimeout) <==>
        elapsed <= limit.units && last == Some(PositionTokenKey) && limit.units - elapsed < MinReasonableTimeout)
  {
    if Up(limit, elapsed) then Some(HardTimeout)
    else if last.Some? && last.value == PositionTokenKey && Below(Remaining(limit, elapsed), MinReasonableTimeout) then
      Some(GracefulTimeout)
    else None
  }

  /** The warning `stream` logs before connecting; the only use of the `graceful_timeout` flag. */
  predicate TimeoutWarning(timeout: Option<int>, gracefulTimeout: bool)
  {
    timeout.Some? && timeout.value < MinReasonableTimeout && gracefulTimeout
  }

  // ------------------------------------------------------------- messages

  /** The fields of a `status` object the client reads; absent when the key is missing. */
  datatype StatusObject = StatusObject(timestamp: Option<string>, level: Option<string>, message: Option<string>)

  /**
   * A decoded JSON value: an object, of which only the three message keys
   * matter (the target payload is kept as opaque text), or any other value.
   */
  datatype Json =
    | Object(target: Option<string>, positionToken: Option<string>, status: Option<StatusObject>)
    | NonObject

  /** One line of the response: valid JSON, or text `json.loads` rejects. */
  datatype Line = Undecodable(raw: string) | Decoded(json: Json)

  /** A line together with the timer's elapsed reading after it was handled. */
  datatype Reading = Reading(line: Line, elapsed: int)

  datatype Response = Response(statusCode: int, lines: seq<Reading>)

  datatype Classified =
    | TargetLine(payload: string)
    | PositionTokenLine(token: string)
    | StatusLine(status: StatusObject)
    | Unprocessable

  /** Which branch of the dispatch in `stream` a decoded object takes: target, then position token, then status. */
  function Classify(obj: Json): (c: Classified)
    requires obj.Object?
    ensures obj.target.Some? ==> c == TargetLine(obj.target.value)
    ensures obj.target.None? && obj.positionToken.Some? ==> c == PositionTokenLine(obj.positionToken.value)
    ensures obj.target.None? && obj.positionToken.None? && obj.status.Some? ==> c == StatusLine(obj.status.value)
    ensures c == Unprocessable <==> obj.target.None? && obj.positionToken.None? && obj.status.None?
  {
    if obj.target.Some? then TargetLine(obj.target.value)
    else if obj.positionToken.Some? then PositionTokenLine(obj.positionToken.value)
    else if obj.status.Some? then StatusLine(obj.status.value)
    else Unprocessable
  }

  datatype Severity = Info | Warning | Error

  /** `_STATUS_LEVELS_MAP`. */
  function SeverityOf(level: string): Option<Severity>
  {
    match level
    case "INFO" => Some(Info)
    case "WARN" => Some(Warning)
    case "ERROR" => Some(Error)
    case _ => None
  }

  /** `_status_callback` finds a known level, a message and a timestamp (otherwise it raises `KeyError`). */
  predicate Loggable(status: StatusObject)
  {
    && status.level.Some? && SeverityOf(status.level.value).Some?
    && status.message.Some? && status.timestamp.Some?
  }

  // ---------------------------------------------------------------- state

  datatype ClientState = ClientState(lastPositionToken: Option<string>, lastMessageType: Option<MessageKey>)

  /** Which optional callbacks the caller supplied (`None` in the source when absent). */
  datatype Callbacks = Callbacks(onTarget: bool, onPositionToken: bool, onStatus: bool)

  /** One invocation of a caller's callback, with its argument. */
  datatype Delivery =
    | TargetDelivered(payload: string)
    | TokenDelivered(token: string)
    | StatusDelivered(status: StatusObject)

  /** Exceptions that escape `stream` from inside its loop. */
  datatype Failure =
    | InvalidJson      // json.loads rejects the line
    | NotAnObject      // the JSON value has no keys()
    | StatusKeyError   // a status object without a known level, a message or a timestamp

  datatype LineEffect =
    | Handled(state: ClientState, delivered: seq<Delivery>)
    | Failed(state: ClientState, failure: Failure)

  /** The position token a line carries when it takes the position-token branch. */
  function TokenOf(line: Line): Option<string>
  {
    if line.Decoded? && line.json.Object? && line.json.target.None? then line.json.positionToken
    else None
  }

  /** The target payload a line carries when it takes the target branch. */
  function PayloadOf(line: Line): Option<string>
  {
    if line.Decoded? && line.json.Object? then line.json.target else None
  }

  /**
   * The body of the loop in `stream` for one line, up to the stop decision:
   * decode, dispatch to the client's own callback and then to the caller's.
   */
  function HandleLine(s: ClientState, cbs: Callbacks, line: Line): (e: LineEffect)
    ensures e.state.lastPositionToken == if TokenOf(line).Some? then TokenOf(line) else s.lastPositionToken
    ensures TokenOf(line).Some? ==> e == Handled(e.state, if cbs.onPositionToken then [TokenDelivered(TokenOf(line).value)] else [])
    ensures PayloadOf(line).Some? ==> e == Handled(e.state, if cbs.onTarget then [TargetDelivered(PayloadOf(line).value)] else [])
    ensures e.Failed? <==> !line.Decoded? || !line.json.Object? || (Classify(line.json).StatusLine? && !Loggable(Classify(line.json).status))
    ensures !line.Decoded? || !line.json.Object? ==> e.state == s
    ensures line.Decoded? && line.json.Object? ==>
      e.state.lastMessageType == match Classify(line.json)
        case TargetLine(_) => Some(TargetKey)
        case PositionTokenLine(_) => Some(PositionTokenKey)
        case StatusLine(_) => Some(StatusKey)
        case Unprocessable => s.lastMessageType
    ensures line.Decoded? && line.json.Object? && Classify(line.json).StatusLine? && Loggable(Classify(line.json).status) ==>
      e == Handled(e.state, if cbs.onStatus then [StatusDelivered(Classify(line.json).status)] else [])
    ensures line.Decoded? && line.json.Object? && Classify(line.json) == Unprocessable ==> e == Handled(s, [])
  {
    match line
    case Undecodable(_) => Failed(s, InvalidJson)
    case Decoded(json) =>
      if json.NonObject? then Failed(s, NotAnObject)
      else
        match Classify(json)
        case TargetLine(p) =>
          Handled(s.(lastMessageType := Some(TargetKey)), if cbs.onTarget then [TargetDelivered(p)] else [])
        case PositionTokenLine(t) =>
          Handled(ClientState(Some(t), Some(PositionTokenKey)), if cbs.onPositionToken then [TokenDelivered(t)] else [])
        case StatusLine(st) =>
          var s' := s.(lastMessageType := Some(StatusKey));
          if Loggable(st) then Handled(s', if cbs.onStatus then [StatusDelivered(st)] else [])
          else Failed(s', StatusKeyError)
        case Unprocessable =>
          Handled(s, [])
  }

  // -------------------------------------------------------------- session

  /** What `stream` ends with: an exception it raises, or the token it returns after a local stop. */
  datatype StreamResult =
    | InvalidToken
    | ServerDisconnected
    | Stopped(lastPositionToken: Option<string>, how: StopKind)
    | Propagated(failure: Failure)

  /** A whole session: its result, the callbacks it made in order, and the client's state afterwards. */
  datatype Session = Session(result: StreamResult, delivered: seq<Delivery>, state: ClientState)

  function Prefixed(out: seq<Delivery>, s: Session): Session
  {
    Session(s.result, out + s.delivered, s.state)
  }

  /** One turn of the loop in `stream`: handle the line, then apply the stop rule. */
  datatype Step =
    | StepFailed(state: ClientState, failure: Failure)
    | StepStopped(state: ClientState, delivered: seq<Delivery>, how: StopKind)
    | StepContinued(state: ClientState, delivered: seq<Delivery>)

  function StepOf(s: ClientState, cbs: Callbacks, timeout: Option<int>, reading: Reading): Step
  {
    match HandleLine(s, cbs, reading.line)
    case Failed(s', f) => StepFailed(s', f)
    case Handled(s', out) =>
      match StopDecision(TimerLimit(timeout), reading.elapsed, s'.lastMessageType)
      case Some(how) => StepStopped(s', out, how)
      case None => StepContinued(s', out)
  }

  /** The loop of `stream` over the lines of an accepted response. */
  function RunLines(s: ClientState, cbs: Callbacks, timeout: Option<int>, lines: seq<Reading>): Session
    decreases |lines|, 1
  {
    if |lines| == 0 then Session(ServerDisconnected, [], s)
    else RunFrom(StepOf(s, cbs, timeout, lines[0]), cbs, timeout, lines[1..])
  }

  /** The session from line `i` on is the first turn on line `i`, followed by the session from line `i + 1` on. */
  lemma RunLinesUnfold(s: ClientState, cbs: Callbacks, timeout: Option<int>, lines: seq<Reading>, i: nat)
    requires i < |lines|
    ensures RunLines(s, cbs, timeout, lines[i..]) == RunFrom(StepOf(s, cbs, timeout, lines[i]), cbs, timeout, lines[i + 1..])
  {
    assert lines[i..][0] == lines[i] && lines[i..][1..] == lines[i + 1..];
  }

  /** The session after the first turn `step`, with `rest` still to read. */
  function RunFrom(step: Step, cbs: Callbacks, timeout: Option<int>, rest: seq<Reading>): Session
    decreases |rest| + 1, 0
  {
    match step
    case StepFailed(s', f) => Session(Propagated(f), [], s')
    case StepStopped(s', out, how) => Session(Stopped(s'.lastPositionToken, how), out, s')
    case StepContinued(s', out) => Prefixed(out, RunLines(s', cbs, timeout, rest))
  }

  /** How a session already `delivered` callbacks into ends, given the next turn `step` and the lines `rest` after it. */
  lemma TurnTaken(total: Session, delivered: seq<Delivery>, step: Step, cbs: Callbacks, timeout: Option<int>, rest: seq<Reading>)
    requires total == Prefixed(delivered, RunFrom(step, cbs, timeout, rest))
    ensures step.StepFailed? ==> total == Session(Propagated(step.failure), delivered, step.state)
    ensures step.StepStopped? ==>
      total == Session(Stopped(step.state.lastPositionToken, step.how), delivered + step.delivered, step.state)
    ensures step.StepContinued? ==> total == Prefixed(delivered + step.delivered, RunLines(step.state, cbs, timeout, rest))
  {
    assert delivered + [] == delivered;
    if step.StepContinued? {
      var after := RunLines(step.state, cbs, timeout, rest);
      assert delivered + (step.delivered + after.delivered) == (delivered + step.delivered) + after.delivered;
    }
  }

  /** `stream` from the client state `s` onwards: a 401 fails before any line is read. */
  function RunStream(s: ClientState, cbs: Callbacks, timeout: Option<int>, response: Response): Session
  {
    if response.statusCode == Unauthorized then Session(InvalidToken, [], s)
    else RunLines(s, cbs, timeout, response.lines)
  }

  /** How many lines the loop handles before it ends (the line that stops or raises included). */
  function Consumed(s: ClientState, cbs: Callbacks, timeout: Option<int>, lines: seq<Reading>): (n: nat)
    ensures n <= |lines|
    decreases |lines|
  {
    if |lines| == 0 then 0
    else
      match StepOf(s, cbs, timeout, lines[0])
      case StepContinued(s', _) => 1 + Consumed(s', cbs, timeout, lines[1..])
      case _ => 1
  }

  /** The last position token among `lines`, or `init` when they carry none. */
  function LastTokenOf(init: Option<string>, lines: seq<Reading>): Option<string>
    decreases |lines|
  {
    if |lines| == 0 then init
    else LastTokenOf(if TokenOf(lines[0].line).Some? then TokenOf(lines[0].line) else init, lines[1..])
  }

  /** The target payloads among `lines`, in order. */
  function PayloadsOf(lines: seq<Reading>): seq<string>
    decreases |lines|
  {
    if |lines| == 0 then []
    else (if PayloadOf(lines[0].line).Some? then [PayloadOf(lines[0].line).value] else []) + PayloadsOf(lines[1..])
  }

  /** The position tokens among `lines`, in order. */
  function TokensOf(lines: seq<Reading>): seq<string>
    decreases |lines|
  {
    if |lines| == 0 then []
    else (if TokenOf(lines[0].line).Some? then [TokenOf(lines[0].line).value] else []) + TokensOf(lines[1..])
  }

  /** The payloads handed to the target callback. */
  function TargetsIn(ds: seq<Delivery>): seq<string>
    decreases |ds|
  {
    if |ds| == 0 then []
    else (if ds[0].TargetDelivered? then [ds[0].payload] else []) + TargetsIn(ds[1..])
  }

  /** The tokens handed to the position-token callback. */
  function TokensIn(ds: seq<Delivery>): seq<string>
    decreases |ds|
  {
    if |ds| == 0 then []
    else (if ds[0].TokenDelivered? then [ds[0].token] else []) + TokensIn(ds[1..])
  }

  lemma {:induction false} TargetsInAppend(a: seq<Delivery>, b: seq<Delivery>)
    ensures TargetsIn(a + b) == TargetsIn(a) + TargetsIn(b)
    decreases |a|
  {
    if |a| > 0 {
      TargetsInAppend(a[1..], b);
      assert (a + b)[1..] == a[1..] + b;
    } else {
      assert a + b == b;
    }
  }

  lemma {:induction false} TokensInAppend(a: seq<Delivery>, b: seq<Delivery>)
    ensures TokensIn(a + b) == TokensIn(a) + TokensIn(b)
    decreases |a|
  {
    if |a| > 0 {
      TokensInAppend(a[1..], b);
      assert (a + b)[1..] == a[1..] + b;
    } else {
      assert a + b == b;
    }
  }

  /**
   * The session returns, and leaves on the client, the last position token
   * of the lines it handled, or the token the client held before the session
   * when none came.
   */
  lemma {:induction false} SessionTracksLastToken(s: ClientState, cbs: Callbacks, timeout: Option<int>, lines: seq<Reading>)
    ensures var n := Consumed(s, cbs, timeout, lines);
      RunLines(s, cbs, timeout, lines).state.lastPositionToken == LastTokenOf(s.lastPositionToken, lines[..n])
    ensures var r := RunLines(s, cbs, timeout, lines).result;
      r.Stopped? ==> r.lastPositionToken == LastTokenOf(s.lastPositionToken, lines[..Consumed(s, cbs, timeout, lines)])
    decreases |lines|
  {
    if |lines| > 0 {
      var n := Consumed(s, cbs, timeout, lines);
      assert lines[..n][0] == lines[0];
      match HandleLine(s, cbs, lines[0].line)
      case Failed(s', f) =>
        assert lines[..n][1..] == [];
      case Handled(s', out) =>
        if StopDecision(TimerLimit(timeout), lines[0].elapsed, s'.lastMessageType).Some? {
          assert lines[..n][1..] == [];
        } else {
          SessionTracksLastToken(s', cbs, timeout, lines[1..]);
          assert lines[..n][1..] == lines[1..][..n - 1];
        }
    }
  }

  /** What one line hands to the target and position-token callbacks. */
  lemma LineDeliveries(s: ClientState, cbs: Callbacks, line: Line)
    ensures HandleLine(s, cbs, line).Failed? ==> PayloadOf(line).None? && TokenOf(line).None?
    ensures var e := HandleLine(s, cbs, line);
      e.Handled? ==> TargetsIn(e.delivered) == if cbs.onTarget && PayloadOf(line).Some? then [PayloadOf(line).value] else []
    ensures var e := HandleLine(s, cbs, line);
      e.Handled? ==> TokensIn(e.delivered) == if cbs.onPositionToken && TokenOf(line).Some? then [TokenOf(line).value] else []
  {
    var e := HandleLine(s, cbs, line);
    if e.Handled? && PayloadOf(line).None? && TokenOf(line).None? {
      assert e.delivered == [] || e.delivered == [StatusDelivered(Classify(line.json).status)];
    }
  }

  /** With a target callback, it receives exactly the payloads of the target lines the session handled, in order. */
  lemma {:induction false} SessionDeliversTargets(s: ClientState, cbs: Callbacks, timeout: Option<int>, lines: seq<Reading>)
    ensures var n := Consumed(s, cbs, timeout, lines);
      TargetsIn(RunLines(s, cbs, timeout, lines).delivered) == if cbs.onTarget then PayloadsOf(lines[..n]) else []
    decreases |lines|
  {
    if |lines| > 0 {
      var n := Consumed(s, cbs, timeout, lines);
      assert lines[..n][0] == lines[0];
      LineDeliveries(s, cbs, lines[0].line);
      match HandleLine(s, cbs, lines[0].line)
      case Failed(s', f) =>
        assert lines[..n][1..] == [];
      case Handled(s', out) =>
        if StopDecision(TimerLimit(timeout), lines[0].elapsed, s'.lastMessageType).Some? {
          assert lines[..n][1..] == [];
        } else {
          SessionDeliversTargets(s', cbs, timeout, lines[1..]);
          TargetsInAppend(out, RunLines(s', cbs, timeout, lines[1..]).delivered);
          assert lines[..n][1..] == lines[1..][..n - 1];
        }
    }
  }

  /** With a position-token callback, it receives exactly the tokens of the position-token lines the session handled, in order. */
  lemma {:induction false} SessionDeliversTokens(s: ClientState, cbs: Callbacks, timeout: Option<int>, lines: seq<Reading>)
    ensures var n := Consumed(s, cbs, timeout, lines);
      TokensIn(RunLines(s, cbs, timeout, lines).delivered) == if cbs.onPositionToken then TokensOf(lines[..n]) else []
    decreases |lines|
  {
    if |lines| > 0 {
      var n := Consumed(s, cbs, timeout, lines);
      assert lines[..n][0] == lines[0];
      LineDeliveries(s, cbs, lines[0].line);
      match HandleLine(s, cbs, lines[0].line)
      case Failed(s', f) =>
        assert lines[..n][1..] == [];
      case Handled(s', out) =>
        if StopDecision(TimerLimit(timeout), lines[0].elapsed, s'.lastMessageType).Some? {
          assert lines[..n][1..] == [];
        } else {
          SessionDeliversTokens(s', cbs, timeout, lines[1..]);
          TokensInAppend(out, RunLines(s', cbs, timeout, lines[1..]).delivered);
          assert lines[..n][1..] == lines[1..][..n - 1];
        }
    }
  }

  /** Only a session whose every line was handled without a stop ends with `ServerDisconnected`. */
  lemma {:induction false} DisconnectConsumesAll(s: ClientState, cbs: Callbacks, timeout: Option<int>, lines: seq<Reading>)
    ensures RunLines(s, cbs, timeout, lines).result == ServerDisconnected ==> Consumed(s, cbs, timeout, lines) == |lines|
    ensures RunLines(s, cbs, timeout, lines).result == ServerDisconnected ==>
      RunLines(s, cbs, timeout, lines).state.lastPositionToken == LastTokenOf(s.lastPositionToken, lines)
    decreases |lines|
  {
    if |lines| > 0 {
      assert RunLines(s, cbs, timeout, lines) == RunFrom(StepOf(s, cbs, timeout, lines[0]), cbs, timeout, lines[1..]);
      match StepOf(s, cbs, timeout, lines[0])
      case StepContinued(s', _) =>
        DisconnectConsumesAll(s', cbs, timeout, lines[1..]);
      case _ =>
    }
  }

  /**
   * A session in which no line raises and every line is read while at least
   * the minimum reasonable timeout remains runs out of lines and ends with
   * `ServerDisconnected`.
   */
  lemma {:induction false} NoStopDisconnects(s: ClientState, cbs: Callbacks, timeout: Option<int>, lines: seq<Reading>)
    requires forall i :: 0 <= i < |lines| ==>
      && lines[i].line.Decoded? && lines[i].line.json.Object?
      && (Classify(lines[i].line.json).StatusLine? ==> Loggable(Classify(lines[i].line.json).status))
    requires timeout.Some? ==> forall i :: 0 <= i < |lines| ==> lines[i].elapsed <= timeout.value - MinReasonableTimeout
    ensures RunLines(s, cbs, timeout, lines).result == ServerDisconnected
    ensures Consumed(s, cbs, timeout, lines) == |lines|
    decreases |lines|
  {
    if |lines| > 0 {
      match HandleLine(s, cbs, lines[0].line)
      case Handled(s', _) =>
        assert forall i :: 0 <= i < |lines[1..]| ==> lines[1..][i] == lines[i + 1];
        NoStopDisconnects(s', cbs, timeout, lines[1..]);
    }
  }

  /** Without a timeout the client never stops on its own. */
  lemma {:induction false} NoTimeoutNeverStops(s: ClientState, cbs: Callbacks, lines: seq<Reading>)
    ensures !RunLines(s, cbs, None, lines).result.Stopped?
    decreases |lines|
  {
    if |lines| > 0 {
      match HandleLine(s, cbs, lines[0].line)
      case Failed(_, _) =>
      case Handled(s', _) =>
        NoTimeoutNeverStops(s', cbs, lines[1..]);
    }
  }

  /** A 401 response raises `ErrInvalidToken` before any line is handled or any callback runs. */
  lemma UnauthorizedFailsFirst(s: ClientState, cbs: Callbacks, timeout: Option<int>, lines: seq<Reading>)
    ensures RunStream(s, cbs, timeout, Response(Unauthorized, lines)) == Session(InvalidToken, [], s)
  {
  }

  function TargetObject(payload: string): Line
  {
    Decoded(Object(Some(payload), None, None))
  }

  function TokenObject(token: string): Line
  {
    Decoded(Object(None, Some(token), None))
  }

  function StatusOnlyObject(status: StatusObject): Line
  {
    Decoded(Object(None, None, Some(status)))
  }

  /**
   * Without a timeout, a response of well-formed status lines never reaches
   * the target or position-token callbacks and ends with `ServerDisconnected`.
   */
  lemma {:induction false} StatusOnlyDisconnects(s: ClientState, cbs: Callbacks, lines: seq<Reading>)
    requires forall i :: 0 <= i < |lines| ==>
      exists st :: lines[i].line == StatusOnlyObject(st) && Loggable(st)
    ensures RunLines(s, cbs, None, lines).result == ServerDisconnected
    ensures TargetsIn(RunLines(s, cbs, None, lines).delivered) == []
    ensures TokensIn(RunLines(s, cbs, None, lines).delivered) == []
    decreases |lines|
  {
    if |lines| > 0 {
      var st :| lines[0].line == StatusOnlyObject(st) && Loggable(st);
      var s' := s.(lastMessageType := Some(StatusKey));
      var out: seq<Delivery> := if cbs.onStatus then [StatusDelivered(st)] else [];
      assert HandleLine(s, cbs, lines[0].line) == Handled(s', out);
      var rest := RunLines(s', cbs, None, lines[1..]);
      assert forall i :: 0 <= i < |lines[1..]| ==> lines[1..][i] == lines[i + 1];
      StatusOnlyDisconnects(s', cbs, lines[1..]);
      TargetsInAppend(out, rest.delivered);
      TokensInAppend(out, rest.delivered);
    }
  }

  /** A response of one position-token line: its callback gets exactly that token, the client keeps it, and the server is found to have disconnected. */
  lemma SingleTokenLine(s: ClientState, token: string, elapsed: int)
    ensures var cbs := Callbacks(true, true, false);
      RunLines(s, cbs, None, [Reading(TokenObject(token), elapsed)])
        == Session(ServerDisconnected, [TokenDelivered(token)], ClientState(Some(token), Some(PositionTokenKey)))
  {
    var s' := ClientState(Some(token), Some(PositionTokenKey));
    assert StepOf(s, Callbacks(true, true, false), None, Reading(TokenObject(token), elapsed))
      == StepContinued(s', [TokenDelivered(token)]);
    assert [Reading(TokenObject(token), elapsed)][1..] == [];
    assert RunLines(s', Callbacks(true, true, false), None, []) == Session(ServerDisconnected, [], s');
  }

  /** A response of one target line: its callback gets exactly that payload, and the server is found to have disconnected. */
  lemma SingleTargetLine(s: ClientState, payload: string, elapsed: int)
    ensures RunLines(s, Callbacks(true, false, false), None, [Reading(TargetObject(payload), elapsed)])
        == Session(ServerDisconnected, [TargetDelivered(payload)], s.(lastMessageType := Some(TargetKey)))
  {
    var s' := s.(lastMessageType := Some(TargetKey));
    assert StepOf(s, Callbacks(true, false, false), None, Reading(TargetObject(payload), elapsed))
      == StepContinued(s', [TargetDelivered(payload)]);
    assert [Reading(TargetObject(payload), elapsed)][1..] == [];
    assert RunLines(s', Callbacks(true, false, false), None, []) == Session(ServerDisconnected, [], s');
  }

  /**
   * [target A, position token T, target B] with timeout 0: once any time has
   * passed, the first line already ends the session with a hard stop, so
   * only A is delivered and a fresh client returns no token.
   */
  lemma HardTimeoutExample(a: string, t: string, b: string, e0: int, e1: int, e2: int)
    requires 0 < e0 <= e1 <= e2
    ensures RunLines(ClientState(None, None), Callbacks(true, false, false), Some(0),
                     [Reading(TargetObject(a), e0), Reading(TokenObject(t), e1), Reading(TargetObject(b), e2)])
      == Session(Stopped(None, HardTimeout), [TargetDelivered(a)], ClientState(None, Some(TargetKey)))
  {
  }

  /**
   * The same lines with timeout 1, read within that second: the session
   * stops gracefully right after the token, so B is never delivered and T
   * is returned.
   */
  lemma GracefulTimeoutExample(a: string, t: string, b: string, e0: int, e1: int, e2: int)
    requires 0 <= e0 <= e1 <= 1 && e1 <= e2
    ensures RunLines(ClientState(None, None), Callbacks(true, false, false), Some(1),
                     [Reading(TargetObject(a), e0), Reading(TokenObject(t), e1), Reading(TargetObject(b), e2)])
      == Session(Stopped(Some(t), GracefulTimeout), [TargetDelivered(a)], ClientState(Some(t), Some(PositionTokenKey)))
  {
    var cbs := Callbacks(true, false, false);
    var lines := [Reading(TargetObject(a), e0), Reading(TokenObject(t), e1), Reading(TargetObject(b), e2)];
    var s1 := ClientState(None, Some(TargetKey));
    var s2 := ClientState(Some(t), Some(PositionTokenKey));
    assert StepOf(ClientState(None, None), cbs, Some(1), lines[0]) == StepContinued(s1, [TargetDelivered(a)]);
    assert lines[1..][0] == Reading(TokenObject(t), e1);
    assert StepOf(s1, cbs, Some(1), lines[1]) == StepStopped(s2, [], GracefulTimeout);
    assert RunLines(s1, cbs, Some(1), lines[1..]) == Session(Stopped(Some(t), GracefulTimeout), [], s2);
  }

  // --------------------------------------------------------------- client

  /** `Authorization` header value for a bearer credential (section 2.1 of RFC 6750). */
  function BearerHeader(token: string): string
  {
    "Bearer " + token
  }

  /** The credential a server reads from an `Authorization` header value. */
  function BearerCredential(header: string): Option<string>
  {
    if |header| >= 7 && header[..7] == "Bearer " then Some(header[7..]) else None
  }

  lemma BearerRoundTrip(token: string)
    ensures BearerCredential(BearerHeader(token)) == Some(token)
  {
    assert BearerHeader(token)[..7] == "Bearer ";
    assert BearerHeader(token)[7..] == token;
  }

  /** The streaming GET request `stream` issues. */
  datatype Request = Request(url: string, params: Option<map<string, string>>, authorization: string, readTimeout: int)

  /** `Client`: the credentials, plus the last token and last message type, which outlive each `stream` call. */
  class Client {
    const token: string
    const baseUrl: string
    var lastPositionToken: Option<string>
    var lastMessageType: Option<MessageKey>

    function State(): ClientState
      reads this
    {
      ClientState(lastPositionToken, lastMessageType)
    }

    /** `Client(token)`: the base URL defaults to the AirSafe 2 stream endpoint. */
    constructor WithDefaultUrl(token: string)
      ensures this.token == token && this.baseUrl == StreamV2Url
      ensures State() == ClientState(None, None)
    {
      this.token := token;
      this.baseUrl := StreamV2Url;
      lastPositionToken := None;
      lastMessageType := None;
    }

    constructor (token: string, baseUrl: string)
      ensures this.token == token && this.baseUrl == baseUrl
      ensures State() == ClientState(None, None)
    {
      this.token := token;
      this.baseUrl := baseUrl;
      lastPositionToken := None;
      lastMessageType := None;
    }

    method PositionTokenCallback(t: string)
      modifies this
      ensures State() == ClientState(Some(t), Some(PositionTokenKey))
    {
      lastMessageType := Some(PositionTokenKey);
      lastPositionToken := Some(t);
    }

    /** Records the status type first, then looks up level, message and timestamp; `ok` is false where the source raises `KeyError`. */
    method StatusCallback(status: StatusObject) returns (ok: bool)
      modifies this
      ensures State() == old(State()).(lastMessageType := Some(StatusKey))
      ensures ok == Loggable(status)
    {
      lastMessageType := Some(StatusKey);
      ok := status.level.Some? && SeverityOf(status.level.value).Some?;
      ok := ok && status.message.Some?;
      ok := ok && status.timestamp.Some?;
    }

    method TargetCallback()
      modifies this
      ensures State() == old(State()).(lastMessageType := Some(TargetKey))
    {
      lastMessageType := Some(TargetKey);
    }

    /** `_general_callback`: whether to stop, and how, after a line handled at time `elapsed`. */
    method GeneralCallback(timeout: Option<int>, elapsed: int) returns (stop: Option<StopKind>)
      ensures stop == StopDecision(TimerLimit(timeout), elapsed, lastMessageType)
      ensures stop == None <==> (timeout.None? ||
        (elapsed <= timeout.value && (lastMessageType != Some(PositionTokenKey) || timeout.value - elapsed >= MinReasonableTimeout)))
    {
      var limit := TimerLimit(timeout);
      if Up(limit, elapsed) {
        return Some(HardTimeout);
      }
      if lastMessageType.Some? && lastMessageType.value == PositionTokenKey && Below(Remaining(limit, elapsed), MinReasonableTimeout) {
        return Some(GracefulTimeout);
      }
      return None;
    }

    /**
     * The dispatch of one line in `stream`: decode, classify, update the
     * client's own state, then call the caller's callback. `failure` is the
     * exception that escapes, if any.
     */
    method Dispatch(callbacks: Callbacks, line: Line) returns (failure: Option<Failure>, out: seq<Delivery>)
      modifies this
      ensures HandleLine(old(State()), callbacks, line)
        == if failure.Some? then Failed(State(), failure.value) else Handled(State(), out)
    {
      out := [];
      failure := None;
      match line {
        case Undecodable(_) =>
          failure := Some(InvalidJson);
        case Decoded(json) =>
          if json.NonObject? {
            failure := Some(NotAnObject);
            return;
          }
          match Classify(json) {
            case TargetLine(payload) =>
              TargetCallback();
              if callbacks.onTarget {
                out := [TargetDelivered(payload)];
              }
            case PositionTokenLine(t) =>
              PositionTokenCallback(t);
              if callbacks.onPositionToken {
                out := [TokenDelivered(t)];
              }
            case StatusLine(status) =>
              var ok := StatusCallback(status);
              if !ok {
                failure := Some(StatusKeyError);
              } else if callbacks.onStatus {
                out := [StatusDelivered(status)];
              }
            case Unprocessable =>
              // logged as unprocessable; the loop goes on
          }
      }
    }

    /** One turn of the loop: `Dispatch`, then `_general_callback` unless the line raised. */
    method Turn(callbacks: Callbacks, timeout: Option<int>, reading: Reading) returns (step: Step)
      modifies this
      ensures step == StepOf(old(State()), callbacks, timeout, reading) && step.state == State()
    {
      var failure, out := Dispatch(callbacks, reading.line);
      if failure.Some? {
        return StepFailed(State(), failure.value);
      }
      var stop := GeneralCallback(timeout, reading.elapsed);
      if stop.Some? {
        return StepStopped(State(), out, stop.value);
      }
      return StepContinued(State(), out);
    }

    /**
     * The `for` loop of `stream` over the lines of an accepted response:
     * running out of lines is `ErrServerDisconnected`, a raised exception
     * escapes, a stop returns the last position token.
     */
    method ReadLines(callbacks: Callbacks, timeout: Option<int>, lines: seq<Reading>)
      returns (result: StreamResult, delivered: seq<Delivery>)
      modifies this
      ensures Session(result, delivered, State()) == RunLines(old(State()), callbacks, timeout, lines)
    {
      ghost var s0 := State();
      delivered := [];
      var i := 0;
      while i < |lines|
        invariant 0 <= i <= |lines|
        invariant RunLines(s0, callbacks, timeout, lines) == Prefixed(delivered, RunLines(State(), callbacks, timeout, lines[i..]))
      {
        RunLinesUnfold(State(), callbacks, timeout, lines, i);
        var step := Turn(callbacks, timeout, lines[i]);
        TurnTaken(RunLines(s0, callbacks, timeout, lines), delivered, step, callbacks, timeout, lines[i + 1..]);
        match step {
          case StepFailed(_, f) =>
            return Propagated(f), delivered;
          case StepStopped(_, out, how) =>
            return Stopped(lastPositionToken, how), delivered + out;
          case StepContinued(_, out) =>
            delivered := delivered + out;
            i := i + 1;
        }
      }
      result := ServerDisconnected;
      assert delivered + [] == delivered;
    }

    /**
     * `stream`: warns about a short timeout, issues the request, fails with
     * `ErrInvalidToken` on a 401, and otherwise reads the lines.
     */
    method Stream(callbacks: Callbacks, config: Filters.StreamConfig?, timeout: Option<int>, gracefulTimeout: bool,
                  response: Response)
      returns (warned: bool, request: Request, result: StreamResult, delivered: seq<Delivery>)
      modifies this
      ensures warned == TimeoutWarning(timeout, gracefulTimeout)
      ensures request == Request(baseUrl, if config == null then None else Some(config.parameters),
                                 BearerHeader(token), MinReasonableTimeout)
      ensures Session(result, delivered, State()) == RunStream(old(State()), callbacks, timeout, response)
    {
      warned := timeout.Some? && timeout.value < MinReasonableTimeout && gracefulTimeout;
      var params: Option<map<string, string>> := None;
      if config != null {
        params := Some(config.parameters);
      }
      request := Request(baseUrl, params, BearerHeader(token), MinReasonableTimeout);
      if response.statusCode == Unauthorized {
        return warned, request, InvalidToken, [];
      }
      result, delivered := ReadLines(callbacks, timeout, response.lines);
    }
  }
}