/**
 * The corruption-state provider: the three-tier classification of a corruption level, the
 * provider's state, and what one poll of the state document does to it. The network fetch becomes
 * an outcome passed in, and the clock a time stamp passed in.
 */
module CorruptionContext {
  import opened Wrappers

  // ---------------------------------------------------------------------------------------
  // Tiers
  // ---------------------------------------------------------------------------------------

  datatype CorruptionTier = Sanctified | Possessed | Damned {
    /** The tiers in order of increasing corruption. */
    function Rank(): nat {
      match this
      case Sanctified => 0
      case Possessed => 1
      case Damned => 2
    }
  }

  /**
   * `getCorruptionState`: at most 20 is sanctified, above 20 and at most 70 is possessed, above
   * 70 is damned. The level is a JSON number, so it need not be an integer.
   */
  function GetCorruptionState(level: real): (r: CorruptionTier)
    ensures r == Sanctified <==> level <= 20.0
    ensures r == Possessed <==> 20.0 < level <= 70.0
    ensures r == Damned <==> 70.0 < level
  {
    if level <= 20.0 then Sanctified
    else if level <= 70.0 then Possessed
    else Damned
  }

  /** A higher level never gives a less corrupt tier. */
  lemma TierMonotone(a: real, b: real)
    requires a <= b
    ensures GetCorruptionState(a).Rank() <= GetCorruptionState(b).Rank()
  {
  }

  /** The status emoji the dashboards and the corruption server show. */
  datatype StatusEmoji = Skull | Ghost | Sparkles | Angel

  /** At least 71 is a skull, at least 21 a ghost, above 0 sparkles, and otherwise an angel. */
  function GetStatusEmoji(level: real): (r: StatusEmoji)
    ensures r == Skull <==> level >= 71.0
    ensures r == Ghost <==> 21.0 <= level < 71.0
    ensures r == Sparkles <==> 0.0 < level < 21.0
    ensures r == Angel <==> level <= 0.0
  {
    if level >= 71.0 then Skull
    else if level >= 21.0 then Ghost
    else if level > 0.0 then Sparkles
    else Angel
  }

  /** The tier an emoji stands for: sparkles and the angel both stand for the sanctified tier. */
  function EmojiTier(e: StatusEmoji): CorruptionTier {
    match e
    case Skull => Damned
    case Ghost => Possessed
    case Sparkles => Sanctified
    case Angel => Sanctified
  }

  /**
   * On whole-number levels the emoji and the tier agree, the emoji splitting the sanctified tier
   * into 0 or less and 1 to 20.
   */
  lemma EmojiAgreesOnWholeLevels(n: int)
    ensures EmojiTier(GetStatusEmoji(n as real)) == GetCorruptionState(n as real)
  {
    if 20 < n < 21 || 70 < n < 71 {
      assert false;
    }
  }

  /** Between the thresholds they disagree: 20.5 is possessed but shows the sparkles of a sanctified level. */
  lemma EmojiDisagreesBetweenWholeLevels()
    ensures GetCorruptionState(20.5) == Possessed && GetStatusEmoji(20.5) == Sparkles
    ensures GetCorruptionState(70.5) == Damned && GetStatusEmoji(70.5) == Ghost
  {
  }

  // ---------------------------------------------------------------------------------------
  // The state document and a poll's outcome
  // ---------------------------------------------------------------------------------------

  datatype VulnerabilityType = PromptInjection | HardcodedSecret | Xss

  datatype Severity = High | Medium | Low

  datatype Vulnerability = Vulnerability(
    vulnerabilityType: VulnerabilityType,
    file: string,
    pattern: string,
    description: string,
    severity: Severity,
    count: Option<real>)

  /** The parsed `corruption-state.json`. */
  datatype StateDocument = StateDocument(
    corruptionLevel: real,
    vulnerabilities: seq<Vulnerability>,
    timestamp: real,
    lastScan: string)

  /**
   * What the body of a response turned out to be: a state document, or something whose reading
   * throws (text that is not JSON, or the JSON literal `null`, whose properties cannot be read).
   */
  datatype Body = Document(doc: StateDocument) | Unreadable

  /** What one `fetch` of the state document produced. */
  datatype FetchOutcome =
    | NetworkFailure
    | Response(status: int, body: Body)

  /** `response.ok`: a status from 200 to 299. */
  predicate Ok(status: int) {
    200 <= status <= 299
  }

  /** The poll reaches the end of the `try` block: an OK response with a readable document. */
  predicate Succeeds(o: FetchOutcome) {
    o.Response? && Ok(o.status) && o.body.Document?
  }

  /** One poll: its outcome and the time it completed, in milliseconds. */
  datatype Poll = Poll(outcome: FetchOutcome, now: int)

  // ---------------------------------------------------------------------------------------
  // The provider's state and its steps
  // ---------------------------------------------------------------------------------------

  datatype ConnectionStatus = Connected | Disconnected | Error

  datatype ProviderState = ProviderState(
    corruptionLevel: real,
    vulnerabilities: seq<Vulnerability>,
    isLoading: bool,
    lastUpdate: Option<int>,
    connectionStatus: ConnectionStatus,
    backoffDelay: int,
    consecutiveErrors: nat)

  /** The `pollInterval` a provider gets when none is passed. */
  const DefaultPollInterval: int := 1000

  /** The largest backoff delay, in milliseconds. */
  const MaxBackoff: int := 8000

  /** Failures in a row from which the status is reported as an error. */
  const ErrorThreshold: nat := 3

  function Min(a: int, b: int): int {
    if a <= b then a else b
  }

  /**
   * The state a provider starts in: fully corrupt, nothing known, loading, disconnected, the
   * backoff equal to the poll interval and no errors counted.
   */
  function InitialState(pollInterval: int): (s: ProviderState)
    ensures s.corruptionLevel == 100.0 && GetCorruptionState(s.corruptionLevel) == Damned
    ensures s.vulnerabilities == [] && s.lastUpdate == None
    ensures s.isLoading && s.connectionStatus == Disconnected
    ensures s.backoffDelay == pollInterval && s.consecutiveErrors == 0
  {
    ProviderState(100.0, [], true, None, Disconnected, pollInterval, 0)
  }

  /** The `try` block run to its end: the document's values, connected, backoff and count reset. */
  function SuccessStep(s: ProviderState, pollInterval: int, doc: StateDocument, now: int): ProviderState {
    s.(corruptionLevel := doc.corruptionLevel, vulnerabilities := doc.vulnerabilities,
       lastUpdate := Some(now), connectionStatus := Connected, backoffDelay := pollInterval,
       consecutiveErrors := 0, isLoading := false)
  }

  /**
   * The `catch` block with `seen` as the count the callback reads: the count becomes `seen + 1`,
   * the status turns to an error from the threshold on, and the backoff doubles up to its cap.
   */
  function FailureStepSeeing(s: ProviderState, seen: nat): ProviderState {
    var count := seen + 1;
    s.(consecutiveErrors := count,
       connectionStatus := if count >= ErrorThreshold then Error else s.connectionStatus,
       backoffDelay := Min(s.backoffDelay * 2, MaxBackoff),
       isLoading := false)
  }

  /** The `catch` block as its comment intends: the count read is the current one. */
  function FailureStep(s: ProviderState): ProviderState {
    FailureStepSeeing(s, s.consecutiveErrors)
  }

  /**
   * One completed poll. A network failure, a status outside 200..299 and an unreadable body all
   * take the failure path and leave the level, the vulnerabilities and the last update alone; a
   * readable document takes the success path. Either way loading is over.
   */
  function FetchStep(s: ProviderState, pollInterval: int, p: Poll): (r: ProviderState)
    ensures !r.isLoading
    ensures Succeeds(p.outcome) ==>
      r == s.(corruptionLevel := p.outcome.body.doc.corruptionLevel,
              vulnerabilities := p.outcome.body.doc.vulnerabilities,
              lastUpdate := Some(p.now), connectionStatus := Connected,
              backoffDelay := pollInterval, consecutiveErrors := 0, isLoading := false)
    ensures !Succeeds(p.outcome) ==>
      && r.corruptionLevel == s.corruptionLevel
      && r.vulnerabilities == s.vulnerabilities
      && r.lastUpdate == s.lastUpdate
      && r.consecutiveErrors == s.consecutiveErrors + 1
      && (r.connectionStatus == Error <==> s.consecutiveErrors + 1 >= 3 || s.connectionStatus == Error)
      && (r.connectionStatus != Error ==> r.connectionStatus == s.connectionStatus)
      && r.backoffDelay == Min(2 * s.backoffDelay, 8000)
  {
    match p.outcome
    case Response(status, Document(doc)) =>
      if Ok(status) then SuccessStep(s, pollInterval, doc, p.now) else FailureStep(s)
    case _ => FailureStep(s)
  }

  /** What the context exposes to its consumers. */
  datatype ContextValue = ContextValue(
    corruptionLevel: real,
    vulnerabilities: seq<Vulnerability>,
    isLoading: bool,
    lastUpdate: Option<int>,
    connectionStatus: ConnectionStatus,
    corruptionState: CorruptionTier)

  /** The exposed value: the state's fields, and the tier of the current level. */
  function Expose(s: ProviderState): (v: ContextValue)
    ensures v.corruptionState == Sanctified <==> s.corruptionLevel <= 20.0
    ensures v.corruptionState == Damned <==> s.corruptionLevel > 70.0
    ensures v.corruptionLevel == s.corruptionLevel && v.vulnerabilities == s.vulnerabilities
    ensures v.isLoading == s.isLoading && v.lastUpdate == s.lastUpdate
    ensures v.connectionStatus == s.connectionStatus
  {
    ContextValue(s.corruptionLevel, s.vulnerabilities, s.isLoading, s.lastUpdate, s.connectionStatus,
                 GetCorruptionState(s.corruptionLevel))
  }

  // ---------------------------------------------------------------------------------------
  // Runs of polls
  // ---------------------------------------------------------------------------------------

  /** The state after the polls `ps`, in order. */
  function Run(s: ProviderState, pollInterval: int, ps: seq<Poll>): ProviderState {
    if ps == [] then s else FetchStep(Run(s, pollInterval, ps[..|ps| - 1]), pollInterval, ps[|ps| - 1])
  }

  /** How many polls at the end of `ps` failed. */
  function TrailingFailures(ps: seq<Poll>): (n: nat)
    ensures n <= |ps|
  {
    if ps == [] || Succeeds(ps[|ps| - 1].outcome) then 0 else 1 + TrailingFailures(ps[..|ps| - 1])
  }

  /** The document of the last successful poll, if any poll succeeded. */
  function LastDocument(ps: seq<Poll>): (r: Option<StateDocument>)
    ensures r.None? <==> forall k :: 0 <= k < |ps| ==> !Succeeds(ps[k].outcome)
  {
    if ps == [] then None
    else if Succeeds(ps[|ps| - 1].outcome) then Some(ps[|ps| - 1].outcome.body.doc)
    else
      var r := LastDocument(ps[..|ps| - 1]);
      assert forall k :: 0 <= k < |ps| - 1 ==> ps[..|ps| - 1][k] == ps[k];
      r
  }

  /** `2^k`. */
  function Pow2(k: nat): (r: nat)
    ensures r >= 1
  {
    if k == 0 then 1 else 2 * Pow2(k - 1)
  }

  /**
   * After a run of polls: loading is over if any poll completed; the level and vulnerabilities
   * are those of the last readable document, or unchanged when none arrived; the error count is
   * the number of failures since the last success, added to the old count when none succeeded;
   * and the backoff is the poll interval right after a success.
   */
  lemma {:induction false} RunState(s: ProviderState, pollInterval: int, ps: seq<Poll>)
    ensures ps != [] ==> !Run(s, pollInterval, ps).isLoading
    ensures var r, d := Run(s, pollInterval, ps), LastDocument(ps);
      && r.corruptionLevel == (if d.Some? then d.value.corruptionLevel else s.corruptionLevel)
      && r.vulnerabilities == (if d.Some? then d.value.vulnerabilities else s.vulnerabilities)
    ensures Run(s, pollInterval, ps).consecutiveErrors
         == TrailingFailures(ps) + (if LastDocument(ps).Some? then 0 else s.consecutiveErrors)
    ensures ps != [] && TrailingFailures(ps) == 0 ==> Run(s, pollInterval, ps).backoffDelay == pollInterval
  {
    if ps != [] {
      RunState(s, pollInterval, ps[..|ps| - 1]);
    }
  }

  /**
   * Once some poll has succeeded, the status is an error exactly when the last three or more polls
   * failed, and connected otherwise.
   */
  lemma {:induction false} RunStatus(s: ProviderState, pollInterval: int, ps: seq<Poll>)
    requires LastDocument(ps).Some?
    ensures Run(s, pollInterval, ps).connectionStatus == if TrailingFailures(ps) >= 3 then Error else Connected
  {
    var init := ps[..|ps| - 1];
    if !Succeeds(ps[|ps| - 1].outcome) {
      RunStatus(s, pollInterval, init);
      RunState(s, pollInterval, init);
    }
  }

  /**
   * `k` failed polls in a row double the backoff `k` times up to the cap, whatever the starting
   * delay; with the default interval the delays run 2000, 4000, 8000, 8000, ...
   */
  lemma {:induction false} FailureBackoff(s: ProviderState, pollInterval: int, ps: seq<Poll>)
    requires forall k :: 0 <= k < |ps| ==> !Succeeds(ps[k].outcome)
    ensures ps != [] ==> Run(s, pollInterval, ps).backoffDelay == Min(s.backoffDelay * Pow2(|ps|), MaxBackoff)
    ensures ps != [] ==> Run(s, pollInterval, ps).backoffDelay <= MaxBackoff
  {
    if |ps| > 1 {
      var init := ps[..|ps| - 1];
      FailureBackoff(s, pollInterval, init);
      var b := s.backoffDelay * Pow2(|ps| - 1);
      assert 2 * Min(b, MaxBackoff) == Min(2 * b, 2 * MaxBackoff);
      assert s.backoffDelay * Pow2(|ps|) == 2 * b;
    }
  }

  /** With the default interval, three failed polls from the start report an error. */
  lemma ThreeFailuresReportError(t1: int, t2: int, t3: int)
    ensures var ps := [Poll(NetworkFailure, t1), Poll(Response(500, Unreadable), t2), Poll(NetworkFailure, t3)];
      var r := Run(InitialState(DefaultPollInterval), DefaultPollInterval, ps);
      r.connectionStatus == Error && r.consecutiveErrors == 3 && r.backoffDelay == 8000
  {
    var ps := [Poll(NetworkFailure, t1), Poll(Response(500, Unreadable), t2), Poll(NetworkFailure, t3)];
    var s0 := InitialState(DefaultPollInterval);
    assert ps[..2][..1][..0] == [];
    assert Run(s0, DefaultPollInterval, ps[..1]) == FailureStep(s0);
    assert ps[..2][..1] == ps[..1];
    assert Run(s0, DefaultPollInterval, ps[..2]) == FailureStep(FailureStep(s0));
    assert Run(s0, DefaultPollInterval, ps) == FailureStep(FailureStep(FailureStep(s0)));
  }

  // ---------------------------------------------------------------------------------------
  // The callback as written
  // ---------------------------------------------------------------------------------------

  /**
   * The poll the hook performs as written. The callback is memoised on `pollInterval` only, so its
   * `consecutiveErrors` is the value of the render that created it: `seen`, which is 0 for as long
   * as the poll interval does not change.
   */
  function StaleFetchStep(s: ProviderState, pollInterval: int, seen: nat, p: Poll): ProviderState {
    match p.outcome
    case Response(status, Document(doc)) =>
      if Ok(status) then SuccessStep(s, pollInterval, doc, p.now) else FailureStepSeeing(s, seen)
    case _ => FailureStepSeeing(s, seen)
  }

  function StaleRun(s: ProviderState, pollInterval: int, ps: seq<Poll>): ProviderState {
    if ps == [] then s
    else StaleFetchStep(StaleRun(s, pollInterval, ps[..|ps| - 1]), pollInterval, 0, ps[|ps| - 1])
  }

  /**
   * As written, the hook never reports an error while the poll interval stays the same: however
   * many polls fail, the count it stores is at most 1.
   */
  lemma {:induction false} StaleHookNeverReportsError(s: ProviderState, pollInterval: int, ps: seq<Poll>)
    requires s.connectionStatus != Error
    ensures StaleRun(s, pollInterval, ps).connectionStatus != Error
    ensures ps != [] ==> StaleRun(s, pollInterval, ps).consecutiveErrors <= 1
  {
    if ps != [] {
      StaleHookNeverReportsError(s, pollInterval, ps[..|ps| - 1]);
    }
  }

  /** The three failures that make the intended provider report an error leave the hook as written disconnected. */
  lemma StaleHookMissesThreeFailures(t1: int, t2: int, t3: int)
    ensures var ps := [Poll(NetworkFailure, t1), Poll(NetworkFailure, t2), Poll(NetworkFailure, t3)];
      && StaleRun(InitialState(DefaultPollInterval), DefaultPollInterval, ps).connectionStatus == Disconnected
      && Run(InitialState(DefaultPollInterval), DefaultPollInterval, ps).connectionStatus == Error
  {
    var ps := [Poll(NetworkFailure, t1), Poll(NetworkFailure, t2), Poll(NetworkFailure, t3)];
    var s0 := InitialState(DefaultPollInterval);
    assert ps[..2][..1][..0] == [];
    assert ps[..2][..1] == ps[..1];
    assert Run(s0, DefaultPollInterval, ps[..1]) == FailureStep(s0);
    assert Run(s0, DefaultPollInterval, ps[..2]) == FailureStep(FailureStep(s0));
    assert Run(s0, DefaultPollInterval, ps) == FailureStep(FailureStep(FailureStep(s0)));
    assert StaleRun(s0, DefaultPollInterval, ps[..1]) == FailureStepSeeing(s0, 0);
    assert StaleRun(s0, DefaultPollInterval, ps[..2]) == FailureStepSeeing(FailureStepSeeing(s0, 0), 0);
    assert StaleRun(s0, DefaultPollInterval, ps)
        == FailureStepSeeing(FailureStepSeeing(FailureStepSeeing(s0, 0), 0), 0);
  }

  // ---------------------------------------------------------------------------------------
  // The provider
  // ---------------------------------------------------------------------------------------

  /** The provider component: its state variables are fields that each poll sets in turn. */
  class CorruptionProvider {
    const pollInterval: int
    var corruptionLevel: real
    var vulnerabilities: seq<Vulnerability>
    var isLoading: bool
    var lastUpdate: Option<int>
    var connectionStatus: ConnectionStatus
    var backoffDelay: int
    var consecutiveErrors: nat

    function Snapshot(): ProviderState
      reads this
    {
      ProviderState(corruptionLevel, vulnerabilities, isLoading, lastUpdate, connectionStatus,
                    backoffDelay, consecutiveErrors)
    }

    /** The `useState` initial values. */
    constructor(pollInterval: int)
      ensures this.pollInterval == pollInterval
      ensures Snapshot() == InitialState(pollInterval)
    {
      this.pollInterval := pollInterval;
      corruptionLevel := 100.0;
      vulnerabilities := [];
      isLoading := true;
      lastUpdate := None;
      connectionStatus := Disconnected;
      backoffDelay := pollInterval;
      consecutiveErrors := 0;
    }

    /**
     * `fetchCorruptionState`, reading the current error count: the success setters when the
     * response is OK and its body is a document, the failure setters otherwise, and loading
     * cleared in either case.
     */
    method FetchCorruptionState(p: Poll)
      modifies this
      ensures Snapshot() == FetchStep(old(Snapshot()), pollInterval, p)
    {
      var succeeded := false;
      var doc := StateDocument(0.0, [], 0.0, "");
      match p.outcome {
        case Response(status, body) =>
          if Ok(status) && body.Document? {
            succeeded := true;
            doc := body.doc;
          }
        case NetworkFailure =>
      }
      if succeeded {
        corruptionLevel := doc.corruptionLevel;
        vulnerabilities := doc.vulnerabilities;
        lastUpdate := Some(p.now);
        connectionStatus := Connected;
        backoffDelay := pollInterval;
        consecutiveErrors := 0;
      } else {
        var newErrorCount := consecutiveErrors + 1;
        consecutiveErrors := newErrorCount;
        if newErrorCount >= ErrorThreshold {
          connectionStatus := Error;
        }
        backoffDelay := Min(backoffDelay * 2, MaxBackoff);
      }
      isLoading := false;
    }

    /** The value the provider hands to `useCorruption` callers. */
    function Value(): (v: ContextValue)
      reads this
      ensures v == Expose(Snapshot())
      ensures v.corruptionState == GetCorruptionState(corruptionLevel)
    {
      Expose(Snapshot())
    }
  }
}
