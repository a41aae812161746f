/**
 * The family-side alert triage: a cache of the mother's signals refreshed from
 * the browser's local store, a gate that lets at most one sentiment request be
 * in flight and keeps the first good result, and a first-match cascade that
 * turns the cached signals into exactly one alert.
 */
module SmartAlerts {
  import opened Options
  import opened Json
  import opened LocalStore
  import JsText

  // ---------------------------------------------------------------- alerts

  datatype Level = Red | Amber | Yellow | Green

  /** An alert card: its type label, colour level, title, message and suggested support. */
  datatype Alert = Alert(kind: string, level: Level, title: string, message: string, suggestions: seq<string>)

  const SilentSosAlert := Alert(
    "ACTION REQUIRED", Amber, "Silent SOS: Physical Limit Reached",
    "Mom is hitting a severe physical limit (extreme exhaustion + pain).",
    ["Take the baby for 2+ hours immediately", "Ensure she reaches REM sleep",
     "Do not wake her for anything non-emergency"])

  const UrgentAlert := Alert(
    "URGENT", Red, "Immediate Action Required",
    "Severe physical symptoms logged (fever + bleeding + pain). Please seek medical help now.",
    ["Call her doctor", "Ensure she is resting", "Take over all baby duties"])

  const HighSupportAlert := Alert(
    "HIGH SUPPORT", Red, "Emotional Support Needed",
    "Her wellness screening indicates she is struggling emotionally right now.",
    ["Ask how she's really feeling", "Listen without judgment", "Book a professional consult"])

  const CautionAlert := Alert(
    "CAUTION", Yellow, "Mood Dip Noted",
    "She's logged a low or very low mood today. Keep a close eye on her.",
    ["Make her favorite tea", "Take the baby for a 30m walk", "Offer a warm bath"])

  const StableAlert := Alert(
    "STABLE", Green, "Doing Well",
    "Things seem stable today! Keep up the great support.",
    ["Tell her she's a great mom", "Prepare a healthy snack"])

  // ---------------------------------------------------------------- signals

  /** The cached mental-health score: never read (`null`), `parseInt` gave NaN, or a number. */
  datatype MentalScore = Unset | NaN | Score(value: int)

  /** The three cached values the resolver looks at. */
  datatype Signals = Signals(physical: Json, mental: MentalScore, log: Json)

  /** `physicalStatus?.hasSilentSOS` is truthy. */
  predicate SilentSos(s: Signals) {
    Holds(GetOpt(s.physical, "hasSilentSOS"))
  }

  /** `physicalStatus?.isUrgent` is truthy. */
  predicate Urgent(s: Signals) {
    Holds(GetOpt(s.physical, "isUrgent"))
  }

  /** `mentalScore && mentalScore >= 11`: null, NaN and 0 are falsy. */
  predicate HighDistress(s: Signals) {
    s.mental.Score? && s.mental.value != 0 && s.mental.value >= 11
  }

  /** `motherLog && (motherLog.mood === 0 || motherLog.mood === 1)`. */
  predicate LowMood(s: Signals) {
    Truthy(s.log) && (Get(s.log, "mood") == Some(Num(0.0)) || Get(s.log, "mood") == Some(Num(1.0)))
  }

  /**
   * `getAlert`: the first rule that matches, in the order silent SOS, urgent,
   * high distress, low mood, and the stable alert when none does.
   */
  function Resolve(s: Signals): (a: Alert)
    ensures a in {SilentSosAlert, UrgentAlert, HighSupportAlert, CautionAlert, StableAlert}
    ensures a == SilentSosAlert <==> SilentSos(s)
    ensures a == UrgentAlert <==> !SilentSos(s) && Urgent(s)
    ensures a == HighSupportAlert <==> !SilentSos(s) && !Urgent(s) && HighDistress(s)
    ensures a == CautionAlert <==> !SilentSos(s) && !Urgent(s) && !HighDistress(s) && LowMood(s)
    ensures a == StableAlert <==> !SilentSos(s) && !Urgent(s) && !HighDistress(s) && !LowMood(s)
  {
    if SilentSos(s) then SilentSosAlert
    else if Urgent(s) then UrgentAlert
    else if HighDistress(s) then HighSupportAlert
    else if LowMood(s) then CautionAlert
    else StableAlert
  }

  /** With nothing cached (the initial state) the alert is the stable one. */
  lemma NothingCachedIsStable()
    ensures Resolve(Signals(Null, Unset, Null)) == StableAlert
  {
  }

  /** Only a number of at least 11 raises the high-support alert: null and NaN never do. */
  lemma AbsentScoreNeverMatches(physical: Json, log: Json)
    ensures !HighDistress(Signals(physical, Unset, log)) && !HighDistress(Signals(physical, NaN, log))
  {
  }

  // ------------------------------------------- the cascade as an ordered rule list

  /** The rules of the cascade, as data. */
  datatype Rule = SilentSosRule | UrgentRule | HighDistressRule | LowMoodRule

  /** The order in which `getAlert` tries the rules. */
  const Cascade: seq<Rule> := [SilentSosRule, UrgentRule, HighDistressRule, LowMoodRule]

  predicate Matches(r: Rule, s: Signals) {
    match r
    case SilentSosRule => SilentSos(s)
    case UrgentRule => Urgent(s)
    case HighDistressRule => HighDistress(s)
    case LowMoodRule => LowMood(s)
  }

  function AlertOf(r: Rule): Alert {
    match r
    case SilentSosRule => SilentSosAlert
    case UrgentRule => UrgentAlert
    case HighDistressRule => HighSupportAlert
    case LowMoodRule => CautionAlert
  }

  /** Evaluates a rule list in order and stops at the first rule that matches. */
  function FirstMatch(rules: seq<Rule>, s: Signals): Alert {
    if rules == [] then StableAlert
    else if Matches(rules[0], s) then AlertOf(rules[0])
    else FirstMatch(rules[1..], s)
  }

  /** The rule list picks the alert of its first matching rule, whatever the later rules say. */
  lemma {:induction false} FirstMatchPicksFirst(rules: seq<Rule>, s: Signals, i: nat)
    requires i < |rules| && Matches(rules[i], s)
    requires forall j :: 0 <= j < i ==> !Matches(rules[j], s)
    ensures FirstMatch(rules, s) == AlertOf(rules[i])
  {
    if i > 0 {
      FirstMatchPicksFirst(rules[1..], s, i - 1);
    }
  }

  /** With no matching rule the rule list falls through to the stable alert. */
  lemma {:induction false} FirstMatchDefault(rules: seq<Rule>, s: Signals)
    requires forall j :: 0 <= j < |rules| ==> !Matches(rules[j], s)
    ensures FirstMatch(rules, s) == StableAlert
  {
    if rules != [] {
      FirstMatchDefault(rules[1..], s);
    }
  }

  /** The if-cascade of `getAlert` and the ordered rule list agree on every input. */
  lemma ResolveIsFirstMatch(s: Signals)
    ensures Resolve(s) == FirstMatch(Cascade, s)
  {
    if SilentSos(s) {
      FirstMatchPicksFirst(Cascade, s, 0);
    } else if Urgent(s) {
      FirstMatchPicksFirst(Cascade, s, 1);
    } else if HighDistress(s) {
      FirstMatchPicksFirst(Cascade, s, 2);
    } else if LowMood(s) {
      FirstMatchPicksFirst(Cascade, s, 3);
    } else {
      FirstMatchDefault(Cascade, s);
    }
  }

  /**
   * Priority: once a rule matches, no signal that only later rules look at can
   * change the alert.
   */
  lemma LaterSignalsCannotOverride(s: Signals, mental: MentalScore, log: Json)
    ensures SilentSos(s) || Urgent(s) ==>
      Resolve(Signals(s.physical, mental, log)) == Resolve(s)
    ensures HighDistress(s) ==> Resolve(Signals(s.physical, s.mental, log)) == Resolve(s)
  {
  }

  // ---------------------------------------------------------------- the store

  const LogKey := "mother_log"
  const PhysicalKey := "physical_status"
  const MentalKey := "mental_health_score"
  const HistoryKey := "journal_history"
  const BreathingKey := "is_breathing"

  /** The cached value after reading `item`: its parse when present, else the old value. */
  function Refresh(item: Option<string>, parse: string -> ParseOutcome, cached: Json): Json
    requires !ParseThrows(item, parse)
  {
    if Present(item) then parse(item.value).value else cached
  }

  /** `parseInt(mental)` as a cached score. */
  function ScoreOf(text: string): (m: MentalScore)
    ensures m != Unset
    ensures m.Score? <==> JsText.ParseInt(text).Some?
    ensures m.Score? ==> m.value == JsText.ParseInt(text).value
  {
    match JsText.ParseInt(text)
    case None => NaN
    case Some(n) => Score(n)
  }

  /** A score the screening stored as `String(n)` is cached as that number. */
  lemma StoredScoreReadBack(n: int)
    ensures ScoreOf(JsText.Decimal(n)) == Score(n)
  {
    JsText.ParseIntDecimal(n);
  }

  // ---------------------------------------------------------------- the cache and the gate

  /** How the sentiment request ended: `fetch` or `res.json()` threw, or the body was read. */
  datatype Reply = FetchFailed | Received(data: Json)

  /** `data && !data.error`: the reply is kept as the sentiment pulse. */
  predicate Accepts(reply: Reply) {
    reply.Received? && Truthy(reply.data) && !Holds(Get(reply.data, "error"))
  }

  /** The component's state: the cached signals and the two gate flags. */
  class SignalCache {
    var motherLog: Json
    var physicalStatus: Json
    var mentalScore: MentalScore
    var sentimentPulse: Json
    var isAnalyzing: bool
    var isBreathing: bool

    /** A request is in flight only while no pulse is cached. */
    ghost predicate Valid()
      reads this
    {
      isAnalyzing ==> !Truthy(sentimentPulse)
    }

    constructor ()
      ensures Valid()
      ensures motherLog == Null && physicalStatus == Null && mentalScore == Unset
      ensures sentimentPulse == Null && !isAnalyzing && !isBreathing
    {
      motherLog, physicalStatus, mentalScore := Null, Null, Unset;
      sentimentPulse, isAnalyzing, isBreathing := Null, false, false;
    }

    function CurrentSignals(): Signals
      reads this
    {
      Signals(physicalStatus, mentalScore, motherLog)
    }

    /** The alert on screen. */
    function CurrentAlert(): Alert
      reads this
    {
      Resolve(CurrentSignals())
    }

    /**
     * `updateStates`, with the synchronous start of `analyzeSentiment`. It reads
     * the five keys; each present key among the log, the physical status and the
     * score replaces its cached value, `isBreathing` becomes `is_breathing ==
     * "true"`, and when history is present, no pulse is cached and no request is in
     * flight, a request is started with the parsed history (`call`). A `JSON.parse`
     * that throws ends the refresh at that point.
     */
    method UpdateStates(store: map<string, string>, parse: string -> ParseOutcome) returns (call: Option<Json>)
      requires Valid()
      modifies this
      ensures Valid()
      ensures sentimentPulse == old(sentimentPulse)
      // a log that cannot be parsed stops the refresh before anything changes
      ensures ParseThrows(Item(store, LogKey), parse) ==>
        motherLog == old(motherLog) && physicalStatus == old(physicalStatus) && mentalScore == old(mentalScore) &&
        isBreathing == old(isBreathing) && isAnalyzing == old(isAnalyzing) && call.None?
      ensures !ParseThrows(Item(store, LogKey), parse) ==>
        motherLog == Refresh(Item(store, LogKey), parse, old(motherLog))
      // so does a physical status that cannot be parsed, after the log
      ensures ParseThrows(Item(store, PhysicalKey), parse) ==>
        physicalStatus == old(physicalStatus) && mentalScore == old(mentalScore) &&
        isBreathing == old(isBreathing) && isAnalyzing == old(isAnalyzing) && call.None?
      ensures !ParseThrows(Item(store, LogKey), parse) && !ParseThrows(Item(store, PhysicalKey), parse) ==>
        && physicalStatus == Refresh(Item(store, PhysicalKey), parse, old(physicalStatus))
        && mentalScore == (if Present(Item(store, MentalKey)) then ScoreOf(store[MentalKey]) else old(mentalScore))
        && isBreathing == (Item(store, BreathingKey) == Some("true"))
      // the dedup gate
      ensures call.Some? <==>
        && !ParseThrows(Item(store, LogKey), parse) && !ParseThrows(Item(store, PhysicalKey), parse)
        && Present(Item(store, HistoryKey)) && !Truthy(old(sentimentPulse)) && !old(isAnalyzing)
        && parse(store[HistoryKey]).Parsed?
      ensures call.Some? ==> isAnalyzing && call.value == parse(store[HistoryKey]).value
      ensures call.None? ==> isAnalyzing == old(isAnalyzing)
    {
      call := None;
      var log := Item(store, LogKey);
      if Present(log) {
        var parsed := parse(log.value);
        if parsed.SyntaxError? { return; }
        motherLog := parsed.value;
      }
      var physical := Item(store, PhysicalKey);
      if Present(physical) {
        var parsed := parse(physical.value);
        if parsed.SyntaxError? { return; }
        physicalStatus := parsed.value;
      }
      var mental := Item(store, MentalKey);
      if Present(mental) {
        mentalScore := ScoreOf(mental.value);
      }
      isBreathing := Item(store, BreathingKey) == Some("true");
      var history := Item(store, HistoryKey);
      if Present(history) && !Truthy(sentimentPulse) && !isAnalyzing {
        var parsed := parse(history.value);
        if parsed.SyntaxError? { return; }
        isAnalyzing := true;
        call := Some(parsed.value);
      }
    }

    /**
     * The end of `analyzeSentiment` for the request in flight: a reply without a
     * truthy `error` becomes the pulse, and `isAnalyzing` is cleared on every outcome.
     */
    method FinishAnalysis(reply: Reply)
      requires Valid() && isAnalyzing
      modifies this`sentimentPulse, this`isAnalyzing
      ensures Valid() && !isAnalyzing
      ensures sentimentPulse == if Accepts(reply) then reply.data else old(sentimentPulse)
      ensures CurrentAlert() == old(CurrentAlert())
    {
      if reply.Received? {
        var data := reply.data;
        if Truthy(data) && !Holds(Get(data, "error")) {
          sentimentPulse := data;
        }
      }
      isAnalyzing := false;
    }
  }

  /**
   * The gate over one session with an unchanged store: a second refresh while the
   * first request is in flight starts nothing; after the request ends, a refresh
   * starts a new one exactly when the reply was not kept.
   */
  method GateSession(store: map<string, string>, parse: string -> ParseOutcome, reply: Reply)
    returns (first: Option<Json>, second: Option<Json>, third: Option<Json>)
    ensures second.None?
    ensures first.Some? <==>
      && !ParseThrows(Item(store, LogKey), parse) && !ParseThrows(Item(store, PhysicalKey), parse)
      && Present(Item(store, HistoryKey)) && parse(store[HistoryKey]).Parsed?
    ensures first.Some? ==> (third.Some? <==> !Accepts(reply)) && (third.Some? ==> third == first)
    ensures first.None? ==> third.None?
  {
    var cache := new SignalCache();
    first := cache.UpdateStates(store, parse);
    second := cache.UpdateStates(store, parse);
    if first.Some? {
      cache.FinishAnalysis(reply);
      third := cache.UpdateStates(store, parse);
    } else {
      third := None;
    }
  }
}
