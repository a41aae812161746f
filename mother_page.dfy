/**
 * The mother's daily check-in page: the five-level mood scale, saving a
 * check-in (the last log is overwritten and the note joins a rolling history of
 * at most five entries, newest first), reloading the last log, and the guard
 * that sends anyone but a signed-in mother to the login page.
 */
module MotherPage {
  import opened Options
  import opened Json
  import opened LocalStore
  import SmartAlerts

  /** One step of the mood scale: its emoji and label (the colour class is left out). */
  datatype MoodLevel = MoodLevel(emoji: string, name: string)

  /** The scale the mood buttons are drawn from; a mood is an index into it. */
  const Moods: seq<MoodLevel> := [
    MoodLevel("\U{1F622}", "Very Low"),
    MoodLevel("\U{1F610}", "Low"),
    MoodLevel("\U{1F642}", "Okay"),
    MoodLevel("\U{1F60A}", "Good"),
    MoodLevel("\U{1F60D}", "Great")
  ]

  const LogKey := "mother_log"
  const HistoryKey := "journal_history"
  const TokenKey := "access_token"
  const RoleKey := "user_role"

  /** Number of notes the journal history keeps for the sentiment pulse. */
  const HistoryLimit := 5

  function Min(a: int, b: int): int {
    if a <= b then a else b
  }

  /** The object `handleSaveMood` stores under `mother_log`. */
  function LogRecord(mood: nat, stress: int, note: string, timestamp: string): (r: Json)
    ensures r.Obj? && r.fields.Keys == {"mood", "stress", "note", "timestamp"}
    ensures Get(r, "mood") == Some(Num(mood as real)) && Truthy(r)
  {
    Obj(map["mood" := Num(mood as real), "stress" := Num(stress as real),
            "note" := Str(note), "timestamp" := Str(timestamp)])
  }

  /** One journal-history entry. */
  function HistoryEntry(note: string, timestamp: string): Json {
    Obj(map["note" := Str(note), "timestamp" := Str(timestamp)])
  }

  /** `[entry, ...history].slice(0, 5)`: the entry first, then the older ones in order, the oldest dropped past five. */
  function Rolled(entry: Json, history: seq<Json>): (r: seq<Json>)
    ensures |r| == Min(|history| + 1, HistoryLimit)
    ensures r[0] == entry
    ensures forall i :: 1 <= i < |r| ==> r[i] == history[i - 1]
  {
    ([entry] + history)[..Min(|history| + 1, HistoryLimit)]
  }

  /** What the spread `...history` takes from a parsed value: an array's items, a string's characters; anything else throws. */
  function Spread(v: Json): (r: Option<seq<Json>>)
    ensures v.Arr? ==> r == Some(v.items)
    ensures r.Some? <==> v.Arr? || v.Str?
  {
    match v
    case Arr(items) => Some(items)
    case Str(s) => Some(seq(|s|, i requires 0 <= i < |s| => Str([s[i]])))
    case _ => None
  }

  /**
   * `JSON.parse(localStorage.getItem("journal_history") || "[]")`, spread: None
   * when the parse throws or the value cannot be spread.
   */
  function PriorHistory(store: map<string, string>, parse: string -> ParseOutcome): (h: Option<seq<Json>>)
    ensures !Present(Item(store, HistoryKey)) ==> h == Some([])
    ensures ParseThrows(Item(store, HistoryKey), parse) ==> h.None?
  {
    var raw := Item(store, HistoryKey);
    var parsed := if Present(raw) then parse(raw.value) else Parsed(Arr([]));
    if parsed.SyntaxError? then None else Spread(parsed.value)
  }

  // ---------------------------------------- the rolling window over many saves

  function Reverse<T>(s: seq<T>): (r: seq<T>)
    ensures |r| == |s|
  {
    if s == [] then [] else [s[|s| - 1]] + Reverse(s[..|s| - 1])
  }

  /** The history after saving `entries` one after another, starting from none. */
  function AfterSaves(entries: seq<Json>): seq<Json> {
    if entries == [] then [] else Rolled(entries[|entries| - 1], AfterSaves(entries[..|entries| - 1]))
  }

  /** After any number of saves the history holds the newest five entries, newest first. */
  lemma {:induction false} HistoryKeepsNewestFive(entries: seq<Json>)
    ensures AfterSaves(entries) == Reverse(entries)[..Min(|entries|, HistoryLimit)]
  {
    if entries != [] {
      var init := entries[..|entries| - 1];
      var last := entries[|entries| - 1];
      HistoryKeepsNewestFive(init);
      var prev := AfterSaves(init);
      var r := AfterSaves(entries);
      var want := Reverse(entries)[..Min(|entries|, HistoryLimit)];
      assert Reverse(entries) == [last] + Reverse(init);
      assert |r| == |want|;
      forall i | 0 <= i < |r| ensures r[i] == want[i] {
        if i > 0 {
          assert r[i] == prev[i - 1];
        }
      }
    }
  }

  // ---------------------------------------- the page

  /** `if (!token || role !== "MOTHER") router.push(...)`: the page is left unless a token is set and the role is MOTHER. */
  function MustRedirect(store: map<string, string>): (redirect: bool)
    ensures !redirect <==> TokenKey in store && store[TokenKey] != "" && RoleKey in store && store[RoleKey] == "MOTHER"
  {
    !Present(Item(store, TokenKey)) || Item(store, RoleKey) != Some("MOTHER")
  }

  class Page {
    var selectedMood: Option<nat>
    var stressLevel: int
    var journalNote: string
    var lastLog: Json
    var store: map<string, string>

    /** A selected mood is a step of the scale. */
    ghost predicate Valid()
      reads this
    {
      selectedMood.Some? ==> selectedMood.value < |Moods|
    }

    constructor (store: map<string, string>)
      ensures Valid()
      ensures selectedMood == None && stressLevel == 3 && journalNote == "" && lastLog == Null
      ensures this.store == store
    {
      selectedMood, stressLevel, journalNote, lastLog := None, 3, "", Null;
      this.store := store;
    }

    /** A mood button: only the scale's indices can be chosen. */
    method SelectMood(index: nat)
      requires Valid() && index < |Moods|
      modifies this`selectedMood
      ensures Valid() && selectedMood == Some(index)
    {
      selectedMood := Some(index);
    }

    /** The mount effect: a present `mother_log` is parsed into `lastLog` (a throwing parse leaves it). */
    method LoadLastLog(parse: string -> ParseOutcome)
      modifies this`lastLog
      ensures Present(Item(store, LogKey)) && parse(store[LogKey]).Parsed? ==> lastLog == parse(store[LogKey]).value
      ensures !(Present(Item(store, LogKey)) && parse(store[LogKey]).Parsed?) ==> lastLog == old(lastLog)
    {
      var saved := Item(store, LogKey);
      if Present(saved) {
        var parsed := parse(saved.value);
        if parsed.Parsed? {
          lastLog := parsed.value;
        }
      }
    }

    /**
     * `handleSaveMood`. Without a selected mood nothing happens. Otherwise
     * `mother_log` is overwritten with the current mood, stress, note and
     * `logTime`; the note with `historyTime` is put in front of the stored history
     * (an absent one counts as empty), which keeps at most five entries, and
     * `lastLog` becomes the new log. Reading the history throws when it does not
     * parse or cannot be spread; the log is already written and `lastLog` stays.
     */
    method SaveMood(logTime: string, historyTime: string, parse: string -> ParseOutcome, stringify: Json -> string)
      requires Valid()
      modifies this`store, this`lastLog
      ensures Valid()
      ensures old(selectedMood).None? ==> store == old(store) && lastLog == old(lastLog)
      ensures old(selectedMood).Some? ==>
        var newLog := LogRecord(selectedMood.value, stressLevel, journalNote, logTime);
        var written := old(store)[LogKey := stringify(newLog)];
        match PriorHistory(old(store), parse)
        case None => store == written && lastLog == old(lastLog)
        case Some(history) =>
          && store == written[HistoryKey := stringify(Arr(Rolled(HistoryEntry(journalNote, historyTime), history)))]
          && lastLog == newLog
    {
      if selectedMood.None? { return; }
      var newLog := LogRecord(selectedMood.value, stressLevel, journalNote, logTime);
      store := store[LogKey := stringify(newLog)];
      var history := PriorHistory(store, parse);
      assert Item(store, HistoryKey) == Item(old(store), HistoryKey);
      if history.None? { return; }
      var updated := Rolled(HistoryEntry(journalNote, historyTime), history.value);
      store := store[HistoryKey := stringify(Arr(updated))];
      lastLog := newLog;
    }
  }

  /**
   * A saved mood raises the caution alert on the family side exactly when it is
   * Very Low or Low, whenever the physical status and the mental score raise
   * nothing themselves (as when neither is cached).
   */
  lemma SavedMoodAlert(mood: nat, stress: int, note: string, timestamp: string,
                       physical: Json, mental: SmartAlerts.MentalScore)
    requires mood < |Moods|
    requires var s := SmartAlerts.Signals(physical, mental, Null);
      !SmartAlerts.SilentSos(s) && !SmartAlerts.Urgent(s) && !SmartAlerts.HighDistress(s)
    ensures var s := SmartAlerts.Signals(physical, mental, LogRecord(mood, stress, note, timestamp));
      SmartAlerts.Resolve(s) == (if Moods[mood].name in {"Very Low", "Low"} then SmartAlerts.CautionAlert else SmartAlerts.StableAlert)
  {
    var s := SmartAlerts.Signals(physical, mental, LogRecord(mood, stress, note, timestamp));
    assert Get(s.log, "mood") == Some(Num(mood as real));
    assert Moods[mood].name in {"Very Low", "Low"} <==> mood <= 1;
  }

  /** With nothing else cached, a saved mood alone decides between caution and stable. */
  lemma SavedMoodAlertAlone(mood: nat, stress: int, note: string, timestamp: string)
    requires mood < |Moods|
    ensures var s := SmartAlerts.Signals(Null, SmartAlerts.Unset, LogRecord(mood, stress, note, timestamp));
      SmartAlerts.Resolve(s) == (if Moods[mood].name in {"Very Low", "Low"} then SmartAlerts.CautionAlert else SmartAlerts.StableAlert)
  {
    SavedMoodAlert(mood, stress, note, timestamp, Null, SmartAlerts.Unset);
  }
}
