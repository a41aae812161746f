/**
 * The nurse vision route: it checks for an image, takes the model's reply text,
 * strips Markdown code fences from it, parses it (falling back to a fixed
 * analysis), makes sure the insight text is never blank, builds the entry it logs
 * and answers with the analysis, or classifies the error it caught.
 */
module NurseVision {
  import opened Options
  import opened Json
  import opened JsText
  import opened RouteErrors

  const Fence := "```"
  const JsonFence := "```json"

  const TypeKey := "ai_analysis_type"
  const InsightKey := "ai_insight_text"
  const FatigueKey := "fatigue_index"
  const AlertKey := "alert_level"
  const UserKey := "user_id"
  const PlaceholderUser := "00000000-0000-0000-0000-000000000000"

  const UnreadablePhotoText :=
    "I've reviewed your photo. It's hard for me to see details clearly here\U{2014}try another photo with better lighting!"
  const EncouragementText := "I've reviewed your photo. You're doing a great job caring for yourself and the baby!"
  const QuotaInsightText := "I'm taking a 60-second break to rest (Quota reached). I'll be back shortly, Mama!"

  /** The analysis used when the reply text is not JSON. */
  const ParseFallback: Json := Obj(map[
    TypeKey := Str("observation"),
    InsightKey := Str(UnreadablePhotoText),
    AlertKey := Str("stable"),
    FatigueKey := Null])

  // ---------------------------------------- the regular expression /```json\s?([\s\S]*?)\s?```/

  /** The closing part `\s?```` matches at index `j`. */
  predicate CloseAt(s: string, j: int) {
    (0 <= j < |s| && IsSpace(s[j]) && OccursAt(s, j + 1, Fence)) || OccursAt(s, j, Fence)
  }

  /** The lazy group `[\s\S]*?` starting at `g` ends at the first index where the closing part matches. */
  function FirstClose(s: string, g: nat): (r: Option<nat>)
    requires g <= |s|
    ensures r.Some? ==> g <= r.value <= |s| && CloseAt(s, r.value)
    ensures forall j :: g <= j < (if r.Some? then r.value else |s| + 1) ==> !CloseAt(s, j)
    decreases |s| - g
  {
    if CloseAt(s, g) then Some(g) else if g == |s| then None else FirstClose(s, g + 1)
  }

  /** A closing part at `j` with none before it from `g` on is the one the lazy group stops at. */
  lemma FirstCloseIs(s: string, g: nat, j: nat)
    requires g <= j <= |s| && CloseAt(s, j)
    requires forall k :: g <= k < j ==> !CloseAt(s, k)
    ensures FirstClose(s, g) == Some(j)
  {
  }

  /**
   * The captured group of a match starting at `i`, where "```json" occurs: the
   * greedy `\s?` first takes one white-space character and gives it back only
   * when no closing part follows.
   */
  function GroupAt(s: string, i: nat): (r: Option<string>)
    requires OccursAt(s, i, JsonFence)
    ensures r.Some? ==> !Contains(r.value, Fence)
    ensures r.Some? ==> exists g :: i + 7 <= g <= i + 8 && OccursAt(s, g, r.value) && CloseAt(s, g + |r.value|)
  {
    var p := i + 7;
    if p < |s| && IsSpace(s[p]) && FirstClose(s, p + 1).Some? then
      var j := FirstClose(s, p + 1).value;
      LazyGroupHasNoFence(s, p + 1, j);
      Some(s[p + 1..j])
    else if FirstClose(s, p).Some? then
      var j := FirstClose(s, p).value;
      LazyGroupHasNoFence(s, p, j);
      Some(s[p..j])
    else
      None
  }

  /** The text a lazy group covers holds no fence: a fence inside it would have closed it earlier. */
  lemma LazyGroupHasNoFence(s: string, g: nat, j: nat)
    requires g <= j <= |s|
    requires forall k :: g <= k < j ==> !CloseAt(s, k)
    ensures OccursAt(s, g, s[g..j]) && !Contains(s[g..j], Fence)
  {
    var t := s[g..j];
    forall q | 0 <= q <= |t|
      ensures !OccursAt(t, q, Fence)
    {
      if q + 3 <= |t| {
        assert !CloseAt(s, g + q);
        var u, v := t[q..q + 3], s[g + q..g + q + 3];
        forall k | 0 <= k < 3
          ensures u[k] == v[k]
        {
          assert u[k] == t[q + k] == s[g + q + k];
        }
        assert u == v;
      }
    }
  }

  /** `text.match(/```json\s?([\s\S]*?)\s?```/)[1]`: the group of the leftmost match, None when nothing matches. */
  function FirstBlock(s: string, i: nat): (r: Option<string>)
    ensures r.Some? ==> !Contains(r.value, Fence)
    decreases |s| - i
  {
    if i + 7 > |s| then None
    else if OccursAt(s, i, JsonFence) && GroupAt(s, i).Some? then GroupAt(s, i)
    else FirstBlock(s, i + 1)
  }

  // ---------------------------------------- text.replace(/```(json)?/g, "")

  /** Removes every fence, with the word "json" right after it, scanning from the left. */
  function StripFences(s: string): (r: string)
    ensures |r| <= |s|
    decreases |s|
  {
    if |s| < 3 then s
    else if s[..3] == Fence then (if OccursAt(s, 3, "json") then StripFences(s[7..]) else StripFences(s[3..]))
    else [s[0]] + StripFences(s[1..])
  }

  /** After the global replace no fence is left, not even one formed where two pieces meet. */
  lemma {:induction false} StripLeavesNoFence(s: string)
    ensures !Contains(StripFences(s), Fence)
    decreases |s|
  {
    var r := StripFences(s);
    if |s| < 3 {
    } else if s[..3] == Fence {
      if OccursAt(s, 3, "json") {
        StripLeavesNoFence(s[7..]);
      } else {
        StripLeavesNoFence(s[3..]);
      }
    } else {
      var rest := StripFences(s[1..]);
      StripLeavesNoFence(s[1..]);
      assert r == [s[0]] + rest;
      if Contains(r, Fence) {
        var q :| 0 <= q <= |r| && OccursAt(r, q, Fence);
        if q > 0 {
          forall k | 0 <= k < 3
            ensures rest[q - 1 + k] == Fence[k]
          {
            assert r[q..q + 3][k] == r[q + k] == rest[q - 1 + k];
          }
          assert rest[q - 1..q + 2] == Fence;
          assert OccursAt(rest, q - 1, Fence);
        } else {
          assert false;
        }
      }
    }
  }

  /** A text without a fence goes through the replace unchanged. */
  lemma {:induction false} StripWithoutFence(s: string)
    requires !Contains(s, Fence)
    ensures StripFences(s) == s
    decreases |s|
  {
    if |s| >= 3 {
      assert !OccursAt(s, 0, Fence);
      assert s[..3] == s[0..0 + |Fence|];
      if Contains(s[1..], Fence) {
        ContainsWithin(s, 1, s[1..], Fence);
      }
      StripWithoutFence(s[1..]);
      assert s == [s[0]] + s[1..];
    }
  }

  /** A text with no backquote holds no fence. */
  lemma NoBackquoteNoFence(s: string)
    requires forall k :: 0 <= k < |s| ==> s[k] != '`'
    ensures !Contains(s, Fence)
  {
    forall q | 0 <= q <= |s|
      ensures !OccursAt(s, q, Fence)
    {
      if q + 3 <= |s| {
        assert s[q..q + 3][0] == s[q];
      }
    }
  }

  /** Text with no backquote in front of the rest is kept as it is. */
  lemma {:induction false} StripKeepsPlainPrefix(a: string, t: string)
    requires forall k :: 0 <= k < |a| ==> a[k] != '`'
    ensures StripFences(a + t) == a + StripFences(t)
    decreases |a|
  {
    if a != [] {
      var s := a + t;
      if |s| < 3 {
        assert StripFences(t) == t;
      } else {
        assert s[..3][0] == a[0];
        assert s[1..] == a[1..] + t;
        StripKeepsPlainPrefix(a[1..], t);
        assert s == [a[0]] + (a[1..] + t);
        assert a == [a[0]] + a[1..];
      }
    } else {
      assert a + t == t;
    }
  }

  /** An opening "```json" is removed as a whole. */
  lemma StripOpening(t: string)
    ensures StripFences(JsonFence + t) == StripFences(t)
  {
    var v := JsonFence + t;
    assert v[..3] == Fence && v[3..7] == "json" && v[7..] == t;
    assert OccursAt(v, 3, "json");
  }

  /** A fence not followed by "json" is removed alone. */
  lemma StripBareFence(t: string)
    requires !OccursAt(t, 0, "json")
    ensures StripFences(Fence + t) == StripFences(t)
  {
    var u := Fence + t;
    assert u[..3] == Fence && u[3..] == t;
    assert !OccursAt(u, 3, "json") by {
      if |t| >= 4 { assert u[3..7] == t[0..4]; }
    }
  }

  /** A closing fence followed by plain text leaves that text. */
  lemma StripClosing(c: string)
    requires forall k :: 0 <= k < |c| ==> c[k] != '`'
    requires !OccursAt(c, 0, "json")
    ensures StripFences(Fence + c) == c
  {
    StripBareFence(c);
    NoBackquoteNoFence(c);
    StripWithoutFence(c);
  }

  /**
   * The replace removes exactly the two fences (and the word "json" after the
   * first) of a block, and keeps the text before, inside and after it.
   */
  lemma StripBlock(a: string, b: string, c: string)
    requires forall k :: 0 <= k < |a| ==> a[k] != '`'
    requires forall k :: 0 <= k < |b| ==> b[k] != '`'
    requires forall k :: 0 <= k < |c| ==> c[k] != '`'
    requires !OccursAt(c, 0, "json")
    ensures StripFences(a + JsonFence + b + Fence + c) == a + b + c
  {
    StripBlockBody(b, c);
    StripKeepsPlainPrefix(a, JsonFence + (b + (Fence + c)));
    BlockPieces(a, b, c);
  }

  lemma BlockPieces(a: string, b: string, c: string)
    ensures a + JsonFence + b + Fence + c == a + (JsonFence + (b + (Fence + c)))
  {
  }

  lemma StripBlockBody(b: string, c: string)
    requires forall k :: 0 <= k < |b| ==> b[k] != '`'
    requires forall k :: 0 <= k < |c| ==> c[k] != '`'
    requires !OccursAt(c, 0, "json")
    ensures StripFences(JsonFence + (b + (Fence + c))) == b + c
  {
    StripClosing(c);
    StripKeepsPlainPrefix(b, Fence + c);
    StripOpening(b + (Fence + c));
  }

  /** A fence-free piece of a fence-free string is fence-free. */
  lemma TrimKeepsNoFence(s: string)
    requires !Contains(s, Fence)
    ensures !Contains(Trim(s), Fence)
  {
    if Contains(Trim(s), Fence) {
      ContainsWithin(s, LeadingSpaces(s), Trim(s), Fence);
    }
  }

  // ---------------------------------------- cleaning

  /**
   * The cleaned reply text: trimmed; when it holds a fence, the trimmed group of
   * the first "```json" block if that group is non-empty, and otherwise the text
   * with every fence removed, trimmed. The result never holds a fence.
   */
  function Cleaned(text: string): (r: string)
    ensures !Contains(Trim(text), Fence) ==> r == Trim(text)
    ensures !Contains(r, Fence)
  {
    var t := Trim(text);
    if !Contains(t, Fence) then t
    else
      var block := FirstBlock(t, 0);
      if block.Some? && block.value != "" then
        TrimKeepsNoFence(block.value);
        Trim(block.value)
      else
        StripLeavesNoFence(t);
        TrimKeepsNoFence(StripFences(t));
        Trim(StripFences(t))
  }

  /** A reply wrapped in a "```json" block on its own lines yields the block's content, trimmed. */
  lemma FencedReply(inner: string)
    requires inner != [] && forall k :: 0 <= k < |inner| ==> inner[k] != '`'
    ensures Cleaned("```json\n" + inner + "\n```") == Trim(inner)
  {
    var t := "```json\n" + inner + "\n```";
    var n := |inner|;
    assert |t| == n + 12;
    TrimUnpadded(t);
    assert t[..7] == JsonFence;
    assert OccursAt(t, 0, JsonFence);
    assert t[0..3] == Fence;
    assert OccursAt(t, 0, Fence);
    assert t[8..8 + n] == inner;
    assert t[8 + n] == '\n';
    assert t[9 + n..12 + n] == Fence;
    assert CloseAt(t, 8 + n);
    forall k | 8 <= k < 8 + n
      ensures !CloseAt(t, k)
    {
      assert t[k] == inner[k - 8];
      assert t[k + 1] == if k + 1 < 8 + n then inner[k + 1 - 8] else '\n';
    }
    FirstCloseIs(t, 8, 8 + n);
    assert IsSpace(t[7]);
    assert GroupAt(t, 0) == Some(inner);
    assert FirstBlock(t, 0) == Some(inner);
  }

  /** FirstBlock finds nothing in a text where "```json" does not occur. */
  lemma {:induction false} NoJsonFenceNoBlock(s: string, i: nat)
    requires forall j :: i <= j ==> !OccursAt(s, j, JsonFence)
    ensures FirstBlock(s, i) == None
    decreases |s| - i
  {
    if i + 7 <= |s| {
      NoJsonFenceNoBlock(s, i + 1);
    }
  }

  /** In a plain "```" block on its own lines, "```json" occurs nowhere. */
  lemma PlainBlockHasNoJsonFence(inner: string)
    requires forall k :: 0 <= k < |inner| ==> inner[k] != '`'
    ensures forall j :: 0 <= j ==> !OccursAt("```\n" + inner + "\n```", j, JsonFence)
  {
    var t := "```\n" + inner + "\n```";
    var n := |inner|;
    assert |t| == n + 8 && t[3] == '\n';
    forall k | 3 <= k < n + 5
      ensures t[k] != '`'
    {
      if 4 <= k < n + 4 { assert t[k] == inner[k - 4]; }
    }
    forall j | 0 <= j
      ensures !OccursAt(t, j, JsonFence)
    {
      if j + 7 <= |t| {
        assert t[j..j + 7][0] == t[j] && t[j..j + 7][1] == t[j + 1];
        assert t[j..j + 7][2] == t[j + 2] && t[j..j + 7][3] == t[j + 3];
      }
    }
  }

  /** The replace turns a plain "```" block on its own lines into its lines. */
  lemma PlainBlockStrips(inner: string)
    requires forall k :: 0 <= k < |inner| ==> inner[k] != '`'
    ensures StripFences("```\n" + inner + "\n```") == "\n" + inner + "\n"
  {
    LinesHaveNoBackquote(inner);
    StripFencedLines("\n" + inner + "\n");
    PlainBlockPieces(inner);
  }

  lemma LinesHaveNoBackquote(inner: string)
    requires forall k :: 0 <= k < |inner| ==> inner[k] != '`'
    ensures var body := "\n" + inner + "\n"; |body| > 0 && body[0] == '\n' && forall k :: 0 <= k < |body| ==> body[k] != '`'
  {
    var body := "\n" + inner + "\n";
    forall k | 0 <= k < |body| ensures body[k] != '`' {
      if 1 <= k <= |inner| { assert body[k] == inner[k - 1]; }
    }
  }

  lemma StripFencedLines(body: string)
    requires |body| > 0 && body[0] == '\n'
    requires forall k :: 0 <= k < |body| ==> body[k] != '`'
    ensures StripFences(Fence + (body + Fence)) == body
  {
    var w := body + Fence;
    StripClosing("");
    assert Fence + "" == Fence;
    StripKeepsPlainPrefix(body, Fence);
    assert StripFences(w) == body + "" == body;
    assert !OccursAt(w, 0, "json") by { assert w[0] == '\n'; }
    StripBareFence(w);
  }

  lemma PlainBlockPieces(inner: string)
    ensures "```\n" + inner + "\n```" == Fence + (("\n" + inner + "\n") + Fence)
  {
  }

  /**
   * A reply wrapped in a plain "```" block on its own lines has no "```json"
   * block, so it takes the replace path, which keeps the content: the result is
   * the content, trimmed.
   */
  lemma PlainFencedReply(inner: string)
    requires forall k :: 0 <= k < |inner| ==> inner[k] != '`'
    ensures Cleaned("```\n" + inner + "\n```") == Trim(inner)
  {
    var t := "```\n" + inner + "\n```";
    TrimUnpadded(t);
    assert t[0..3] == Fence;
    assert OccursAt(t, 0, Fence);
    PlainBlockHasNoJsonFence(inner);
    NoJsonFenceNoBlock(t, 0);
    PlainBlockStrips(inner);
    TrimPadded("\n", inner, "\n");
  }

  /** `cleanedJson` worked out step by step as the handler does. */
  method CleanJson(text: string) returns (cleaned: string)
    ensures cleaned == Cleaned(text)
    ensures !Contains(cleaned, Fence)
  {
    cleaned := Trim(text);
    if Contains(cleaned, Fence) {
      var matched := FirstBlock(cleaned, 0);
      if matched.Some? && matched.value != "" {
        cleaned := Trim(matched.value);
      } else {
        cleaned := Trim(StripFences(cleaned));
      }
    }
  }

  // ---------------------------------------- the insight fallback and the log entry

  /** Outcome of the insight step: a TypeError, or the analysis and the insight it now reads as. */
  datatype Normalized = Failed | Normalized(analysis: Json, insight: string)

  /**
   * `if (!analysis.ai_insight_text || analysis.ai_insight_text.trim() === "")`
   * followed by the assignment. Reading a property of null, calling `trim` on a
   * non-string and assigning a property of a primitive (the module is strict)
   * throw a TypeError. An array takes the property without showing it in JSON.
   */
  function NormalizeInsight(analysis: Json): (r: Normalized)
    ensures r.Normalized? ==> !IsBlank(r.insight)
    ensures r.Failed? <==>
      || analysis.Null? || analysis.Bool? || analysis.Num? || analysis.Str?
      || (Holds(Get(analysis, InsightKey)) && !Get(analysis, InsightKey).value.Str?)
    ensures r.Normalized? && analysis.Arr? ==> r.analysis == analysis && r.insight == EncouragementText
    ensures r.Normalized? && analysis.Obj? ==>
      && r.analysis.Obj?
      && r.analysis.fields == analysis.fields[InsightKey := Str(r.insight)]
      && ((InsightKey in analysis.fields && analysis.fields[InsightKey] == Str(r.insight)) || r.insight == EncouragementText)
    // a non-blank string insight is kept as it is
    ensures var read := Get(analysis, InsightKey);
      analysis.Obj? && read.Some? && read.value.Str? && !IsBlank(read.value.s) ==>
        r == Normalized(analysis, read.value.s)
    // a missing, falsy or blank insight is replaced by the encouragement
    ensures var read := Get(analysis, InsightKey);
      analysis.Obj? && (!Holds(read) || (read.value.Str? && IsBlank(read.value.s))) ==>
        r == Normalized(Obj(analysis.fields[InsightKey := Str(EncouragementText)]), EncouragementText)
  {
    match analysis
    case Arr(_) => EncouragementFacts(); Normalized(analysis, EncouragementText)
    case Obj(fields) =>
      var read := Get(analysis, InsightKey);
      if !Holds(read) || (read.value.Str? && Trim(read.value.s) == "") then
        EncouragementFacts();
        Normalized(Obj(fields[InsightKey := Str(EncouragementText)]), EncouragementText)
      else if read.value.Str? then
        assert !IsBlank(read.value.s);
        assert fields[InsightKey := Str(read.value.s)] == fields;
        Normalized(analysis, read.value.s)
      else
        Failed
    case _ => Failed
  }

  lemma EncouragementFacts()
    ensures !IsBlank(EncouragementText)
  {
    assert EncouragementText[|EncouragementText| - 1] == '!';
  }

  /** The fallback analysis passes the insight step unchanged. */
  lemma FallbackPassesInsightStep()
    ensures NormalizeInsight(ParseFallback) == Normalized(ParseFallback, UnreadablePhotoText)
  {
    var fields := ParseFallback.fields;
    assert InsightKey in fields && fields[InsightKey] == Str(UnreadablePhotoText);
    assert UnreadablePhotoText[|UnreadablePhotoText| - 1] == '!';
    assert !IsBlank(UnreadablePhotoText);
    assert fields[InsightKey := Str(UnreadablePhotoText)] == fields;
  }

  /** `logEntry`: type, fatigue and alert default with `||`, the insight is the final one, the user is fixed. */
  function LogEntry(analysis: Json, insight: string): (r: Json)
    ensures r.Obj? && r.fields.Keys == {TypeKey, InsightKey, FatigueKey, AlertKey, UserKey}
    ensures Truthy(r.fields[TypeKey]) && Truthy(r.fields[AlertKey])
    ensures r.fields[InsightKey] == Str(insight) && r.fields[UserKey] == Str(PlaceholderUser)
    ensures r.fields[FatigueKey] == Null <==> !Holds(Get(analysis, FatigueKey))
    ensures forall k :: k in {TypeKey, FatigueKey, AlertKey} && Holds(Get(analysis, k)) ==>
      r.fields[k] == analysis.fields[k]
    ensures !Holds(Get(analysis, TypeKey)) ==> r.fields[TypeKey] == Str("observation")
    ensures !Holds(Get(analysis, AlertKey)) ==> r.fields[AlertKey] == Str("stable")
  {
    Obj(map[
      TypeKey := OrElse(Get(analysis, TypeKey), Str("observation")),
      InsightKey := Str(insight),
      FatigueKey := OrElse(Get(analysis, FatigueKey), Null),
      AlertKey := OrElse(Get(analysis, AlertKey), Str("stable")),
      UserKey := Str(PlaceholderUser)])
  }

  /** A fatigue index of 0, like a missing one, is logged as null. */
  lemma ZeroFatigueLoggedAsNull(analysis: Json, insight: string)
    requires Get(analysis, FatigueKey) == Some(Num(0.0))
    ensures LogEntry(analysis, insight).fields[FatigueKey] == Null
  {
  }

  // ---------------------------------------- errors

  /** The body and status the catch block answers with; `full` is the serialised exception. */
  function ErrorResponse(e: ErrorInfo, full: Json): (r: Response)
    ensures r.status == StatusOr500(e) && r.status != 0
    ensures r.body.Obj? && r.body.fields.Keys == {"error", InsightKey, AlertKey, "debug"}
    ensures r.body.fields[AlertKey] == Str("stable")
    ensures r.body.fields["debug"] == Obj(Debug(e)["full" := full])
    ensures QuotaExceeded(e) ==>
      r.body.fields["error"] == Str(QuotaText) && r.body.fields[InsightKey] == Str(QuotaInsightText)
    ensures !QuotaExceeded(e) ==>
      && r.body.fields["error"] == Str("Diagnostic: AI call failed")
      && r.body.fields[InsightKey] == Str("I'm having a technical hiccup: " + ShownMessage(e) + ". Check the console for more details.")
  {
    var quota := QuotaExceeded(e);
    var error := if quota then QuotaText else "Diagnostic: AI call failed";
    var insight := if quota then QuotaInsightText
                   else "I'm having a technical hiccup: " + ShownMessage(e) + ". Check the console for more details.";
    Response(StatusOr500(e), Obj(map[
      "error" := Str(error),
      InsightKey := Str(insight),
      AlertKey := Str("stable"),
      "debug" := Obj(Debug(e)["full" := full])]))
  }

  /** `error.message || "Unknown error"`. */
  function ShownMessage(e: ErrorInfo): (m: string)
    ensures m != ""
    ensures e.message.Some? && e.message.value != "" ==> m == e.message.value
    ensures !(e.message.Some? && e.message.value != "") ==> m == "Unknown error"
  {
    if e.message.Some? && e.message.value != "" then e.message.value else "Unknown error"
  }

  /** A rate-limit status is answered with that status and the quota texts. */
  lemma RateLimitIsQuota(e: ErrorInfo, full: Json)
    requires e.status == Some(429)
    ensures ErrorResponse(e, full).status == 429
    ensures ErrorResponse(e, full).body.fields["error"] == Str(QuotaText)
  {
  }

  // ---------------------------------------- the handler

  /** `analysis` after the parse step. */
  function Analysis(outcome: ParseOutcome): (a: Json)
    ensures outcome.SyntaxError? ==> a == ParseFallback
    ensures outcome.Parsed? ==> a == outcome.value
  {
    if outcome.Parsed? then outcome.value else ParseFallback
  }

  /**
   * `POST`. `parse` is `JSON.parse`, `typeError` the message of a TypeError the
   * engine throws. Returns the response and the entry handed to the database
   * insert, whose outcome never reaches the response.
   */
  method Post(request: Request, generation: Generation, parse: string -> ParseOutcome, typeError: string)
    returns (response: Response, logged: Option<Json>)
    ensures request.Unreadable? ==>
      response == ErrorResponse(request.error.info, request.error.full) && logged.None?
    ensures request.Received? && request.body.Null? ==>
      response == ErrorResponse(EngineError(typeError), Obj(map[])) && logged.None?
    ensures request.Received? && !request.body.Null? && !Holds(Get(request.body, "image")) ==>
      response == Response(400, Obj(map["error" := Str("No image provided")])) && logged.None?
    ensures request.Received? && !request.body.Null? && Holds(Get(request.body, "image")) ==>
      match generation
      case GenerationFailed(t) => response == ErrorResponse(t.info, t.full) && logged.None?
      case Generated(text) =>
        var n := NormalizeInsight(Analysis(parse(Cleaned(ReplyText(text)))));
        && (n.Failed? ==> response == ErrorResponse(EngineError(typeError), Obj(map[])) && logged.None?)
        && (n.Normalized? ==> response == Response(200, n.analysis) && logged == Some(LogEntry(n.analysis, n.insight)))
  {
    logged := None;
    if request.Unreadable? {
      response := ErrorResponse(request.error.info, request.error.full);
      return;
    }
    if request.body.Null? {
      response := ErrorResponse(EngineError(typeError), Obj(map[]));
      return;
    }
    var image := Get(request.body, "image");
    if !Holds(image) {
      response := Response(400, Obj(map["error" := Str("No image provided")]));
      return;
    }
    if generation.GenerationFailed? {
      response := ErrorResponse(generation.error.info, generation.error.full);
      return;
    }
    var responseText := ReplyText(generation.text);
    var cleanedJson := CleanJson(responseText);
    var analysis := Analysis(parse(cleanedJson));
    var normalized := NormalizeInsight(analysis);
    if normalized.Failed? {
      response := ErrorResponse(EngineError(typeError), Obj(map[]));
      return;
    }
    analysis := normalized.analysis;
    logged := Some(LogEntry(analysis, normalized.insight));
    response := Response(200, analysis);
  }
}
