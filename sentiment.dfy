/**
 * The sentiment route: it rejects a missing or empty journal history, writes the
 * history into a prompt, sends it as one user message, and answers with the
 * parsed model reply or with a classified error.
 */
module Sentiment {
  import opened Options
  import opened Json
  import opened RouteErrors
  import SmartAlerts

  const Header := "Journal History:"

  // ---------------------------------------- lines and their joining

  /** `parts.join(sep)`: the parts in order, with one separator between neighbours. */
  function Join(parts: seq<string>, sep: string): (r: string)
    ensures |parts| == 0 ==> r == ""
    ensures |parts| > 0 ==> |r| == TotalLength(parts) + (|parts| - 1) * |sep|
    ensures |parts| > 0 ==> r[..|parts[0]|] == parts[0]
  {
    if |parts| == 0 then "" else if |parts| == 1 then parts[0] else parts[0] + sep + Join(parts[1..], sep)
  }

  /** The sum of the lengths of the parts. */
  function TotalLength(parts: seq<string>): nat {
    if parts == [] then 0 else |parts[0]| + TotalLength(parts[1..])
  }

  /** `s.split("\n")`. */
  function Split(s: string): (r: seq<string>)
    ensures |r| >= 1
  {
    if s == [] then [""]
    else
      var rest := Split(s[1..]);
      if s[0] == '\n' then [""] + rest else [[s[0]] + rest[0]] + rest[1..]
  }

  predicate OneLine(s: string) {
    forall k :: 0 <= k < |s| ==> s[k] != '\n'
  }

  lemma {:induction false} SplitOneLine(a: string, b: string)
    requires OneLine(a)
    ensures Split(a + b) == [a + Split(b)[0]] + Split(b)[1..]
  {
    if a != [] {
      assert (a + b)[1..] == a[1..] + b;
      SplitOneLine(a[1..], b);
      assert [a[0]] + (a[1..] + Split(b)[0]) == a + Split(b)[0];
    } else {
      assert a + b == b;
      assert a + Split(b)[0] == Split(b)[0];
      assert Split(b) == [Split(b)[0]] + Split(b)[1..];
    }
  }

  /** Splitting at a line break gives the line before it and the lines after it. */
  lemma SplitAfterLine(a: string, b: string)
    requires OneLine(a)
    ensures Split(a + "\n" + b) == [a] + Split(b)
  {
    var nb := "\n" + b;
    assert nb[0] == '\n' && nb[1..] == b;
    assert Split(nb) == [""] + Split(b);
    SplitOneLine(a, nb);
    assert a + "\n" + b == a + nb;
    assert a + "" == a;
  }

  /** Splitting lines joined by line breaks gives the lines back. */
  lemma {:induction false} SplitJoin(parts: seq<string>)
    requires |parts| >= 1
    requires forall i :: 0 <= i < |parts| ==> OneLine(parts[i])
    ensures Split(Join(parts, "\n")) == parts
  {
    if |parts| == 1 {
      SplitOneLine(parts[0], "");
      assert parts[0] + "" == parts[0];
    } else {
      SplitJoin(parts[1..]);
      SplitAfterLine(parts[0], Join(parts[1..], "\n"));
      assert parts == [parts[0]] + parts[1..];
    }
  }

  // ---------------------------------------- the prompt

  /**
   * `String(v)` succeeds: an object whose own `toString` is not a function (a
   * JSON value never is) has no usable conversion, and `String` throws a
   * TypeError; an array converts each element that is not null.
   */
  predicate ConvertsToText(v: Json)
    decreases v
  {
    match v
    case Arr(items) => forall i :: 0 <= i < |items| ==> items[i].Null? || ConvertsToText(items[i])
    case Obj(fields) => "toString" !in fields
    case _ => true
  }

  /**
   * A value inside a template literal: `String(v)`. Arrays join their elements
   * with "," (a null element shows as nothing), objects show as
   * "[object Object]"; `numberText` is the engine's `Number.prototype.toString`.
   * None stands for the TypeError of a value that does not convert.
   */
  function TemplateText(v: Json, numberText: real -> string): (r: Option<string>)
    ensures r.Some? <==> ConvertsToText(v)
    ensures v.Str? ==> r == Some(v.s)
    ensures v.Null? ==> r == Some("null")
    ensures v.Obj? && r.Some? ==> r.value == "[object Object]"
    decreases v
  {
    match v
    case Null => Some("null")
    case Bool(b) => Some(if b then "true" else "false")
    case Num(n) => Some(numberText(n))
    case Str(s) => Some(s)
    case Arr(items) =>
      if forall i :: 0 <= i < |items| ==> items[i].Null? || TemplateText(items[i], numberText).Some? then
        Some(Join(seq(|items|, i requires 0 <= i < |items| =>
          if items[i].Null? then "" else TemplateText(items[i], numberText).value), ","))
      else None
    case Obj(fields) => if "toString" in fields then None else Some("[object Object]")
  }

  /** `${h.key}` for an entry that is not null: "undefined" for a missing property. */
  function FieldText(h: Json, key: string, numberText: real -> string): (r: Option<string>)
    ensures r.Some? <==> Get(h, key).None? || ConvertsToText(Get(h, key).value)
    ensures Get(h, key).None? ==> r == Some("undefined")
  {
    match Get(h, key)
    case None => Some("undefined")
    case Some(v) => TemplateText(v, numberText)
  }

  /**
   * `- [${h.timestamp}] ${h.note}`; reading a property of a null entry and
   * converting a field that does not convert throw (None).
   */
  function EntryLine(h: Json, numberText: real -> string): (r: Option<string>)
    ensures r.Some? <==>
      !h.Null? && FieldText(h, "timestamp", numberText).Some? && FieldText(h, "note", numberText).Some?
    ensures r.Some? ==>
      r.value == "- [" + FieldText(h, "timestamp", numberText).value + "] " + FieldText(h, "note", numberText).value
  {
    if h.Null? then None
    else match (FieldText(h, "timestamp", numberText), FieldText(h, "note", numberText))
      case (Some(ts), Some(note)) => Some("- [" + ts + "] " + note)
      case _ => None
  }

  /** The lines of all entries, in order; None when an entry throws. */
  function EntryLines(items: seq<Json>, numberText: real -> string): (r: Option<seq<string>>)
    ensures r.Some? <==> forall i :: 0 <= i < |items| ==> EntryLine(items[i], numberText).Some?
    ensures r.Some? ==> |r.value| == |items|
    ensures r.Some? ==> forall i :: 0 <= i < |items| ==> Some(r.value[i]) == EntryLine(items[i], numberText)
  {
    if items == [] then Some([])
    else
      var rest := EntryLines(items[1..], numberText);
      var first := EntryLine(items[0], numberText);
      if first.None? then None
      else if rest.None? then None
      else
        assert forall i :: 1 <= i < |items| ==> items[i] == items[1..][i - 1];
        Some([first.value] + rest.value)
  }

  /** `promptText`. */
  function PromptText(lines: seq<string>): string {
    Header + "\n" + Join(lines, "\n")
  }

  /** `contents`: one user message with one text part. */
  function Contents(prompt: string): (c: Json)
    ensures c.Arr? && |c.items| == 1
    ensures c.items[0] == Obj(map["role" := Str("user"), "parts" := Arr([Obj(map["text" := Str(prompt)])])])
  {
    Arr([Obj(map["role" := Str("user"), "parts" := Arr([Obj(map["text" := Str(prompt)])])])])
  }

  // ---------------------------------------- the request check

  /**
   * `!history || history.length === 0`: a falsy value, an empty array, or an
   * object whose own `length` is the number 0. A string reaching the second test
   * is not empty, and other values have no `length`.
   */
  predicate NoHistory(history: Option<Json>)
    ensures history.Some? && history.value.Arr? ==> (NoHistory(history) <==> history.value.items == [])
    ensures history.Some? && history.value.Str? ==> (NoHistory(history) <==> history.value.s == "")
    ensures history.Some? && (history.value.Num? || history.value.Bool?) ==> (NoHistory(history) <==> !Truthy(history.value))
  {
    || !Holds(history)
    || (history.value.Arr? && history.value.items == [])
    || (history.value.Obj? && Get(history.value, "length") == Some(Num(0.0)))
  }

  /** The request before the model call: a thrown error, the 400 rejection, or the prompt to send. */
  datatype Prepared = Threw(error: ErrorInfo) | Rejected | Prompted(prompt: string)

  /**
   * Reading the body: destructuring null, mapping over a non-array, and an entry
   * that is null or has a field that does not convert throw a TypeError
   * (message `typeError`).
   */
  function Prepare(request: Request, numberText: real -> string, typeError: string): (p: Prepared)
    ensures p.Rejected? <==> request.Received? && !request.body.Null? && NoHistory(Get(request.body, "history"))
    ensures p.Prompted? <==>
      && request.Received? && !request.body.Null?
      && var h := Get(request.body, "history");
      && Holds(h) && h.value.Arr? && h.value.items != []
      && forall i :: 0 <= i < |h.value.items| ==> EntryLine(h.value.items[i], numberText).Some?
    ensures p.Prompted? ==>
      var lines := EntryLines(Get(request.body, "history").value.items, numberText).value;
      p.prompt == PromptText(lines)
    ensures request.Unreadable? ==> p == Threw(request.error.info)
  {
    match request
    case Unreadable(t) => Threw(t.info)
    case Received(body) =>
      if body.Null? then Threw(EngineError(typeError))
      else
        var history := Get(body, "history");
        if NoHistory(history) then Rejected
        else if !history.value.Arr? then Threw(EngineError(typeError))
        else match EntryLines(history.value.items, numberText)
          case None => Threw(EngineError(typeError))
          case Some(lines) => Prompted(PromptText(lines))
  }

  /** With well-formed entries, the prompt has the header line and then one line per entry, in order. */
  lemma PromptLines(history: seq<Json>, numberText: real -> string)
    requires history != []
    requires forall i :: 0 <= i < |history| ==> !history[i].Null?
    requires forall i :: 0 <= i < |history| ==>
      && FieldText(history[i], "timestamp", numberText).Some? && FieldText(history[i], "note", numberText).Some?
      && OneLine(FieldText(history[i], "timestamp", numberText).value)
      && OneLine(FieldText(history[i], "note", numberText).value)
    ensures EntryLines(history, numberText).Some?
    ensures var lines := EntryLines(history, numberText).value;
      && Split(PromptText(lines)) == [Header] + lines
      && |Split(PromptText(lines))| == |history| + 1
  {
    var lines := EntryLines(history, numberText).value;
    forall i | 0 <= i < |lines|
      ensures OneLine(lines[i])
    {
      var ts := FieldText(history[i], "timestamp", numberText).value;
      var note := FieldText(history[i], "note", numberText).value;
      assert lines[i] == "- [" + ts + "] " + note;
    }
    SplitJoin(lines);
    assert PromptText(lines) == Header + "\n" + Join(lines, "\n");
    SplitAfterLine(Header, Join(lines, "\n"));
  }

  /** An object whose `length` is 0 counts as no history. */
  lemma LengthZeroObjectRejected(fields: map<string, Json>, numberText: real -> string, typeError: string)
    requires "length" in fields && fields["length"] == Num(0.0)
    ensures Prepare(Received(Obj(map["history" := Obj(fields)])), numberText, typeError) == Rejected
  {
  }

  /** An entry whose note is an object with its own `toString` makes the template literal throw. */
  lemma UnconvertibleNoteThrows(ts: string, note: map<string, Json>, numberText: real -> string, typeError: string)
    requires "toString" in note
    ensures var entry := Obj(map["timestamp" := Str(ts), "note" := Obj(note)]);
      Prepare(Received(Obj(map["history" := Arr([entry])])), numberText, typeError) == Threw(EngineError(typeError))
  {
    var entry := Obj(map["timestamp" := Str(ts), "note" := Obj(note)]);
    assert EntryLine(entry, numberText).None?;
    assert !(forall i :: 0 <= i < |[entry]| ==> EntryLine([entry][i], numberText).Some?) by {
      assert [entry][0] == entry;
    }
  }

  // ---------------------------------------- the response

  /** The catch block's answer. */
  function ErrorResponse(e: ErrorInfo): (r: Response)
    ensures r.status == StatusOr500(e) && r.status != 0
    ensures r.body.Obj? && r.body.fields.Keys == {"error", "sentiment", "debug"}
    ensures r.body.fields["sentiment"] == Str("stable") && r.body.fields["debug"] == Obj(Debug(e))
    ensures r.body.fields["error"] == Str(if QuotaExceeded(e) then QuotaText else "Sentiment check failed")
  {
    var message := if QuotaExceeded(e) then QuotaText else "Sentiment check failed";
    Response(StatusOr500(e), Obj(map["error" := Str(message), "sentiment" := Str("stable"), "debug" := Obj(Debug(e))]))
  }

  /** What the handler sends to the model (if anything) and what it answers. */
  datatype Outcome = Outcome(sent: Option<Json>, response: Response)

  /** `POST`. `parse` is `JSON.parse`; the model call's outcome is `generation`. */
  function Handle(request: Request, generation: Generation, parse: string -> ParseOutcome,
                  numberText: real -> string, typeError: string): (o: Outcome)
    ensures var p := Prepare(request, numberText, typeError);
      && (p.Prompted? <==> o.sent.Some?)
      && (p.Prompted? ==> o.sent == Some(Contents(p.prompt)))
      && (p.Threw? ==> o.response == ErrorResponse(p.error))
      && (p.Rejected? ==> o.response == Response(400, Obj(map["error" := Str("No history provided")])))
    ensures o.sent.Some? && generation.GenerationFailed? ==> o.response == ErrorResponse(generation.error.info)
    ensures o.sent.Some? && generation.Generated? ==>
      match parse(ReplyText(generation.text))
      case SyntaxError(message) => o.response == ErrorResponse(EngineError(message))
      case Parsed(v) => o.response == Response(200, v)
  {
    match Prepare(request, numberText, typeError)
    case Threw(e) => Outcome(None, ErrorResponse(e))
    case Rejected => Outcome(None, Response(400, Obj(map["error" := Str("No history provided")])))
    case Prompted(prompt) =>
      var sent := Some(Contents(prompt));
      match generation
      case GenerationFailed(t) => Outcome(sent, ErrorResponse(t.info))
      case Generated(text) =>
        match parse(ReplyText(text))
        case SyntaxError(message) => Outcome(sent, ErrorResponse(EngineError(message)))
        case Parsed(v) => Outcome(sent, Response(200, v))
  }

  /** An empty model reply is answered with an empty object, which the family view keeps as its pulse. */
  lemma EmptyReplyIsEmptyObject(request: Request, parse: string -> ParseOutcome, numberText: real -> string, typeError: string)
    requires parse("{}") == Parsed(Obj(map[]))
    requires Prepare(request, numberText, typeError).Prompted?
    ensures Handle(request, Generated(Some("")), parse, numberText, typeError).response == Response(200, Obj(map[]))
    ensures SmartAlerts.Accepts(SmartAlerts.Received(Obj(map[])))
  {
  }

  /**
   * The family view keeps a reply as its sentiment pulse only when it is a
   * model answer: the rejection and every error answer carry a truthy `error`.
   */
  lemma OnlyModelAnswersBecomePulse(request: Request, generation: Generation, parse: string -> ParseOutcome,
                                    numberText: real -> string, typeError: string)
    ensures var o := Handle(request, generation, parse, numberText, typeError);
      SmartAlerts.Accepts(SmartAlerts.Received(o.response.body)) ==>
        && o.sent.Some? && generation.Generated?
        && parse(ReplyText(generation.text)) == Parsed(o.response.body)
        && o.response.status == 200
  {
    var o := Handle(request, generation, parse, numberText, typeError);
    var p := Prepare(request, numberText, typeError);
    if !p.Prompted? || generation.GenerationFailed? || parse(ReplyText(generation.text)).SyntaxError? {
      var body := o.response.body;
      assert body.Obj? && "error" in body.fields && Truthy(body.fields["error"]);
      assert Holds(Get(body, "error"));
    }
  }
}
