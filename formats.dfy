/**
 * Format negotiation: the format named by `?format=` (case-insensitive,
 * `json` by default) selects a handler from the format-handler table; an
 * unknown format or a failing handler gives status 500 and a raw error body;
 * only when even the `json` handler is missing does the formatter throw.
 */
module Formats {
  import opened Wrappers
  import opened Values

  const DefaultFormat := "json"
  const JsonContentType := "application/json"
  const JsonHandlerMissing := "The default json format handler not found"

  predicate IsUpper(c: char) {
    'A' <= c <= 'Z'
  }

  function LowerChar(c: char): char {
    if IsUpper(c) then (c as int - 'A' as int + 'a' as int) as char else c
  }

  /** `toLowerCase`, on the ASCII letters. */
  function Lower(s: string): (r: string)
    ensures |r| == |s|
    ensures forall i | 0 <= i < |r| :: !IsUpper(r[i])
    ensures forall i | 0 <= i < |r| :: r[i] == s[i] || (IsUpper(s[i]) && r[i] == LowerChar(s[i]))
  {
    if s == [] then [] else [LowerChar(s[0])] + Lower(s[1..])
  }

  /** The format named by the query, lower-cased, `json` when absent or empty. */
  function RequestedFormat(query: map<string, string>): (f: string)
    ensures f != ""
    ensures forall i | 0 <= i < |f| :: !IsUpper(f[i])
    ensures "format" in query && query["format"] != "" ==> f == Lower(query["format"])
    ensures !("format" in query && query["format"] != "") ==> f == DefaultFormat
  {
    if "format" in query && query["format"] != "" then
      Lower(query["format"])
    else
      Lower(DefaultFormat)
  }

  /** Whether the table holds a function under this name. */
  predicate HasFunction(handlers: map<string, Entry>, format: string) {
    format in handlers && handlers[format].Function?
  }

  /** The metadata after a handler made its own calls on the scope. */
  function AfterHandler(m: Meta, rd: Rendering): (after: Meta)
    ensures after.status == if rd.setStatus.Some? then rd.setStatus else m.status
    ensures after.contentType == if rd.setType.Some? then rd.setType.value else m.contentType
  {
    Meta(if rd.setStatus.Some? then rd.setStatus else m.status,
         if rd.setType.Some? then rd.setType.value else m.contentType)
  }

  function NotFoundBody(format: string): string {
    "{\"error\":\"Format handler for: `" + format + "` not found\"}"
  }

  function FailureBody(format: string, message: string): string {
    "{\"error\":\"Format handler for: `" + format + "` Error: " + message + "\"}"
  }

  /**
   * The response `formatResult` produces from metadata `m`: the requested
   * handler's own body and effects when it returns; status 500 and a raw body
   * naming the format when the handler is unknown (the handler is not run) or
   * throws (the body then carries its message); an exception, with nothing
   * changed, exactly when neither the requested format nor `json` has a handler.
   */
  function Formatted(handlers: map<string, Entry>, query: map<string, string>, result: Value, m: Meta): (r: Response)
    ensures var f := RequestedFormat(query);
      r.outcome.Thrown? <==> !HasFunction(handlers, f) && !HasFunction(handlers, DefaultFormat)
    ensures r.outcome.Thrown? ==> r == Response(m, Thrown(JsonHandlerMissing))
    ensures var f := RequestedFormat(query);
      !HasFunction(handlers, f) && HasFunction(handlers, DefaultFormat) ==>
        r == Response(m.(status := Some(500)), Returned(NotFoundBody(f)))
    ensures var f := RequestedFormat(query);
      HasFunction(handlers, f) && handlers[f].render(result).outcome.Returned? ==>
        r == Response(AfterHandler(m, handlers[f].render(result)), handlers[f].render(result).outcome)
    ensures var f := RequestedFormat(query);
      HasFunction(handlers, f) && handlers[f].render(result).outcome.Thrown? ==>
        && r.meta.status == Some(500)
        && r.meta.contentType == AfterHandler(m, handlers[f].render(result)).contentType
        && r.outcome == Returned(FailureBody(f, handlers[f].render(result).outcome.message))
  {
    var format := RequestedFormat(query);
    var found := HasFunction(handlers, format);
    var key := if found then format else DefaultFormat;
    if !HasFunction(handlers, key) then
      Response(m, Thrown(JsonHandlerMissing))
    else if !found then
      Response(m.(status := Some(500)), Returned(NotFoundBody(format)))
    else
      var rd := handlers[format].render(result);
      match rd.outcome
      case Returned(body) => Response(AfterHandler(m, rd), Returned(body))
      case Thrown(message) =>
        Response(AfterHandler(m, rd).(status := Some(500)), Returned(FailureBody(format, message)))
  }

  /** When no handler is registered for the requested format, the result is never serialised:
      the response is the same whatever the result. */
  lemma UnknownFormatIgnoresResult(handlers: map<string, Entry>, query: map<string, string>, a: Value, b: Value, m: Meta)
    requires !HasFunction(handlers, RequestedFormat(query))
    ensures Formatted(handlers, query, a, m) == Formatted(handlers, query, b, m)
  {
  }

  /**
   * `error(code, message)`: the message formatted as any result, then the
   * status forced to `code`, even where formatting had set 500; when the
   * formatter throws, the status is never set.
   */
  function ErrorResponse(handlers: map<string, Entry>, query: map<string, string>, code: Option<int>, message: Value, m: Meta): (r: Response)
    ensures r.outcome == Formatted(handlers, query, message, m).outcome
    ensures r.meta.contentType == Formatted(handlers, query, message, m).meta.contentType
    ensures r.outcome.Returned? ==> r.meta.status == code
    ensures r.outcome.Thrown? ==> r.meta == m
  {
    var f := Formatted(handlers, query, message, m);
    if f.outcome.Thrown? then f else Response(f.meta.(status := code), f.outcome)
  }

  /** The `json` handler: sets content type application/json and returns the serialised result. */
  function JsonHandler(stringify: Value -> string): (e: Entry)
    ensures e.Function?
    ensures forall v :: e.render(v) == Rendering(None, Some(JsonContentType), Returned(stringify(v)))
  {
    Function(v => Rendering(None, Some(JsonContentType), Returned(stringify(v))))
  }

  /**
   * `publishFormats`: an additive merge. Every newly given name maps to its
   * new entry, every other registered name keeps its entry, nothing is removed.
   */
  function Extend(handlers: map<string, Entry>, added: map<string, Entry>): (r: map<string, Entry>)
    ensures r.Keys == handlers.Keys + added.Keys
    ensures forall k | k in added :: r[k] == added[k]
    ensures forall k | k in handlers && k !in added :: r[k] == handlers[k]
  {
    handlers + added
  }

  /** With only the default table, a request without `?format=` is answered by the json handler. */
  lemma DefaultTableFormatsJson(stringify: Value -> string, query: map<string, string>, result: Value, m: Meta)
    requires !("format" in query && query["format"] != "")
    ensures Formatted(map[DefaultFormat := JsonHandler(stringify)], query, result, m)
         == Response(m.(contentType := JsonContentType), Returned(stringify(result)))
  {
  }

  /** A handler registered under a name with an upper-case letter is never selected. */
  lemma UppercaseFormatUnreachable(name: string, k: nat, query: map<string, string>)
    requires k < |name| && IsUpper(name[k])
    ensures RequestedFormat(query) != name
  {
  }

  /** The requested format has a handler that returns and leaves the status alone, for every result. */
  ghost predicate WellBehaved(handlers: map<string, Entry>, query: map<string, string>) {
    var f := RequestedFormat(query);
    HasFunction(handlers, f)
    && forall v :: handlers[f].render(v).outcome.Returned? && handlers[f].render(v).setStatus.None?
  }

  /** A format registered under a lower-case name is found whatever the case of the query. */
  lemma RegisteredFormatIsUsed(handlers: map<string, Entry>, added: map<string, Entry>, query: map<string, string>, result: Value, m: Meta)
    requires "format" in query && query["format"] != ""
    requires Lower(query["format"]) in added && added[Lower(query["format"])].Function?
    requires added[Lower(query["format"])].render(result).outcome.Returned?
    ensures var rd := added[Lower(query["format"])].render(result);
      Formatted(Extend(handlers, added), query, result, m) == Response(AfterHandler(m, rd), rd.outcome)
  {
  }

  /** Registering formats never makes the formatter throw where it did not: a working json
      handler stays unless replaced by the new table itself. */
  lemma ExtendKeepsJson(handlers: map<string, Entry>, added: map<string, Entry>)
    requires HasFunction(handlers, DefaultFormat)
    requires DefaultFormat in added ==> added[DefaultFormat].Function?
    ensures HasFunction(Extend(handlers, added), DefaultFormat)
  {
  }
}
