/** The JSON-line event protocol: every line printed on standard output is an
    object `{"type": kind, "data": payload}`. Serialisation and printing are
    left out; an event is the value that would be serialised. */
module Events {
  import opened Wrappers
  import opened PyValues

  datatype Event = Event(kind: string, data: Dict)

  /** An exception as the adapter sees it: `type(e).__name__` and `str(e)`. */
  datatype Exn = Exn(className: string, message: string)

  /** send_progress(event_type, data): the payload is `data or {}`. */
  function SendProgress(eventType: string, data: Option<Dict>): (ev: Event)
    ensures ev.kind == eventType
    ensures ev.data == map[] <==> data.None? || data.value == map[]
    ensures data.Some? ==> ev.data == data.value
  {
    Event(eventType, if data.Some? then data.value else map[])
  }

  /** send_error(message, code): an "error" event carrying the message and the
      code, which is null when no code is given. */
  function SendError(message: string, code: Option<string>): (ev: Event)
    ensures ev.kind == "error" && ev.data.Keys == {"message", "code"}
    ensures ev.data["message"] == Str(message)
    ensures ev.data["code"] == (if code.Some? then Str(code.value) else Null)
  {
    Event("error", map["message" := Str(message), "code" := if code.Some? then Str(code.value) else Null])
  }

  /** send_complete(result): a "complete" event whose payload is the result. */
  function SendComplete(result: Dict): (ev: Event)
    ensures ev.kind == "complete" && ev.data == result
  {
    Event("complete", result)
  }

  /** The error event for an exception `e` caught by an operation:
      `send_error(str(e), type(e).__name__)`. */
  function ErrorFor(e: Exn): (ev: Event)
    ensures ev.kind == "error" && ev.data.Keys == {"message", "code"}
    ensures ev.data["message"] == Str(e.message) && ev.data["code"] == Str(e.className)
  {
    SendError(e.message, Some(e.className))
  }

  /** "complete" and "error" end an operation's stream. */
  predicate IsTerminal(ev: Event) {
    ev.kind == "complete" || ev.kind == "error"
  }

  /** The stream shape of the protocol: at most one "start", first; then only
      "progress" events; then exactly one terminal event, last. */
  predicate WellFormedStream(evs: seq<Event>) {
    && |evs| >= 1
    && IsTerminal(evs[|evs| - 1])
    && (forall i :: 0 <= i < |evs| - 1 ==> !IsTerminal(evs[i]))
    && (forall i :: 0 < i < |evs| ==> evs[i].kind != "start")
    && (forall i :: 0 <= i < |evs| - 1 ==> evs[i].kind == "start" || evs[i].kind == "progress")
  }

  /** Number of terminal events in a stream. */
  function TerminalCount(evs: seq<Event>): nat {
    if evs == [] then 0 else (if IsTerminal(evs[0]) then 1 else 0) + TerminalCount(evs[1..])
  }

  /** A well-formed stream has exactly one terminal event. */
  lemma {:induction false} WellFormedHasOneTerminal(evs: seq<Event>)
    requires WellFormedStream(evs)
    ensures TerminalCount(evs) == 1
  {
    if |evs| == 1 {
      assert TerminalCount(evs[1..]) == 0;
    } else {
      assert !IsTerminal(evs[0]);
      var tail := evs[1..];
      assert tail[|tail| - 1] == evs[|evs| - 1];
      forall i | 0 <= i < |tail| - 1 ensures !IsTerminal(tail[i]) && tail[i].kind != "start" {
        assert tail[i] == evs[i + 1];
      }
      forall i | 0 <= i < |tail| - 1 ensures tail[i].kind == "progress" {
        assert tail[i] == evs[i + 1];
      }
      WellFormedHasOneTerminal(tail);
    }
  }
}
