/**
 * The checks `get_homework_statuses` applies to the decoded response before
 * returning it: a nested `error.error` and a top-level `code` are failures.
 */
module Validate {
  import opened Wrappers
  import opened Json
  import opened Exceptions

  /** A decoded response document: a JSON object. */
  type Payload = map<string, Json>

  /** `'error' in v` evaluates to False without raising. */
  predicate QuietError(v: Json) {
    Contains(v, "error") == Success(false)
  }

  /**
   * Lines 107-118 of `get_homework_statuses`. They sit outside its `try`, so a
   * TypeError or KeyError raised here is not turned into a PraktikumException.
   */
  function CheckResponse(p: Payload): (r: Result<Payload, Raised>)
    ensures r.Success? ==> r.value == p
    ensures r.Success? <==> "code" !in p && ("error" in p ==> QuietError(p["error"]))
    ensures "code" in p ==> r.Failure?
    ensures ("error" in p && p["error"].Obj? && "error" in p["error"].fields) ==>
      r == Failure(Praktikum(Render(p["error"].fields["error"])))
    ensures ("code" in p && "message" in p && ("error" in p ==> QuietError(p["error"]))) ==>
      r == Failure(Praktikum(Render(p["message"])))
    ensures ("code" in p && "message" !in p && ("error" in p ==> QuietError(p["error"]))) ==>
      r == Failure(Builtin(KeyError))
    ensures r.Failure? ==> !r.error.Telegram?
  {
    var nested :=
      if "error" !in p then Success(false) else Contains(p["error"], "error");
    match nested
    case Failure(e) => Failure(Builtin(e))
    case Success(true) =>
      (match Subscript(p["error"], "error")
       case Failure(e) => Failure(Builtin(e))
       case Success(detail) => Failure(Praktikum(Render(detail))))
    case Success(false) =>
      if "code" in p then
        if "message" in p then Failure(Praktikum(Render(p["message"])))
        else Failure(Builtin(KeyError))
      else Success(p)
  }

  /**
   * The `error` value is only tested with `in`: a null, a boolean or a number raises
   * TypeError there, and a string or list that does contain `error` raises TypeError
   * when it is then subscripted with a string key.
   */
  lemma ErrorValueRaises(p: Payload)
    ensures "error" in p && (p["error"].Null? || p["error"].Bool? || p["error"].Int?) ==>
      CheckResponse(p) == Failure(Builtin(TypeError))
    ensures "error" in p && p["error"].Str? && Occurs("error", p["error"].s) ==>
      CheckResponse(p) == Failure(Builtin(TypeError))
    ensures "error" in p && p["error"].Arr? && HasElement(p["error"].items, "error") ==>
      CheckResponse(p) == Failure(Builtin(TypeError))
  {
  }

  /** The check is idempotent: a response it accepts passes it again unchanged. */
  lemma CheckIdempotent(p: Payload)
    requires CheckResponse(p).Success?
    ensures CheckResponse(CheckResponse(p).value) == CheckResponse(p)
  {
  }
}
