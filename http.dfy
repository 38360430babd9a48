/**
 * The JSON bodies the three handlers answer with, the rule that the first
 * body written is the one the caller receives, and the shared
 * "first missing field" validation of request bodies.
 */
module Http {
  import opened Wrappers
  import opened JsValue

  /** `{success: true}` or `{success: false, message}`. */
  datatype Response = Response(success: bool, message: Option<string>)

  const Succeeded := Response(true, None)

  function Failed(message: string): Response {
    Response(false, Some(message))
  }

  /**
   * What the caller receives: the first JSON body the handler wrote (a second
   * `res.json` cannot change what was sent), or an internal-server-error reply
   * when the handler threw before writing anything.
   */
  datatype Reply = Answered(response: Response) | ServerError

  function Reported(written: seq<Response>): Reply {
    if written == [] then ServerError else Answered(written[0])
  }

  /** The message a handler gives for a required field that is missing. */
  function NotProvided(name: string): string {
    name + " is not provided"
  }

  /**
   * The name of the first field, in the order listed, whose value is falsy;
   * None when every field is truthy. The handlers check their required
   * fields one after another in this way.
   */
  function FirstMissing(fields: seq<(string, Json)>): (r: Option<string>)
    ensures r.None? <==> forall i :: 0 <= i < |fields| ==> !Falsy(fields[i].1)
    ensures r.Some? ==>
      exists i :: 0 <= i < |fields| && Falsy(fields[i].1) && r.value == fields[i].0 &&
        forall j :: 0 <= j < i ==> !Falsy(fields[j].1)
  {
    if fields == [] then None
    else if Falsy(fields[0].1) then Some(fields[0].0)
    else
      var rest := FirstMissing(fields[1..]);
      assert forall i :: 1 <= i < |fields| ==> fields[i] == fields[1..][i - 1];
      rest
  }

  /** The first falsy field, when every field before it is truthy, is the one FirstMissing names. */
  lemma {:induction false} FirstMissingAt(fields: seq<(string, Json)>, i: nat)
    requires i < |fields| && Falsy(fields[i].1)
    requires forall j :: 0 <= j < i ==> !Falsy(fields[j].1)
    ensures FirstMissing(fields) == Some(fields[i].0)
  {
    if i > 0 {
      assert !Falsy(fields[0].1);
      FirstMissingAt(fields[1..], i - 1);
    }
  }
}
