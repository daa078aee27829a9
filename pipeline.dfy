/**
  The relay and the interview screen together: what the server sends is
  what the client's message handler takes as an analysis.
*/
module Pipeline {
  import opened Wrappers
  import opened Json
  import opened Text
  import opened Relay
  import opened InterviewController

  /** The client accepts every envelope whose data is truthy, and takes exactly that data. */
  lemma EnvelopeAccepted(data: Json)
    ensures AnalysisPayload(Envelope(data)) == if Truthy(data) then Some(data) else None
  {
  }

  /**
    A model reply fenced as ```json X ``` (X without backticks) whose trimmed
    body parses to a truthy value reaches the client as that value.
  */
  lemma FencedReplyReachesClient(raw: string, parse: string -> Option<Json>, body: string, data: Json)
    requires parse(raw).Some? && ModelText(parse(raw).value) == Some(JsonFence + body + Fence)
    requires forall k :: 0 <= k < |body| ==> body[k] != '`'
    requires parse(Trim(body)) == Some(data) && Truthy(data)
    ensures Reply(raw, parse).Some?
    ensures AnalysisPayload(Reply(raw, parse).value) == Some(data)
  {
    CleanFenced(body);
    EnvelopeAccepted(data);
  }
}
