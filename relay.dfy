/**
  The server's per-connection relay: one upstream model socket per client
  socket. It sends the setup message when upstream opens, forwards client
  messages while upstream is open, turns each text reply into an
  `analysis` envelope for the client, and closes upstream when the client
  leaves. `JSON.parse` is the parameter `parse`.
*/
module Relay {
  import opened Wrappers
  import opened Json
  import opened Text
  import opened Sockets

  const Model: string := "models/gemini-2.0-flash-exp"
  const Temperature: real := 0.6

  /** The setup message sent once upstream opens. */
  function Setup(instruction: string): (m: Json)
    ensures m.JObj? && |m.fields| == 1 && m.fields[0].0 == "setup"
  {
    JObj([("setup", JObj([
      ("model", JStr(Model)),
      ("generation_config", JObj([
        ("response_modalities", JArr([JStr("TEXT")])),
        ("temperature", JNum(Temperature))])),
      ("system_instruction", JStr(instruction))]))])
  }

  /** The setup names the model, asks for text replies at temperature 0.6 and carries the instruction. */
  lemma SetupContents(instruction: string)
    ensures var setup := Member(Setup(instruction), "setup");
            && Chain(setup, "model") == Some(JStr(Model))
            && Chain(Chain(setup, "generation_config"), "response_modalities") == Some(JArr([JStr("TEXT")]))
            && Chain(Chain(setup, "generation_config"), "temperature") == Some(JNum(Temperature))
            && Chain(setup, "system_instruction") == Some(JStr(instruction))
  {
    var p := ("response_modalities", JArr([JStr("TEXT")]));
    var q := ("temperature", JNum(Temperature));
    var a := ("model", JStr(Model));
    var b := ("generation_config", JObj([p, q]));
    var c := ("system_instruction", JStr(instruction));
    assert Setup(instruction) == JObj([("setup", JObj([a, b, c]))]);
    assert [("setup", JObj([a, b, c]))] == [] + [("setup", JObj([a, b, c]))];
    LookupLast([], "setup", JObj([a, b, c]));
    LookupThree(a, b, c);
    LookupTwo(p, q);
  }

  /**
    `response.serverContent?.modelTurn?.parts?.[0]?.text`, when it is a
    non-empty string. A truthy text that is not a string makes the following
    `replace` throw, which the handler catches: nothing is sent either way.
  */
  function ModelText(response: Json): (t: Option<string>)
    ensures t.Some? ==> t.value != []
    ensures t.Some? ==> Chain(First'(Chain(Chain(Member(response, "serverContent"), "modelTurn"), "parts")), "text")
                        == Some(JStr(t.value))
    ensures Member(response, "serverContent").None? ==> t.None?
    ensures var x := Chain(First'(Chain(Chain(Member(response, "serverContent"), "modelTurn"), "parts")), "text");
            x.Some? && x.value.JStr? && x.value.s != [] ==> t == Some(x.value.s)
  {
    var part := First'(Chain(Chain(Member(response, "serverContent"), "modelTurn"), "parts"));
    var text := Chain(part, "text");
    if text.Some? && text.value.JStr? && text.value.s != [] then Some(text.value.s) else None
  }

  /** `?.[0]` after an optional chain. */
  function First'(o: Option<Json>): Option<Json> {
    if o.Some? then First(o.value) else None
  }

  const JsonFence: string := "```json"
  const Fence: string := "```"

  /** `rawText.replace(/```json/g, '').replace(/```/g, '').trim()` */
  function Clean(raw: string): (r: string)
    ensures Trimmed(r) && |r| <= |raw|
  {
    Trim(RemoveAll(RemoveAll(raw, JsonFence), Fence))
  }

  /** The client-bound message: `{type: 'analysis', data}`. */
  function Envelope(data: Json): (m: Json)
    ensures IsEnvelope(m)
    ensures Member(m, "type") == Some(JStr("analysis")) && Member(m, "data") == Some(data)
  {
    JObj([("type", JStr("analysis")), ("data", data)])
  }

  predicate IsEnvelope(m: Json) {
    m.JObj? && |m.fields| == 2 && m.fields[0] == ("type", JStr("analysis")) && m.fields[1].0 == "data"
  }

  /** What one upstream frame makes the relay send to the client, if anything. */
  function Reply(raw: string, parse: string -> Option<Json>): (m: Option<Json>)
    ensures m.Some? <==> && parse(raw).Some?
                         && ModelText(parse(raw).value).Some?
                         && parse(Clean(ModelText(parse(raw).value).value)).Some?
    ensures m.Some? ==> m.value == Envelope(parse(Clean(ModelText(parse(raw).value).value)).value)
    ensures m.Some? ==> && IsEnvelope(m.value)
                        && Member(m.value, "type") == Some(JStr("analysis"))
                        && Member(m.value, "data") == parse(Clean(ModelText(parse(raw).value).value))
  {
    var response := parse(raw);
    if response.None? then None
    else
      var text := ModelText(response.value);
      if text.None? then None
      else
        var data := parse(Clean(text.value));
        if data.None? then None else Some(Envelope(data.value))
  }

  // --- properties of the cleanup ------------------------------------------

  /** The cleaned text holds no code fence and has no white space at either end. */
  lemma CleanResult(raw: string)
    ensures !Contains(Clean(raw), Fence)
    ensures Trimmed(Clean(raw))
  {
    var once := RemoveAll(raw, JsonFence);
    RemoveRunGone(once, '`');
    assert Fence == ['`', '`', '`'];
    TrimKeepsAbsence(RemoveAll(once, Fence), Fence);
  }

  /** A reply fenced as ```json X ``` whose body has no backtick cleans to the trimmed body. */
  lemma CleanFenced(x: string)
    requires forall k :: 0 <= k < |x| ==> x[k] != '`'
    ensures Clean(JsonFence + x + Fence) == Trim(x)
  {
    var s := JsonFence + x + Fence;
    assert s[..|JsonFence|] == JsonFence;
    assert s[|JsonFence|..] == x + Fence;
    assert RemoveAll(s, JsonFence) == RemoveAll(x + Fence, JsonFence);
    RemoveAllSkipsPrefix(x, Fence, JsonFence);
    assert RemoveAll(Fence, JsonFence) == Fence;
    RemoveAllSkipsPrefix(x, Fence, Fence);
    assert RemoveAll(Fence, Fence) == RemoveAll([], Fence) == [];
    assert x + [] == x;
  }

  /** Cleaning twice is cleaning once. */
  lemma CleanIdempotent(raw: string)
    ensures Clean(Clean(raw)) == Clean(raw)
  {
    var c := Clean(raw);
    CleanResult(raw);
    if Contains(c, JsonFence) {
      assert JsonFence == Fence + "json";
      ContainsPrefix(c, Fence, "json");
    }
    RemoveAllAbsent(c, JsonFence);
    RemoveAllAbsent(c, Fence);
    TrimTrimmed(c);
  }

  /** Every reply is an analysis envelope around what the cleaned text parsed to. */
  lemma ReplyIsEnvelope(raw: string, parse: string -> Option<Json>)
    requires Reply(raw, parse).Some?
    ensures IsEnvelope(Reply(raw, parse).value)
    ensures exists text :: ModelText(parse(raw).value) == Some(text)
                           && Member(Reply(raw, parse).value, "data") == parse(Clean(text))
  {
  }

  /** Appending an envelope to a list of envelopes keeps it a list of envelopes. */
  lemma EnvelopesAppend(ms: seq<Json>, m: Json)
    requires forall k :: 0 <= k < |ms| ==> IsEnvelope(ms[k])
    requires IsEnvelope(m)
    ensures forall k :: 0 <= k < |ms + [m]| ==> IsEnvelope((ms + [m])[k])
  {
  }

  // --- the session ------------------------------------------------------

  /** One client connection and its upstream socket. */
  class RelaySession {
    const instruction: string
    var upstream: ReadyState
    /** Everything sent upstream, in order. */
    var upstreamSent: seq<Json>
    var clientOpen: bool
    /** Everything sent to the client, in order. */
    var clientSent: seq<Json>

    ghost predicate Valid()
      reads this
    {
      && (upstreamSent != [] ==> upstreamSent[0] == Setup(instruction))
      && (upstream == Open ==> upstreamSent != [])
      && (upstream == Connecting ==> upstreamSent == [])
      && (!clientOpen ==> upstream != Open && upstream != Connecting)
      && (forall k :: 0 <= k < |clientSent| ==> IsEnvelope(clientSent[k]))
    }

    /** A new client connection: the upstream socket starts connecting. */
    constructor(systemInstruction: string)
      ensures Valid()
      ensures instruction == systemInstruction
      ensures upstream == Connecting && upstreamSent == [] && clientOpen && clientSent == []
    {
      instruction := systemInstruction;
      upstream := Connecting;
      upstreamSent := [];
      clientOpen := true;
      clientSent := [];
    }

    /** Upstream `open`: the first thing sent upstream is the setup. */
    method OnUpstreamOpen()
      requires Valid() && upstream == Connecting
      modifies this
      ensures Valid()
      ensures upstream == Open && upstreamSent == [Setup(instruction)]
      ensures clientOpen == old(clientOpen) && clientSent == old(clientSent)
    {
      upstream := Open;
      upstreamSent := upstreamSent + [Setup(instruction)];
    }

    /** Upstream `message`: at most one envelope for the client. */
    method OnUpstreamMessage(raw: string, parse: string -> Option<Json>)
      requires Valid()
      modifies this
      ensures Valid()
      ensures clientSent == old(clientSent) + if clientOpen && Reply(raw, parse).Some?
                                              then [Reply(raw, parse).value] else []
      ensures upstream == old(upstream) && upstreamSent == old(upstreamSent) && clientOpen == old(clientOpen)
    {
      var reply := Reply(raw, parse);
      if clientOpen && reply.Some? {
        EnvelopesAppend(clientSent, reply.value);
        clientSent := clientSent + [reply.value];
      }
    }

    /** Client `message`: forwarded unchanged while upstream is open, dropped otherwise. */
    method OnClientMessage(data: Json)
      requires Valid()
      modifies this
      ensures Valid()
      ensures upstreamSent == old(upstreamSent) + if upstream == Open then [data] else []
      ensures upstream == old(upstream) && clientOpen == old(clientOpen) && clientSent == old(clientSent)
    {
      if upstream == Open {
        upstreamSent := upstreamSent + [data];
      }
    }

    /** Client `close`: the session's upstream socket is closed too. */
    method OnClientClose()
      requires Valid()
      modifies this
      ensures Valid()
      ensures !clientOpen && upstream == AfterClose(old(upstream))
      ensures upstreamSent == old(upstreamSent) && clientSent == old(clientSent)
    {
      clientOpen := false;
      upstream := AfterClose(upstream);
    }

    /** Upstream finishes closing (the relay registers no handler for it). */
    method OnUpstreamClosed()
      requires Valid() && upstream != Connecting
      modifies this
      ensures Valid()
      ensures upstream == Closed
      ensures upstreamSent == old(upstreamSent) && clientOpen == old(clientOpen) && clientSent == old(clientSent)
    {
      upstream := Closed;
    }
  }
}
