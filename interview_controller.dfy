/**
  The interview screen (the second recorder page): consent, one recording per
  question, a delayed completion that stores one result per stop, and the
  finished view. React state setters become field updates; each event
  handler, timer callback and awaited continuation is one method.
*/
module InterviewController {
  import opened Wrappers
  import opened Json
  import opened Sockets
  import opened Pcm
  import opened Capture
  import opened Analysis
  import opened Questions
  import Text

  // ---------------------------------------------------------------------
  // Pure parts
  // ---------------------------------------------------------------------

  const ContextLead := "CONTEXTO ATUAL: O usuário está respondendo à pergunta: \""
  const ContextMiddle := "\". O contexto esperado é: "
  const ContextEnd := ". Analise a resposta dele a partir de agora."

  /**
    The text context sent before a question's recording starts: the
    question's text in quotes, then its expected context, at fixed places.
  */
  function ContextMessage(q: Question): (m: ClientMessage)
    ensures m.TextInput?
    ensures Text.OccursAt(m.text, ContextLead, 0)
    ensures Text.OccursAt(m.text, q.text, |ContextLead|)
    ensures Text.OccursAt(m.text, ContextMiddle, |ContextLead| + |q.text|)
    ensures Text.OccursAt(m.text, q.context, |ContextLead| + |q.text| + |ContextMiddle|)
    ensures Text.OccursAt(m.text, ContextEnd, |m.text| - |ContextEnd|)
    ensures |m.text| == |ContextLead| + |q.text| + |ContextMiddle| + |q.context| + |ContextEnd|
  {
    FiveParts(ContextLead, q.text, ContextMiddle, q.context, ContextEnd);
    TextInput(ContextLead + q.text + ContextMiddle + q.context + ContextEnd)
  }

  /** Each of five concatenated parts sits at the sum of the lengths before it. */
  lemma FiveParts(a: string, b: string, c: string, d: string, e: string)
    ensures var s := a + b + c + d + e;
            && Text.OccursAt(s, a, 0) && Text.OccursAt(s, b, |a|) && Text.OccursAt(s, c, |a| + |b|)
            && Text.OccursAt(s, d, |a| + |b| + |c|) && Text.OccursAt(s, e, |s| - |e|)
  {
    var s := a + b + c + d + e;
    assert s[..|a|] == a;
    assert s[|a|..|a| + |b|] == b;
    assert s[|a| + |b|..|a| + |b| + |c|] == c;
    assert s[|a| + |b| + |c|..|a| + |b| + |c| + |d|] == d;
    assert s[|s| - |e|..] == e;
  }

  /** A video frame is requested on every tenth audio chunk (the counter is 1 on the first chunk). */
  predicate VideoDue(chunkCounter: nat) {
    chunkCounter % 10 == 0
  }

  /** Of the chunks numbered 1..n, how many request a video frame. */
  function FramesRequested(n: nat): nat {
    if n == 0 then 0 else FramesRequested(n - 1) + (if VideoDue(n) then 1 else 0)
  }

  /** Exactly one chunk in ten requests a frame: floor(n / 10) of the first n. */
  lemma {:induction false} FramesRequestedCount(n: nat)
    ensures FramesRequested(n) == n / 10
  {
    if n > 0 {
      FramesRequestedCount(n - 1);
      if n % 10 == 0 {
        assert n / 10 == (n - 1) / 10 + 1;
      } else {
        assert n / 10 == (n - 1) / 10;
      }
    }
  }

  /** The image `sendToSocket` attaches: the canvas JPEG when a frame is due and the video and canvas exist. */
  function FrameFor(includeVideo: bool, f: FrameSource): (image: string)
    ensures includeVideo && f.hasVideo && f.hasCanvas ==> image == f.jpeg
    ensures !(includeVideo && f.hasVideo && f.hasCanvas) ==> image == ""
  {
    if includeVideo && f.hasVideo && f.hasCanvas then f.jpeg else ""
  }

  /** The media message: the audio chunk, followed by an image chunk only when the image is non-empty. */
  function MediaMessage(audio: string, image: string): (m: ClientMessage)
    ensures m.RealtimeInput? && 1 <= |m.mediaChunks| <= 2
    ensures m.mediaChunks[0] == AudioChunk(audio)
    ensures |m.mediaChunks| == 2 <==> image != ""
    ensures |m.mediaChunks| == 2 ==> m.mediaChunks[1] == ImageChunk(image)
  {
    RealtimeInput([AudioChunk(audio)] + (if image != "" then [ImageChunk(image)] else []))
  }

  /** JavaScript `x || fallback` where `x` may be null. */
  function OrElse(x: Option<Json>, fallback: Json): (r: Json)
    ensures Truthy(fallback) ==> Truthy(r)
    ensures x.Some? && Truthy(x.value) ==> r == x.value
    ensures x.None? ==> r == fallback
    ensures x.Some? && !Truthy(x.value) ==> r == fallback
  {
    if x.Some? && Truthy(x.value) then x.value else fallback
  }

  /** The analysis carried by a server message: `msg.type === 'analysis' && msg.data`. */
  function AnalysisPayload(msg: Json): (data: Option<Json>)
    ensures data.Some? <==> (Member(msg, "type") == Some(JStr("analysis"))
                             && Member(msg, "data").Some? && Truthy(Member(msg, "data").value))
    ensures data.Some? ==> Member(msg, "data") == data
  {
    if Member(msg, "type") == Some(JStr("analysis")) then
      var d := Member(msg, "data");
      if d.Some? && Truthy(d.value) then d else None
    else None
  }

  const Analysing: Json := JStr("IA analisando...")

  /** The feedback line: the analysis's `insight_final` when truthy, otherwise "IA analisando...". */
  function FeedbackFor(data: Json): (r: Json)
    ensures Truthy(r)
    ensures Member(data, "insight_final").Some? && Truthy(Member(data, "insight_final").value)
            ==> r == Member(data, "insight_final").value
    ensures Member(data, "insight_final").None? ==> r == Analysing
    ensures Member(data, "insight_final").Some? && !Truthy(Member(data, "insight_final").value)
            ==> r == Analysing
  {
    OrElse(Member(data, "insight_final"), Analysing)
  }

  /**
    What the delayed completion does to the question index, deciding on the
    live index: advance while a later question exists, otherwise finish with
    the index unchanged.
  */
  function Advance(index: nat, count: nat): (r: (nat, bool))
    requires index < count
    ensures r.0 < count
    ensures r.1 <==> index == count - 1
    ensures !r.1 ==> r.0 == index + 1
    ensures r.1 ==> r.0 == index
  {
    if index < count - 1 then (index + 1, false) else (index, true)
  }

  /**
    The completion as the source writes it: the test reads the index captured
    when stop was pressed, while the increment applies to the live index.
  */
  function AdvanceAsWritten(captured: nat, live: nat, count: nat): (r: (nat, bool))
    ensures r.1 <==> captured >= count - 1
    ensures !r.1 ==> r.0 == live + 1
    ensures r.1 ==> r.0 == live
  {
    if captured < count - 1 then (live + 1, false) else (live, true)
  }

  /** With one completion pending at a time (captured index is the live one), both agree. */
  lemma AdvanceAsWrittenAgrees(index: nat, count: nat)
    requires index < count
    ensures AdvanceAsWritten(index, index, count) == Advance(index, count)
  {
  }

  /**
    Two stops within the completion delay on the third of four questions:
    both completions captured index 2, so the index reaches 4, past the last
    question.
  */
  lemma OverlappingStopsOverrun()
    ensures var first := AdvanceAsWritten(2, 2, |SurveyQuestions()|);
            var second := AdvanceAsWritten(2, first.0, |SurveyQuestions()|);
            !first.1 && !second.1 && second.0 == |SurveyQuestions()|
  {
  }

  // --- `formatTime` ----------------------------------------------------

  function DigitChar(d: nat): char
    requires d < 10
  {
    ('0' as int + d) as char
  }

  predicate IsDigit(c: char) {
    '0' <= c <= '9'
  }

  /** `n.toString()`: decimal digits, no leading zero. */
  function Digits(n: nat): (s: string)
    ensures |s| >= 1
    ensures forall k :: 0 <= k < |s| ==> IsDigit(s[k])
  {
    if n < 10 then [DigitChar(n)] else Digits(n / 10) + [DigitChar(n % 10)]
  }

  /** The number a string of decimal digits denotes (the inverse used to read `formatTime` back). */
  function DecimalValue(s: string): nat
    requires forall k :: 0 <= k < |s| ==> IsDigit(s[k])
  {
    if s == [] then 0
    else
      var c := s[|s| - 1];
      assert IsDigit(c);
      DecimalValue(s[..|s| - 1]) * 10 + (c as int - '0' as int)
  }

  lemma {:induction false} DigitsValue(n: nat)
    ensures DecimalValue(Digits(n)) == n
  {
    if n >= 10 {
      var s := Digits(n);
      assert s[..|s| - 1] == Digits(n / 10);
      DigitsValue(n / 10);
    }
  }

  /** A leading zero does not change the value. */
  lemma {:induction false} LeadingZeroValue(s: string)
    requires forall k :: 0 <= k < |s| ==> IsDigit(s[k])
    ensures DecimalValue("0" + s) == DecimalValue(s)
    decreases |s|
  {
    if s != [] {
      var t := "0" + s;
      assert t[..|t| - 1] == "0" + s[..|s| - 1];
      LeadingZeroValue(s[..|s| - 1]);
    }
  }

  /** `padStart(2, '0')` */
  function PadTwo(s: string): (r: string)
    ensures |r| == if |s| < 2 then 2 else |s|
  {
    if |s| == 0 then "00" else if |s| == 1 then "0" + s else s
  }

  /** Padding a digit string keeps it a digit string of the same value. */
  lemma PadTwoValue(s: string)
    requires |s| >= 1 && forall k :: 0 <= k < |s| ==> IsDigit(s[k])
    ensures forall k :: 0 <= k < |PadTwo(s)| ==> IsDigit(PadTwo(s)[k])
    ensures DecimalValue(PadTwo(s)) == DecimalValue(s)
  {
    if |s| == 1 {
      LeadingZeroValue(s);
    }
  }

  /** Numbers below 100 print with at most two digits. */
  lemma DigitsBelowHundred(n: nat)
    requires n < 100
    ensures |Digits(n)| <= 2
  {
    if n >= 10 {
      assert Digits(n) == Digits(n / 10) + [DigitChar(n % 10)];
    }
  }

  /** `formatTime(seconds)`: minutes and seconds, each padded to two digits, joined by ':'. */
  function FormatTime(seconds: nat): (r: string)
    ensures |r| >= 5 && r[|r| - 3] == ':'
  {
    DigitsBelowHundred(seconds % 60);
    PadTwo(Digits(seconds / 60)) + ":" + PadTwo(Digits(seconds % 60))
  }

  /**
    Reading the display back: the last three characters are ':' and two
    digits giving `seconds mod 60`; what precedes them (at least two digits)
    gives `seconds div 60`. Below 100 minutes the display is exactly "MM:SS".
  */
  lemma {:induction false} FormatTimeReadsBack(seconds: nat)
    ensures var r := FormatTime(seconds);
            && |r| >= 5 && r[|r| - 3] == ':'
            && (forall k :: 0 <= k < |r| && k != |r| - 3 ==> IsDigit(r[k]))
            && DecimalValue(r[..|r| - 3]) == seconds / 60
            && DecimalValue(r[|r| - 2..]) == seconds % 60 < 60
            && (seconds < 6000 ==> |r| == 5)
  {
    var m, s := PadTwo(Digits(seconds / 60)), PadTwo(Digits(seconds % 60));
    DigitsValue(seconds / 60);
    DigitsValue(seconds % 60);
    PadTwoValue(Digits(seconds / 60));
    PadTwoValue(Digits(seconds % 60));
    DigitsBelowHundred(seconds % 60);
    if seconds < 6000 {
      DigitsBelowHundred(seconds / 60);
    }
    var r := FormatTime(seconds);
    assert r == m + ":" + s;
    assert |s| == 2;
    assert r[..|r| - 3] == m;
    assert r[|r| - 2..] == s;
  }

  // ---------------------------------------------------------------------
  // The component
  // ---------------------------------------------------------------------

  class InterviewRecorder {
    var hasConsented: bool
    var currentQIndex: nat
    var isFinished: bool
    var isRecording: bool
    var isConnected: bool
    var timer: nat
    var feedback: Option<Json>
    var currentAnalysis: Option<Json>
    var allResults: seq<Json>
    /** The page's WebSocket, by its ready state; `None` until consent. */
    var socket: Option<ReadyState>
    /** Every message this page has sent on the socket, in order. */
    var sent: seq<ClientMessage>
    /** The current recording's chunk counter (a local of `startRecording`). */
    var chunkCounter: nat
    /** The analyses captured by stops whose delayed completion has not yet run, oldest first. */
    var pending: seq<Option<Json>>
    /**
      The `isRecording` that the closure of the worklet handler installed by
      the latest `startRecording` holds: the value of the render in which
      Start was clicked, not the live state.
    */
    var startGuard: bool
    /** `MOCK_ANALYSIS` as the page stores it, fixed when the page is created. */
    const mock: Json
    ghost var stops: nat
    /** Media messages of the current recording that carried an image. */
    ghost var framesSent: nat

    ghost predicate Valid()
      reads this
    {
      && currentQIndex < QuestionCount
      && |allResults| + |pending| == stops
      && framesSent <= chunkCounter / 10
      && (isFinished && socket.Some? ==> socket.value != Open && socket.value != Connecting)
      && Truthy(mock)
      && (forall k :: 0 <= k < |allResults| ==> Truthy(allResults[k]))
    }

    constructor()
      ensures Valid()
      ensures !hasConsented && currentQIndex == 0 && !isFinished && !isRecording && !isConnected
      ensures timer == 0 && feedback.None? && currentAnalysis.None? && allResults == []
      ensures socket.None? && sent == [] && pending == [] && stops == 0
      ensures mock == MockJson() && !startGuard && chunkCounter == 0 && framesSent == 0
    {
      mock := MockJson();
      startGuard := false;
      hasConsented, currentQIndex, isFinished := false, 0, false;
      isRecording, isConnected, timer := false, false, 0;
      feedback, currentAnalysis, allResults := None, None, [];
      socket, sent, chunkCounter, pending := None, [], 0, [];
      stops, framesSent := 0, 0;
    }

    /** The consent modal's confirm: the connection effect opens the socket. */
    method Consent()
      requires Valid() && !hasConsented
      modifies this
      ensures startGuard == old(startGuard)
      ensures Valid() && hasConsented
      ensures socket == if isFinished then old(socket) else Some(Connecting)
      ensures currentQIndex == old(currentQIndex) && isFinished == old(isFinished)
      ensures isRecording == old(isRecording) && isConnected == old(isConnected) && timer == old(timer)
      ensures feedback == old(feedback) && currentAnalysis == old(currentAnalysis)
      ensures allResults == old(allResults) && sent == old(sent) && pending == old(pending)
      ensures chunkCounter == old(chunkCounter) && stops == old(stops)
    {
      hasConsented := true;
      if !isFinished {
        socket := Some(Connecting);
      }
    }

    /** `ws.onopen` */
    method OnSocketOpen()
      requires Valid() && socket == Some(Connecting)
      modifies this
      ensures startGuard == old(startGuard)
      ensures Valid() && socket == Some(Open) && isConnected
      ensures !isFinished
      ensures hasConsented == old(hasConsented) && currentQIndex == old(currentQIndex)
      ensures isRecording == old(isRecording) && timer == old(timer)
      ensures feedback == old(feedback) && currentAnalysis == old(currentAnalysis)
      ensures allResults == old(allResults) && sent == old(sent) && pending == old(pending)
      ensures chunkCounter == old(chunkCounter) && stops == old(stops)
    {
      socket := Some(Open);
      isConnected := true;
    }

    /** `ws.onclose` */
    method OnSocketClose()
      requires Valid() && socket.Some?
      modifies this
      ensures startGuard == old(startGuard)
      ensures Valid() && socket == Some(Closed) && !isConnected
      ensures hasConsented == old(hasConsented) && currentQIndex == old(currentQIndex)
      ensures isFinished == old(isFinished) && isRecording == old(isRecording) && timer == old(timer)
      ensures feedback == old(feedback) && currentAnalysis == old(currentAnalysis)
      ensures allResults == old(allResults) && sent == old(sent) && pending == old(pending)
      ensures chunkCounter == old(chunkCounter) && stops == old(stops)
    {
      socket := Some(Closed);
      isConnected := false;
    }

    /** `ws.onmessage`, on the parsed message: an analysis replaces the current one and sets the feedback line. */
    method OnMessage(msg: Json)
      requires Valid()
      modifies this
      ensures startGuard == old(startGuard)
      ensures Valid()
      ensures AnalysisPayload(msg).Some? ==>
                currentAnalysis == AnalysisPayload(msg)
                && feedback == Some(FeedbackFor(AnalysisPayload(msg).value))
      ensures AnalysisPayload(msg).None? ==>
                currentAnalysis == old(currentAnalysis) && feedback == old(feedback)
      ensures hasConsented == old(hasConsented) && currentQIndex == old(currentQIndex)
      ensures isFinished == old(isFinished) && isRecording == old(isRecording)
      ensures isConnected == old(isConnected) && timer == old(timer) && socket == old(socket)
      ensures allResults == old(allResults) && sent == old(sent) && pending == old(pending)
      ensures chunkCounter == old(chunkCounter) && stops == old(stops)
    {
      var data := AnalysisPayload(msg);
      if data.Some? {
        feedback := Some(FeedbackFor(data.value));
        currentAnalysis := data;
      }
    }

    /** The synchronous part of `startRecording`: the question's context goes out only on an open socket. */
    method RequestStart()
      requires Valid() && hasConsented && !isFinished && !isRecording
      modifies this
      ensures Valid()
      ensures sent == old(sent) + if socket == Some(Open)
                                  then [ContextMessage(SurveyQuestions()[currentQIndex])]
                                  else []
      ensures hasConsented == old(hasConsented) && currentQIndex == old(currentQIndex)
      ensures isFinished == old(isFinished) && isRecording == old(isRecording)
      ensures isConnected == old(isConnected) && timer == old(timer) && socket == old(socket)
      ensures feedback == old(feedback) && currentAnalysis == old(currentAnalysis)
      ensures allResults == old(allResults) && pending == old(pending)
      ensures chunkCounter == old(chunkCounter) && stops == old(stops)
      ensures startGuard == old(isRecording) && !startGuard
    {
      startGuard := isRecording;
      if socket == Some(Open) {
        sent := sent + [ContextMessage(SurveyQuestions()[currentQIndex])];
      }
    }

    /** `startRecording` once the camera and microphone are granted: a fresh recording. */
    method OnMediaReady()
      requires Valid()
      modifies this
      ensures startGuard == old(startGuard)
      ensures Valid()
      ensures isRecording && timer == 0 && feedback.None? && currentAnalysis.None?
      ensures chunkCounter == 0 && framesSent == 0
      ensures hasConsented == old(hasConsented) && currentQIndex == old(currentQIndex)
      ensures isFinished == old(isFinished) && isConnected == old(isConnected) && socket == old(socket)
      ensures allResults == old(allResults) && sent == old(sent) && pending == old(pending)
      ensures stops == old(stops)
    {
      isRecording := true;
      timer := 0;
      feedback := None;
      currentAnalysis := None;
      chunkCounter := 0;
      framesSent := 0;
    }

    /** The one-second interval that runs while recording. */
    method Tick()
      requires Valid() && isRecording
      modifies this
      ensures startGuard == old(startGuard)
      ensures Valid() && timer == old(timer) + 1
      ensures hasConsented == old(hasConsented) && currentQIndex == old(currentQIndex)
      ensures isFinished == old(isFinished) && isRecording == old(isRecording)
      ensures isConnected == old(isConnected) && socket == old(socket)
      ensures feedback == old(feedback) && currentAnalysis == old(currentAnalysis)
      ensures allResults == old(allResults) && sent == old(sent) && pending == old(pending)
      ensures chunkCounter == old(chunkCounter) && stops == old(stops)
    {
      timer := timer + 1;
    }

    /**
      The worklet handler past its guard, for one block of samples: the
      counter counts the block, a frame is due on every tenth, and a message
      goes out only on an open socket. At most one block in ten carries an
      image.
    */
    method ProcessChunk(samples: array<real>, frame: FrameSource)
      requires Valid()
      modifies this
      ensures startGuard == old(startGuard)
      ensures Valid()
      ensures chunkCounter == old(chunkCounter) + 1
      ensures sent == old(sent) + if socket == Some(Open)
                                  then [MediaMessage(EncodeAudio(samples[..]), FrameFor(VideoDue(chunkCounter), frame))]
                                  else []
      ensures hasConsented == old(hasConsented) && currentQIndex == old(currentQIndex)
      ensures isFinished == old(isFinished) && isRecording == old(isRecording)
      ensures isConnected == old(isConnected) && timer == old(timer) && socket == old(socket)
      ensures feedback == old(feedback) && currentAnalysis == old(currentAnalysis)
      ensures allResults == old(allResults) && pending == old(pending) && stops == old(stops)
    {
      var pcm := ConvertFloat32ToInt16(samples);
      chunkCounter := chunkCounter + 1;
      if VideoDue(chunkCounter) {
        assert chunkCounter / 10 == (chunkCounter - 1) / 10 + 1;
      }
      SendToSocket(pcm[..], VideoDue(chunkCounter), frame);
    }

    /** The worklet handler with its guard reading the live recording state. */
    method OnAudioChunk(samples: array<real>, frame: FrameSource)
      requires Valid()
      modifies this
      ensures startGuard == old(startGuard)
      ensures Valid()
      ensures chunkCounter == if old(isRecording) then old(chunkCounter) + 1 else old(chunkCounter)
      ensures sent == old(sent) + if old(isRecording) && socket == Some(Open)
                                  then [MediaMessage(EncodeAudio(samples[..]), FrameFor(VideoDue(chunkCounter), frame))]
                                  else []
      ensures hasConsented == old(hasConsented) && currentQIndex == old(currentQIndex)
      ensures isFinished == old(isFinished) && isRecording == old(isRecording)
      ensures isConnected == old(isConnected) && timer == old(timer) && socket == old(socket)
      ensures feedback == old(feedback) && currentAnalysis == old(currentAnalysis)
      ensures allResults == old(allResults) && pending == old(pending) && stops == old(stops)
    {
      if isRecording {
        ProcessChunk(samples, frame);
      }
    }

    /**
      The worklet handler as the source writes it: the guard reads the value
      its closure captured when Start was clicked. `RequestStart` only runs
      while not recording, so that value is false and no block is ever
      processed or sent.
    */
    method OnAudioChunkAsWritten(samples: array<real>, frame: FrameSource)
      requires Valid()
      modifies this
      ensures startGuard == old(startGuard)
      ensures Valid()
      ensures chunkCounter == if startGuard then old(chunkCounter) + 1 else old(chunkCounter)
      ensures sent == old(sent) + if startGuard && socket == Some(Open)
                                  then [MediaMessage(EncodeAudio(samples[..]), FrameFor(VideoDue(chunkCounter), frame))]
                                  else []
      ensures !startGuard ==> sent == old(sent)
      ensures hasConsented == old(hasConsented) && currentQIndex == old(currentQIndex)
      ensures isFinished == old(isFinished) && isRecording == old(isRecording)
      ensures isConnected == old(isConnected) && timer == old(timer) && socket == old(socket)
      ensures feedback == old(feedback) && currentAnalysis == old(currentAnalysis)
      ensures allResults == old(allResults) && pending == old(pending) && stops == old(stops)
    {
      if startGuard {
        ProcessChunk(samples, frame);
      }
    }

    /** `sendToSocket`: base 64 of the Int16 buffer, plus the frame when one is due and available. */
    method SendToSocket(pcm: seq<int>, includeVideo: bool, frame: FrameSource)
      requires Valid() && (includeVideo ==> framesSent < chunkCounter / 10)
      modifies this
      ensures startGuard == old(startGuard)
      ensures Valid()
      ensures sent == old(sent) + if socket == Some(Open)
                                  then [MediaMessage(Base64.Encode(Int16Bytes(pcm)), FrameFor(includeVideo, frame))]
                                  else []
      ensures hasConsented == old(hasConsented) && currentQIndex == old(currentQIndex)
      ensures isFinished == old(isFinished) && isRecording == old(isRecording)
      ensures isConnected == old(isConnected) && timer == old(timer) && socket == old(socket)
      ensures feedback == old(feedback) && currentAnalysis == old(currentAnalysis)
      ensures allResults == old(allResults) && pending == old(pending)
      ensures chunkCounter == old(chunkCounter) && stops == old(stops)
    {
      if socket != Some(Open) {
        return;
      }
      var image := FrameFor(includeVideo, frame);
      var audio := ArrayBufferToBase64(Int16Bytes(pcm));
      sent := sent + [MediaMessage(audio, image)];
      if image != "" {
        framesSent := framesSent + 1;
      }
    }

    /** `stopRecording`: recording ends at once; the analysis now current is captured for the delayed completion. */
    method Stop()
      requires Valid() && isRecording
      modifies this
      ensures startGuard == old(startGuard)
      ensures Valid() && !isRecording
      ensures pending == old(pending) + [old(currentAnalysis)] && stops == old(stops) + 1
      ensures hasConsented == old(hasConsented) && currentQIndex == old(currentQIndex)
      ensures isFinished == old(isFinished) && isConnected == old(isConnected) && socket == old(socket)
      ensures timer == old(timer) && feedback == old(feedback) && currentAnalysis == old(currentAnalysis)
      ensures allResults == old(allResults) && sent == old(sent) && chunkCounter == old(chunkCounter)
    {
      isRecording := false;
      pending := pending + [currentAnalysis];
      stops := stops + 1;
    }

    /**
      The completion four seconds after a stop: stores the captured analysis,
      or the mock when none arrived, then moves to the next question or
      finishes; finishing closes the socket.
    */
    method CompleteStop()
      requires Valid() && pending != []
      modifies this
      ensures startGuard == old(startGuard)
      ensures Valid()
      ensures allResults == old(allResults) + [OrElse(old(pending[0]), mock)]
      ensures pending == old(pending[1..]) && stops == old(stops)
      ensures old(currentQIndex) < QuestionCount - 1 ==>
                currentQIndex == old(currentQIndex) + 1 && isFinished == old(isFinished) && socket == old(socket)
      ensures old(currentQIndex) == QuestionCount - 1 ==>
                currentQIndex == old(currentQIndex) && isFinished
                && (old(socket).Some? && !old(isFinished) ==> socket == Some(AfterClose(old(socket).value)))
                && (old(socket).None? || old(isFinished) ==> socket == old(socket))
      ensures hasConsented == old(hasConsented) && isRecording == old(isRecording)
      ensures isConnected == old(isConnected) && timer == old(timer)
      ensures feedback == old(feedback) && currentAnalysis == old(currentAnalysis)
      ensures sent == old(sent) && chunkCounter == old(chunkCounter)
    {
      var result := OrElse(pending[0], mock);
      allResults := allResults + [result];
      pending := pending[1..];
      var next := Advance(currentQIndex, QuestionCount);
      if next.1 {
        if !isFinished && socket.Some? {
          socket := Some(AfterClose(socket.value));
        }
        isFinished := true;
      } else {
        currentQIndex := next.0;
      }
    }

    /** The finished view's data: the last stored result, or the mock when there is none. */
    function FinalResult(): (r: Json)
      requires Valid()
      reads this
      ensures Truthy(r)
      ensures allResults != [] ==> r == allResults[|allResults| - 1]
      ensures allResults == [] ==> r == mock
    {
      OrElse(if allResults == [] then None else Some(allResults[|allResults| - 1]), mock)
    }
  }

  /**
    One recording on an open socket: the handler as written sends nothing
    for a block, while the handler reading the live state sends the block.
  */
  method StaleGuardScenario(samples: array<real>, frame: FrameSource)
    returns (asWritten: seq<ClientMessage>, live: seq<ClientMessage>)
    ensures asWritten == []
    ensures |live| == 1 && live[0].RealtimeInput?
    ensures live[0] == MediaMessage(EncodeAudio(samples[..]), FrameFor(false, frame))
  {
    var page := new InterviewRecorder();
    page.Consent();
    page.OnSocketOpen();
    page.RequestStart();
    page.OnMediaReady();
    var before := page.sent;
    page.OnAudioChunkAsWritten(samples, frame);
    asWritten := page.sent[|before|..];
    page.OnAudioChunk(samples, frame);
    live := page.sent[|before|..];
  }
}
