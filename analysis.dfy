/**
  The analysis record the client displays (`AnalysisData`) and the fallback
  record `MOCK_ANALYSIS` used when no real analysis arrived for a question.
  The record is also given as the JSON value it is at run time, since the
  client stores real analyses and the fallback side by side.
*/
module Analysis {
  import opened Wrappers
  import opened Json

  datatype Sentiment = Positivo | Negativo | Neutro

  datatype MicroExpressions = MicroExpressions(alegria: real, tristeza: real, raiva: real, medo: real, surpresa: real)

  datatype Prosody = Prosody(tomVoz: string, velocidadeFala: string)

  datatype AnalysisData = AnalysisData(
    transcricao: string,
    sentimento: Sentiment,
    scoreSentimento: real,
    scoreSarcasmo: real,
    confianca: real,
    emocoesDetectadas: seq<string>,
    coerenciaFacialVerbal: real,
    palavrasChave: seq<string>,
    microexpressoes: MicroExpressions,
    prosodia: Prosody,
    insightFinal: Option<string>)

  predicate UnitInterval(x: real) {
    0.0 <= x <= 1.0
  }

  /** The range invariant: every score and every micro-expression intensity lies in [0, 1]. */
  predicate InRange(a: AnalysisData) {
    && UnitInterval(a.scoreSentimento)
    && UnitInterval(a.scoreSarcasmo)
    && UnitInterval(a.confianca)
    && UnitInterval(a.coerenciaFacialVerbal)
    && UnitInterval(a.microexpressoes.alegria)
    && UnitInterval(a.microexpressoes.tristeza)
    && UnitInterval(a.microexpressoes.raiva)
    && UnitInterval(a.microexpressoes.medo)
    && UnitInterval(a.microexpressoes.surpresa)
  }

  const MicroKeys: set<string> := {"alegria", "tristeza", "raiva", "medo", "surpresa"}

  function SentimentLabel(s: Sentiment): (name: string)
    ensures name in {"positivo", "negativo", "neutro"}
  {
    match s
    case Positivo => "positivo"
    case Negativo => "negativo"
    case Neutro => "neutro"
  }

  function Strings(xs: seq<string>): (j: Json)
    ensures j.JArr? && |j.items| == |xs|
    ensures forall k :: 0 <= k < |xs| ==> j.items[k] == JStr(xs[k])
  {
    JArr(seq(|xs|, k requires 0 <= k < |xs| => JStr(xs[k])))
  }

  /** The micro-expression map as a JSON object: exactly the five named keys. */
  function MicroJson(m: MicroExpressions): (j: Json)
    ensures Keys(j) == MicroKeys
  {
    var fields := [("alegria", JNum(m.alegria)), ("tristeza", JNum(m.tristeza)), ("raiva", JNum(m.raiva)),
                   ("medo", JNum(m.medo)), ("surpresa", JNum(m.surpresa))];
    assert fields[0].0 == "alegria" && fields[1].0 == "tristeza" && fields[2].0 == "raiva";
    assert fields[3].0 == "medo" && fields[4].0 == "surpresa";
    JObj(fields)
  }

  /** The record as the JSON object the client holds; an absent `insight_final` is an absent key. */
  function ToJson(a: AnalysisData): (j: Json)
    ensures Truthy(j)
    ensures Member(j, "deteccao_microexpressoes") == Some(MicroJson(a.microexpressoes))
    ensures Member(j, "insight_final").Some? <==> a.insightFinal.Some?
    ensures a.insightFinal.Some? ==> Member(j, "insight_final") == Some(JStr(a.insightFinal.value))
  {
    var fields := [
      ("transcricao", JStr(a.transcricao)),
      ("sentimento", JStr(SentimentLabel(a.sentimento))),
      ("score_sentimento", JNum(a.scoreSentimento)),
      ("score_sarcasmo", JNum(a.scoreSarcasmo)),
      ("confianca", JNum(a.confianca)),
      ("emocoes_detectadas", Strings(a.emocoesDetectadas)),
      ("coerencia_facial_verbal", JNum(a.coerenciaFacialVerbal)),
      ("palavras_chave", Strings(a.palavrasChave)),
      ("deteccao_microexpressoes", MicroJson(a.microexpressoes)),
      ("analise_prosodica", JObj([("tom_voz", JStr(a.prosodia.tomVoz)), ("velocidade_fala", JStr(a.prosodia.velocidadeFala))]))
    ];
    var all := if a.insightFinal.Some? then fields + [("insight_final", JStr(a.insightFinal.value))] else fields;
    assert all[8].0 == "deteccao_microexpressoes";
    JObj(all)
  }

  /** `MOCK_ANALYSIS`: an in-range, positive record that carries an insight. */
  function MockAnalysis(): (a: AnalysisData)
    ensures InRange(a)
    ensures a.sentimento == Positivo
    ensures a.insightFinal.Some? && a.insightFinal.value != ""
    ensures a.prosodia == Prosody("calmo", "normal")
  {
    AnalysisData(
      "Resposta simulada para fins de demonstração (Fallback).",
      Positivo,
      0.85,
      0.0,
      0.95,
      ["confiança"],
      0.9,
      ["demonstração", "hackathon"],
      MicroExpressions(0.5, 0.0, 0.0, 0.0, 0.0),
      Prosody("calmo", "normal"),
      Some("Resposta consistente (Mock gerado pois a IA demorou a responder)."))
  }

  /** The fallback as the client stores it. */
  function MockJson(): (j: Json)
    ensures Truthy(j)
    ensures Member(j, "deteccao_microexpressoes").Some?
    ensures Keys(Member(j, "deteccao_microexpressoes").value) == MicroKeys
  {
    ToJson(MockAnalysis())
  }
}
