/** The interview's reference data: the ordered list of questions. */
module Questions {

  datatype Question = Question(id: nat, category: string, text: string, context: string)

  const Cooperation := Question(1, "Cooperação no Time",
    "Conta pra gente: no seu dia a dia, as pessoas do seu time cooperam entre si para que o trabalho seja bem feito e entregue no prazo? Por quê?",
    "O usuário está falando sobre trabalho em equipe e colaboração.")

  const Satisfaction := Question(2, "Satisfação na Bemol",
    "Em vídeo: o quanto você está satisfeito(a) em trabalhar na Bemol? Se recebesse outras propostas, você escolheria ficar aqui? O que mais pesa nessa decisão?",
    "O usuário está falando sobre retenção de talentos e satisfação pessoal.")

  const CultureAndSpeed := Question(3, "Cultura e Rapidez",
    "Como você busca entregar suas tarefas com rapidez e qualidade, seguindo a Cultura e o padrão de atendimento da Bemol? Dá um exemplo recente.",
    "O usuário está falando sobre eficiência operacional e cultura organizacional.")

  const Leadership := Question(4, "Liderança",
    "Quando surge um problema que afeta a satisfação do cliente, como seu gestor(a) costuma agir? Ele(a) demonstra senso de urgência? Conta um caso.",
    "O usuário está avaliando a liderança e resolução de problemas.")

  predicate Complete(q: Question) {
    q.category != "" && q.text != "" && q.context != ""
  }

  /** How many questions the interview asks. */
  const QuestionCount: nat := 4

  /** `SURVEY_QUESTIONS`: four questions numbered 1 to 4 in order, none with an empty field. */
  function SurveyQuestions(): (qs: seq<Question>)
    ensures |qs| == QuestionCount
    ensures forall i :: 0 <= i < |qs| ==> qs[i].id == i + 1
    ensures forall i, j :: 0 <= i < j < |qs| ==> qs[i].id < qs[j].id
    ensures forall i :: 0 <= i < |qs| ==> Complete(qs[i])
    ensures qs[|qs| - 1].id == 4
  {
    assert Complete(Cooperation) && Complete(Satisfaction);
    assert Complete(CultureAndSpeed) && Complete(Leadership);
    [Cooperation, Satisfaction, CultureAndSpeed, Leadership]
  }
}
