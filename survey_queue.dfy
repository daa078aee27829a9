/**
  The survey queue screen: a fixed list of surveys, the labels and styles
  shown for each priority, and the rule that a pending top-priority survey
  must be answered before any other can be started.
*/
module SurveyQueue {

  datatype Survey = Survey(id: nat, title: string, priority: string, date: string, status: string)

  /** The queue's built-in list. */
  const Surveys: seq<Survey> := [
    Survey(1, "Pesquisa de Clima Q1", "high", "Vence hoje", "pending"),
    Survey(2, "Avaliação de Liderança", "medium", "Vence em 2 dias", "pending"),
    Survey(3, "Feedback de Benefícios", "low", "Vence em 5 dias", "pending"),
    Survey(4, "Pesquisa de Infraestrutura", "low", "Concluída em 20/01", "completed")
  ]

  predicate PendingHigh(s: Survey) {
    s.priority == "high" && s.status == "pending"
  }

  /**
    `surveys.some(s => s.priority === 'high' && s.status === 'pending')`,
    scanning from the front: it finds a blocking survey exactly when one exists.
  */
  function AnyPendingHigh(surveys: seq<Survey>): (r: bool)
    ensures r <==> exists i :: 0 <= i < |surveys| && PendingHigh(surveys[i])
  {
    if surveys == [] then false
    else
      var rest := AnyPendingHigh(surveys[1..]);
      assert forall i :: 1 <= i < |surveys| ==> surveys[1..][i - 1] == surveys[i];
      PendingHigh(surveys[0]) || rest
  }

  datatype StartOutcome = Refused | Navigate(path: string)

  /** `handleStart`: refuse (with an alert) or go to the hardware check. */
  function HandleStart(surveys: seq<Survey>, chosen: Survey): (r: StartOutcome)
    ensures r.Refused? <==> ((exists i :: 0 <= i < |surveys| && PendingHigh(surveys[i]))
                             && chosen.priority != "high")
    ensures r.Navigate? ==> r.path == "/check"
  {
    if AnyPendingHigh(surveys) && chosen.priority != "high" then Refused else Navigate("/check")
  }

  /** A top-priority survey is never refused; with nothing pending at top priority, nothing is. */
  lemma StartRefusals(surveys: seq<Survey>, chosen: Survey)
    ensures chosen.priority == "high" ==> HandleStart(surveys, chosen) == Navigate("/check")
    ensures (forall i :: 0 <= i < |surveys| ==> surveys[i].status != "pending" || surveys[i].priority != "high")
            ==> HandleStart(surveys, chosen) == Navigate("/check")
  {
  }

  /** In the built-in list survey 1 is pending at top priority, so only it can be started. */
  lemma BuiltInQueue(chosen: Survey)
    ensures HandleStart(Surveys, chosen).Refused? <==> chosen.priority != "high"
  {
    assert PendingHigh(Surveys[0]);
  }

  /** `getPriorityLabel` */
  function PriorityLabel(p: string): (name: string)
    ensures p == "high" || p == "medium" || p == "low" <==> name != ""
  {
    match p
    case "high" => "Prioridade Máxima"
    case "medium" => "Alta Importância"
    case "low" => "Rotina"
    case _ => ""
  }

  /** The three known priorities get three different labels. */
  lemma PriorityLabelsDistinct()
    ensures PriorityLabel("high") != PriorityLabel("medium")
    ensures PriorityLabel("high") != PriorityLabel("low")
    ensures PriorityLabel("medium") != PriorityLabel("low")
  {
  }

  /** `getPriorityStyles`: a class list for every priority, grey for unknown ones. */
  function PriorityStyles(p: string): (classes: string)
    ensures classes != ""
    ensures p != "high" && p != "medium" && p != "low" ==> classes == "bg-gray-200"
  {
    match p
    case "high" => "bg-status-high text-white"
    case "medium" => "bg-status-medium text-white"
    case "low" => "bg-status-low text-bemol-gray-dark"
    case _ => "bg-gray-200"
  }
}
