/**
  The per-survey question navigator: one video answer per question, kept in
  a map from question number (1-based) to the recording, with next and
  previous buttons and a submission that may only start once every
  question is answered.
*/
module SurveyForm {

  datatype FormQuestion = FormQuestion(id: nat, text: string, description: string)

  const Q1: FormQuestion := FormQuestion(1, "Como você avalia o ambiente de trabalho na Bemol?",
    "Considere aspectos como infraestrutura, conforto e segurança do local.")
  const Q2: FormQuestion := FormQuestion(2, "Você se sente valorizado e reconhecido pelo seu trabalho?",
    "Pense nas oportunidades de crescimento, feedbacks e reconhecimentos recebidos.")
  const Q3: FormQuestion := FormQuestion(3, "Como é a comunicação com sua liderança direta?",
    "Avalie a clareza, frequência e qualidade das conversas com seu gestor.")
  const Q4: FormQuestion := FormQuestion(4, "Os treinamentos oferecidos contribuem para seu desenvolvimento?",
    "Considere a relevância, qualidade e aplicabilidade dos treinamentos.")
  const Q5: FormQuestion := FormQuestion(5, "O que a Bemol pode fazer para melhorar sua experiência como colaborador?",
    "Compartilhe sugestões, ideias ou pontos de melhoria que você identifica.")

  const FormQuestions: seq<FormQuestion> := [Q1, Q2, Q3, Q4, Q5]

  /** The number of questions, N. */
  const N: nat := 5

  /** A recorded answer; its contents do not matter here. */
  type Blob = seq<int>

  /** A set of numbers within 1..n has at most n members. */
  lemma {:induction false} AtMost(keys: set<nat>, n: nat)
    requires forall k :: k in keys ==> 1 <= k <= n
    ensures |keys| <= n
  {
    if n > 0 {
      AtMost(keys - {n}, n - 1);
    } else {
      assert keys == {};
    }
  }

  /** A set of question numbers within 1..n has n members exactly when it holds all of them. */
  lemma {:induction false} FullExactlyWhenAll(keys: set<nat>, n: nat)
    requires forall k :: k in keys ==> 1 <= k <= n
    ensures |keys| == n <==> forall q :: 1 <= q <= n ==> q in keys
  {
    if n == 0 {
      assert keys == {};
    } else {
      var rest := keys - {n};
      FullExactlyWhenAll(rest, n - 1);
      if n in keys {
        assert keys == rest + {n};
      } else {
        assert rest == keys;
        AtMost(rest, n - 1);
      }
    }
  }

  class Form {
    /** The question shown, 1-based. */
    var currentQuestion: nat
    var recordings: map<nat, Blob>
    var isSubmitting: bool
    var isCompleted: bool

    ghost predicate Valid()
      reads this
    {
      && 1 <= currentQuestion <= N
      && (forall k :: k in recordings ==> 1 <= k <= N)
      && (isSubmitting || isCompleted ==> CanSubmit())
    }

    constructor()
      ensures Valid()
      ensures currentQuestion == 1 && recordings == map[] && !isSubmitting && !isCompleted
    {
      currentQuestion := 1;
      recordings := map[];
      isSubmitting := false;
      isCompleted := false;
    }

    /** The question on screen: the one whose id is the current number. */
    function Question(): (q: FormQuestion)
      requires Valid()
      reads this
      ensures q.id == currentQuestion && q in FormQuestions
    {
      FormQuestions[currentQuestion - 1]
    }

    predicate HasRecording()
      reads this
    {
      currentQuestion in recordings
    }

    predicate IsLastQuestion()
      reads this
    {
      currentQuestion == N
    }

    /** `Object.keys(recordings).length === N`: every question has its answer. */
    predicate CanSubmit()
      reads this
    {
      |recordings.Keys| == N
    }

    /** Given the key range, counting keys is the same as checking each question. */
    lemma CanSubmitMeansAllRecorded()
      requires Valid()
      ensures CanSubmit() <==> forall q :: 1 <= q <= N ==> q in recordings
    {
      FullExactlyWhenAll(recordings.Keys, N);
    }

    /** "Next" is shown before the last question and enabled once its answer is recorded. */
    predicate NextEnabled()
      reads this
    {
      !IsLastQuestion() && HasRecording()
    }

    /** "Submit" is shown on the last question and enabled when all are answered and none is in flight. */
    predicate SubmitEnabled()
      reads this
    {
      IsLastQuestion() && CanSubmit() && !isSubmitting
    }

    /** "Next" is enabled exactly before the last question once the current one is answered. */
    lemma NextEnabledMeans()
      requires Valid()
      ensures NextEnabled() <==> currentQuestion < |FormQuestions| && currentQuestion in recordings
    {
    }

    /**
      "Submit" is enabled exactly on the last question, when every question
      is answered and no submission is in flight; the two buttons are never
      both enabled.
    */
    lemma SubmitEnabledMeans()
      requires Valid()
      ensures SubmitEnabled() <==> (&& currentQuestion == |FormQuestions|
                                    && (forall q :: 1 <= q <= N ==> q in recordings)
                                    && !isSubmitting)
      ensures !(NextEnabled() && SubmitEnabled())
    {
      CanSubmitMeansAllRecorded();
    }

    /** `handleRecordingComplete`: store (or replace) the answer to the current question only. */
    method RecordingComplete(blob: Blob)
      requires Valid()
      modifies this
      ensures Valid()
      ensures recordings == old(recordings)[currentQuestion := blob]
      ensures HasRecording()
      ensures forall k :: k != currentQuestion ==> (k in recordings <==> k in old(recordings))
      ensures forall k :: k != currentQuestion && k in recordings ==> recordings[k] == old(recordings)[k]
      ensures currentQuestion == old(currentQuestion)
      ensures isSubmitting == old(isSubmitting) && isCompleted == old(isCompleted)
    {
      FullExactlyWhenAll(recordings.Keys, N);
      recordings := recordings[currentQuestion := blob];
      FullExactlyWhenAll(recordings.Keys, N);
    }

    /** `handleNext` */
    method Next()
      requires Valid()
      modifies this
      ensures Valid()
      ensures currentQuestion == if old(currentQuestion) < N then old(currentQuestion) + 1 else old(currentQuestion)
      ensures recordings == old(recordings)
      ensures isSubmitting == old(isSubmitting) && isCompleted == old(isCompleted)
    {
      if currentQuestion < N {
        currentQuestion := currentQuestion + 1;
      }
    }

    /** `handlePrevious` */
    method Previous()
      requires Valid()
      modifies this
      ensures Valid()
      ensures currentQuestion == if old(currentQuestion) > 1 then old(currentQuestion) - 1 else old(currentQuestion)
      ensures recordings == old(recordings)
      ensures isSubmitting == old(isSubmitting) && isCompleted == old(isCompleted)
    {
      if currentQuestion > 1 {
        currentQuestion := currentQuestion - 1;
      }
    }

    /** `handleSubmit` up to its wait; only the enabled submit button calls it. */
    method BeginSubmit()
      requires Valid() && SubmitEnabled()
      modifies this
      ensures Valid()
      ensures isSubmitting && isCompleted == old(isCompleted)
      ensures currentQuestion == old(currentQuestion) && recordings == old(recordings)
    {
      isSubmitting := true;
    }

    /** `handleSubmit` after its wait: the survey is complete, and every question was answered. */
    method FinishSubmit()
      requires Valid() && isSubmitting
      modifies this
      ensures Valid()
      ensures !isSubmitting && isCompleted
      ensures forall q :: 1 <= q <= N ==> q in recordings
      ensures currentQuestion == old(currentQuestion) && recordings == old(recordings)
    {
      isSubmitting := false;
      isCompleted := true;
      CanSubmitMeansAllRecorded();
    }
  }
}
