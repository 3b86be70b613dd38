/**
 * The risk-profile quiz: five questions answered one at a time, a score
 * total banded into five profiles, and the quiz state that records the
 * answers and saves the profile to the settings store on completion.
 */
module RiskQuiz {
  import opened Wrappers
  import opened Settings

  /** A question: its id and the scores of its options, in the order shown (wording is not modelled). */
  datatype Question = Question(id: int, scores: seq<int>)

  const Questions: seq<Question> := [
    Question(1, [1, 2, 3, 4, 5]),
    Question(2, [1, 2, 3, 4, 5]),
    Question(3, [1, 2, 3, 4, 5]),
    Question(4, [1, 2, 3, 4, 5]),
    Question(5, [1, 2, 3, 4, 5])
  ]

  /** Question i (from 0) has id i+1 and its options score 1 to 5. */
  lemma QuestionsShape()
    ensures |Questions| == 5
    ensures forall i :: 0 <= i < |Questions| ==> Questions[i].id == i + 1
    ensures forall i, j :: 0 <= i < |Questions| && 0 <= j < |Questions[i].scores| ==>
              Questions[i].scores[j] == j + 1
  {
  }

  /** The id of question i (from 0). */
  lemma QuestionId(i: int)
    requires 0 <= i < |Questions|
    ensures Questions[i].id == i + 1
  {
  }

  // ---------------------------------------------------------------------
  // Scoring
  // ---------------------------------------------------------------------

  /** The recorded score for a question, 0 when it has none. */
  function ScoreOf(answers: map<int, int>, id: int): int
  {
    if id in answers then answers[id] else 0
  }

  /** The sum of the recorded scores for the given questions. */
  function TotalOver(answers: map<int, int>, qs: seq<Question>): int
  {
    if qs == [] then 0 else TotalOver(answers, qs[..|qs| - 1]) + ScoreOf(answers, qs[|qs| - 1].id)
  }

  /**
   * The total of the answer values. Every answer the quiz records is keyed by
   * a question id, so the sum over the questions is the sum of all values.
   */
  function AnswerTotal(answers: map<int, int>): int
  {
    TotalOver(answers, Questions)
  }

  /** What `getRiskProfileFromAnswers` returns (icons are not modelled). */
  datatype ProfileInfo = ProfileInfo(
    profile: RiskBand,
    color: string,
    description: string,
    allocation: Allocation,
    expectedReturn: string,
    risk: string)

  /**
   * The band for a score total: its average over the five questions (see
   * QuestionsShape) against 1.5, 2.5, 3.5 and 4.5.
   */
  function BandOf(total: int): (b: RiskBand)
    ensures b == Conservative <==> total <= 7
    ensures b == ModeratelyConservative <==> 8 <= total <= 12
    ensures b == Moderate <==> 13 <= total <= 17
    ensures b == ModeratelyAggressive <==> 18 <= total <= 22
    ensures b == Aggressive <==> total >= 23
  {
    var avgScore := total as real / 5.0;
    if avgScore <= 1.5 then Conservative
    else if avgScore <= 2.5 then ModeratelyConservative
    else if avgScore <= 3.5 then Moderate
    else if avgScore <= 4.5 then ModeratelyAggressive
    else Aggressive
  }

  /** The description, allocation, expected return and risk shown for each band. */
  const ConservativeInfo := ProfileInfo(Conservative, "blue", "You prefer stability and capital preservation over growth",
                                        Allocation(20, 70, 10), "3-5%", "Low")
  const ModeratelyConservativeInfo := ProfileInfo(ModeratelyConservative, "green", "You want some growth but with limited risk",
                                                  Allocation(40, 50, 10), "4-6%", "Low to Moderate")
  const ModerateInfo := ProfileInfo(Moderate, "yellow", "You seek balanced growth with moderate risk",
                                    Allocation(60, 35, 5), "6-8%", "Moderate")
  const ModeratelyAggressiveInfo := ProfileInfo(ModeratelyAggressive, "orange", "You prioritize growth and can tolerate higher volatility",
                                                Allocation(80, 15, 5), "7-10%", "Moderate to High")
  const AggressiveInfo := ProfileInfo(Aggressive, "red", "You seek maximum growth and can handle high volatility",
                                      Allocation(90, 5, 5), "8-12%", "High")

  /** The display data for a band. */
  function InfoFor(band: RiskBand): (p: ProfileInfo)
    ensures p.profile == band
  {
    match band
    case Conservative => ConservativeInfo
    case ModeratelyConservative => ModeratelyConservativeInfo
    case Moderate => ModerateInfo
    case ModeratelyAggressive => ModeratelyAggressiveInfo
    case Aggressive => AggressiveInfo
  }

  /** The profile for a score total. */
  function ProfileForTotal(total: int): ProfileInfo
  {
    InfoFor(BandOf(total))
  }

  /** `getRiskProfileFromAnswers`. */
  function RiskProfileFromAnswers(answers: map<int, int>): (p: ProfileInfo)
    ensures p.profile == BandOf(AnswerTotal(answers))
    ensures p == InfoFor(p.profile)
  {
    ProfileForTotal(AnswerTotal(answers))
  }

  /** The real-valued thresholds are the integer bands 7, 12, 17 and 22 on the total. */
  lemma BandsByTotal(total: int)
    ensures ProfileForTotal(total).profile == Conservative <==> total <= 7
    ensures ProfileForTotal(total).profile == ModeratelyConservative <==> 8 <= total <= 12
    ensures ProfileForTotal(total).profile == Moderate <==> 13 <= total <= 17
    ensures ProfileForTotal(total).profile == ModeratelyAggressive <==> 18 <= total <= 22
    ensures ProfileForTotal(total).profile == Aggressive <==> total >= 23
  {
    var avgScore := total as real / 5.0;
    assert avgScore * 5.0 == total as real;
    assert avgScore <= 1.5 <==> total <= 7;
    assert avgScore <= 2.5 <==> total <= 12;
    assert avgScore <= 3.5 <==> total <= 17;
    assert avgScore <= 4.5 <==> total <= 22;
  }

  /** A higher total never gives a more conservative band. */
  lemma BandMonotone(t: int, u: int)
    requires t <= u
    ensures Rank(ProfileForTotal(t).profile) <= Rank(ProfileForTotal(u).profile)
  {
    BandsByTotal(t);
    BandsByTotal(u);
  }

  /** Every band's allocation is a split of 100 percent. */
  lemma AllocationComplete(band: RiskBand)
    ensures var a := InfoFor(band).allocation;
            a.stocks + a.bonds + a.cash == 100 && a.stocks >= 0 && a.bonds >= 0 && a.cash >= 0
  {
  }

  /** No answers score 0, which is the conservative band. */
  lemma EmptyIsConservative()
    ensures AnswerTotal(map[]) == 0
    ensures RiskProfileFromAnswers(map[]).profile == Conservative
  {
    assert TotalOver(map[], Questions) == 0 by { TotalOverEmpty(Questions); }
    BandsByTotal(0);
  }

  lemma {:induction false} TotalOverEmpty(qs: seq<Question>)
    ensures TotalOver(map[], qs) == 0
  {
    if qs != [] {
      TotalOverEmpty(qs[..|qs| - 1]);
    }
  }

  /** With each question answered by a score from 1 to 5 the total lies between |qs| and 5|qs|. */
  lemma {:induction false} TotalBounds(answers: map<int, int>, qs: seq<Question>)
    requires forall i :: 0 <= i < |qs| ==> qs[i].id in answers && 1 <= answers[qs[i].id] <= 5
    ensures |qs| <= TotalOver(answers, qs) <= 5 * |qs|
  {
    if qs != [] {
      TotalBounds(answers, qs[..|qs| - 1]);
    }
  }

  /** A complete set of answers totals 5 to 25. */
  lemma CompleteTotal(answers: map<int, int>)
    requires forall id :: 1 <= id <= 5 ==> id in answers && 1 <= answers[id] <= 5
    ensures 5 <= AnswerTotal(answers) <= 25
  {
    QuestionsShape();
    TotalBounds(answers, Questions);
  }

  /** The answers shown for a saved profile: its recorded answers, or none. */
  function DisplayProfile(saved: Option<RiskProfile>): ProfileInfo
  {
    RiskProfileFromAnswers(if saved.Some? then saved.value.answers else map[])
  }

  /** The profile saved on completion, for answers and a completion time. */
  function SavedProfile(answers: map<int, int>, completedAt: int): (p: RiskProfile)
    ensures p.answers == answers && p.score == AnswerTotal(answers)
    ensures p.profile == RiskProfileFromAnswers(answers).profile
  {
    var info := RiskProfileFromAnswers(answers);
    RiskProfile(info.profile, AnswerTotal(answers), answers, completedAt, info.expectedReturn, info.allocation, info.risk)
  }

  /** Re-banding a saved profile's answers for display gives back the saved band and allocation. */
  lemma DisplayMatchesSaved(answers: map<int, int>, completedAt: int)
    ensures DisplayProfile(Some(SavedProfile(answers, completedAt))).profile
              == SavedProfile(answers, completedAt).profile
    ensures DisplayProfile(Some(SavedProfile(answers, completedAt))).allocation
              == SavedProfile(answers, completedAt).allocation
  {
  }

  // ---------------------------------------------------------------------
  // The quiz state
  // ---------------------------------------------------------------------

  /** The ids of the first n questions. */
  function AnsweredIds(n: int): set<int>
  {
    if n <= 0 then {} else AnsweredIds(n - 1) + {n}
  }

  /** Answering question n+1 extends the ids of the first n. */
  lemma NextKeys(n: int)
    requires n >= 0
    ensures AnsweredIds(n + 1) == AnsweredIds(n) + {n + 1}
  {
  }

  /** The ids of the first n questions are 1 to n. */
  lemma {:induction false} AnsweredIdsRange(n: int, id: int)
    ensures id in AnsweredIds(n) <==> 1 <= id <= n
  {
    if n > 0 {
      AnsweredIdsRange(n - 1, id);
    }
  }

  class Quiz {
    var currentQuestion: int
    var answers: map<int, int>
    var isComplete: bool
    var showQuiz: bool

    /**
     * The question index stays within the five questions, and the answers are
     * keyed by exactly the questions answered so far: those before the current
     * one, and once complete all of them.
     */
    ghost predicate Valid()
      reads this
    {
      && 0 <= currentQuestion < |Questions|
      && (isComplete ==> currentQuestion == |Questions| - 1)
      && answers.Keys == AnsweredIds(if isComplete then |Questions| else currentQuestion)
    }

    /** A fresh quiz; it is shown when no profile has been saved. */
    constructor (hasSavedProfile: bool)
      ensures Valid()
      ensures currentQuestion == 0 && answers == map[] && !isComplete && showQuiz == !hasSavedProfile
    {
      currentQuestion := 0;
      answers := map[];
      isComplete := false;
      showQuiz := !hasSavedProfile;
    }

    /**
     * `handleAnswer`: record the score for the current question, move to the
     * next one, and after the last save the profile to the store.
     */
    method HandleAnswer(score: int, store: SettingsStore, now: int)
      requires Valid()
      modifies this, store
      ensures Valid()
      ensures answers == old(answers)[old(currentQuestion) + 1 := score]
      ensures old(currentQuestion) < |Questions| - 1 ==>
                currentQuestion == old(currentQuestion) + 1 && isComplete == old(isComplete)
                && store.riskProfile == old(store.riskProfile)
      ensures old(currentQuestion) == |Questions| - 1 ==>
                currentQuestion == old(currentQuestion) && isComplete
                && store.riskProfile == Some(SavedProfile(answers, now))
      ensures showQuiz == old(showQuiz)
      ensures store.interestRatePresets == old(store.interestRatePresets) && store.goals == old(store.goals)
    {
      QuestionId(currentQuestion);
      var newAnswers := answers[Questions[currentQuestion].id := score];
      answers := newAnswers;
      if currentQuestion < |Questions| - 1 {
        NextKeys(currentQuestion);
        currentQuestion := currentQuestion + 1;
      } else {
        NextKeys(currentQuestion);
        isComplete := true;
        var profile := SavedProfile(newAnswers, now);
        store.UpdateRiskProfile(profile);
      }
    }

    /** `resetQuiz`: back to the first question with no answers, quiz shown. */
    method ResetQuiz()
      modifies this
      ensures Valid()
      ensures currentQuestion == 0 && answers == map[] && !isComplete && showQuiz
    {
      currentQuestion := 0;
      answers := map[];
      isComplete := false;
      showQuiz := true;
    }

    /** `startQuiz` sets the same state as `resetQuiz`. */
    method StartQuiz()
      modifies this
      ensures Valid()
      ensures currentQuestion == 0 && answers == map[] && !isComplete && showQuiz
    {
      ResetQuiz();
    }
  }

  /** Once complete, the recorded answers cover every question. */
  lemma CompleteAnswersAll(answers: map<int, int>)
    requires answers.Keys == AnsweredIds(|Questions|)
    ensures forall id :: 1 <= id <= 5 ==> id in answers
  {
    forall id | 1 <= id <= 5
      ensures id in answers
    {
      AnsweredIdsRange(|Questions|, id);
    }
  }

  /** A completed quiz whose answers all came from the options saves a score from 5 to 25. */
  lemma SavedScoreBounds(answers: map<int, int>, completedAt: int)
    requires answers.Keys == AnsweredIds(|Questions|)
    requires forall id :: id in answers ==> 1 <= answers[id] <= 5
    ensures 5 <= SavedProfile(answers, completedAt).score <= 25
  {
    CompleteAnswersAll(answers);
    CompleteTotal(answers);
  }
}
