/** The mock-interview session of `backend/routes/interview.py`: a session is
    started with question 1, each submitted answer is evaluated and (below the
    fifth question) followed by the next question, and completing the session
    stores the mean score over the answered questions exactly once. The
    session row and its question rows become one object whose `qas` field
    lists the question rows in insertion order. The language-model texts (the
    generated questions, the evaluator's answer, the final feedback) and the
    clock are parameters. */
module InterviewSessions {
  import opened Wrappers
  import opened Text
  import opened Sorting
  import opened InterviewAI

  const MaxQuestions: int := 5
  const JobSeeker: string := "job_seeker"
  const InterviewTypes: seq<string> := ["HR", "Technical", "Behavioral"]

  /** One question row: its number, the question, and once submitted the
      answer and the stored evaluation. */
  datatype QA = QA(number: int, question: string, answer: Option<string>, evaluation: Option<Evaluation>)

  /** Question rows as the routes keep them: question 1 is the first row,
      every later row carries a number between 2 and the maximum. */
  predicate WellNumbered(qas: seq<QA>) {
    && |qas| >= 1
    && qas[0].number == 1
    && forall k :: 1 <= k < |qas| ==> 2 <= qas[k].number <= MaxQuestions
  }

  // ---------------------------------------------------------------- lookups

  /** `filter_by(question_number=n).first()`: the earliest row with number `n`. */
  function FirstWithNumber(qas: seq<QA>, n: int): (r: Option<nat>)
    ensures r.Some? ==> r.value < |qas| && qas[r.value].number == n
    ensures r.Some? ==> forall k :: 0 <= k < r.value ==> qas[k].number != n
    ensures r.None? ==> forall k :: 0 <= k < |qas| ==> qas[k].number != n
    decreases |qas|
  {
    if |qas| == 0 then None
    else if qas[0].number == n then Some(0)
    else match FirstWithNumber(qas[1..], n)
      case Some(k) => Some(k + 1)
      case None => None
  }

  /** The sort key of `order_by(question_number)`: ascending numbers are
      descending negated numbers. */
  function NegNumber(q: QA): real { -(q.number as real) }

  /** The question rows ordered by number, ties in insertion order. */
  function ByNumber(qas: seq<QA>): seq<QA> {
    SortDesc(qas, NegNumber)
  }

  /** Question 1 heads the ordered list, so `qa_list[0]` is the first row. */
  lemma QuestionOneFirst(qas: seq<QA>)
    requires WellNumbered(qas)
    ensures |ByNumber(qas)| == |qas|
    ensures ByNumber(qas)[0] == qas[0]
  {
    var s := ByNumber(qas);
    SortDescSortedPermutation(qas, NegNumber);
    assert qas[0] in multiset(qas);
    assert qas[0] in s;
    var j :| 0 <= j < |s| && s[j] == qas[0];
    assert NegNumber(s[0]) >= NegNumber(s[j]);
    assert s[0] in multiset(s);
    assert s[0] in qas;
    var i :| 0 <= i < |qas| && qas[i] == s[0];
    assert qas[i].number <= 1;
    assert i == 0;
  }

  // ---------------------------------------------------------------- scores

  /** A row counts towards the mean when its answer is non-empty. */
  predicate IsAnswered(q: QA) { Truthy(q.answer) }

  /** `float(qa.score) if qa.score else 0`: a missing score counts as 0 (a
      stored 0 is 0 either way). */
  function ScoreOf(q: QA): real {
    match q.evaluation
    case Some(e) => e.score
    case None => 0.0
  }

  function AnsweredCount(qs: seq<QA>): (n: nat)
    ensures n <= |qs|
    decreases |qs|
  {
    if |qs| == 0 then 0 else (if IsAnswered(qs[0]) then 1 else 0) + AnsweredCount(qs[1..])
  }

  function AnsweredTotal(qs: seq<QA>): real
    decreases |qs|
  {
    if |qs| == 0 then 0.0 else (if IsAnswered(qs[0]) then ScoreOf(qs[0]) else 0.0) + AnsweredTotal(qs[1..])
  }

  /** `total_score / answered_count`. */
  function Mean(qs: seq<QA>): real
    requires AnsweredCount(qs) > 0
  {
    AnsweredTotal(qs) / AnsweredCount(qs) as real
  }

  lemma {:induction false} AnsweredAppend(a: seq<QA>, b: seq<QA>)
    ensures AnsweredCount(a + b) == AnsweredCount(a) + AnsweredCount(b)
    ensures AnsweredTotal(a + b) == AnsweredTotal(a) + AnsweredTotal(b)
    decreases |a|
  {
    if |a| == 0 {
      assert a + b == b;
    } else {
      assert (a + b)[1..] == a[1..] + b;
      AnsweredAppend(a[1..], b);
    }
  }

  /** Where the first row of `a` sits in its permutation `b`, and what is left. */
  lemma PermutationHead(a: seq<QA>, b: seq<QA>) returns (i: nat)
    requires multiset(a) == multiset(b) && |a| > 0
    ensures i < |b| && b[i] == a[0]
    ensures multiset(a[1..]) == multiset(b[..i] + b[i + 1..])
  {
    assert a[0] in multiset(b);
    i :| 0 <= i < |b| && b[i] == a[0];
    assert b == b[..i] + [b[i]] + b[i + 1..];
    assert multiset(b) == multiset(b[..i] + b[i + 1..]) + multiset{a[0]};
    assert multiset(b[..i] + b[i + 1..]) == multiset(b[..i]) + multiset(b[i + 1..]);
    assert a == [a[0]] + a[1..];
    assert multiset(a) == multiset(a[1..]) + multiset{a[0]};
    assert multiset(a[1..]) == multiset(a) - multiset{a[0]};
  }

  /** Taking row `i` out of `b` takes its contribution out of the tallies. */
  lemma AnsweredRemove(b: seq<QA>, i: nat)
    requires i < |b|
    ensures AnsweredCount(b) == AnsweredCount(b[..i] + b[i + 1..]) + (if IsAnswered(b[i]) then 1 else 0)
    ensures AnsweredTotal(b) == AnsweredTotal(b[..i] + b[i + 1..]) + (if IsAnswered(b[i]) then ScoreOf(b[i]) else 0.0)
  {
    var head, tail := b[..i], b[i..];
    assert b == head + tail;
    assert tail[0] == b[i] && tail[1..] == b[i + 1..];
    AnsweredAppend(head, tail);
    AnsweredAppend(head, b[i + 1..]);
  }

  /** The tallies depend only on which rows there are, not on their order. */
  lemma {:induction false} AnsweredPermutation(a: seq<QA>, b: seq<QA>)
    requires multiset(a) == multiset(b)
    ensures AnsweredCount(a) == AnsweredCount(b)
    ensures AnsweredTotal(a) == AnsweredTotal(b)
    decreases |a|
  {
    if |a| == 0 {
      assert |b| == |multiset(b)| == 0;
    } else {
      var i := PermutationHead(a, b);
      AnsweredPermutation(a[1..], b[..i] + b[i + 1..]);
      AnsweredRemove(b, i);
    }
  }

  /** Ordering the rows by number puts question 1 first and leaves the
      tallies as they are. */
  lemma OrderingKeepsTally(qas: seq<QA>)
    requires WellNumbered(qas)
    ensures |ByNumber(qas)| == |qas| && ByNumber(qas)[0] == qas[0]
    ensures AnsweredCount(ByNumber(qas)) == AnsweredCount(qas)
    ensures AnsweredTotal(ByNumber(qas)) == AnsweredTotal(qas)
  {
    QuestionOneFirst(qas);
    SortDescSortedPermutation(qas, NegNumber);
    AnsweredPermutation(ByNumber(qas), qas);
  }

  /** An answered row makes the mean defined. */
  lemma {:induction false} AnsweredCountPositive(qs: seq<QA>, k: nat)
    requires k < |qs| && IsAnswered(qs[k])
    ensures AnsweredCount(qs) > 0
    decreases k
  {
    if k > 0 {
      AnsweredCountPositive(qs[1..], k - 1);
    }
  }

  /** With every answered score on the evaluator's 0..10 scale, so is the mean. */
  lemma MeanWithinScale(qs: seq<QA>)
    requires AnsweredCount(qs) > 0
    requires forall k :: 0 <= k < |qs| && IsAnswered(qs[k]) ==> 0.0 <= ScoreOf(qs[k]) <= 10.0
    ensures 0.0 <= Mean(qs) <= 10.0
  {
    TotalWithinScale(qs);
    ScaleBound(AnsweredTotal(qs), AnsweredCount(qs) as real);
  }

  lemma ScaleBound(t: real, c: real)
    requires c > 0.0 && 0.0 <= t <= 10.0 * c
    ensures 0.0 <= t / c <= 10.0
  {
    var q := t / c;
    assert q * c == t;
  }

  lemma {:induction false} TotalWithinScale(qs: seq<QA>)
    requires forall k :: 0 <= k < |qs| && IsAnswered(qs[k]) ==> 0.0 <= ScoreOf(qs[k]) <= 10.0
    ensures 0.0 <= AnsweredTotal(qs) <= 10.0 * AnsweredCount(qs) as real
    decreases |qs|
  {
    if |qs| > 0 {
      assert forall k :: 0 <= k < |qs[1..]| && IsAnswered(qs[1..][k]) ==> 0.0 <= ScoreOf(qs[1..][k]) <= 10.0 by {
        forall k | 0 <= k < |qs[1..]| && IsAnswered(qs[1..][k])
          ensures 0.0 <= ScoreOf(qs[1..][k]) <= 10.0
        {
          assert qs[1..][k] == qs[k + 1];
        }
      }
      TotalWithinScale(qs[1..]);
    }
  }

  /** The loop of `complete_interview` over the ordered rows: the sum of the
      answered rows' scores and the number of answered rows. */
  method TallyAnswered(qaList: seq<QA>) returns (total: real, answeredCount: nat)
    ensures total == AnsweredTotal(qaList)
    ensures answeredCount == AnsweredCount(qaList)
  {
    total := 0.0;
    answeredCount := 0;
    for i := 0 to |qaList|
      invariant total == AnsweredTotal(qaList[..i])
      invariant answeredCount == AnsweredCount(qaList[..i])
    {
      AnsweredAppend(qaList[..i], [qaList[i]]);
      assert qaList[..i + 1] == qaList[..i] + [qaList[i]];
      assert [qaList[i]][1..] == [];
      if IsAnswered(qaList[i]) {
        total := total + ScoreOf(qaList[i]);
        answeredCount := answeredCount + 1;
      }
    }
    assert qaList[..|qaList|] == qaList;
  }

  // ---------------------------------------------------------------- outcomes

  datatype StartError = NotJobSeeker | MissingFields | InvalidInterviewType | NoResume
  datatype SubmitError = SubmitMissingFields | SubmitSessionNotFound | QuestionNotFound
  datatype CompleteError = CompleteSessionNotFound | AlreadyCompleted | NoAnswers

  /** The answer's evaluation and, below the last question, the next question;
      without one the response says the interview is complete. */
  datatype SubmitOutcome = SubmitOutcome(evaluation: Evaluation, next: Option<(int, string)>) {
    predicate InterviewComplete() { next.None? }
  }

  datatype Completion = Completion(overallScore: real, performanceLevel: string, feedback: string, questionsAnswered: nat)

  /** `if not skills`: no resume, or one without skills. */
  predicate HasSkills(resume: Option<ActiveResume>) {
    var skills := GetUserProfile(resume).0;
    skills.Some? && |skills.value| > 0
  }

  /** The row of question `k` after its answer and evaluation are stored. */
  function Answered(qas: seq<QA>, k: nat, answer: string, e: Evaluation): (r: seq<QA>)
    requires k < |qas|
    ensures |r| == |qas|
    ensures forall i :: 0 <= i < |qas| ==> r[i].number == qas[i].number && r[i].question == qas[i].question
    ensures r[k].answer == Some(answer) && r[k].evaluation == Some(e)
    ensures forall i :: 0 <= i < |qas| && i != k ==> r[i] == qas[i]
  {
    qas[k := qas[k].(answer := Some(answer), evaluation := Some(e))]
  }

  /** `generate_next = question_number < max_questions`: the number and text
      of the question asked next, if any. */
  function NextQuestion(n: int, question: string): (r: Option<(int, string)>)
    ensures r.Some? <==> n < MaxQuestions
    ensures r.Some? ==> r.value == (n + 1, question)
  {
    if n < MaxQuestions then Some((n + 1, question)) else None
  }

  /** The question rows after the answer to row `k` is stored and, below the
      last question, the next question is added. */
  function AfterSubmit(qas: seq<QA>, k: nat, answer: string, e: Evaluation, nextQuestion: string): seq<QA>
    requires k < |qas|
  {
    Answered(qas, k, answer, e)
      + (match NextQuestion(qas[k].number, nextQuestion)
         case Some((n, q)) => [QA(n, q, None, None)]
         case None => [])
  }

  /** Submitting keeps question 1 first and every number within 1..5, and the
      last row is the next question when one is asked. */
  lemma SubmitKeepsNumbering(qas: seq<QA>, k: nat, answer: string, e: Evaluation, nextQuestion: string)
    requires WellNumbered(qas) && k < |qas|
    ensures WellNumbered(AfterSubmit(qas, k, answer, e, nextQuestion))
    ensures var r := AfterSubmit(qas, k, answer, e, nextQuestion);
      r[|r| - 1].number == (if qas[k].number < MaxQuestions then qas[k].number + 1 else qas[|qas| - 1].number)
    ensures |AfterSubmit(qas, k, answer, e, nextQuestion)| == |qas| + (if qas[k].number < MaxQuestions then 1 else 0)
  {
  }

  // ---------------------------------------------------------------- the session

  class InterviewSession {
    const userId: int
    const jobRole: string
    const interviewType: string
    const difficulty: Option<Level>
    var totalQuestions: int
    var qas: seq<QA>
    var endTime: Option<int>
    var overallScore: Option<real>
    var performanceLevel: Option<string>
    var feedbackSummary: Option<string>

    /** Questions are numbered 1..5 and `total_questions` is the number of the
        question generated last. */
    ghost predicate Valid()
      reads this
    {
      WellNumbered(qas) && totalQuestions == qas[|qas| - 1].number
    }

    /** The row as first inserted, before its first question. */
    constructor (userId: int, jobRole: string, interviewType: string, difficulty: Option<Level>)
      ensures this.userId == userId && this.jobRole == jobRole
      ensures this.interviewType == interviewType && this.difficulty == difficulty
      ensures totalQuestions == 0 && qas == []
      ensures endTime.None? && overallScore.None? && performanceLevel.None? && feedbackSummary.None?
    {
      this.userId := userId;
      this.jobRole := jobRole;
      this.interviewType := interviewType;
      this.difficulty := difficulty;
      totalQuestions := 0;
      qas := [];
      endTime := None;
      overallScore := None;
      performanceLevel := None;
      feedbackSummary := None;
    }

    /** `start_interview`: `role` is the caller's role (None when the user
        does not exist), `jobRole`/`interviewType` the request fields (None
        when absent) and `question` the first generated question. */
    static method Start(role: Option<string>, userId: int, jobRole: Option<string>, interviewType: Option<string>,
                        resume: Option<ActiveResume>, question: string)
      returns (r: Result<InterviewSession, StartError>)
      ensures role != Some(JobSeeker) ==> r == Failure(NotJobSeeker)
      ensures role == Some(JobSeeker) && (jobRole.None? || interviewType.None?) ==> r == Failure(MissingFields)
      ensures (role == Some(JobSeeker) && jobRole.Some? && interviewType.Some? && interviewType.value !in InterviewTypes)
        ==> r == Failure(InvalidInterviewType)
      ensures (role == Some(JobSeeker) && jobRole.Some? && interviewType.Some? && interviewType.value in InterviewTypes
               && !HasSkills(resume))
        ==> r == Failure(NoResume)
      ensures r.Success? <==>
        && role == Some(JobSeeker) && jobRole.Some? && interviewType.Some?
        && interviewType.value in InterviewTypes && HasSkills(resume)
      ensures r.Success? ==> fresh(r.value) && r.value.Valid()
      ensures r.Success? ==>
        && r.value.userId == userId && r.value.jobRole == jobRole.value
        && r.value.interviewType == interviewType.value && r.value.difficulty == GetUserProfile(resume).1
      ensures r.Success? ==> r.value.qas == [QA(1, question, None, None)] && r.value.totalQuestions == 1
      ensures r.Success? ==> r.value.endTime.None? && r.value.overallScore.None?
    {
      if role != Some(JobSeeker) {
        return Failure(NotJobSeeker);
      }
      if jobRole.None? || interviewType.None? {
        return Failure(MissingFields);
      }
      if interviewType.value !in InterviewTypes {
        return Failure(InvalidInterviewType);
      }
      var (skills, level) := GetUserProfile(resume);
      if skills.None? || |skills.value| == 0 {
        return Failure(NoResume);
      }
      var session := new InterviewSession(userId, jobRole.value, interviewType.value, level);
      session.qas := session.qas + [QA(1, question, None, None)];
      session.totalQuestions := 1;
      return Success(session);
    }

    /** `submit_answer`: `sessionIdGiven` says whether the request carries
        `session_id`, and `questionNumber`/`answer` are the request fields
        (None when absent); `evaluation` is what the interview service's
        `evaluate_answer` returns (the evaluator's reply read by
        `InterviewAI.ParseEvaluation`), and `nextQuestion` the question the
        generator returns when one is asked for. The session's end time is
        not consulted. */
    method SubmitAnswer(userId: int, sessionIdGiven: bool, questionNumber: Option<int>, answer: Option<string>,
                        evaluation: Evaluation, nextQuestion: string)
      returns (r: Result<SubmitOutcome, SubmitError>)
      requires Valid()
      modifies this
      ensures Valid()
      ensures endTime == old(endTime) && overallScore == old(overallScore)
      ensures performanceLevel == old(performanceLevel) && feedbackSummary == old(feedbackSummary)
      ensures !sessionIdGiven || questionNumber.None? || answer.None? ==> r == Failure(SubmitMissingFields)
      ensures sessionIdGiven && questionNumber.Some? && answer.Some? && userId != this.userId
        ==> r == Failure(SubmitSessionNotFound)
      ensures sessionIdGiven && questionNumber.Some? && answer.Some? && userId == this.userId
              && FirstWithNumber(old(qas), questionNumber.value).None?
        ==> r == Failure(QuestionNotFound)
      ensures r.Failure? ==> qas == old(qas) && totalQuestions == old(totalQuestions)
      ensures r.Success? <==>
        && sessionIdGiven && questionNumber.Some? && answer.Some?
        && userId == this.userId && FirstWithNumber(old(qas), questionNumber.value).Some?
      ensures r.Success? ==>
        var n := questionNumber.value;
        && qas == AfterSubmit(old(qas), FirstWithNumber(old(qas), n).value, answer.value,
                              evaluation, nextQuestion)
        && totalQuestions == (if n < MaxQuestions then n + 1 else old(totalQuestions))
        && r.value == SubmitOutcome(evaluation, NextQuestion(n, nextQuestion))
    {
      if !sessionIdGiven || questionNumber.None? || answer.None? {
        return Failure(SubmitMissingFields);
      }
      if userId != this.userId {
        return Failure(SubmitSessionNotFound);
      }
      var n := questionNumber.value;
      var found := FirstWithNumber(qas, n);
      if found.None? {
        return Failure(QuestionNotFound);
      }
      var k := found.value;
      SubmitKeepsNumbering(qas, k, answer.value, evaluation, nextQuestion);
      qas := Answered(qas, k, answer.value, evaluation);
      var next: Option<(int, string)> := None;
      if n < MaxQuestions {
        qas := qas + [QA(n + 1, nextQuestion, None, None)];
        totalQuestions := n + 1;
        next := Some((n + 1, nextQuestion));
      }
      return Success(SubmitOutcome(evaluation, next));
    }

    /** `complete_interview`: `feedbackText` is the final-feedback reply and
        `now` the completion time. The mean is taken over the answered rows
        in question order. */
    method Complete(userId: int, now: int, feedbackText: string) returns (r: Result<Completion, CompleteError>)
      requires Valid()
      modifies this
      ensures Valid() && qas == old(qas) && totalQuestions == old(totalQuestions)
      ensures userId != this.userId ==> r == Failure(CompleteSessionNotFound)
      ensures userId == this.userId && old(endTime).Some? ==> r == Failure(AlreadyCompleted)
      ensures userId == this.userId && old(endTime).None? && !IsAnswered(qas[0]) ==> r == Failure(NoAnswers)
      ensures r.Failure? ==> unchanged(this)
      ensures r.Success? <==> userId == this.userId && old(endTime).None? && IsAnswered(qas[0])
      ensures r.Success? ==> AnsweredCount(qas) > 0
      ensures r.Success? ==>
        && endTime == Some(now)
        && overallScore == Some(Mean(qas))
        && performanceLevel == Some(PerformanceLevel(feedbackText))
        && feedbackSummary == Some(feedbackText)
        && r.value == Completion(Mean(qas), PerformanceLevel(feedbackText), feedbackText, AnsweredCount(qas))
    {
      if userId != this.userId {
        return Failure(CompleteSessionNotFound);
      }
      if endTime.Some? {
        return Failure(AlreadyCompleted);
      }
      var qaList := ByNumber(qas);
      OrderingKeepsTally(qas);
      if |qaList| == 0 || !IsAnswered(qaList[0]) {
        return Failure(NoAnswers);
      }
      var total, answeredCount := TallyAnswered(qaList);
      AnsweredCountPositive(qas, 0);
      var level := PerformanceLevel(feedbackText);
      endTime := Some(now);
      overallScore := Some(total / answeredCount as real);
      performanceLevel := Some(level);
      feedbackSummary := Some(feedbackText);
      return Success(Completion(total / answeredCount as real, level, feedbackText, answeredCount));
    }
  }

  /** Completing twice: the second call is refused and leaves the stored
      result as the first call left it. */
  method CompleteTwice(session: InterviewSession, userId: int, first: int, second: int, feedbackText: string)
    returns (r1: Result<Completion, CompleteError>, r2: Result<Completion, CompleteError>)
    requires session.Valid()
    modifies session
    ensures r1.Success? ==> r2 == Failure(AlreadyCompleted) && session.endTime == Some(first)
    ensures r1.Success? ==>
      && session.overallScore == Some(r1.value.overallScore)
      && session.performanceLevel == Some(r1.value.performanceLevel)
      && session.feedbackSummary == Some(r1.value.feedback)
  {
    r1 := session.Complete(userId, first, feedbackText);
    r2 := session.Complete(userId, second, feedbackText);
  }
}
