/** The template lock: what editing may do to answers already given, and what attachments may. */
module TaskTemplate {
  import opened Common
  import opened TaskStatus
  import opened TaskLifecycle
  import opened TaskRuns
  import V = Validator

  /* ---------- The invariant ---------- */

  predicate Asked(template: seq<V.Question>, id: Id) { exists q <- template :: q.id == id }

  ghost predicate AnswersAsked(s: State) {
    forall id | id in s.submissions :: forall a <- s.submissions[id].answers :: Asked(s.template, a.questionId)
  }

  ghost predicate ActiveAccepted(w: World, s: State) {
    forall id | id in s.submissions :: s.submissions[id].active ==> Accepts(w, s, s.submissions[id].answers)
  }

  predicate References(answers: seq<V.DtoAnswer>, i: nat, file: Id) {
    i < |answers| && answers[i].attachmentIds.Some? && file in answers[i].attachmentIds.value
  }

  /** An attachment belongs to an answer only if that answer was submitted with it. */
  ghost predicate OwnersReference(s: State) {
    forall f | f in s.owners ::
      && s.owners[f].submission in s.submissions
      && References(s.submissions[s.owners[f].submission].answers, s.owners[f].answer, f)
  }

  ghost predicate Locked(w: World, s: State) {
    V.DistinctQuestions(s.template) && AnswersAsked(s) && ActiveAccepted(w, s) && OwnersReference(s)
  }

  lemma {:induction false} ReownedCases(known: set<Id>, owners: map<Id, Owner>, id: Id, answers: seq<V.DtoAnswer>,
      k: nat, f: Id)
    requires k <= |answers| && f in Reowned(known, owners, id, answers, k)
    ensures var o := Reowned(known, owners, id, answers, k)[f];
            (f in owners && o == owners[f]) || (o.submission == id && References(answers, o.answer, f))
  {
    if k > 0 {
      var files := answers[k - 1].attachmentIds;
      if !(files.Some? && f in files.value && f in known) {
        ReownedCases(known, owners, id, answers, k - 1, f);
      }
    }
  }

  lemma AcceptedAsks(w: World, s: State, answers: seq<V.DtoAnswer>)
    requires Accepts(w, s, answers)
    ensures forall a <- answers :: Asked(s.template, a.questionId)
  {
  }

  /** The parts of a step that matter to the lock. */
  lemma SubmitEffect(w: World, s: State, user: Id, answers: seq<V.DtoAnswer>, id: Id)
    requires Submit(w, s, user, answers, id).Done?
    ensures var after := Submit(w, s, user, answers, id).state;
            && Accepts(w, s, answers) && after.template == s.template
            && after.submissions == s.submissions[id := NewSubmission(s, user, answers)]
            && after.owners == Reowned(w.files.Keys + w.retiredFiles, s.owners, id, answers, |answers|)
  {
  }

  /** Nothing the lock is about has grown: same template, owners and answers, no row reactivated. */
  ghost predicate KeepsContent(s: State, after: State) {
    && after.template == s.template && after.owners == s.owners
    && after.submissions.Keys == s.submissions.Keys
    && forall id | id in s.submissions ::
         && after.submissions[id].answers == s.submissions[id].answers
         && (after.submissions[id].active ==> s.submissions[id].active)
  }

  lemma ReviewKeeps(s: State, id: Id, version: nat, decision: Decision)
    ensures var reply := CommitReview(s, id, version, decision); reply.Done? ==> KeepsContent(s, reply.state)
  {
    hide Derived;
  }

  lemma RetireSubmissionKeeps(s: State, id: Id)
    ensures var reply := RetireSubmission(s, id); reply.Done? ==> KeepsContent(s, reply.state)
  {
    hide Derived;
  }

  lemma OtherEffect(w: World, s: State, step: Step)
    requires !step.DoSubmit? && !step.DoPutTemplate?
    ensures KeepsContent(s, Next(w, s, step))
  {
    hide Derived, ActiveUsers, CommitReview, RetireSubmission, Submit, PutTemplate;
    match step
    case DoReview(id, version, decision) => ReviewKeeps(s, id, version, decision);
    case DoRetireSubmission(id) => RetireSubmissionKeeps(s, id);
    case _ =>
  }

  lemma LockedSubmit(w: World, s: State, user: Id, answers: seq<V.DtoAnswer>, id: Id)
    requires Locked(w, s) && id !in s.submissions && Submit(w, s, user, answers, id).Done?
    ensures Locked(w, Submit(w, s, user, answers, id).state)
  {
    SubmitEffect(w, s, user, answers, id);
    AcceptedAsks(w, s, answers);
    var after := Submit(w, s, user, answers, id).state;
    hide Submit, Reowned;
    assert AnswersAsked(after);
    assert ActiveAccepted(w, after) by { hide V.Valid, V.ToValidatorAnswers, Asked; }
    forall f | f in after.owners
      ensures && after.owners[f].submission in after.submissions
              && References(after.submissions[after.owners[f].submission].answers, after.owners[f].answer, f)
    {
      ReownedCases(w.files.Keys + w.retiredFiles, s.owners, id, answers, |answers|, f);
    }
  }

  /** A template edit that goes through finds only retired submissions, all without answers. */
  lemma EditFindsNothing(w: World, s: State, questions: seq<V.Question>)
    requires Locked(w, s)
    ensures PutTemplate(s, questions).Done? <==>
              forall id | id in s.submissions :: !s.submissions[id].active && s.submissions[id].answers == []
  {
    if forall id | id in s.submissions :: !s.submissions[id].active && s.submissions[id].answers == [] {
    } else {
      var id :| id in s.submissions && !(!s.submissions[id].active && s.submissions[id].answers == []);
      if !s.submissions[id].active {
        var a := s.submissions[id].answers[0];
        assert a in s.submissions[id].answers;
        assert Asked(s.template, a.questionId);
        assert NamesQuestion(s.submissions[id].answers, s.template);
      }
    }
  }

  lemma LockedStep(w: World, t: Track, e: Event)
    requires Locked(w, t.s) && Enabled(t, e)
    ensures Locked(w, Happen(w, t, e).s)
  {
    if e.Does? && Respond(w, t.s, e.step).Done? {
      var step := e.step;
      if step.DoSubmit? {
        LockedSubmit(w, t.s, step.user, step.answers, step.id);
      } else if step.DoPutTemplate? {
        EditFindsNothing(w, t.s, step.questions);
        hide Accepts;
      } else {
        OtherEffect(w, t.s, step);
        hide Respond, V.Valid, V.ToValidatorAnswers, Asked;
      }
    }
  }

  lemma {:induction false} AlwaysLocked(w: World, t: Track, es: seq<Event>)
    requires Created(t) && Legal(w, t, es)
    ensures Locked(w, After(w, t, es).s)
  {
    hide Happen, Enabled;
    if es != [] {
      AlwaysLocked(w, t, Init(es));
      hide Locked;
      LockedStep(w, After(w, t, Init(es)), Last(es));
    }
  }

  /**
   * In every reachable task, validating the answers that an active submission was submitted with
   * against the task's current template succeeds.
   */
  lemma TemplateLock(w: World, t: Track, es: seq<Event>, id: Id)
    requires Created(t) && Legal(w, t, es)
    requires var s := After(w, t, es).s; id in s.submissions && s.submissions[id].active
    ensures Accepts(w, After(w, t, es).s, After(w, t, es).s.submissions[id].answers)
  {
    hide V.Valid, V.ToValidatorAnswers;
    AlwaysLocked(w, t, es);
  }

  /**
   * In a reachable task the template can be edited exactly when every submission has been retired
   * and was submitted without a single answer: answer rows outlive the retirement.
   */
  lemma TemplateEditableIff(w: World, t: Track, es: seq<Event>, questions: seq<V.Question>)
    requires Created(t) && Legal(w, t, es)
    ensures var s := After(w, t, es).s;
            PutTemplate(s, questions).Done? <==>
            forall id | id in s.submissions :: !s.submissions[id].active && s.submissions[id].answers == []
  {
    AlwaysLocked(w, t, es);
    EditFindsNothing(w, After(w, t, es).s, questions);
  }

  /* ---------- What the database still holds of a submission ---------- */

  function Owned(s: State, id: Id, i: nat): set<Id> { set f | f in s.owners && s.owners[f] == Owner(id, i) }

  /** The answer rows of a submission as they read back, each with the attachments it still owns. */
  ghost predicate ReadsBack(s: State, id: Id, stored: seq<V.DtoAnswer>)
    requires id in s.submissions
  {
    var answers := s.submissions[id].answers;
    && |stored| == |answers|
    && forall i | 0 <= i < |stored| ::
         && stored[i] == answers[i].(attachmentIds := stored[i].attachmentIds)
         && stored[i].attachmentIds.Some?
         && multiset(stored[i].attachmentIds.value) == multiset(Owned(s, id, i))
  }

  /** The position of the answer that counts for a question. */
  function LastIndex(answers: seq<V.DtoAnswer>, id: Id): (r: Option<nat>)
    ensures r.Some? ==> r.value < |answers| && answers[r.value].questionId == id
  {
    if answers == [] then None
    else if Last(answers).questionId == id then Some(|answers| - 1)
    else LastIndex(Init(answers), id)
  }

  lemma {:induction false} LastAnswerAt(typed: seq<V.Answer>, answers: seq<V.DtoAnswer>, id: Id)
    requires |typed| == |answers|
    requires forall i | 0 <= i < |answers| :: typed[i].questionId == answers[i].questionId
    ensures var k := LastIndex(answers, id);
            V.LastAnswer(typed, id) == if k.Some? then Some(typed[k.value]) else None
  {
    if answers != [] {
      assert Last(typed) == typed[|answers| - 1];
      if Last(answers).questionId != id {
        LastAnswerAt(Init(typed), Init(answers), id);
      }
    }
  }

  lemma {:induction false} SameQuestions(a: seq<V.DtoAnswer>, b: seq<V.DtoAnswer>, id: Id)
    requires |a| == |b| && forall i | 0 <= i < |a| :: a[i].questionId == b[i].questionId
    ensures LastIndex(a, id) == LastIndex(b, id)
  {
    if a != [] {
      SameQuestions(Init(a), Init(b), id);
    }
  }

  lemma {:induction false} FewerThanListed(s: seq<Id>, fs: set<Id>)
    requires forall f | f in fs :: f in s
    ensures |fs| <= |s|
  {
    if s != [] {
      assert s == Init(s) + [Last(s)];
      var rest := fs - {Last(s)};
      FewerThanListed(Init(s), rest);
      assert fs <= rest + {Last(s)};
      if Last(s) in fs {
        assert fs == rest + {Last(s)};
      } else {
        assert fs == rest;
      }
    } else {
      assert fs == {};
    }
  }

  /** The required attachment question whose counting answer no longer owns a file. */
  ghost predicate LostItsFiles(s: State, id: Id, q: V.Question)
    requires id in s.submissions
  {
    && q.required && q.kind.Attachment?
    && var k := LastIndex(s.submissions[id].answers, q.id);
    k.None? || Owned(s, id, k.value) == {}
  }

  /** One answer, typed, before and after: only the files of an attachment question can differ. */
  lemma AnswerReadsBack(w: World, s: State, id: Id, stored: seq<V.DtoAnswer>, q: V.Question, k: nat)
    requires id in s.submissions && ReadsBack(s, id, stored) && k < |stored|
    requires s.submissions[id].answers[k].questionId == q.id && V.KindOf(s.template, q.id) == Some(q.kind)
    ensures var before := V.ToValidatorAnswers(w.coercions, s.template, s.submissions[id].answers)[k];
            var after := V.ToValidatorAnswers(w.coercions, s.template, stored)[k];
            if q.kind.Attachment?
            then before.attachmentIds == s.submissions[id].answers[k].attachmentIds
                && after.attachmentIds == stored[k].attachmentIds
            else after == before
  {
  }

  /** One question: reading back changes the verdict only if its files have been taken away. */
  lemma QuestionReadsBack(w: World, s: State, id: Id, stored: seq<V.DtoAnswer>, q: V.Question)
    requires Locked(w, s) && id in s.submissions && ReadsBack(s, id, stored) && q in s.template
    requires var typed := V.ToValidatorAnswers(w.coercions, s.template, s.submissions[id].answers);
             V.QuestionSatisfied(q, V.LastAnswer(typed, q.id), Lookup(w))
    ensures var typed := V.ToValidatorAnswers(w.coercions, s.template, stored);
            V.QuestionSatisfied(q, V.LastAnswer(typed, q.id), Lookup(w)) <==> !LostItsFiles(s, id, q)
  {
    hide OwnersReference, AnswersAsked, ActiveAccepted, V.ToValidatorAnswers, V.Meets, V.KindOf;
    var answers := s.submissions[id].answers;
    var before := V.ToValidatorAnswers(w.coercions, s.template, answers);
    var after := V.ToValidatorAnswers(w.coercions, s.template, stored);
    V.KindOfQuestion(s.template, q);
    LastAnswerAt(before, answers, q.id);
    LastAnswerAt(after, stored, q.id);
    SameQuestions(answers, stored, q.id);
    var k := LastIndex(answers, q.id);
    if k.Some? {
      AnswerReadsBack(w, s, id, stored, q, k.value);
      if q.kind.Attachment? {
        StoredFiles(w, s, id, stored, k.value);
        hide V.Unanswered, V.QuestionSatisfied;
        AttachmentVerdict(q, Lookup(w), before[k.value], after[k.value]);
        EmptyFiles(stored[k.value].attachmentIds.value, Owned(s, id, k.value));
      }
    }
  }

  lemma EmptyFiles(files: seq<Id>, owned: set<Id>)
    requires multiset(files) == multiset(owned)
    ensures files == [] <==> owned == {}
  {
  }

  /** The files that read back are among those submitted, each at most once. */
  lemma StoredFiles(w: World, s: State, id: Id, stored: seq<V.DtoAnswer>, i: nat)
    requires Locked(w, s) && id in s.submissions && ReadsBack(s, id, stored) && i < |stored|
    ensures var was := s.submissions[id].answers[i].attachmentIds;
            var listed := if was.Some? then was.value else [];
            && |stored[i].attachmentIds.value| <= |listed|
            && forall f <- stored[i].attachmentIds.value :: f in listed
  {
    hide AnswersAsked, ActiveAccepted;
    var was := s.submissions[id].answers[i].attachmentIds;
    var listed := if was.Some? then was.value else [];
    var files, owned := stored[i].attachmentIds.value, Owned(s, id, i);
    assert |multiset(files)| == |files| && |multiset(owned)| == |owned|;
    forall f | f in owned ensures f in listed {
      assert References(s.submissions[id].answers, i, f);
    }
    FewerThanListed(listed, owned);
    forall f | f in files ensures f in listed {
      assert f in multiset(files);
      assert f in owned;
    }
  }

  /** An attachment question keeps its verdict when files are dropped, unless none is left where one is required. */
  lemma AttachmentVerdict(q: V.Question, lookup: Id -> Option<V.Meta>, before: V.Answer, after: V.Answer)
    requires q.kind.Attachment? && V.QuestionSatisfied(q, Some(before), lookup)
    requires after.attachmentIds.Some?
    requires var listed := if before.attachmentIds.Some? then before.attachmentIds.value else [];
             |after.attachmentIds.value| <= |listed| && forall f <- after.attachmentIds.value :: f in listed
    ensures V.QuestionSatisfied(q, Some(after), lookup) <==> !(q.required && after.attachmentIds.value == [])
  {
  }

  /**
   * What re-validating the stored rows of an active submission says, exactly: it succeeds if and
   * only if every required attachment question's answer still owns a file.
   */
  lemma StoredStillValidIff(w: World, t: Track, es: seq<Event>, id: Id, stored: seq<V.DtoAnswer>)
    requires Created(t) && Legal(w, t, es)
    requires var s := After(w, t, es).s;
             id in s.submissions && s.submissions[id].active && ReadsBack(s, id, stored)
    ensures var s := After(w, t, es).s;
            Accepts(w, s, stored) <==> forall q <- s.template :: !LostItsFiles(s, id, q)
  {
    AlwaysLocked(w, t, es);
    var s := After(w, t, es).s;
    StoredVerdict(w, s, id, stored);
  }

  lemma StoredVerdict(w: World, s: State, id: Id, stored: seq<V.DtoAnswer>)
    requires Locked(w, s) && id in s.submissions && s.submissions[id].active && ReadsBack(s, id, stored)
    ensures Accepts(w, s, stored) <==> forall q <- s.template :: !LostItsFiles(s, id, q)
  {
    assert Accepts(w, s, s.submissions[id].answers);
    StoredAsked(w, s, id, stored);
    var typed := V.ToValidatorAnswers(w.coercions, s.template, stored);
    forall q | q in s.template
      ensures V.QuestionSatisfied(q, V.LastAnswer(typed, q.id), Lookup(w)) <==> !LostItsFiles(s, id, q)
    {
      QuestionReadsBack(w, s, id, stored, q);
    }
    hide V.QuestionSatisfied, V.LastAnswer, V.ToValidatorAnswers, LostItsFiles, ReadsBack, Locked;
  }

  lemma StoredAsked(w: World, s: State, id: Id, stored: seq<V.DtoAnswer>)
    requires Locked(w, s) && id in s.submissions && ReadsBack(s, id, stored)
    ensures forall a <- V.ToValidatorAnswers(w.coercions, s.template, stored) :: exists q <- s.template ::
            q.id == a.questionId
  {
  }

  /** The attachments that a submit references belong to it afterwards. */
  lemma {:induction false} ReferencesAreOwned(known: set<Id>, owners: map<Id, Owner>, id: Id,
      answers: seq<V.DtoAnswer>, k: nat, i: nat, f: Id)
    requires i < k <= |answers| && References(answers, i, f) && f in known
    ensures var after := Reowned(known, owners, id, answers, k); f in after && after[f].submission == id
  {
    if i < k - 1 {
      ReferencesAreOwned(known, owners, id, answers, k - 1, i, f);
    }
  }

  /** A resubmission with the same files takes them from the version it answers. */
  lemma ResubmittingTakesFiles(w: World, s: State, user: Id, answers: seq<V.DtoAnswer>, id: Id, older: Id,
      q: V.Question, k: nat)
    requires Locked(w, s) && id !in s.submissions && Submit(w, s, user, answers, id).Done?
    requires older in s.submissions && q in s.template && q.required && q.kind.Attachment?
    requires LastIndex(s.submissions[older].answers, q.id) == Some(k)
    requires forall f | f in Owned(s, older, k) ::
               f in w.files.Keys + w.retiredFiles && exists i: nat :: References(answers, i, f)
    ensures LostItsFiles(Submit(w, s, user, answers, id).state, older, q)
  {
    SubmitEffect(w, s, user, answers, id);
    var after := Submit(w, s, user, answers, id).state;
    hide Submit, Reowned, Locked;
    forall f | f in Owned(after, older, k) ensures false {
      ReownedCases(w.files.Keys + w.retiredFiles, s.owners, id, answers, |answers|, f);
      assert f in Owned(s, older, k);
      var i: nat :| References(answers, i, f);
      ReferencesAreOwned(w.files.Keys + w.retiredFiles, s.owners, id, answers, |answers|, i, f);
    }
    assert Owned(after, older, k) == {};
  }
}
