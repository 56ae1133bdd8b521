/** A run after which no submission is active and the template still cannot be replaced. */
module RetiredAnswers {
  import opened Common
  import opened TaskStatus
  import opened TaskLifecycle
  import opened TaskRuns
  import opened ResubmittedFiles
  import TaskResults
  import V = Validator

  /** The only submission has been retired; its answer row is still there. */
  ghost predicate OnlyRetired(s: State) {
    && s.template == [PHOTO] && s.submissions.Keys == {"s1"}
    && !s.submissions["s1"].active && s.submissions["s1"].answers == SENT
  }

  lemma Retired(w: World, t: Track)
    requires Sent(t.s, SubmissionState.Review, 0)
    ensures var e := Does(DoRetireSubmission("s1")); Enabled(t, e) && OnlyRetired(Happen(w, t, e).s)
  {
    hide Derived;
  }

  lemma EditRefused(s: State, questions: seq<V.Question>)
    requires OnlyRetired(s)
    ensures PutTemplate(s, questions) == Refused(AnswersRemain)
  {
    assert SENT[0] in SENT && PHOTO in s.template;
    assert "s1" in s.submissions && NamesQuestion(s.submissions["s1"].answers, s.template);
  }

  /**
   * A user claims the task, submits an answer, and the submission is retired: every edit of the
   * template is still refused, because the answer row names a question of it.
   */
  lemma RetiredAnswersLockTemplate(c: V.Coercions) returns (t: Track, es: seq<Event>)
    ensures var w := Files(c);
            && Created(t) && Legal(w, t, es)
            && var s := After(w, t, es).s;
            && s.submissions != map[] && (forall id <- s.submissions :: !s.submissions[id].active)
            && forall questions :: PutTemplate(s, questions) == Refused(AnswersRemain)
  {
    var w, retire := Files(c), Does(DoRetireSubmission("s1"));
    t, es := FirstVersion(c);
    hide Legal, After, Happen, Enabled, Sent;
    Retired(w, After(w, t, es));
    TaskResults.Extended(w, t, es, retire);
    es := es + [retire];
    forall questions ensures PutTemplate(After(w, t, es).s, questions) == Refused(AnswersRemain) {
      EditRefused(After(w, t, es).s, questions);
    }
  }
}
