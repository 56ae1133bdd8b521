/** A run in which resubmitting a returned version's file leaves that version invalid as stored. */
module ResubmittedFiles {
  import opened Common
  import opened TaskStatus
  import opened TaskLifecycle
  import opened TaskRuns
  import TaskResults
  import opened TaskTemplate
  import V = Validator

  const PHOTO: V.Question := V.Question("q", true, V.Kind.Attachment([], None))
  const SENT: seq<V.DtoAnswer> := [V.DtoAnswer("q", V.JNull, Some(["f"]))]

  function Files(c: V.Coercions): World { World(map["f" := V.Meta("image/png", "image")], {}, c) }

  lemma SentIsAccepted(c: V.Coercions, s: State)
    requires s.template == [PHOTO]
    ensures Accepts(Files(c), s, SENT)
  {
  }

  /** A first or returned version makes way for the next one. */
  lemma Accepted(c: V.Coercions, s: State, user: Id, id: Id)
    requires s.active && s.template == [PHOTO] && user in ActiveUsers(s.slots)
    requires var latest := Latest(s.submissions, user, false);
             latest.Some? ==> s.submissions[latest.value].state == SubmissionState.Revising
    ensures Submit(Files(c), s, user, SENT, id).Done?
    ensures var after := Submit(Files(c), s, user, SENT, id).state;
            && after.active && after.slots == s.slots && after.template == s.template
            && after.submissions == s.submissions[id := NewSubmission(s, user, SENT)]
            && after.owners == s.owners + map["f" := Owner(id, 0)]
  {
    SentIsAccepted(c, s);
    hide Accepts, Derived, Latest, NewSubmission;
    var known := Files(c).files.Keys + Files(c).retiredFiles;
    assert Reowned(known, s.owners, id, SENT, 0) == s.owners;
    assert (map f | f in SENT[0].attachmentIds.value && f in known :: Owner(id, 0)) == map["f" := Owner(id, 0)];
    assert Reowned(known, s.owners, id, SENT, 1) == s.owners + map["f" := Owner(id, 0)];
  }

  lemma Claimed(s: State, user: Id)
    requires s.slots == map[]
    ensures CommitClaim(s, user, 1).Done?
    ensures var after := CommitClaim(s, user, 1).state;
            after.active == s.active && after.slots == map[user := true] && after.template == s.template
            && after.submissions == s.submissions && after.owners == s.owners
  {
  }

  lemma Returned(s: State, id: Id)
    requires id in s.submissions && s.submissions[id].version == 0
    ensures CommitReview(s, id, 0, Return).Done?
    ensures var after := CommitReview(s, id, 0, Return).state;
            && after.active == s.active && after.slots == s.slots && after.template == s.template
            && after.owners == s.owners
            && after.submissions == s.submissions[id :=
               s.submissions[id].(state := SubmissionState.Revising, version := 1)]
  {
  }

  lemma OnlyLatest(subs: map<Id, Submission>, user: Id, id: Id)
    requires subs.Keys == {id} && subs[id].claimant == user
    ensures Latest(subs, user, false) == Some(id)
  {
    assert IsLatest(subs, user, false, id);
    assert UniqueNumbers(subs);
    LatestUnique(subs, user, false, id);
  }

  lemma NoLatest(user: Id)
    ensures Latest(map[], user, false) == None
  {
  }

  /** Where the run stands: one submission, in the given state. */
  ghost predicate Sent(s: State, state: SubmissionState, version: nat) {
    && s.active && s.slots == map["u" := true] && s.template == [PHOTO] && s.owners == map["f" := Owner("s1", 0)]
    && s.submissions == map["s1" := Submission("u", 1, None, state, true, version, SENT)]
  }

  lemma FirstVersion(c: V.Coercions) returns (t: Track, es: seq<Event>)
    ensures Created(t) && Legal(Files(c), t, es)
    ensures Sent(After(Files(c), t, es).s, SubmissionState.Review, 0)
  {
    var w := Files(c);
    t := Track(State(true, 1, false, Open, map[], map[], [PHOTO], map[]), false, multiset{}, {}, []);
    var look, claim, send := ReadsClaim, Does(DoClaim("u", 1)), Does(DoSubmit("u", SENT, "s1"));
    hide CommitClaim, Submit, Legal, After, Accepts, Latest;
    TaskResults.NoEvents(w, t);
    TaskResults.Extended(w, t, [], look);
    TaskResults.Extended(w, t, [] + [look], claim);
    Claimed(After(w, t, [] + [look]).s, "u");
    NoLatest("u");
    assert "u" in ActiveUsers(map["u" := true]);
    es := [] + [look] + [claim];
    Accepted(c, After(w, t, es).s, "u", "s1");
    TaskResults.Extended(w, t, es, send);
    es := es + [send];
  }

  /** The read half of the review, and then the half that commits. */
  lemma ReviewRead(w: World, t: Track)
    requires Sent(t.s, SubmissionState.Review, 0)
    ensures var o := Happen(w, t, ReadsReview("s1"));
            && Enabled(t, ReadsReview("s1")) && o.s == t.s
            && Enabled(o, Does(DoReview("s1", 0, Return)))
  {
  }

  lemma ReviewCommitted(w: World, t: Track)
    requires Sent(t.s, SubmissionState.Review, 0) && Enabled(t, Does(DoReview("s1", 0, Return)))
    ensures Sent(Happen(w, t, Does(DoReview("s1", 0, Return))).s, SubmissionState.Revising, 1)
  {
    hide CommitReview;
    Returned(t.s, "s1");
  }

  lemma SentBack(c: V.Coercions, t: Track, run: seq<Event>) returns (es: seq<Event>)
    requires Legal(Files(c), t, run) && Sent(After(Files(c), t, run).s, SubmissionState.Review, 0)
    ensures Legal(Files(c), t, es) && Sent(After(Files(c), t, es).s, SubmissionState.Revising, 1)
  {
    var w := Files(c);
    var open, back := ReadsReview("s1"), Does(DoReview("s1", 0, Return));
    hide Happen, Enabled, Legal, After, Sent;
    ReviewRead(w, After(w, t, run));
    TaskResults.Extended(w, t, run, open);
    ReviewCommitted(w, After(w, t, run + [open]));
    TaskResults.Extended(w, t, run + [open], back);
    es := run + [open] + [back];
  }

  lemma Resent(c: V.Coercions, s: State)
    requires Sent(s, SubmissionState.Revising, 1)
    ensures Submit(Files(c), s, "u", SENT, "s2").Done?
    ensures var after := Submit(Files(c), s, "u", SENT, "s2").state;
            && after.template == [PHOTO] && after.owners == map["f" := Owner("s2", 0)]
            && "s1" in after.submissions && after.submissions["s1"].active && after.submissions["s1"].answers == SENT
  {
    hide Submit, NewSubmission;
    OnlyLatest(s.submissions, "u", "s1");
    assert "u" in ActiveUsers(map["u" := true]);
    Accepted(c, s, "u", "s2");
  }

  lemma SecondVersion(c: V.Coercions, t: Track, run: seq<Event>) returns (es: seq<Event>)
    requires Legal(Files(c), t, run) && Sent(After(Files(c), t, run).s, SubmissionState.Revising, 1)
    ensures Legal(Files(c), t, es)
    ensures var s := After(Files(c), t, es).s;
            && s.template == [PHOTO] && s.owners == map["f" := Owner("s2", 0)]
            && "s1" in s.submissions && s.submissions["s1"].active && s.submissions["s1"].answers == SENT
  {
    var w := Files(c);
    var resend := Does(DoSubmit("u", SENT, "s2"));
    hide Submit, Legal, After;
    Resent(c, After(w, t, run).s);
    TaskResults.Extended(w, t, run, resend);
    es := run + [resend];
  }

  /**
   * Re-validating what is stored can fail for an active submission: the claimant answers a
   * required file question, is sent back, and resubmits the same file.
   */
  lemma StoredAnswersCanFail(c: V.Coercions)
    returns (t: Track, es: seq<Event>, stored: seq<V.DtoAnswer>)
    ensures var w := Files(c);
            && Created(t) && Legal(w, t, es)
            && var s := After(w, t, es).s;
            && "s1" in s.submissions && s.submissions["s1"].active && ReadsBack(s, "s1", stored)
            && !Accepts(w, s, stored)
  {
    var w := Files(c);
    t, es := FirstVersion(c);
    es := SentBack(c, t, es);
    es := SecondVersion(c, t, es);
    hide Legal, After, Accepts, Locked, LostItsFiles;
    var s := After(w, t, es).s;
    assert Owned(s, "s1", 0) == {};
    stored := [SENT[0].(attachmentIds := Some([]))];
    assert ReadsBack(s, "s1", stored);
    LostPhoto(s);
    assert PHOTO in s.template;
    StoredStillValidIff(w, t, es, "s1", stored);
  }

  lemma LostPhoto(s: State)
    requires "s1" in s.submissions && s.submissions["s1"].answers == SENT && Owned(s, "s1", 0) == {}
    ensures LostItsFiles(s, "s1", PHOTO)
  {
  }
}
