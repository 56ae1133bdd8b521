/** What a submission is refused for, told from the submitted values themselves. */
module ValidatorMeaning {
  import opened Common
  import opened Validator

  /* ---------- One submitted value against one question ---------- */

  /** White space and line terminators, by code point. */
  predicate Whitespace(c: char) {
    var n := c as int;
    || 9 <= n <= 13 || n == 32 || n == 160 || n == 5760 || 8192 <= n <= 8202
    || n in {8232, 8233, 8239, 8287, 12288, 65279}
  }

  /** The number that a value is read as. */
  function NumberOf(c: Coercions, v: Json): Num {
    match v
    case JNumber(n) => n
    case _ => c.parse(v)
  }

  /** The choices that a value is read as. */
  function ChoicesOf(c: Coercions, v: Json): seq<string> {
    match v
    case JStrings(ss) => ss
    case _ => [c.render(v)]
  }

  /** The user has answered: not null, not blank, not an empty list. */
  predicate Answered(c: Coercions, kind: Kind, a: DtoAnswer) {
    match kind
    case Text(_, _) => a.value != JNull && exists ch <- c.render(a.value) :: !Whitespace(ch)
    case Numeric(_, _, _) => a.value != JNull
    case Choice(_, _, _, _) => a.value != JNull && a.value != JStrings([])
    case Attachment(_, _) => a.attachmentIds.Some? && a.attachmentIds.value != []
  }

  /** An answer that was given is at fault in this way. */
  predicate Faulty(c: Coercions, kind: Kind, a: DtoAnswer, lookup: Id -> Option<Meta>, code: Code) {
    match code
    case TooShort => kind.Text? && kind.minChars.Some? && |c.render(a.value)| < kind.minChars.value
    case TooLong => kind.Text? && kind.maxChars.Some? && |c.render(a.value)| > kind.maxChars.value
    case WrongType => kind.Numeric? && NumberOf(c, a.value) == NotFinite
    case NotInteger =>
      && kind.Numeric? && kind.integerOnly && NumberOf(c, a.value).Finite?
      && NumberOf(c, a.value).value != NumberOf(c, a.value).value.Floor as real
    case OutOfRange =>
      && kind.Numeric? && NumberOf(c, a.value).Finite?
      && ((kind.min.Some? && NumberOf(c, a.value).value < kind.min.value)
          || (kind.max.Some? && NumberOf(c, a.value).value > kind.max.value))
    case InvalidOption => kind.Choice? && exists v <- ChoicesOf(c, a.value) :: v !in kind.options
    case MultiNotAllowed => kind.Choice? && !kind.multi && |ChoicesOf(c, a.value)| >= 2
    case TooFewSelected => kind.Choice? && kind.minSelect.Some? && |ChoicesOf(c, a.value)| < kind.minSelect.value
    case TooManySelected => kind.Choice? && kind.maxSelect.Some? && |ChoicesOf(c, a.value)| > kind.maxSelect.value
    case TooManyFiles =>
      kind.Attachment? && a.attachmentIds.Some? && kind.maxFiles.Some? && |a.attachmentIds.value| > kind.maxFiles.value
    case AttachmentNotFound =>
      kind.Attachment? && a.attachmentIds.Some? && exists id <- a.attachmentIds.value :: lookup(id) == None
    case WrongAttachmentType =>
      && kind.Attachment? && a.attachmentIds.Some?
      && exists id <- a.attachmentIds.value :: WrongFile(lookup, id, kind.allowedTypes)
    case _ => false
  }

  lemma SpaceIsWhitespace(c: char)
    ensures IsSpace(c) <==> Whitespace(c)
  {
  }

  lemma AnsweredIs(c: Coercions, kind: Kind, a: DtoAnswer)
    ensures Unanswered(kind, Some(ToValidatorAnswer(c, Some(kind), a))) <==> !Answered(c, kind, a)
  {
    forall ch ensures IsSpace(ch) <==> Whitespace(ch) {
      SpaceIsWhitespace(ch);
    }
    hide IsSpace, Whitespace;
  }

  lemma FaultyIs(c: Coercions, kind: Kind, a: DtoAnswer, lookup: Id -> Option<Meta>, code: Code)
    requires Answered(c, kind, a)
    ensures Breaks(kind, ToValidatorAnswer(c, Some(kind), a), lookup, code) <==> Faulty(c, kind, a, lookup, code)
  {
    match kind
    case Text(_, _) =>
    case Numeric(_, _, _) => hide Whitespace;
    case Choice(_, _, _, _) => hide Whitespace;
    case Attachment(_, _) => FilesFaulty(a.attachmentIds.value, kind.allowedTypes, lookup);
  }

  predicate WrongFile(lookup: Id -> Option<Meta>, id: Id, allowed: seq<string>) {
    lookup(id).Some? && allowed != []
    && lookup(id).value.contentType !in allowed && lookup(id).value.kind !in allowed
  }

  lemma FilesFaulty(ids: seq<Id>, allowed: seq<string>, lookup: Id -> Option<Meta>)
    ensures (exists id <- ids :: Missing(lookup, id)) <==> (exists id <- ids :: lookup(id) == None)
    ensures (exists id <- ids :: Disallowed(lookup, id, allowed)) <==>
            (exists id <- ids :: WrongFile(lookup, id, allowed))
  {
    if id :| id in ids && lookup(id) == None {
      assert Missing(lookup, id);
    }
    if id :| id in ids && WrongFile(lookup, id, allowed) {
      assert Disallowed(lookup, id, allowed);
    }
    if id :| id in ids && Disallowed(lookup, id, allowed) {
      assert WrongFile(lookup, id, allowed);
    }
  }

  /* ---------- The whole submission ---------- */

  /** The last answer to a question counts. */
  predicate Counts(dto: seq<DtoAnswer>, i: nat, id: Id) {
    i < |dto| && dto[i].questionId == id && forall j :: i < j < |dto| ==> dto[j].questionId != id
  }

  /** The entries that a submission deserves. */
  ghost predicate Deserves(
    c: Coercions, template: seq<Question>, dto: seq<DtoAnswer>, lookup: Id -> Option<Meta>, e: Entry)
  {
    || (e.code == UnknownQuestion && (exists a <- dto :: a.questionId == e.questionId)
        && forall q <- template :: q.id != e.questionId)
    || exists q <- template :: q.id == e.questionId && QuestionDeserves(c, q, dto, lookup, e.code)
  }

  ghost predicate QuestionDeserves(
    c: Coercions, q: Question, dto: seq<DtoAnswer>, lookup: Id -> Option<Meta>, code: Code)
  {
    if exists i: nat :: Counts(dto, i, q.id) && Answered(c, q.kind, dto[i])
    then exists i: nat :: Counts(dto, i, q.id) && Faulty(c, q.kind, dto[i], lookup, code)
    else code == RequiredMissing && q.required
  }

  lemma {:induction false} LastCounts(answers: seq<Answer>, dto: seq<DtoAnswer>, id: Id) returns (i: nat)
    requires |answers| == |dto| && forall k :: 0 <= k < |dto| ==> answers[k].questionId == dto[k].questionId
    ensures LastAnswer(answers, id).None? ==> forall k: nat :: !Counts(dto, k, id)
    ensures LastAnswer(answers, id).Some? ==>
              && Counts(dto, i, id) && LastAnswer(answers, id).value == answers[i]
              && forall k: nat :: Counts(dto, k, id) ==> k == i
  {
    i := 0;
    if answers != [] {
      var n := |answers| - 1;
      if answers[n].questionId == id {
        i := n;
      } else {
        i := LastCounts(Init(answers), Init(dto), id);
        forall k: nat ensures Counts(dto, k, id) <==> Counts(Init(dto), k, id) {
        }
      }
    }
  }

  lemma QuestionDeservesIs(
    c: Coercions, template: seq<Question>, q: Question, dto: seq<DtoAnswer>, lookup: Id -> Option<Meta>, code: Code)
    requires DistinctQuestions(template) && q in template
    ensures Violates(q, LastAnswer(ToValidatorAnswers(c, template, dto), q.id), lookup, code) <==>
            QuestionDeserves(c, q, dto, lookup, code)
  {
    var answers := ToValidatorAnswers(c, template, dto);
    var i := LastCounts(answers, dto, q.id);
    KindOfQuestion(template, q);
    hide LastAnswer, Counts, Answered, Faulty, Breaks, Unanswered;
    if LastAnswer(answers, q.id).Some? {
      assert answers[i] == ToValidatorAnswer(c, Some(q.kind), dto[i]);
      AnsweredIs(c, q.kind, dto[i]);
      if Answered(c, q.kind, dto[i]) {
        FaultyIs(c, q.kind, dto[i], lookup, code);
      }
    } else {
      assert Unanswered(q.kind, None) by { NoAnswer(q.kind); }
    }
  }

  lemma NoAnswer(kind: Kind)
    ensures Unanswered(kind, None)
  {
  }

  /** The service reports exactly the faults of the submitted values, code by code. */
  lemma RefusedForExactly(
    c: Coercions, template: seq<Question>, dto: seq<DtoAnswer>, lookup: Id -> Option<Meta>, e: Entry)
    requires DistinctQuestions(template)
    ensures Genuine(template, ToValidatorAnswers(c, template, dto), lookup, e) <==>
            Deserves(c, template, dto, lookup, e)
  {
    var answers := ToValidatorAnswers(c, template, dto);
    SameNames(answers, dto, e.questionId);
    hide ToValidatorAnswers, Violates, QuestionDeserves, LastAnswer;
    forall q | q in template
      ensures Violates(q, LastAnswer(answers, q.id), lookup, e.code) <==> QuestionDeserves(c, q, dto, lookup, e.code)
    {
      QuestionDeservesIs(c, template, q, dto, lookup, e.code);
    }
  }

  lemma SameNames(answers: seq<Answer>, dto: seq<DtoAnswer>, id: Id)
    requires |answers| == |dto| && forall k :: 0 <= k < |dto| ==> answers[k].questionId == dto[k].questionId
    ensures (exists a <- answers :: a.questionId == id) <==> (exists a <- dto :: a.questionId == id)
  {
    if a :| a in answers && a.questionId == id {
      var k :| 0 <= k < |answers| && answers[k] == a;
      assert dto[k] in dto;
    }
    if a :| a in dto && a.questionId == id {
      var k :| 0 <= k < |dto| && dto[k] == a;
      assert answers[k] in answers;
    }
  }
}
