/** Validation of a submission's answers against a request template. */
module Validator {
  import opened Common

  /** A JavaScript number: a real, or one of the values that is not finite. */
  datatype Num = Finite(value: real) | NotFinite

  /** The question types with their constraint bags; the three text types validate alike. */
  datatype Kind =
    | Text(minChars: Option<int>, maxChars: Option<int>)
    | Numeric(integerOnly: bool, min: Option<real>, max: Option<real>)
    | Choice(multi: bool, options: seq<string>, minSelect: Option<int>, maxSelect: Option<int>)
    | Attachment(allowedTypes: seq<string>, maxFiles: Option<int>)

  datatype Question = Question(id: Id, required: bool, kind: Kind)

  datatype Answer = Answer(
    questionId: Id, text: Option<string>, number: Option<Num>,
    selected: Option<seq<string>>, attachmentIds: Option<seq<Id>>)

  datatype Meta = Meta(contentType: string, kind: string)

  datatype Code =
    | UnknownQuestion | RequiredMissing | WrongType | TooShort | TooLong | NotInteger | OutOfRange
    | InvalidOption | MultiNotAllowed | TooFewSelected | TooManySelected
    | TooManyFiles | AttachmentNotFound | WrongAttachmentType

  datatype Entry = Entry(questionId: Id, code: Code)

  /* ---------- The rules, declaratively ---------- */

  /** The characters that `trim` removes. */
  predicate IsSpace(c: char) {
    || '\t' <= c <= '\r' || c == ' ' || c == '\U{00A0}' || c == '\U{1680}'
    || '\U{2000}' <= c <= '\U{200A}' || c == '\U{2028}' || c == '\U{2029}'
    || c == '\U{202F}' || c == '\U{205F}' || c == '\U{3000}' || c == '\U{FEFF}'
  }

  predicate IsBlank(s: string) { forall c <- s :: IsSpace(c) }

  /** The answer that counts for a question: the last one that names it. */
  function LastAnswer(answers: seq<Answer>, id: Id): Option<Answer> {
    if answers == [] then None
    else if Last(answers).questionId == id then Some(Last(answers))
    else LastAnswer(Init(answers), id)
  }

  predicate Unanswered(kind: Kind, answer: Option<Answer>) {
    answer.None? ||
    match kind
    case Text(_, _) => answer.value.text.None? || IsBlank(answer.value.text.value)
    case Numeric(_, _, _) => answer.value.number.None?
    case Choice(_, _, _, _) => answer.value.selected.None? || answer.value.selected.value == []
    case Attachment(_, _) => answer.value.attachmentIds.None? || answer.value.attachmentIds.value == []
  }

  predicate AtLeast(n: int, bound: Option<int>) { bound.Some? ==> bound.value <= n }
  predicate AtMost(n: int, bound: Option<int>) { bound.Some? ==> n <= bound.value }
  predicate IsWhole(r: real) { r.Floor as real == r }

  predicate TypeAllowed(m: Meta, allowed: seq<string>) {
    allowed == [] || m.contentType in allowed || m.kind in allowed
  }

  /** A given answer meets its question's type and constraints. */
  predicate Meets(kind: Kind, a: Answer, lookup: Id -> Option<Meta>) {
    match kind
    case Text(lo, hi) => a.text.Some? && AtLeast(|a.text.value|, lo) && AtMost(|a.text.value|, hi)
    case Numeric(integerOnly, lo, hi) =>
      && a.number.Some? && a.number.value.Finite?
      && var n := a.number.value.value;
      (integerOnly ==> IsWhole(n)) && (lo.Some? ==> lo.value <= n) && (hi.Some? ==> n <= hi.value)
    case Choice(multi, options, lo, hi) =>
      && a.selected.Some?
      && var s := a.selected.value;
      (forall v <- s :: v in options) && (multi || |s| <= 1) && AtLeast(|s|, lo) && AtMost(|s|, hi)
    case Attachment(allowed, maxFiles) =>
      && var ids := if a.attachmentIds.Some? then a.attachmentIds.value else [];
      AtMost(|ids|, maxFiles) && forall id <- ids :: lookup(id).Some? && TypeAllowed(lookup(id).value, allowed)
  }

  predicate QuestionSatisfied(q: Question, answer: Option<Answer>, lookup: Id -> Option<Meta>) {
    if Unanswered(q.kind, answer) then !q.required else Meets(q.kind, answer.value, lookup)
  }

  /** What a valid submission is. */
  predicate Valid(template: seq<Question>, answers: seq<Answer>, lookup: Id -> Option<Meta>) {
    && (forall a <- answers :: exists q <- template :: q.id == a.questionId)
    && forall q <- template :: QuestionSatisfied(q, LastAnswer(answers, q.id), lookup)
  }

  /* ---------- What each error code means ---------- */

  /** The ways in which a given answer can break a constraint. */
  predicate Breaks(kind: Kind, a: Answer, lookup: Id -> Option<Meta>, code: Code) {
    match kind
    case Text(lo, hi) =>
      (match code
       case WrongType => a.text.None?
       case TooShort => a.text.Some? && !AtLeast(|a.text.value|, lo)
       case TooLong => a.text.Some? && !AtMost(|a.text.value|, hi)
       case _ => false)
    case Numeric(integerOnly, lo, hi) =>
      (match code
       case WrongType => a.number.None? || a.number.value.NotFinite?
       case NotInteger => a.number.Some? && a.number.value.Finite? && integerOnly && !IsWhole(a.number.value.value)
       case OutOfRange =>
         && a.number.Some? && a.number.value.Finite?
         && ((lo.Some? && a.number.value.value < lo.value) || (hi.Some? && a.number.value.value > hi.value))
       case _ => false)
    case Choice(multi, options, lo, hi) =>
      (match code
       case WrongType => a.selected.None?
       case InvalidOption => a.selected.Some? && exists v <- a.selected.value :: v !in options
       case MultiNotAllowed => a.selected.Some? && !multi && |a.selected.value| > 1
       case TooFewSelected => a.selected.Some? && !AtLeast(|a.selected.value|, lo)
       case TooManySelected => a.selected.Some? && !AtMost(|a.selected.value|, hi)
       case _ => false)
    case Attachment(allowed, maxFiles) =>
      var ids := if a.attachmentIds.Some? then a.attachmentIds.value else [];
      (match code
       case TooManyFiles => !AtMost(|ids|, maxFiles)
       case AttachmentNotFound => exists id <- ids :: Missing(lookup, id)
       case WrongAttachmentType => exists id <- ids :: Disallowed(lookup, id, allowed)
       case _ => false)
  }

  predicate Missing(lookup: Id -> Option<Meta>, id: Id) { lookup(id).None? }

  predicate Disallowed(lookup: Id -> Option<Meta>, id: Id, allowed: seq<string>) {
    lookup(id).Some? && !TypeAllowed(lookup(id).value, allowed)
  }

  predicate Violates(q: Question, answer: Option<Answer>, lookup: Id -> Option<Meta>, code: Code) {
    if Unanswered(q.kind, answer) then code == RequiredMissing && q.required
    else Breaks(q.kind, answer.value, lookup, code)
  }

  /** The error entries that a submission deserves. */
  predicate Genuine(template: seq<Question>, answers: seq<Answer>, lookup: Id -> Option<Meta>, e: Entry) {
    || (e.code == UnknownQuestion && (exists a <- answers :: a.questionId == e.questionId)
        && forall q <- template :: q.id != e.questionId)
    || exists q <- template :: q.id == e.questionId && Violates(q, LastAnswer(answers, q.id), lookup, e.code)
  }

  /** An answer meets its constraints exactly when it breaks none of them. */
  lemma MeetsIffUnbroken(kind: Kind, a: Answer, lookup: Id -> Option<Meta>)
    ensures Meets(kind, a, lookup) <==> forall code :: !Breaks(kind, a, lookup, code)
  {
    match kind
    case Text(_, _) =>
      assert Meets(kind, a, lookup) <==>
             !Breaks(kind, a, lookup, WrongType) && !Breaks(kind, a, lookup, TooShort)
                 && !Breaks(kind, a, lookup, TooLong);
    case Numeric(_, _, _) =>
      assert Meets(kind, a, lookup) <==>
             !Breaks(kind, a, lookup, WrongType) && !Breaks(kind, a, lookup, NotInteger)
                 && !Breaks(kind, a, lookup, OutOfRange);
    case Choice(_, _, _, _) =>
      assert Meets(kind, a, lookup) <==>
             && !Breaks(kind, a, lookup, WrongType) && !Breaks(kind, a, lookup, InvalidOption)
             && !Breaks(kind, a, lookup, MultiNotAllowed)
             && !Breaks(kind, a, lookup, TooFewSelected) && !Breaks(kind, a, lookup, TooManySelected);
    case Attachment(allowed, _) =>
      var ids := if a.attachmentIds.Some? then a.attachmentIds.value else [];
      assert forall id :: Missing(lookup, id) || Disallowed(lookup, id, allowed) <==>
                          !(lookup(id).Some? && TypeAllowed(lookup(id).value, allowed));
      assert Meets(kind, a, lookup) <==>
             && !Breaks(kind, a, lookup, TooManyFiles) && !Breaks(kind, a, lookup, AttachmentNotFound)
             && !Breaks(kind, a, lookup, WrongAttachmentType);
  }

  /** A submission is valid exactly when no error entry would be genuine. */
  lemma ValidIffNoGenuineError(template: seq<Question>, answers: seq<Answer>, lookup: Id -> Option<Meta>)
    ensures Valid(template, answers, lookup) <==> forall e :: !Genuine(template, answers, lookup, e)
  {
    if Valid(template, answers, lookup) {
      forall e ensures !Genuine(template, answers, lookup, e) {
        forall q | q in template ensures !Violates(q, LastAnswer(answers, q.id), lookup, e.code) {
          var last := LastAnswer(answers, q.id);
          if !Unanswered(q.kind, last) {
            MeetsIffUnbroken(q.kind, last.value, lookup);
          }
        }
      }
    } else if a :| a in answers && forall q <- template :: q.id != a.questionId {
      assert Genuine(template, answers, lookup, Entry(a.questionId, UnknownQuestion));
    } else {
      var q :| q in template && !QuestionSatisfied(q, LastAnswer(answers, q.id), lookup);
      var last := LastAnswer(answers, q.id);
      if Unanswered(q.kind, last) {
        assert Genuine(template, answers, lookup, Entry(q.id, RequiredMissing));
      } else {
        MeetsIffUnbroken(q.kind, last.value, lookup);
        var code :| Breaks(q.kind, last.value, lookup, code);
        assert Genuine(template, answers, lookup, Entry(q.id, code));
      }
    }
  }

  /* ---------- The loops that collect the entries ---------- */

  /** Per-type checks that need no lookup. */
  method ValidateAnswer(q: Question, a: Answer, ghost lookup: Id -> Option<Meta>) returns (codes: seq<Code>)
    ensures forall code :: code in codes <==> !q.kind.Attachment? && Breaks(q.kind, a, lookup, code)
  {
    codes := [];
    match q.kind
    case Text(lo, hi) =>
      if a.text.None? {
        codes := [WrongType];
      } else {
        var len := |a.text.value|;
        if lo.Some? && len < lo.value {
          codes := codes + [TooShort];
        }
        if hi.Some? && len > hi.value {
          codes := codes + [TooLong];
        }
      }
    case Numeric(integerOnly, lo, hi) =>
      if a.number.None? || a.number.value.NotFinite? {
        codes := [WrongType];
      } else {
        var n := a.number.value.value;
        if integerOnly && !IsWhole(n) {
          codes := codes + [NotInteger];
        }
        if lo.Some? && n < lo.value {
          codes := codes + [OutOfRange];
        }
        if hi.Some? && n > hi.value {
          codes := codes + [OutOfRange];
        }
      }
    case Choice(multi, options, lo, hi) =>
      if a.selected.None? {
        codes := [WrongType];
      } else {
        var selected := a.selected.value;
        for i := 0 to |selected|
          invariant forall code :: code in codes <==>
                      code == InvalidOption && exists k :: 0 <= k < i && selected[k] !in options
        {
          if selected[i] !in options {
            codes := codes + [InvalidOption];
          }
        }
        assert InvalidOption in codes <==> exists v <- selected :: v !in options;
        if !multi && |selected| > 1 {
          codes := codes + [MultiNotAllowed];
        }
        if lo.Some? && |selected| < lo.value {
          codes := codes + [TooFewSelected];
        }
        if hi.Some? && |selected| > hi.value {
          codes := codes + [TooManySelected];
        }
      }
    case Attachment(_, _) =>
  }

  /** Attachment checks: each referenced id is resolved through the lookup. */
  method ValidateAttachment(q: Question, a: Answer, lookup: Id -> Option<Meta>) returns (codes: seq<Code>)
    requires q.kind.Attachment?
    ensures forall code :: code in codes <==> Breaks(q.kind, a, lookup, code)
  {
    codes := [];
    var ids := if a.attachmentIds.Some? then a.attachmentIds.value else [];
    if q.kind.maxFiles.Some? && |ids| > q.kind.maxFiles.value {
      codes := codes + [TooManyFiles];
    }
    var allowed := q.kind.allowedTypes;
    for i := 0 to |ids|
      invariant forall code :: code in codes <==> AttachmentFault(q.kind, ids, ids[..i], lookup, code)
    {
      hide AttachmentFault;
      AttachmentFaultStep(q.kind, ids, i, lookup);
      var meta := lookup(ids[i]);
      if meta.None? {
        codes := codes + [AttachmentNotFound];
        assert Missing(lookup, ids[i]) && !Disallowed(lookup, ids[i], allowed);
        continue;
      }
      if |allowed| > 0 && meta.value.contentType !in allowed && meta.value.kind !in allowed {
        codes := codes + [WrongAttachmentType];
        assert Disallowed(lookup, ids[i], allowed);
      }
    }
    assert ids[..|ids|] == ids;
  }

  /** What the attachment loop has found after the files `seen`. */
  predicate AttachmentFault(kind: Kind, ids: seq<Id>, seen: seq<Id>, lookup: Id -> Option<Meta>, code: Code)
    requires kind.Attachment?
  {
    match code
    case TooManyFiles => !AtMost(|ids|, kind.maxFiles)
    case AttachmentNotFound => AnyMissing(seen, lookup)
    case WrongAttachmentType => AnyDisallowed(seen, lookup, kind.allowedTypes)
    case _ => false
  }

  predicate AnyMissing(seen: seq<Id>, lookup: Id -> Option<Meta>) { exists id <- seen :: Missing(lookup, id) }

  predicate AnyDisallowed(seen: seq<Id>, lookup: Id -> Option<Meta>, types: seq<string>) {
    exists id <- seen :: Disallowed(lookup, id, types)
  }

  lemma OneMoreMissing(seen: seq<Id>, id: Id, lookup: Id -> Option<Meta>)
    ensures AnyMissing(seen + [id], lookup) <==> AnyMissing(seen, lookup) || Missing(lookup, id)
  {
    hide Missing;
    if x :| x in seen && Missing(lookup, x) {
      assert x in seen + [id];
    }
    assert id in seen + [id];
  }

  lemma OneMoreDisallowed(seen: seq<Id>, id: Id, lookup: Id -> Option<Meta>, types: seq<string>)
    ensures AnyDisallowed(seen + [id], lookup, types) <==>
            AnyDisallowed(seen, lookup, types) || Disallowed(lookup, id, types)
  {
    hide Disallowed;
    if x :| x in seen && Disallowed(lookup, x, types) {
      assert x in seen + [id];
    }
    assert id in seen + [id];
  }

  lemma AttachmentFaultStep(kind: Kind, ids: seq<Id>, i: nat, lookup: Id -> Option<Meta>)
    requires kind.Attachment? && i < |ids|
    ensures forall code ::
              AttachmentFault(kind, ids, ids[..i + 1], lookup, code) <==>
              AttachmentFault(kind, ids, ids[..i], lookup, code)
              || (code == AttachmentNotFound && Missing(lookup, ids[i]))
              || (code == WrongAttachmentType && Disallowed(lookup, ids[i], kind.allowedTypes))
  {
    hide AnyMissing, AnyDisallowed, Missing, Disallowed, AtMost;
    assert ids[..i + 1] == ids[..i] + [ids[i]];
    forall code
      ensures AttachmentFault(kind, ids, ids[..i] + [ids[i]], lookup, code) <==>
              AttachmentFault(kind, ids, ids[..i], lookup, code)
              || (code == AttachmentNotFound && Missing(lookup, ids[i]))
              || (code == WrongAttachmentType && Disallowed(lookup, ids[i], kind.allowedTypes))
    {
      match code
      case AttachmentNotFound => OneMoreMissing(ids[..i], ids[i], lookup);
      case WrongAttachmentType => OneMoreDisallowed(ids[..i], ids[i], lookup, kind.allowedTypes);
      case _ =>
    }
  }

  /** The question's own faults that each of the two passes reports. */
  predicate Reported(
    attachmentPass: bool, q: Question, answer: Option<Answer>, lookup: Id -> Option<Meta>, code: Code)
  {
    if Unanswered(q.kind, answer) then !attachmentPass && code == RequiredMissing && q.required
    else attachmentPass == q.kind.Attachment? && Breaks(q.kind, answer.value, lookup, code)
  }

  /** What a pass has reported after the questions `seen`. */
  ghost predicate Found(
    attachmentPass: bool, seen: seq<Question>, answers: seq<Answer>, lookup: Id -> Option<Meta>, e: Entry)
  {
    exists q <- seen ::
      q.id == e.questionId && Reported(attachmentPass, q, LastAnswer(answers, q.id), lookup, e.code)
  }

  ghost predicate FoundUnknown(template: seq<Question>, seen: seq<Answer>, e: Entry) {
    e.code == UnknownQuestion && (exists a <- seen :: a.questionId == e.questionId)
    && forall q <- template :: q.id != e.questionId
  }

  lemma FoundStep(
    pass: bool, template: seq<Question>, i: nat, answers: seq<Answer>, lookup: Id -> Option<Meta>, e: Entry)
    requires i < |template|
    ensures Found(pass, template[..i + 1], answers, lookup, e) <==>
            Found(pass, template[..i], answers, lookup, e)
            || (template[i].id == e.questionId
                && Reported(pass, template[i], LastAnswer(answers, template[i].id), lookup, e.code))
  {
  }

  lemma GenuineIsReported(template: seq<Question>, answers: seq<Answer>, lookup: Id -> Option<Meta>, e: Entry)
    ensures Genuine(template, answers, lookup, e) <==>
            FoundUnknown(template, answers, e)
            || Found(false, template, answers, lookup, e) || Found(true, template, answers, lookup, e)
  {
  }

  /** The entries that name question `id` with the given codes. */
  function Entries(id: Id, codes: seq<Code>): (entries: seq<Entry>)
    ensures forall e :: e in entries <==> e.questionId == id && e.code in codes
  {
    if codes == [] then [] else Entries(id, Init(codes)) + [Entry(id, Last(codes))]
  }

  /** `byQuestion`: the last answer per question wins. */
  method IndexAnswers(answers: seq<Answer>) returns (byQuestion: map<Id, Answer>)
    ensures forall id :: (if id in byQuestion then Some(byQuestion[id]) else None) == LastAnswer(answers, id)
  {
    byQuestion := map[];
    for i := 0 to |answers|
      invariant forall id ::
                  (if id in byQuestion then Some(byQuestion[id]) else None) == LastAnswer(answers[..i], id)
    {
      assert Init(answers[..i + 1]) == answers[..i];
      byQuestion := byQuestion[answers[i].questionId := answers[i]];
    }
    assert answers[..|answers|] == answers;
  }

  method FlagUnknown(template: seq<Question>, answers: seq<Answer>) returns (errors: seq<Entry>)
    ensures forall e :: e in errors <==> FoundUnknown(template, answers, e)
  {
    errors := [];
    var known := set q | q in template :: q.id;
    for i := 0 to |answers|
      invariant forall e :: e in errors <==> FoundUnknown(template, answers[..i], e)
    {
      var seen, more := answers[..i], answers[..i + 1];
      assert more == seen + [answers[i]];
      assert answers[i] in more;
      assert forall a :: a in more <==> a in seen || a == answers[i];
      if answers[i].questionId !in known {
        errors := errors + [Entry(answers[i].questionId, UnknownQuestion)];
      }
    }
    assert answers[..|answers|] == answers;
  }

  /** The synchronous pass over the template. */
  method FirstPass(template: seq<Question>, byQuestion: map<Id, Answer>, ghost answers: seq<Answer>,
                   ghost lookup: Id -> Option<Meta>)
    returns (errors: seq<Entry>)
    requires forall id :: (if id in byQuestion then Some(byQuestion[id]) else None) == LastAnswer(answers, id)
    ensures forall e :: e in errors <==> Found(false, template, answers, lookup, e)
  {
    hide Found, Breaks, Unanswered;
    errors := [];
    assert forall e :: !Found(false, [], answers, lookup, e) by { FoundNothing(false, answers, lookup); }
    assert template[..0] == [];
    for i := 0 to |template|
      invariant forall e :: e in errors <==> Found(false, template[..i], answers, lookup, e)
    {
      var q := template[i];
      forall e { FoundStep(false, template, i, answers, lookup, e); }
      var answer := if q.id in byQuestion then Some(byQuestion[q.id]) else None;
      if Unanswered(q.kind, answer) {
        if q.required {
          errors := errors + [Entry(q.id, RequiredMissing)];
        }
        continue;
      }
      assert answer.Some? by { AnsweredIsSome(q.kind, answer); }
      var codes := ValidateAnswer(q, answer.value, lookup);
      errors := errors + Entries(q.id, codes);
    }
    assert template[..|template|] == template;
  }

  /** The second pass, over the attachment questions. */
  method AttachmentPass(template: seq<Question>, byQuestion: map<Id, Answer>, ghost answers: seq<Answer>,
                        lookup: Id -> Option<Meta>)
    returns (errors: seq<Entry>)
    requires forall id :: (if id in byQuestion then Some(byQuestion[id]) else None) == LastAnswer(answers, id)
    ensures forall e :: e in errors <==> Found(true, template, answers, lookup, e)
  {
    hide Found, Breaks, Unanswered;
    errors := [];
    assert forall e :: !Found(true, [], answers, lookup, e) by { FoundNothing(true, answers, lookup); }
    assert template[..0] == [];
    for i := 0 to |template|
      invariant forall e :: e in errors <==> Found(true, template[..i], answers, lookup, e)
    {
      var q := template[i];
      forall e { FoundStep(true, template, i, answers, lookup, e); }
      if !q.kind.Attachment? {
        continue;
      }
      var answer := if q.id in byQuestion then Some(byQuestion[q.id]) else None;
      if Unanswered(q.kind, answer) {
        continue;
      }
      assert answer.Some? by { AnsweredIsSome(q.kind, answer); }
      var codes := ValidateAttachment(q, answer.value, lookup);
      errors := errors + Entries(q.id, codes);
    }
    assert template[..|template|] == template;
  }

  lemma FoundNothing(pass: bool, answers: seq<Answer>, lookup: Id -> Option<Meta>)
    ensures forall e :: !Found(pass, [], answers, lookup, e)
  {
  }

  lemma AnsweredIsSome(kind: Kind, answer: Option<Answer>)
    requires !Unanswered(kind, answer)
    ensures answer.Some?
  {
  }

  /** The whole validation: succeeds exactly on valid submissions, and reports exactly the genuine errors. */
  method ValidateSubmission(template: seq<Question>, answers: seq<Answer>, lookup: Id -> Option<Meta>)
    returns (ok: bool, errors: seq<Entry>)
    ensures ok <==> Valid(template, answers, lookup)
    ensures ok <==> errors == []
    ensures forall e :: e in errors <==> Genuine(template, answers, lookup, e)
  {
    hide Valid, Genuine, Found, FoundUnknown;
    var byQuestion := IndexAnswers(answers);
    var unknown := FlagUnknown(template, answers);
    var first := FirstPass(template, byQuestion, answers, lookup);
    var second := AttachmentPass(template, byQuestion, answers, lookup);
    errors := unknown + first + second;
    forall e { GenuineIsReported(template, answers, lookup, e); }
    ValidIffNoGenuineError(template, answers, lookup);
    assert errors != [] ==> errors[0] in errors;
    ok := |errors| == 0;
  }

  /* ---------- Submitted answers ---------- */

  /** The `value` of a submitted answer; an absent value and JSON null are both JNull. */
  datatype Json = JNull | JString(s: string) | JNumber(n: Num) | JStrings(ss: seq<string>)

  datatype DtoAnswer = DtoAnswer(questionId: Id, value: Json, attachmentIds: Option<seq<Id>>)

  /** JavaScript's `String(value)` and `Number(value)`. */
  datatype Coercions = Coercions(render: Json -> string, parse: Json -> Num)

  /** The type of the question with this id: the last one, as a JavaScript Map keeps it. */
  function KindOf(template: seq<Question>, id: Id): Option<Kind> {
    if template == [] then None
    else if Last(template).id == id then Some(Last(template).kind)
    else KindOf(Init(template), id)
  }

  function ToValidatorAnswer(c: Coercions, kind: Option<Kind>, a: DtoAnswer): Answer {
    var blank := Answer(a.questionId, None, None, None, None);
    match kind
    case Some(Numeric(_, _, _)) =>
      blank.(number := match a.value
                       case JNumber(n) => Some(n)
                       case JNull => None
                       case _ => Some(c.parse(a.value)))
    case Some(Choice(_, _, _, _)) =>
      blank.(selected := match a.value
                         case JStrings(ss) => Some(ss)
                         case JNull => None
                         case _ => Some([c.render(a.value)]))
    case Some(Attachment(_, _)) => blank.(attachmentIds := a.attachmentIds)
    case _ => blank.(text := if a.value.JNull? then None else Some(c.render(a.value)))
  }

  function ToValidatorAnswers(c: Coercions, template: seq<Question>, answers: seq<DtoAnswer>): (r: seq<Answer>)
    ensures |r| == |answers|
    ensures forall i :: 0 <= i < |answers| ==> r[i].questionId == answers[i].questionId
  {
    seq(|answers|, i requires 0 <= i < |answers| =>
      ToValidatorAnswer(c, KindOf(template, answers[i].questionId), answers[i]))
  }

  predicate DistinctQuestions(template: seq<Question>) {
    forall i, j :: 0 <= i < j < |template| ==> template[i].id != template[j].id
  }

  lemma {:induction false} KindOfQuestion(template: seq<Question>, q: Question)
    requires DistinctQuestions(template) && q in template
    ensures KindOf(template, q.id) == Some(q.kind)
  {
    assert template == Init(template) + [Last(template)];
    if q != Last(template) {
      KindOfQuestion(Init(template), q);
    }
  }

  lemma {:induction false} LastAnswerMember(answers: seq<Answer>, id: Id)
    ensures LastAnswer(answers, id).Some? ==>
              LastAnswer(answers, id).value in answers && LastAnswer(answers, id).value.questionId == id
  {
    if answers != [] {
      LastAnswerMember(Init(answers), id);
      assert answers == Init(answers) + [Last(answers)];
    }
  }

  /**
   * Coercion leaves one way to be reported for a wrong type: a numeric question answered with
   * something that is no finite number.
   */
  lemma WrongTypeOnlyFromNumbers(
    c: Coercions, template: seq<Question>, dto: seq<DtoAnswer>, lookup: Id -> Option<Meta>, id: Id)
    requires DistinctQuestions(template)
    requires Genuine(template, ToValidatorAnswers(c, template, dto), lookup, Entry(id, WrongType))
    ensures exists a <- dto ::
              && a.questionId == id && KindOf(template, id).Some? && KindOf(template, id).value.Numeric?
              && match a.value
                 case JNumber(n) => n.NotFinite?
                 case JNull => false
                 case _ => c.parse(a.value).NotFinite?
  {
    var answers := ToValidatorAnswers(c, template, dto);
    var q :| q in template && q.id == id && Violates(q, LastAnswer(answers, q.id), lookup, WrongType);
    KindOfQuestion(template, q);
    LastAnswerMember(answers, id);
    var i :| 0 <= i < |answers| && answers[i] == LastAnswer(answers, id).value;
    assert dto[i] in dto && answers[i] == ToValidatorAnswer(c, Some(q.kind), dto[i]);
    assert !Unanswered(q.kind, Some(answers[i])) && Breaks(q.kind, answers[i], lookup, WrongType);
    CoercedWrongType(c, q.kind, dto[i], lookup);
  }

  /** After coercion only a number can be of a wrong type. */
  lemma CoercedWrongType(c: Coercions, kind: Kind, a: DtoAnswer, lookup: Id -> Option<Meta>)
    requires var answer := ToValidatorAnswer(c, Some(kind), a);
             !Unanswered(kind, Some(answer)) && Breaks(kind, answer, lookup, WrongType)
    ensures kind.Numeric?
    ensures match a.value
            case JNumber(n) => n.NotFinite?
            case JNull => false
            case _ => c.parse(a.value).NotFinite?
  {
  }
}
