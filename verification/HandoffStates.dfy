/** What the state file and the answers say while tokens are handed off (internal/server/settings.go). */
module HandoffStates {
  import opened Text
  import opened Handoff

  // Everything but the token and the phase is as published.
  predicate Kept(published: Fields, fields: Fields) {
    fields - {TOKEN, PHASE} == published - {TOKEN, PHASE}
  }

  // The state of publication n without its token, in this phase.
  predicate Reports(s: State, n: nat, fields: Fields, phase: string) {
    && n < |s.published| && HasToken(s.published[n]) && Kept(s.published[n], fields) && TOKEN !in fields
    && PHASE in fields && fields[PHASE] == phase
  }

  // "applying" means that the token was stored, "success" that it was applied.
  predicate Progressed(s: State, n: nat, fields: Fields) {
    || (Reports(s, n, fields, APPLYING) && n in s.saved)
    || Reports(s, n, fields, ERROR)
    || (Reports(s, n, fields, SUCCESS) && WasApplied(s, n))
  }

  predicate Traced(s: State, doc: Doc) {
    && doc.source < |s.published|
    && (doc.fields == s.published[doc.source] || Progressed(s, doc.source, doc.fields))
  }

  predicate GoodStage(s: State, c: Consumer) {
    && c.doc.source < |s.published|
    && match c
       case Holding(doc) => doc.fields == s.published[doc.source] && HasToken(doc.fields)
       case Saved(doc) => doc.fields == s.published[doc.source] && HasToken(doc.fields) && doc.source in s.saved
       case Refused(doc) => doc.fields == s.published[doc.source] && HasToken(doc.fields)
       case Erased(doc, _) => Reports(s, doc.source, doc.fields, APPLYING) && doc.source in s.saved
       case Applied(doc) => Reports(s, doc.source, doc.fields, SUCCESS) && WasApplied(s, doc.source)
       case Rewriting(doc) => Reports(s, doc.source, doc.fields, SUCCESS) && WasApplied(s, doc.source)
  }

  /**
   An answer says nothing, repeats a publication without a token, or reports one that had a token:
   as applying, as failed, or as a success that was applied.  A consumer says that it applied a
   token only of such a success.
   */
  ghost predicate AnswerTrue(s: State, a: Answer) {
    || (a.fields == map[] && !a.applied)
    || exists n: nat :: n < |s.published| && AnswersFor(s, n, a)
  }

  predicate AnswersFor(s: State, n: nat, a: Answer)
    requires n < |s.published|
  {
    || (a.fields == s.published[n] && !HasToken(a.fields) && !a.applied)
    || (Reports(s, n, a.fields, APPLYING) && !a.applied)
    || (Reports(s, n, a.fields, ERROR) && !a.applied)
    || (Reports(s, n, a.fields, SUCCESS) && WasApplied(s, n))
  }

  ghost predicate True(s: State) {
    && (s.file.Some? ==> Traced(s, s.file.value))
    && (forall k :: k in s.consumers ==> GoodStage(s, s.consumers[k]))
    && (forall i :: 0 <= i < |s.answers| ==> AnswerTrue(s, s.answers[i]))
  }

  predicate Grown(s: State, t: State) {
    s.published <= t.published && s.saved <= t.saved && s.applied <= t.applied
  }

  lemma AppliedStays(s: State, t: State, n: nat)
    requires Grown(s, t)
    ensures WasApplied(s, n) ==> WasApplied(t, n)
  {
    if i :| 0 <= i < |s.applied| && s.applied[i].0 == n {
      assert t.applied[i].0 == n;
    }
  }

  lemma StageStays(s: State, t: State, c: Consumer)
    requires Grown(s, t) && GoodStage(s, c)
    ensures GoodStage(t, c)
  {
    AppliedStays(s, t, c.doc.source);
    hide WasApplied, Kept;
  }

  lemma TracedStays(s: State, t: State, doc: Doc)
    requires Grown(s, t) && Traced(s, doc)
    ensures Traced(t, doc)
  {
    AppliedStays(s, t, doc.source);
    hide WasApplied, Kept;
  }

  lemma AnswerStays(s: State, t: State, a: Answer)
    requires Grown(s, t) && AnswerTrue(s, a)
    ensures AnswerTrue(t, a)
  {
    hide WasApplied, Kept;
    if n: nat :| n < |s.published| && AnswersFor(s, n, a) {
      AppliedStays(s, t, n);
      assert AnswersFor(t, n, a);
    }
  }

  lemma WithoutReports(s: State, doc: Doc, phase: string)
    requires doc.source < |s.published| && HasToken(s.published[doc.source])
             && Kept(s.published[doc.source], doc.fields)
    ensures Reports(s, doc.source, Without(doc, phase).fields, phase)
  {
    assert TOKEN[0] != PHASE[0];
  }

  // A step that changes at most one consumer, and puts a traced file and true answers.
  lemma StepTrue(s: State, t: State, id: nat)
    requires True(s) && Grown(s, t)
    requires forall k :: k in t.consumers && k != id ==> k in s.consumers && t.consumers[k] == s.consumers[k]
    requires id in t.consumers ==> GoodStage(t, t.consumers[id])
    requires t.file == s.file || (t.file.Some? ==> Traced(t, t.file.value))
    requires t.answers == s.answers
             || (t.answers != [] && t.answers[..|t.answers| - 1] == s.answers
                 && AnswerTrue(t, t.answers[|t.answers| - 1]))
    ensures True(t)
  {
    hide GoodStage, Traced, AnswerTrue, Grown;
    forall k | k in t.consumers && k != id ensures GoodStage(t, t.consumers[k]) {
      StageStays(s, t, s.consumers[k]);
    }
    if t.file == s.file && s.file.Some? {
      TracedStays(s, t, s.file.value);
    }
    forall i | 0 <= i < |s.answers| ensures AnswerTrue(t, s.answers[i]) {
      AnswerStays(s, t, s.answers[i]);
    }
    assert forall i :: 0 <= i < |s.answers| ==> t.answers[i] == s.answers[i];
  }

  lemma ReadAnswer(s: State, doc: Doc)
    requires Traced(s, doc)
    ensures !HasToken(doc.fields) ==> AnswerTrue(s, Answer(doc.fields, false))
    ensures HasToken(doc.fields) ==> doc.fields == s.published[doc.source]
    ensures AnswerTrue(s, Answer(Sanitize(doc.fields), false))
  {
    hide WasApplied;
    var n := doc.source;
    if HasToken(doc.fields) {
      WithoutReports(s, doc, APPLYING);
      assert AnswersFor(s, n, Answer(Sanitize(doc.fields), false));
    } else {
      assert AnswersFor(s, n, Answer(doc.fields, false));
    }
  }

  lemma ReportAnswer(s: State, n: nat, fields: Fields, phase: string, applied: bool)
    requires Reports(s, n, fields, phase)
    requires ((phase == APPLYING || phase == ERROR) && !applied) || (phase == SUCCESS && WasApplied(s, n))
    ensures AnswerTrue(s, Answer(fields, applied))
  {
    hide Kept, WasApplied;
    assert AnswersFor(s, n, Answer(fields, applied));
  }

  lemma AppliedNow(s: State, call: (nat, string))
    ensures WasApplied(s.(applied := s.applied + [call]), call.0)
  {
    var t := s.(applied := s.applied + [call]);
    assert t.applied[|s.applied|] == call;
  }

  lemma ReadTrue(s: State, id: nat)
    requires True(s) && id !in s.consumers
    ensures True(AfterRead(s, id))
  {
    hide GoodStage, Traced, AnswerTrue;
    var t := AfterRead(s, id);
    if s.file.Some? {
      ReadAnswer(s, s.file.value);
      if HasToken(s.file.value.fields) {
        HoldingStage(s, t, s.file.value);
      } else {
        AnswerStays(s, t, Answer(s.file.value.fields, false));
      }
    } else {
      assert AnswerTrue(t, Answer(map[], false)) by { NothingSaid(t); }
    }
    StepTrue(s, t, id);
  }

  lemma NothingSaid(s: State)
    ensures AnswerTrue(s, Answer(map[], false))
  {}

  lemma HoldingStage(s: State, t: State, doc: Doc)
    requires Traced(s, doc) && HasToken(doc.fields) && t.published == s.published
    ensures GoodStage(t, Holding(doc))
  {
    hide Kept, WasApplied;
  }

  lemma SaveTrue(s: State, id: nat, stored: bool, complete: bool)
    requires True(s) && id in s.consumers && s.consumers[id].Holding?
    ensures True(Next(s, Save(id, stored, complete)))
  {
    hide Traced, AnswerTrue;
    var t := Next(s, Save(id, stored, complete));
    assert GoodStage(s, s.consumers[id]);
    StepTrue(s, t, id);
  }

  lemma EraseTrue(s: State, id: nat, written: bool)
    requires True(s) && id in s.consumers && (s.consumers[id].Saved? || s.consumers[id].Refused?)
    ensures True(AfterErase(s, id, written))
  {
    hide AnswerTrue, Kept, HasToken;
    var c, t := s.consumers[id], AfterErase(s, id, written);
    assert GoodStage(s, c);
    var phase := if c.Saved? then APPLYING else ERROR;
    WithoutReports(t, c.doc, phase);
    hide Without;
    ReportAnswer(t, c.doc.source, Without(c.doc, phase).fields, phase, false);
    assert Without(c.doc, phase).source == c.doc.source by { WithoutSource(c.doc, phase); }
    StepTrue(s, t, id);
  }

  lemma WithoutSource(doc: Doc, phase: string)
    ensures Without(doc, phase).source == doc.source
  {}

  lemma ApplyTrue(s: State, id: nat)
    requires True(s) && id in s.consumers && s.consumers[id].Erased?
    ensures True(Next(s, Apply(id)))
  {
    hide AnswerTrue, Kept, HasToken, Traced;
    var c, t := s.consumers[id], Next(s, Apply(id));
    assert GoodStage(s, c);
    AppliedNow(At(s, id, Applied(Without(c.doc, SUCCESS))), (c.doc.source, c.token));
    WithoutReports(t, c.doc, SUCCESS);
    WithoutSource(c.doc, SUCCESS);
    hide Without, WasApplied;
    StepTrue(s, t, id);
  }

  lemma FinishTrue(s: State, step: Step)
    requires True(s) && (step.Recheck? || step.Rewrite?)
    ensures True(Next(s, step))
  {
    hide AnswerTrue, Kept, HasToken, WasApplied;
    var t := Next(s, step);
    if t != s {
      assert GoodStage(s, s.consumers[step.id]);
      var doc := s.consumers[step.id].doc;
      AppliedStays(s, t, doc.source);
      ReportAnswer(t, doc.source, doc.fields, SUCCESS, true);
      StepTrue(s, t, step.id);
    }
  }

  lemma OutsideTrue(s: State, step: Step)
    requires True(s) && (step.Publish? || step.Remove? || step.Respond?)
    ensures True(Next(s, step))
  {
    hide GoodStage, AnswerTrue, Kept, HasToken, WasApplied;
    var t := Next(s, step);
    if step.Respond? && t != s {
      if s.file.Some? {
        ReadAnswer(s, s.file.value);
        AnswerStays(s, t, Answer(Sanitize(s.file.value.fields), false));
      } else {
        NothingSaid(t);
      }
    }
    forall k | k in s.consumers ensures GoodStage(t, s.consumers[k]) {
      StageStays(s, t, s.consumers[k]);
    }
    StepTrue(s, t, 0);
  }

  lemma NextTrue(s: State, step: Step)
    requires True(s)
    ensures True(Next(s, step))
  {
    hide True, AfterRead, AfterErase, MutexFree;
    match step
    case Publish(_) => OutsideTrue(s, step);
    case Remove => OutsideTrue(s, step);
    case Respond => OutsideTrue(s, step);
    case Read(id) =>
      if id !in s.consumers && MutexFree(s) {
        ReadTrue(s, id);
      }
    case Save(id, stored, complete) =>
      if id in s.consumers && s.consumers[id].Holding? {
        SaveTrue(s, id, stored, complete);
      }
    case Erase(id, written) =>
      if id in s.consumers && (s.consumers[id].Saved? || s.consumers[id].Refused?) {
        EraseTrue(s, id, written);
      }
    case Apply(id) =>
      if id in s.consumers && s.consumers[id].Erased? {
        ApplyTrue(s, id);
      }
    case Recheck(_) => FinishTrue(s, step);
    case Rewrite(_, _) => FinishTrue(s, step);
  }

  /**
   In every interleaving the state file is a publication of the worker, or the rest of one that had
   a token, in a phase that is true of it; and every answer is true.
   */
  lemma {:induction false} StatesAreTrue(steps: seq<Step>)
    ensures True(Run(EMPTY, steps))
  {
    hide True, Next;
    if steps == [] {
      assert True(EMPTY) by { EmptyTrue(); }
    } else {
      StatesAreTrue(steps[..|steps| - 1]);
      NextTrue(Run(EMPTY, steps[..|steps| - 1]), steps[|steps| - 1]);
    }
  }

  lemma EmptyTrue()
    ensures True(EMPTY)
  {}
}
