/**
 How a token captured by the browser worker reaches the instances (internal/server/settings.go).
 Consumers read, save, erase and rewrite the state file under one mutex, but the worker
 publishes by renaming over the file without it, and the token is applied outside the mutex.
 Every read, save, write and call is one atomic step here; the mutex spans several of them.
 */
module Handoff {
  import opened Text

  type Fields = map<string, string>

  const TOKEN := "token"
  const PHASE := "phase"
  const APPLYING := "applying"
  const SUCCESS := "success"
  const ERROR := "error"

  // A file the worker wrote, or one a consumer derived from it; `source` numbers the publication.
  datatype Doc = Doc(fields: Fields, source: nat)

  function TokenOf(fields: Fields): string {
    if TOKEN in fields then fields[TOKEN] else ""
  }

  predicate HasToken(fields: Fields) {
    TokenOf(fields) != ""
  }

  function PhaseOf(fields: Fields): string {
    if PHASE in fields then fields[PHASE] else ""
  }

  // The state without its token, in the given phase.
  function Without(doc: Doc, phase: string): Doc {
    Doc((doc.fields - {TOKEN})[PHASE := phase], doc.source)
  }

  // sanitizeWBSessionStateForResponse
  function Sanitize(fields: Fields): Fields {
    if HasToken(fields) then (fields - {TOKEN})[PHASE := APPLYING] else fields
  }

  // Where a call of consumeWBSessionState stands.
  datatype Consumer =
    | Holding(doc: Doc)       // it has read a token
    | Saved(doc: Doc)         // the token is in the settings store
    | Refused(doc: Doc)       // saving failed
    | Erased(doc: Doc, token: string)   // the file no longer holds it; the mutex is free again
    | Applied(doc: Doc)       // UpdateWBToken returned
    | Rewriting(doc: Doc)     // it has seen the file still applying

  predicate Locked(c: Consumer) {
    c.Holding? || c.Saved? || c.Refused? || c.Rewriting?
  }

  datatype Answer = Answer(fields: Fields, applied: bool)

  datatype State = State(
    file: Option<Doc>,                 // None: missing or unreadable
    consumers: map<nat, Consumer>,
    published: seq<Fields>,            // everything the worker wrote, by number
    saved: set<nat>,                   // publications whose token was stored
    erased: set<nat>,                  // publications whose token the success path erased
    applied: seq<(nat, string)>,       // the calls of UpdateWBToken
    answers: seq<Answer>)              // what consumers and readers returned

  const EMPTY := State(None, map[], [], {}, {}, [], [])

  datatype Step =
    // the worker renames a new state over the file (as the expiring monitor does, without a token)
    | Publish(fields: Fields)
    | Remove                                        // a handler deletes the file
    | Read(id: nat)
    | Save(id: nat, stored: bool, complete: bool)   // it may fail after storing the token
    | Erase(id: nat, written: bool)
    | Apply(id: nat)
    | Recheck(id: nat)
    | Rewrite(id: nat, written: bool)
    | Respond                                       // readWBSessionStateForResponse

  predicate MutexFree(s: State) {
    forall k :: k in s.consumers ==> !Locked(s.consumers[k])
  }

  function Return(s: State, id: nat, fields: Fields, applied: bool): State {
    s.(consumers := s.consumers - {id}, answers := s.answers + [Answer(fields, applied)])
  }

  function At(s: State, id: nat, c: Consumer): State {
    s.(consumers := s.consumers[id := c])
  }

  function AfterRead(s: State, id: nat): State {
    if s.file.None? then Return(s, id, map[], false)
    else if !HasToken(s.file.value.fields) then Return(s, id, s.file.value.fields, false)
    else At(s, id, Holding(s.file.value))
  }

  // The success path erases and goes on to apply; the failure path erases and returns.
  function AfterErase(s: State, id: nat, written: bool): State
    requires id in s.consumers && (s.consumers[id].Saved? || s.consumers[id].Refused?)
  {
    var doc := s.consumers[id].doc;
    var cleared := Without(doc, if s.consumers[id].Saved? then APPLYING else ERROR);
    var t := if written then s.(file := Some(cleared)) else s;
    if s.consumers[id].Saved? && written
        then At(t, id, Erased(cleared, TokenOf(doc.fields))).(erased := s.erased + {doc.source})
    else Return(t, id, cleared.fields, false)
  }

  function Next(s: State, step: Step): State {
    match step
    case Publish(fields) =>
      s.(file := Some(Doc(fields, |s.published|)), published := s.published + [fields])
    case Remove => s.(file := None)
    case Read(id) =>
      if id in s.consumers || !MutexFree(s) then s else AfterRead(s, id)
    case Save(id, stored, complete) =>
      if id !in s.consumers || !s.consumers[id].Holding? then s else
      var doc := s.consumers[id].doc;
      var t := if stored || complete then s.(saved := s.saved + {doc.source}) else s;
      At(t, id, if complete then Saved(doc) else Refused(doc))
    case Erase(id, written) =>
      if id !in s.consumers || !(s.consumers[id].Saved? || s.consumers[id].Refused?) then s
          else AfterErase(s, id, written)
    case Apply(id) =>
      if id !in s.consumers || !s.consumers[id].Erased? then s else
      var doc := s.consumers[id].doc;
      At(s, id, Applied(Without(doc, SUCCESS))).(applied := s.applied + [(doc.source, s.consumers[id].token)])
    case Recheck(id) =>
      if id !in s.consumers || !s.consumers[id].Applied? || !MutexFree(s) then s else
      var doc := s.consumers[id].doc;
      if s.file.Some? && PhaseOf(s.file.value.fields) == APPLYING then At(s, id, Rewriting(doc))
      else Return(s, id, doc.fields, true)
    case Rewrite(id, written) =>
      if id !in s.consumers || !s.consumers[id].Rewriting? then s else
      var doc := s.consumers[id].doc;
      Return(if written then s.(file := Some(doc)) else s, id, doc.fields, true)
    case Respond =>
      if !MutexFree(s) then s else
      s.(answers := s.answers + [Answer(if s.file.Some? then Sanitize(s.file.value.fields) else map[], false)])
  }

  function Run(s: State, steps: seq<Step>): State {
    if steps == [] then s else Next(Run(s, steps[..|steps| - 1]), steps[|steps| - 1])
  }

  // ---------- what every step keeps ----------

  // A document whose token, if any, is the one published under its number and not yet erased.
  predicate Fresh(s: State, doc: Doc) {
    doc.source < |s.published|
    && (HasToken(doc.fields) ==> doc.source !in s.erased && TokenOf(doc.fields) == TokenOf(s.published[doc.source]))
  }

  predicate WasApplied(s: State, source: nat) {
    exists i :: 0 <= i < |s.applied| && s.applied[i].0 == source
  }

  ghost predicate GoodConsumer(s: State, c: Consumer) {
    if c.Holding? || c.Saved? || c.Refused? then
      Fresh(s, c.doc) && HasToken(c.doc.fields) && (c.Saved? ==> c.doc.source in s.saved)
    else
      && !HasToken(c.doc.fields) && c.doc.source in s.erased
      && (c.Erased? ==> (c.doc.source < |s.published| && c.token == TokenOf(s.published[c.doc.source])
                         && !WasApplied(s, c.doc.source)))
  }

  predicate BothErased(c: Consumer, d: Consumer) {
    c.Erased? && d.Erased? && c.doc.source == d.doc.source
  }

  ghost predicate Consumers(s: State) {
    && (forall k :: k in s.consumers ==> GoodConsumer(s, s.consumers[k]))
    && (forall a, b :: a in s.consumers && b in s.consumers && Locked(s.consumers[a]) && Locked(s.consumers[b]) ==>
         a == b)
    && (forall a, b :: a in s.consumers && b in s.consumers && BothErased(s.consumers[a], s.consumers[b]) ==> a == b)
  }

  // A token is applied at most once, as it was published, after it was stored and erased.
  predicate Ledger(s: State) {
    && s.erased <= s.saved
    && (forall n :: n in s.saved ==> n < |s.published|)
    && (forall i :: 0 <= i < |s.applied| ==>
          (s.applied[i].0 in s.erased && s.applied[i].0 < |s.published|
              && s.applied[i].1 == TokenOf(s.published[s.applied[i].0])))
    && (forall i, j :: 0 <= i < j < |s.applied| ==> s.applied[i].0 != s.applied[j].0)
  }

  predicate NoTokenAnswered(s: State) {
    forall i :: 0 <= i < |s.answers| ==> !HasToken(s.answers[i].fields)
  }

  ghost predicate Inv(s: State) {
    Consumers(s) && Ledger(s) && NoTokenAnswered(s) && (s.file.Some? ==> Fresh(s, s.file.value))
  }

  lemma Cleared(doc: Doc, phase: string)
    ensures !HasToken(Without(doc, phase).fields) && PhaseOf(Without(doc, phase).fields) == phase
  {
    assert TOKEN[0] != PHASE[0];
  }

  lemma Sanitized(fields: Fields)
    ensures !HasToken(Sanitize(fields))
    ensures HasToken(fields) ==> PhaseOf(Sanitize(fields)) == APPLYING
  {
    assert TOKEN[0] != PHASE[0];
  }

  // Steps that touch neither the history nor any consumer but `id` keep the other consumers good.
  lemma OthersKeep(s: State, t: State)
    requires Inv(s) && s.published <= t.published && t.erased == s.erased && s.saved <= t.saved
             && t.applied == s.applied
    ensures forall k :: k in s.consumers ==> GoodConsumer(t, s.consumers[k])
    ensures s.file.Some? ==> Fresh(t, s.file.value)
    ensures (forall n :: n in t.saved ==> n < |t.published|) ==> Ledger(t)
  {}

  lemma FileStepKeepsInv(s: State, step: Step)
    requires Inv(s) && (step.Publish? || step.Remove? || step.Respond?)
    ensures Inv(Next(s, step))
  {
    var t := Next(s, step);
    OthersKeep(s, t);
    if step.Respond? && s.file.Some? {
      Sanitized(s.file.value.fields);
    }
    if step.Publish? {
      assert |s.published| !in s.erased;
    }
  }

  lemma ReadKeepsInv(s: State, id: nat)
    requires Inv(s)
    ensures Inv(Next(s, Read(id)))
  {
    OthersKeep(s, Next(s, Read(id)));
  }

  lemma SaveKeepsInv(s: State, id: nat, stored: bool, complete: bool)
    requires Inv(s)
    ensures Inv(Next(s, Save(id, stored, complete)))
  {
    OthersKeep(s, Next(s, Save(id, stored, complete)));
  }

  lemma EraseKeepsInv(s: State, id: nat, written: bool)
    requires Inv(s)
    ensures Inv(Next(s, Erase(id, written)))
  {
    if id in s.consumers && (s.consumers[id].Saved? || s.consumers[id].Refused?) {
      var doc := s.consumers[id].doc;
      Cleared(doc, APPLYING);
      Cleared(doc, ERROR);
      hide Without;
      if s.consumers[id].Saved? && written {
        SuccessKeepsInv(s, id, Without(doc, APPLYING));
      } else {
        OthersKeep(s, Next(s, Erase(id, written)));
      }
    }
  }

  lemma SuccessKeepsInv(s: State, id: nat, cleared: Doc)
    requires Inv(s) && id in s.consumers && s.consumers[id].Saved?
    requires cleared.source == s.consumers[id].doc.source && !HasToken(cleared.fields)
    ensures var doc := s.consumers[id].doc;
            Inv(At(s, id, Erased(cleared, TokenOf(doc.fields))).(file := Some(cleared), erased := s.erased
                + {doc.source}))
  {
    hide TokenOf, HasToken;
    var doc := s.consumers[id].doc;
    var t := At(s, id, Erased(cleared, TokenOf(doc.fields))).(file := Some(cleared), erased := s.erased + {doc.source});
    assert GoodConsumer(s, s.consumers[id]);
    assert !WasApplied(s, doc.source);
    assert WasApplied(t, doc.source) ==> WasApplied(s, doc.source);
    forall k | k in t.consumers ensures GoodConsumer(t, t.consumers[k]) {
      if k != id {
        assert GoodConsumer(s, s.consumers[k]) && !Locked(s.consumers[k]);
        assert WasApplied(t, s.consumers[k].doc.source) ==> WasApplied(s, s.consumers[k].doc.source);
      }
    }
  }

  lemma ApplyKeepsInv(s: State, id: nat)
    requires Inv(s)
    ensures Inv(Next(s, Apply(id)))
  {
    if id in s.consumers && s.consumers[id].Erased? {
      var doc := s.consumers[id].doc;
      Cleared(doc, SUCCESS);
      hide Without, HasToken, TokenOf, NoTokenAnswered;
      AppliedKeeps(s, id, Without(doc, SUCCESS));
      AppliedLedger(s, id, Without(doc, SUCCESS));
    }
  }

  function Applying(s: State, id: nat, done: Doc): State
    requires id in s.consumers && s.consumers[id].Erased?
  {
    At(s, id, Applied(done)).(applied := s.applied + [(s.consumers[id].doc.source, s.consumers[id].token)])
  }

  lemma AppliedLedger(s: State, id: nat, done: Doc)
    requires Consumers(s) && Ledger(s) && id in s.consumers && s.consumers[id].Erased?
    ensures Ledger(Applying(s, id, done))
  {
    assert GoodConsumer(s, s.consumers[id]);
    hide Fresh, HasToken, TokenOf;
  }

  lemma AppliedKeeps(s: State, id: nat, done: Doc)
    requires Consumers(s) && id in s.consumers && s.consumers[id].Erased?
    requires !HasToken(done.fields) && done.source == s.consumers[id].doc.source
    ensures Consumers(Applying(s, id, done))
    ensures s.file.Some? && Fresh(s, s.file.value) ==> Fresh(Applying(s, id, done), s.file.value)
  {
    hide HasToken, TokenOf;
    var t := Applying(s, id, done);
    var source := s.consumers[id].doc.source;
    assert GoodConsumer(s, s.consumers[id]);
    forall k | k in t.consumers ensures GoodConsumer(t, t.consumers[k]) {
      if k != id {
        assert GoodConsumer(s, s.consumers[k]) && !BothErased(s.consumers[k], s.consumers[id]);
        AppliedElsewhere(s.applied, (source, s.consumers[id].token), s, t, s.consumers[k].doc.source);
      }
    }
  }

  lemma AppliedElsewhere(applied: seq<(nat, string)>, call: (nat, string), s: State, t: State, source: nat)
    requires s.applied == applied && t.applied == applied + [call]
    ensures WasApplied(t, source) ==> WasApplied(s, source) || source == call.0
  {}

  lemma FinishKeepsInv(s: State, step: Step)
    requires Inv(s) && (step.Recheck? || step.Rewrite?)
    ensures Inv(Next(s, step))
  {
    OthersKeep(s, Next(s, step));
  }

  lemma NextKeepsInv(s: State, step: Step)
    requires Inv(s)
    ensures Inv(Next(s, step))
  {
    hide Inv, Next;
    match step
    case Publish(_) => FileStepKeepsInv(s, step);
    case Remove => FileStepKeepsInv(s, step);
    case Respond => FileStepKeepsInv(s, step);
    case Read(id) => ReadKeepsInv(s, id);
    case Save(id, stored, complete) => SaveKeepsInv(s, id, stored, complete);
    case Erase(id, written) => EraseKeepsInv(s, id, written);
    case Apply(id) => ApplyKeepsInv(s, id);
    case Recheck(_) => FinishKeepsInv(s, step);
    case Rewrite(_, _) => FinishKeepsInv(s, step);
  }

  lemma EmptyInv()
    ensures Inv(EMPTY)
  {}

  lemma {:induction false} RunKeepsInv(steps: seq<Step>)
    ensures Inv(Run(EMPTY, steps))
  {
    hide Inv, Next;
    if steps == [] {
      EmptyInv();
    } else {
      RunKeepsInv(steps[..|steps| - 1]);
      NextKeepsInv(Run(EMPTY, steps[..|steps| - 1]), steps[|steps| - 1]);
    }
  }

  // ---------- main results ----------

  /** In every interleaving each published token reaches UpdateWBToken at most once, and verbatim. */
  lemma {:induction false} AppliedAtMostOnce(steps: seq<Step>)
    ensures var s := Run(EMPTY, steps);
            && (forall i, j :: 0 <= i < j < |s.applied| ==> s.applied[i].0 != s.applied[j].0)
            && (forall i :: 0 <= i < |s.applied| ==>
                  (s.applied[i].0 < |s.published| && s.applied[i].1 == TokenOf(s.published[s.applied[i].0])))
  {
    RunKeepsInv(steps);
  }

  /** A token is stored before the success path erases it, and erased before it is applied. */
  lemma {:induction false} StoredThenErasedThenApplied(steps: seq<Step>, step: Step, n: nat)
    ensures var s, t := Run(EMPTY, steps), Next(Run(EMPTY, steps), step);
            && (n in t.erased && n !in s.erased ==> n in s.saved)
            && (WasApplied(t, n) && !WasApplied(s, n) ==> n in s.erased)
  {
    RunKeepsInv(steps);
    var s := Run(EMPTY, steps);
    hide Run;
    StepOrder(s, step, n);
  }

  lemma StepOrder(s: State, step: Step, n: nat)
    requires Inv(s)
    ensures var t := Next(s, step);
            && (n in t.erased && n !in s.erased ==> n in s.saved)
            && (WasApplied(t, n) && !WasApplied(s, n) ==> n in s.erased)
  {
    if step.Apply? && step.id in s.consumers && s.consumers[step.id].Erased? {
      assert GoodConsumer(s, s.consumers[step.id]);
      var source := s.consumers[step.id].doc.source;
      assert forall i :: 0 <= i < |s.applied| ==> Next(s, step).applied[i] == s.applied[i];
      assert WasApplied(Next(s, step), n) ==> WasApplied(s, n) || n == source;
    } else if step.Erase? && step.id in s.consumers {
      assert GoodConsumer(s, s.consumers[step.id]);
    }
  }

  /** Nothing a consumer or a reader returns carries a token. */
  lemma {:induction false} AnswersCarryNoToken(steps: seq<Step>, i: nat)
    requires i < |Run(EMPTY, steps).answers|
    ensures !HasToken(Run(EMPTY, steps).answers[i].fields)
  {
    RunKeepsInv(steps);
  }

  // What the last write of the worker or of a removing handler left; None without such a write.
  function LastWrite(steps: seq<Step>): Option<Fields> {
    if steps == [] then None
    else match steps[|steps| - 1]
      case Publish(fields) => Some(fields)
      case Remove => Some(map[])
      case _ => LastWrite(steps[..|steps| - 1])
  }

  // Consumer `id` writes the state file in none of the steps.
  predicate NoWrite(steps: seq<Step>, id: nat) {
    forall i :: 0 <= i < |steps| ==> !((steps[i].Erase? || steps[i].Rewrite?) && steps[i].id == id)
  }

  // The critical sections of a consumer: it reads a token, or finds its own state still applying.
  predicate Takes(s: State, enter: Step, id: nat) {
    || (enter == Read(id) && id !in s.consumers && MutexFree(s) && s.file.Some? && HasToken(s.file.value.fields))
    || (enter == Recheck(id) && id in s.consumers && s.consumers[id].Applied? && MutexFree(s)
        && s.file.Some? && PhaseOf(s.file.value.fields) == APPLYING)
  }

  // Between entering at `t` and its write the consumer keeps the mutex; it moves on from what it read.
  predicate MovesOn(c: Consumer, d: Consumer) {
    if c.Holding? then (d.Holding? || d.Saved? || d.Refused?) && d.doc == c.doc else c.Rewriting? && d == c
  }

  predicate StillIn(t: State, s: State, id: nat) {
    && id in t.consumers && id in s.consumers && MovesOn(t.consumers[id], s.consumers[id])
    && |t.published| <= |s.published| && (t.consumers[id].Rewriting? ==> s.saved == t.saved)
    && (forall n :: n in s.saved ==> n < |t.published|)
    && (forall k :: k in s.consumers ==> s.consumers[k].doc.source < |t.published|)
  }

  lemma StillInStep(t: State, s: State, step: Step, id: nat)
    requires Consumers(s) && StillIn(t, s, id) && !((step.Erase? || step.Rewrite?) && step.id == id)
    ensures StillIn(t, Next(s, step), id)
    ensures !step.Publish? && !step.Remove? ==> Next(s, step).file == s.file
  {}

  lemma {:induction false} PublishedGrows(s: State, steps: seq<Step>)
    ensures |s.published| <= |Run(s, steps).published|
  {
    if steps != [] {
      PublishedGrows(s, steps[..|steps| - 1]);
    }
  }

  // While the mutex is held, only writes from outside change the file.
  lemma {:induction false} FileBetween(s: State, steps: seq<Step>, id: nat)
    requires Inv(s) && StillIn(s, s, id) && NoWrite(steps, id)
    ensures var t := Run(s, steps); Inv(t) && StillIn(s, t, id)
    ensures var t := Run(s, steps);
            match LastWrite(steps)
            case None => t.file == s.file
            case Some(fields) =>
              if t.file.Some? then t.file.value.fields == fields && t.file.value.source >= |s.published|
                  else fields == map[]
  {
    hide Inv, StillIn;
    if steps != [] {
      var init, last := steps[..|steps| - 1], steps[|steps| - 1];
      FileBetween(s, init, id);
      var u := Run(s, init);
      NextKeepsInv(u, last);
      InnerStep(s, u, last, id);
      PublishedGrows(s, init);
    }
  }

  lemma InnerStep(t: State, s: State, step: Step, id: nat)
    requires Inv(s) && StillIn(t, s, id) && !((step.Erase? || step.Rewrite?) && step.id == id)
    ensures StillIn(t, Next(s, step), id)
    ensures !step.Publish? && !step.Remove? ==> Next(s, step).file == s.file
  {
    hide Consumers, Next, StillIn;
    StillInStep(t, s, step, id);
  }

  // The file holds a token that nobody stored.
  predicate Unsaved(s: State) {
    s.file.Some? && HasToken(s.file.value.fields) && s.file.value.source !in s.saved
  }

  // Where consumer `id` stands after entering its critical section and further steps.
  function Later(before: seq<Step>, enter: Step, between: seq<Step>): State {
    Run(Next(Run(EMPTY, before), enter), between)
  }

  lemma Entered(s: State, enter: Step, id: nat)
    requires Inv(s) && Takes(s, enter, id)
    ensures var t := Next(s, enter);
            && Inv(t) && StillIn(t, t, id) && t.file == s.file && t.file.Some?
            && (t.consumers[id].Holding? ==> t.consumers[id].doc == t.file.value)
  {
    NextKeepsInv(s, enter);
    hide Fresh, NoTokenAnswered, WasApplied;
  }

  // What the file holds when consumer `id`, still in its critical section, is about to write.
  lemma {:induction false} LaterFile(before: seq<Step>, enter: Step, id: nat, between: seq<Step>)
    requires Takes(Run(EMPTY, before), enter, id) && NoWrite(between, id)
    ensures var s, t := Next(Run(EMPTY, before), enter), Later(before, enter, between);
            && Inv(t) && StillIn(s, t, id) && s.file.Some?
            && (s.consumers[id].Holding? ==> s.consumers[id].doc == s.file.value)
            && match LastWrite(between)
               case None => t.file == s.file
               case Some(fields) =>
                 if t.file.Some? then t.file.value.fields == fields && t.file.value.source >= |s.published|
                     else fields == map[]
  {
    RunKeepsInv(before);
    hide Inv, StillIn, Next, Takes;
    Entered(Run(EMPTY, before), enter, id);
    FileBetween(Next(Run(EMPTY, before), enter), between, id);
  }

  /**
   A consumer writes the file in three places: it erases the token it stored, it erases the
   token it could not store, and it rewrites its own state in the end.  It holds the mutex
   since it last looked at the file, but the worker may publish meanwhile.  At each of the
   three writes the file holds a token nobody stored exactly when the last outside write since
   was a publication with a token, or nothing was written and the token the consumer
   looked at is itself unsaved, which a successful save excludes.
   */
  lemma {:induction false} WriteOverwritesUnsaved(before: seq<Step>, enter: Step, id: nat, between: seq<Step>)
    requires Takes(Run(EMPTY, before), enter, id) && NoWrite(between, id)
    ensures var s, t := Next(Run(EMPTY, before), enter), Later(before, enter, between);
            && s.file.Some? && id in t.consumers && Locked(t.consumers[id])
            && (Unsaved(t) <==>
                  (match LastWrite(between)
                   case Some(fields) => HasToken(fields)
                   case None =>
                     match t.consumers[id]
                     case Saved(_) => false
                     case Rewriting(_) => Unsaved(s)
                     case _ => s.file.value.source !in t.saved))
  {
    LaterFile(before, enter, id, between);
    var s, t := Next(Run(EMPTY, before), enter), Later(before, enter, between);
    hide Run, Next, Later, LastWrite, Takes, NoWrite, Ledger, NoTokenAnswered, WasApplied;
    assert GoodConsumer(t, t.consumers[id]);
  }

  // Publication n is neither in the file nor held by anyone who may still store or apply it.
  predicate Gone(s: State, n: nat) {
    && n < |s.published| && n !in s.saved && n !in s.erased
    && (s.file.Some? && HasToken(s.file.value.fields) ==> s.file.value.source != n)
    && (forall k :: k in s.consumers && (s.consumers[k].Holding? || s.consumers[k].Saved?) ==>
         s.consumers[k].doc.source != n)
  }

  lemma GoneStep(s: State, step: Step, n: nat)
    requires Inv(s) && Gone(s, n)
    ensures Gone(Next(s, step), n)
  {
    match step
    case Erase(id, written) =>
      if id in s.consumers && (s.consumers[id].Saved? || s.consumers[id].Refused?) {
        Cleared(s.consumers[id].doc, APPLYING);
        Cleared(s.consumers[id].doc, ERROR);
        hide Without, Consumers, Ledger, Fresh;
      }
    case Rewrite(id, _) =>
      if id in s.consumers && s.consumers[id].Rewriting? {
        assert GoodConsumer(s, s.consumers[id]);
      }
    case Publish(_) =>
    case Remove =>
    case Read(_) =>
    case Save(_, _, _) =>
    case Apply(_) =>
    case Recheck(_) =>
    case Respond =>
  }

  lemma {:induction false} GoneForever(s: State, steps: seq<Step>, n: nat)
    requires Inv(s) && Gone(s, n)
    ensures Inv(Run(s, steps)) && Gone(Run(s, steps), n)
  {
    hide Inv, Gone;
    if steps != [] {
      GoneForever(s, steps[..|steps| - 1], n);
      GoneStep(Run(s, steps[..|steps| - 1]), steps[|steps| - 1], n);
      NextKeepsInv(Run(s, steps[..|steps| - 1]), steps[|steps| - 1]);
    }
  }

  // The write consumer `id` does next.
  function Overwriting(s: State, id: nat): Step
    requires id in s.consumers
  {
    if s.consumers[id].Rewriting? then Rewrite(id, true) else Erase(id, true)
  }

  predicate AboutToWrite(s: State, id: nat) {
    id in s.consumers && (s.consumers[id].Saved? || s.consumers[id].Refused? || s.consumers[id].Rewriting?)
  }

  lemma OverwriteLoses(s: State, id: nat)
    requires Inv(s) && AboutToWrite(s, id) && Unsaved(s)
    ensures Gone(Next(s, Overwriting(s, id)), s.file.value.source)
  {
    var c := s.consumers[id];
    assert GoodConsumer(s, c);
    if !c.Rewriting? {
      Cleared(c.doc, APPLYING);
      Cleared(c.doc, ERROR);
    }
    hide Without, NoTokenAnswered, WasApplied;
  }

  /** A token any of the three writes overwrites before somebody stored it is never stored or applied afterwards. */
  lemma {:induction false} OverwrittenIsLost(before: seq<Step>, enter: Step, id: nat, between: seq<Step>,
      after: seq<Step>)
    requires Takes(Run(EMPTY, before), enter, id) && NoWrite(between, id)
    requires AboutToWrite(Later(before, enter, between), id) && Unsaved(Later(before, enter, between))
    ensures var s := Later(before, enter, between);
            var t := Run(Next(s, Overwriting(s, id)), after);
            s.file.value.source !in t.saved && !WasApplied(t, s.file.value.source)
  {
    LaterFile(before, enter, id, between);
    var s := Later(before, enter, between);
    hide Run, Later, LastWrite, Takes, NoWrite, Next, StillIn;
    OverwriteLoses(s, id);
    NextKeepsInv(s, Overwriting(s, id));
    GoneForever(Next(s, Overwriting(s, id)), after, s.file.value.source);
  }

  lemma {:induction false} RunSnoc(s: State, steps: seq<Step>, step: Step)
    ensures Run(s, steps + [step]) == Next(Run(s, steps), step)
  {
    assert (steps + [step])[..|steps|] == steps;
  }

  // One consumer alone: it reads, saves, erases and applies the token of a.
  function OneDelivery(a: Fields): seq<Step> {
    [Publish(a)] + [Read(0)] + [Save(0, true, true)] + [Erase(0, true)] + [Apply(0)]
  }

  lemma Delivered(a: Fields)
    requires HasToken(a)
    ensures var s := Run(EMPTY, OneDelivery(a));
            && s.consumers == map[0 := Applied(Without(Without(Doc(a, 0), APPLYING), SUCCESS))]
            && s.file == Some(Without(Doc(a, 0), APPLYING)) && s.saved == {0} && s.published == [a]
  {
    hide HasToken, Without;
    var s1 := Next(EMPTY, Publish(a));
    var s2 := Next(s1, Read(0));
    var s3 := Next(s2, Save(0, true, true));
    var s4 := Next(s3, Erase(0, true));
    RunSnoc(EMPTY, [], Publish(a));
    RunSnoc(EMPTY, [Publish(a)], Read(0));
    RunSnoc(EMPTY, [Publish(a)] + [Read(0)], Save(0, true, true));
    RunSnoc(EMPTY, [Publish(a)] + [Read(0)] + [Save(0, true, true)], Erase(0, true));
    RunSnoc(EMPTY, [Publish(a)] + [Read(0)] + [Save(0, true, true)] + [Erase(0, true)], Apply(0));
    assert s4.consumers == map[0 := Erased(Without(Doc(a, 0), APPLYING), TokenOf(a))];
  }

  /** Such a run: the worker publishes b after the recheck, and the last write takes b's token with it. */
  lemma {:induction false} RewriteLosesToken(a: Fields, b: Fields, after: seq<Step>)
    requires HasToken(a) && HasToken(b)
    ensures Takes(Run(EMPTY, OneDelivery(a)), Recheck(0), 0) && NoWrite([Publish(b)], 0)
    ensures var s := Later(OneDelivery(a), Recheck(0), [Publish(b)]);
            && s.published == [a, b] && Unsaved(s) && s.consumers.Keys == {0} && s.consumers[0].Rewriting?
            && var t := Run(Next(s, Rewrite(0, true)), after); 1 !in t.saved && !WasApplied(t, 1)
  {
    Delivered(a);
    Cleared(Doc(a, 0), APPLYING);
    var s := Run(EMPTY, OneDelivery(a));
    assert Run(Next(s, Recheck(0)), []) == Next(s, Recheck(0));
    RunSnoc(Next(s, Recheck(0)), [], Publish(b));
    OverwrittenIsLost(OneDelivery(a), Recheck(0), 0, [Publish(b)], after);
  }
}
