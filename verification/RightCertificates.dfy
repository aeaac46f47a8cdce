/** Which certificate a handler succeeds with: one that was made for its own version. */
module RightCertificates {
  import opened Rows
  import opened CloudAssets

  /** The provider's certificate `id` was made for version `v`. */
  predicate MadeFor(t: Tables, id: Id, v: Id) {
    id in t.made && t.made[id].version == v
  }

  /** A memo of an id and a version speaks of a certificate of that version. */
  predicate True(t: Tables, memo: Memo) {
    memo.remote.Some? && memo.last.Some? ==> MadeFor(t, memo.remote.value, memo.last.value)
  }

  ghost predicate TrueMemos(w: World, steps: seq<Step>)
    requires Valid(w, steps)
    decreases |steps|
  {
    steps == [] || ((steps[0].Reload? ==> True(w.t, steps[0].memo)) && TrueMemos(Next(w, steps[0]), steps[1..]))
  }

  // ---------- the invariant ----------

  ghost predicate RowsRight(t: Tables) {
    && (forall id | id in t.made :: id < t.nextId)
    && (forall p | p in t.assets :: t.assets[p] in t.made && t.made[t.assets[p]] == p)
  }

  /** The id a handler is about to use, or succeeded with, was made for its version, and with a lookup
      the success is one its account can see. */
  predicate HandlerRight(w: World, me: Handler) {
    match me.phase
    case Looking(id, _) => MadeFor(w.t, id, me.pair.version)
    case Saving(id, _) => id in w.t.made && w.t.made[id] == me.pair
    case Done(id) =>
      && MadeFor(w.t, id, me.pair.version)
      && (w.lookup ==> Account(w.account, w.t.made[id].credential) == Account(w.account, me.pair.credential))
    case _ => true
  }

  ghost predicate Right(w: World) {
    RowsRight(w.t) && forall h | h in w.handlers :: HandlerRight(w, w.handlers[h])
  }

  lemma MadeOnly(w: World, step: Step)
    requires RowsRight(w.t) && Enabled(w, step)
    ensures var t' := Next(w, step).t;
            && Next(w, step).lookup == w.lookup && Next(w, step).account == w.account
            && (forall id | id in w.t.made :: id in t'.made && t'.made[id] == w.t.made[id])
            && (forall id | id in t'.made :: id < t'.nextId)
  {
    match step
    case Upload(h, answered) =>
    case Save(h, ok) =>
    case _ =>
  }

  lemma RowsStayRight(w: World, step: Step)
    requires Right(w) && Enabled(w, step)
    ensures RowsRight(Next(w, step).t)
  {
    MadeOnly(w, step);
    match step
    case Upload(h, answered) =>
    case Save(h, ok) => assert HandlerRight(w, w.handlers[h]);
    case _ =>
  }

  lemma ReloadRight(w: World, h: Id, memo: Memo)
    requires RowsRight(w.t) && Enabled(w, Reload(h, memo)) && True(w.t, memo)
    ensures var w' := Next(w, Reload(h, memo)); HandlerRight(w', w'.handlers[h])
  {
  }

  /** Nothing about a handler at rest can turn wrong. */
  lemma RestsRight(w: World, step: Step, me: Handler)
    requires RowsRight(w.t) && HandlerRight(w, me) && Enabled(w, step)
    ensures HandlerRight(Next(w, step), me)
  {
    MadeOnly(w, step);
  }

  lemma UploadRight(w: World, h: Id, answered: bool)
    requires Right(w) && Enabled(w, Step.Upload(h, answered))
    ensures HandlerRight(Next(w, Step.Upload(h, answered)), Next(w, Step.Upload(h, answered)).handlers[h])
  {
  }

  predicate Acts(step: Step, h: Id) {
    match step
    case ProviderDelete(_) => false
    case MoveVersion(_) => false
    case MoveCredential(_, _) => false
    case _ => step.h == h
  }

  lemma OthersRest(w: World, step: Step, h: Id)
    requires Enabled(w, step) && h in Next(w, step).handlers && !Acts(step, h)
    ensures h in w.handlers && Next(w, step).handlers[h] == w.handlers[h]
  {
    match step
    case Begin(g, kind) =>
    case Acquire(g) =>
    case Reload(g, memo) =>
    case Look(g) =>
    case Upload(g, answered) =>
    case Save(g, ok) =>
    case GiveUp(g) =>
    case Unlock(g) =>
    case _ =>
  }

  lemma ActorStaysRight(w: World, step: Step, h: Id)
    requires Right(w) && Enabled(w, step) && (step.Reload? ==> True(w.t, step.memo)) && Acts(step, h)
    ensures h in Next(w, step).handlers && HandlerRight(Next(w, step), Next(w, step).handlers[h])
  {
    assert h in w.handlers ==> HandlerRight(w, w.handlers[h]);
    match step
    case Reload(g, memo) => ReloadRight(w, g, memo);
    case Upload(g, answered) => UploadRight(w, g, answered);
    case _ =>
  }

  lemma HandlersStayRight(w: World, step: Step, h: Id)
    requires Right(w) && Enabled(w, step) && (step.Reload? ==> True(w.t, step.memo)) && h in Next(w, step).handlers
    ensures HandlerRight(Next(w, step), Next(w, step).handlers[h])
  {
    if Acts(step, h) {
      ActorStaysRight(w, step, h);
    } else {
      OthersRest(w, step, h);
      RestsRight(w, step, w.handlers[h]);
    }
  }

  lemma RightStep(w: World, step: Step)
    requires Right(w) && Enabled(w, step) && (step.Reload? ==> True(w.t, step.memo))
    ensures Right(Next(w, step))
  {
    RowsStayRight(w, step);
    forall h | h in Next(w, step).handlers {
      HandlersStayRight(w, step, h);
    }
  }

  lemma {:induction false} RightRun(w: World, steps: seq<Step>)
    requires Right(w) && Valid(w, steps) && TrueMemos(w, steps)
    ensures Right(After(w, steps))
    decreases |steps|
  {
    if steps != [] {
      RightStep(w, steps[0]);
      RightRun(Next(w, steps[0]), steps[1..]);
    }
  }

  /** In every history in which memos are true, whatever else versions, credentials and the provider do:
      a handler succeeds with a certificate made for its own version, and with a lookup one made for a
      credential of its own account. */
  lemma SuccessIsOwnVersion(lookup: bool, account: map<Id, Id>, first: Id, steps: seq<Step>, h: Id)
    requires Valid(Initial(lookup, account, first), steps) && TrueMemos(Initial(lookup, account, first), steps)
    requires var w := After(Initial(lookup, account, first), steps); h in w.handlers && w.handlers[h].phase.Done?
    ensures var w := After(Initial(lookup, account, first), steps);
            var me := w.handlers[h];
            && me.phase.id in w.t.made && w.t.made[me.phase.id].version == me.pair.version
            && (w.lookup ==> Account(w.account, w.t.made[me.phase.id].credential) == Account(w.account, me.pair.credential))
  {
    RightRun(Initial(lookup, account, first), steps);
    assert HandlerRight(After(Initial(lookup, account, first), steps), After(Initial(lookup, account, first), steps).handlers[h]);
  }

  /** A handler works for the version that was current when it began: with its own credential, or with the
      one its target had then. */
  lemma PairIsCaptured(w: World, h: Id, kind: CloudAssets.Kind)
    requires Enabled(w, Begin(h, kind))
    ensures var w' := Next(w, Begin(h, kind));
            && h in w'.handlers && w'.handlers[h].pair.version == w.t.current
            && (kind.ForTask? ==> w'.handlers[h].pair.credential == kind.credential)
            && (kind.ForTarget? ==> kind.target in w.t.credentialOf
                                    && w'.handlers[h].pair.credential == w.t.credentialOf[kind.target])
  {
  }

  /** Moves are felt by the handlers that begin after them. */
  lemma MovesAreFelt(w: World, version: Id, target: Id, credential: Id, h: Id)
    requires Enabled(w, MoveVersion(version)) && h !in w.handlers
    ensures var w' := Next(Next(w, MoveVersion(version)), MoveCredential(target, credential));
            && Enabled(w', Begin(h, ForTarget(target)))
            && Next(w', Begin(h, ForTarget(target))).handlers[h].pair == PairId(version, credential)
  {
  }

  /** The provider shows the same certificates to all credentials of an account. */
  lemma AccountsShare(t: Tables, account: map<Id, Id>, a: Id, b: Id, id: Id)
    requires a in account && b in account && account[a] == account[b]
    ensures Exists(t, account, a, id) <==> Exists(t, account, b, id)
  {
  }

  // ---------- one undisturbed pass ----------

  /** When the row remembers another version and the pair that is loaded has no asset row, or is of
      another version, a pass that succeeds has made a certificate for the handler's pair. */
  lemma OtherVersionIsNotReused(w: World, h: Id, e: Answers)
    requires Enabled(w, Acquire(h)) && RowsRight(w.t) && e.memo.last != Some(w.handlers[h].pair.version)
    requires Loads(w.t, w.handlers[h].kind) && w.t.current == w.handlers[h].pair.version ==>
               PairOf(w.t, w.handlers[h].kind) !in w.t.assets
    ensures var me, r := w.handlers[h], Section(w, h, e);
            r.handlers[h].phase.Done? ==>
              var id := r.handlers[h].phase.id;
              && id !in w.t.made && id in r.t.made && r.t.made[id] == me.pair
              && me.pair in r.t.assets && r.t.assets[me.pair] == id
  {
    SectionDecides(w, h, e);
  }

  /** Whatever a true memo says, a pass succeeds with a certificate of the handler's version, and with a
      lookup one that is still there and belongs to the handler's account. */
  lemma PassIsOwnVersion(w: World, h: Id, e: Answers)
    requires Enabled(w, Acquire(h)) && RowsRight(w.t) && True(w.t, e.memo)
    ensures var me, r := w.handlers[h], Section(w, h, e);
            r.handlers[h].phase.Done? ==>
              var id := r.handlers[h].phase.id;
              && id in r.t.made && r.t.made[id].version == me.pair.version
              && (w.lookup ==> id in r.t.live && Account(w.account, r.t.made[id].credential) == Account(w.account, me.pair.credential))
  {
    SectionDecides(w, h, e);
  }

  // ---------- where memos come from ----------

  /** The world with what the task, link and deployment rows remember; `got` is the id each handler
      succeeded with. */
  datatype Memory = Memory(w: World, rows: map<Id, Memo>, got: map<Id, Id>)

  /** A handler that has succeeded writes its id and version into a row, possibly long after the unlock.
      A memo without a version is one found in the summary of an earlier step. */
  datatype Deed = Does(step: Step) | Notes(h: Id, row: Id)

  predicate Recalled(rows: map<Id, Memo>, memo: Memo) {
    memo.last.None? || exists row | row in rows :: rows[row] == memo
  }

  predicate Able(m: Memory, d: Deed) {
    match d
    case Does(step) => Enabled(m.w, step) && (step.Reload? ==> Recalled(m.rows, step.memo))
    case Notes(h, _) => h in m.got && h in m.w.handlers
  }

  function Perform(m: Memory, d: Deed): Memory
    requires Able(m, d)
  {
    match d
    case Does(step) =>
      var w' := Next(m.w, step);
      m.(w := w', got := m.got + map h | h in w'.handlers && w'.handlers[h].phase.Done? :: w'.handlers[h].phase.id)
    case Notes(h, row) => m.(rows := m.rows[row := Memo(Some(m.got[h]), Some(m.w.handlers[h].pair.version))])
  }

  ghost predicate Lawful(m: Memory, deeds: seq<Deed>)
    decreases |deeds|
  {
    deeds == [] || (Able(m, deeds[0]) && Lawful(Perform(m, deeds[0]), deeds[1..]))
  }

  ghost function Finally(m: Memory, deeds: seq<Deed>): Memory
    requires Lawful(m, deeds)
    decreases |deeds|
  {
    if deeds == [] then m else Finally(Perform(m, deeds[0]), deeds[1..])
  }

  function Blank(lookup: bool, account: map<Id, Id>, first: Id): Memory {
    Memory(Initial(lookup, account, first), map[], map[])
  }

  ghost predicate GotRight(w: World, got: map<Id, Id>) {
    forall h | h in got :: h in w.handlers && MadeFor(w.t, got[h], w.handlers[h].pair.version)
  }

  ghost predicate Sure(m: Memory) {
    && Right(m.w) && GotRight(m.w, m.got)
    && forall row | row in m.rows :: True(m.w.t, m.rows[row])
  }

  lemma PairsStay(w: World, step: Step, h: Id)
    requires Enabled(w, step) && h in w.handlers
    ensures h in Next(w, step).handlers && Next(w, step).handlers[h].pair == w.handlers[h].pair
  {
    match step
    case Begin(g, kind) =>
    case _ =>
  }

  lemma GotStaysRight(m: Memory, step: Step)
    requires Right(m.w) && GotRight(m.w, m.got) && Able(m, Does(step)) && Right(Next(m.w, step))
    ensures GotRight(Perform(m, Does(step)).w, Perform(m, Does(step)).got)
  {
    var m' := Perform(m, Does(step));
    MadeOnly(m.w, step);
    forall h | h in m'.got
      ensures h in m'.w.handlers && MadeFor(m'.w.t, m'.got[h], m'.w.handlers[h].pair.version)
    {
      if h in m'.w.handlers && m'.w.handlers[h].phase.Done? {
        assert HandlerRight(m'.w, m'.w.handlers[h]);
      } else {
        PairsStay(m.w, step, h);
      }
    }
  }

  lemma SureStep(m: Memory, d: Deed)
    requires Sure(m) && Able(m, d)
    ensures Sure(Perform(m, d))
  {
    match d
    case Does(step) =>
      MadeOnly(m.w, step);
      RightStep(m.w, step);
      GotStaysRight(m, step);
    case Notes(h, row) =>
  }

  lemma {:induction false} SureRun(m: Memory, deeds: seq<Deed>)
    requires Sure(m) && Lawful(m, deeds)
    ensures Sure(Finally(m, deeds))
    decreases |deeds|
  {
    if deeds != [] {
      SureStep(m, deeds[0]);
      SureRun(Perform(m, deeds[0]), deeds[1..]);
    }
  }

  /** Rows written by successes are true, so the condition on memos takes care of itself: in every
      history in which a row remembers what some handler wrote there, and however often the current
      version moves, every success, and everything remembered of one, is of the handler's own version. */
  lemma RememberedIsOwnVersion(lookup: bool, account: map<Id, Id>, first: Id, deeds: seq<Deed>, h: Id)
    requires Lawful(Blank(lookup, account, first), deeds)
    ensures var m := Finally(Blank(lookup, account, first), deeds);
            && (forall row | row in m.rows && m.rows[row].remote.Some? && m.rows[row].last.Some? ::
                  m.rows[row].remote.value in m.w.t.made
                  && m.w.t.made[m.rows[row].remote.value].version == m.rows[row].last.value)
            && (h in m.w.handlers && m.w.handlers[h].phase.Done? ==>
                  m.w.handlers[h].phase.id in m.w.t.made
                  && m.w.t.made[m.w.handlers[h].phase.id].version == m.w.handlers[h].pair.version)
  {
    SureRun(Blank(lookup, account, first), deeds);
    var m := Finally(Blank(lookup, account, first), deeds);
    forall row | row in m.rows
      ensures True(m.w.t, m.rows[row])
    {
    }
    if h in m.w.handlers {
      assert HandlerRight(m.w, m.w.handlers[h]);
    }
  }
}
