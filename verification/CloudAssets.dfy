/** The upload and deploy handlers' critical section: many handlers, one advisory lock per certificate
    version and cloud credential, one provider, while versions and credentials move underneath. */
module CloudAssets {
  import opened Rows

  datatype PairId = PairId(version: Id, credential: Id)

  /** An upload job names its credential; a deploy job takes the credential of its target. */
  datatype Kind = ForTask(credential: Id) | ForTarget(target: Id)

  /** The rows of one certificate and the state of its provider: the current version and all versions
      so far, the credential of each target, the certificate_cloud_assets rows, and the provider's
      certificates with the pair each was uploaded for. */
  datatype Tables = Tables(
    current: Id, versions: set<Id>, credentialOf: map<Id, Id>, assets: map<PairId, Id>,
    live: set<Id>, made: map<Id, PairId>, nextId: Id)

  /** What a task, link or deployment row remembers of an earlier pass. */
  datatype Memo = Memo(remote: Option<Id>, last: Option<Id>)

  /** What LoadUploadConfiguration and LoadDeploymentConfiguration return. */
  datatype Configuration = Configuration(pair: PairId, remote: Option<Id>, last: Option<Id>)

  predicate Loads(t: Tables, kind: Kind) {
    kind.ForTarget? ==> kind.target in t.credentialOf
  }

  function PairOf(t: Tables, kind: Kind): PairId
    requires Loads(t, kind)
  {
    PairId(t.current, match kind case ForTask(c) => c case ForTarget(g) => t.credentialOf[g])
  }

  /** COALESCE over the asset row of the pair and the remembered columns. */
  function Load(t: Tables, kind: Kind, memo: Memo): Configuration
    requires Loads(t, kind)
  {
    var pair := PairOf(t, kind);
    if pair in t.assets then Configuration(pair, Some(t.assets[pair]), Some(pair.version))
    else Configuration(pair, memo.remote, memo.last)
  }

  /** The id worth reusing, if what was loaded still speaks of the handler's version. */
  function Reusable(latest: Configuration, version: Id): Option<Id> {
    if latest.remote.Some? && latest.last == Some(version) then latest.remote else None
  }

  // ---------- the machine ----------

  /** Where a handler is. `stale` is set when the rows it re-read no longer name its pair. */
  datatype Phase =
    | Idle
    | Locked
    | Looking(id: Id, stale: bool)
    | Uploading(stale: bool)
    | Saving(id: Id, stale: bool)
    | Done(id: Id)
    | Gone
    | Left

  datatype Handler = Handler(kind: Kind, pair: PairId, phase: Phase)

  /** Per pair: uploads made, ids ever saved, those displaced by a stale handler, uploads whose id was
      not saved, and uploads by stale handlers. */
  datatype Tally = Tally(uploads: nat, saved: set<Id>, displaced: set<Id>, unsaved: nat, stale: nat)

  datatype World = World(
    lookup: bool, account: map<Id, Id>, t: Tables, locks: map<PairId, Id>, handlers: map<Id, Handler>,
    deleted: set<Id>, tallies: map<PairId, Tally>)

  datatype Step =
    | Begin(h: Id, kind: Kind)
    | Acquire(h: Id)
    | Reload(h: Id, memo: Memo)
    | Look(h: Id)
    | Upload(h: Id, answered: bool)
    | Save(h: Id, ok: bool)
    | GiveUp(h: Id)
    | Unlock(h: Id)
    | ProviderDelete(id: Id)
    | MoveVersion(version: Id)
    | MoveCredential(target: Id, credential: Id)

  function Initial(lookup: bool, account: map<Id, Id>, version: Id): World {
    World(lookup, account, Tables(version, {version}, map[], map[], {}, map[], 0), map[], map[], {}, map[])
  }

  /** Credentials of one cloud account see the same certificates. */
  function Account(account: map<Id, Id>, credential: Id): Id {
    if credential in account then account[credential] else credential
  }

  predicate Exists(t: Tables, account: map<Id, Id>, credential: Id, id: Id) {
    id in t.live && id in t.made && Account(account, t.made[id].credential) == Account(account, credential)
  }

  function TallyOf(tallies: map<PairId, Tally>, p: PairId): Tally {
    if p in tallies then tallies[p] else Tally(0, {}, {}, 0, 0)
  }

  /** Between Acquire and Unlock. */
  predicate Inside(p: Phase) {
    !p.Idle? && !p.Left?
  }

  predicate Enabled(w: World, step: Step) {
    match step
    case Begin(h, kind) => h !in w.handlers && Loads(w.t, kind)
    case Acquire(h) => h in w.handlers && w.handlers[h].phase.Idle? && w.handlers[h].pair !in w.locks
    case Reload(h, _) => h in w.handlers && w.handlers[h].phase.Locked? && Loads(w.t, w.handlers[h].kind)
    case Look(h) => h in w.handlers && w.handlers[h].phase.Looking?
    case Upload(h, _) => h in w.handlers && w.handlers[h].phase.Uploading?
    case Save(h, _) => h in w.handlers && w.handlers[h].phase.Saving?
    case GiveUp(h) => h in w.handlers && Inside(w.handlers[h].phase) && !w.handlers[h].phase.Done? && !w.handlers[h].phase.Gone?
    case Unlock(h) => h in w.handlers && (w.handlers[h].phase.Done? || w.handlers[h].phase.Gone?)
    case ProviderDelete(id) => id in w.t.live
    case MoveVersion(v) => v !in w.t.versions
    case MoveCredential(_, _) => true
  }

  function SetPhase(w: World, h: Id, phase: Phase): World
    requires h in w.handlers
  {
    w.(handlers := w.handlers[h := w.handlers[h].(phase := phase)])
  }

  function AfterReload(w: World, h: Id, latest: Configuration): Phase
    requires h in w.handlers
  {
    var pair := w.handlers[h].pair;
    match Reusable(latest, pair.version)
    case None => Uploading(latest.pair != pair)
    case Some(id) => if w.lookup then Looking(id, latest.pair != pair) else Done(id)
  }

  /** The provider creates a certificate for the pair. */
  function Created(t: Tables, pair: PairId): Tables {
    t.(live := t.live + {t.nextId}, made := t.made[t.nextId := pair], nextId := t.nextId + 1)
  }

  function Next(w: World, step: Step): World
    requires Enabled(w, step)
  {
    match step
    case Begin(h, kind) => w.(handlers := w.handlers[h := Handler(kind, PairOf(w.t, kind), Idle)])
    case Acquire(h) => SetPhase(w, h, Locked).(locks := w.locks[w.handlers[h].pair := h])
    case Reload(h, memo) => SetPhase(w, h, AfterReload(w, h, Load(w.t, w.handlers[h].kind, memo)))
    case Look(h) =>
      var p := w.handlers[h].phase;
      SetPhase(w, h, if Exists(w.t, w.account, w.handlers[h].pair.credential, p.id) then Done(p.id) else Uploading(p.stale))
    case Upload(h, answered) =>
      // An unanswered upload is one whose certificate exists but whose id never came back.
      var pair, stale := w.handlers[h].pair, w.handlers[h].phase.stale;
      var n := TallyOf(w.tallies, pair);
      var n' := n.(uploads := n.uploads + 1, unsaved := if answered then n.unsaved else n.unsaved + 1,
                   stale := if stale then n.stale + 1 else n.stale);
      SetPhase(w, h, if answered then Saving(w.t.nextId, stale) else Gone)
        .(t := Created(w.t, pair), tallies := w.tallies[pair := n'])
    case Save(h, ok) =>
      var pair, p := w.handlers[h].pair, w.handlers[h].phase;
      var n := TallyOf(w.tallies, pair);
      if ok then
        var n' := n.(saved := n.saved + {p.id},
                     displaced := if p.stale && pair in w.t.assets then n.displaced + {w.t.assets[pair]} else n.displaced);
        SetPhase(w, h, Done(p.id)).(t := w.t.(assets := w.t.assets[pair := p.id]), tallies := w.tallies[pair := n'])
      else SetPhase(w, h, Gone).(tallies := w.tallies[pair := n.(unsaved := n.unsaved + 1)])
    case GiveUp(h) =>
      // Any error return, or the death of the process, which ends its database session.
      var pair := w.handlers[h].pair;
      var n := TallyOf(w.tallies, pair);
      var n' := if w.handlers[h].phase.Saving? then n.(unsaved := n.unsaved + 1) else n;
      SetPhase(w, h, Gone).(tallies := w.tallies[pair := n'])
    case Unlock(h) => SetPhase(w, h, Left).(locks := w.locks - {w.handlers[h].pair})
    case ProviderDelete(id) => w.(t := w.t.(live := w.t.live - {id}), deleted := w.deleted + {id})
    case MoveVersion(v) => w.(t := w.t.(current := v, versions := w.t.versions + {v}))
    case MoveCredential(g, c) => w.(t := w.t.(credentialOf := w.t.credentialOf[g := c]))
  }

  ghost predicate Valid(w: World, steps: seq<Step>)
    decreases |steps|
  {
    steps == [] || (Enabled(w, steps[0]) && Valid(Next(w, steps[0]), steps[1..]))
  }

  ghost function After(w: World, steps: seq<Step>): World
    requires Valid(w, steps)
    decreases |steps|
  {
    if steps == [] then w else After(Next(w, steps[0]), steps[1..])
  }

  // ---------- the invariant ----------

  ghost predicate ProviderOk(t: Tables, deleted: set<Id>) {
    && t.live !! deleted
    && forall id | id in t.live + deleted :: id < t.nextId && id in t.made
  }

  ghost predicate LocksOk(locks: map<PairId, Id>, handlers: map<Id, Handler>) {
    && (forall h | h in handlers && Inside(handlers[h].phase) :: handlers[h].pair in locks && locks[handlers[h].pair] == h)
    && (forall p | p in locks :: locks[p] in handlers && handlers[locks[p]].pair == p && Inside(handlers[locks[p]].phase))
  }

  ghost predicate VersionsOk(t: Tables, handlers: map<Id, Handler>, tallies: map<PairId, Tally>) {
    && t.current in t.versions
    && (forall h | h in handlers :: handlers[h].pair.version in t.versions)
    && (forall p | p in t.assets :: p.version in t.versions)
    && (forall p | p in tallies :: p.version in t.versions)
  }

  /** The phase of the pair's lock holder. */
  function HolderPhase(w: World, p: PairId): Phase {
    if p in w.locks && w.locks[p] in w.handlers then w.handlers[w.locks[p]].phase else Left
  }

  ghost predicate PhaseOk(w: World, p: PairId, n: Tally, phase: Phase) {
    match phase
    case Looking(id, stale) => !stale && p in w.t.assets ==> id == w.t.assets[p]
    case Uploading(stale) => !stale ==> n.saved <= w.deleted + n.displaced
    case Saving(id, stale) =>
      && id in w.t.live + w.deleted && id in w.t.made && w.t.made[id] == p && id !in n.saved
      && (!stale ==> n.saved <= w.deleted + n.displaced)
    case _ => true
  }

  /** The books of one pair. */
  ghost predicate PairOk(w: World, p: PairId) {
    var n, phase := TallyOf(w.tallies, p), HolderPhase(w, p);
    && (p !in w.t.assets ==> n.saved == {})
    && (p in w.t.assets ==> w.t.assets[p] in n.saved && n.saved - {w.t.assets[p]} <= w.deleted + n.displaced)
    && (forall id | id in n.saved :: id in w.t.live + w.deleted && id in w.t.made && w.t.made[id] == p)
    && |n.displaced| + (if phase.Saving? && phase.stale then 1 else 0) <= n.stale
    && n.uploads == |n.saved| + n.unsaved + (if phase.Saving? then 1 else 0)
    && PhaseOk(w, p, n, phase)
  }

  ghost predicate Common(w: World) {
    ProviderOk(w.t, w.deleted) && LocksOk(w.locks, w.handlers) && VersionsOk(w.t, w.handlers, w.tallies)
  }

  lemma CommonStep(w: World, step: Step)
    requires Common(w) && Enabled(w, step)
    ensures Common(Next(w, step))
  {
    ProviderStep(w, step);
    LocksStep(w, step);
    VersionsStep(w, step);
  }

  lemma CreatedOk(t: Tables, deleted: set<Id>, pair: PairId)
    requires ProviderOk(t, deleted)
    ensures ProviderOk(Created(t, pair), deleted)
  {
    assert t.nextId !in t.live + deleted;
    forall id | id in Created(t, pair).live + deleted
      ensures id < t.nextId + 1 && id in Created(t, pair).made
    {
      assert id == t.nextId || id in t.live + deleted;
    }
  }

  lemma ProviderStep(w: World, step: Step)
    requires ProviderOk(w.t, w.deleted) && Enabled(w, step)
    ensures ProviderOk(Next(w, step).t, Next(w, step).deleted)
  {
    match step
    case Begin(h, kind) =>
    case Acquire(h) =>
    case Reload(h, memo) =>
    case Look(h) =>
    case Upload(h, answered) => CreatedOk(w.t, w.deleted, w.handlers[h].pair);
    case Save(h, ok) =>
    case GiveUp(h) =>
    case Unlock(h) =>
    case ProviderDelete(id) =>
    case MoveVersion(v) =>
    case MoveCredential(g, c) =>
  }

  lemma VersionsStep(w: World, step: Step)
    requires VersionsOk(w.t, w.handlers, w.tallies) && Enabled(w, step)
    ensures VersionsOk(Next(w, step).t, Next(w, step).handlers, Next(w, step).tallies)
  {
    match step
    case Begin(h, kind) =>
    case Acquire(h) =>
    case Reload(h, memo) =>
    case Look(h) =>
    case Upload(h, answered) =>
    case Save(h, ok) =>
    case GiveUp(h) =>
    case Unlock(h) =>
    case ProviderDelete(id) =>
    case MoveVersion(v) =>
    case MoveCredential(g, c) =>
  }

  lemma SameInside(locks: map<PairId, Id>, handlers: map<Id, Handler>, h: Id, phase: Phase)
    requires LocksOk(locks, handlers) && h in handlers && (Inside(phase) <==> Inside(handlers[h].phase))
    ensures LocksOk(locks, handlers[h := handlers[h].(phase := phase)])
  {
  }

  lemma LocksStep(w: World, step: Step)
    requires LocksOk(w.locks, w.handlers) && Enabled(w, step)
    ensures LocksOk(Next(w, step).locks, Next(w, step).handlers)
  {
    match step
    case Begin(h, kind) => BeginLocks(w, h, kind);
    case Acquire(h) => AcquireLocks(w, h);
    case Unlock(h) => UnlockLocks(w, h);
    case Reload(h, _) => SameInside(w.locks, w.handlers, h, Next(w, step).handlers[h].phase);
    case Look(h) => SameInside(w.locks, w.handlers, h, Next(w, step).handlers[h].phase);
    case Upload(h, _) => SameInside(w.locks, w.handlers, h, Next(w, step).handlers[h].phase);
    case Save(h, _) => SameInside(w.locks, w.handlers, h, Next(w, step).handlers[h].phase);
    case GiveUp(h) => SameInside(w.locks, w.handlers, h, Next(w, step).handlers[h].phase);
    case _ =>
  }

  lemma BeginLocks(w: World, h: Id, kind: Kind)
    requires LocksOk(w.locks, w.handlers) && Enabled(w, Begin(h, kind))
    ensures LocksOk(Next(w, Begin(h, kind)).locks, Next(w, Begin(h, kind)).handlers)
  {
  }

  lemma AcquireLocks(w: World, h: Id)
    requires LocksOk(w.locks, w.handlers) && Enabled(w, Acquire(h))
    ensures LocksOk(Next(w, Acquire(h)).locks, Next(w, Acquire(h)).handlers)
  {
  }

  lemma UnlockLocks(w: World, h: Id)
    requires LocksOk(w.locks, w.handlers) && Enabled(w, Unlock(h))
    ensures LocksOk(Next(w, Unlock(h)).locks, Next(w, Unlock(h)).handlers)
  {
  }

  /** The books stay in order when neither the pair's rows nor its lock holder are touched. */
  lemma PairFrame(w: World, w': World, p: PairId)
    requires PairOk(w, p) && TallyOf(w'.tallies, p) == TallyOf(w.tallies, p) && HolderPhase(w', p) == HolderPhase(w, p)
    requires w'.t.live == w.t.live && w'.t.made == w.t.made && w'.deleted == w.deleted
    requires p in w'.t.assets <==> p in w.t.assets
    requires p in w.t.assets ==> w'.t.assets[p] == w.t.assets[p]
    ensures PairOk(w', p)
  {
  }

  /** What a step of another pair's handler cannot change. */
  predicate Elsewhere(w: World, step: Step, p: PairId) {
    match step
    case Begin(_, _) => true
    case MoveVersion(_) => true
    case MoveCredential(_, _) => true
    case ProviderDelete(_) => false
    case Acquire(h) => h in w.handlers && w.handlers[h].pair != p
    case Reload(h, _) => h in w.handlers && w.handlers[h].pair != p
    case Look(h) => h in w.handlers && w.handlers[h].pair != p
    case Upload(h, _) => h in w.handlers && w.handlers[h].pair != p
    case Save(h, _) => h in w.handlers && w.handlers[h].pair != p
    case GiveUp(h) => h in w.handlers && w.handlers[h].pair != p
    case Unlock(h) => h in w.handlers && w.handlers[h].pair != p
  }

  lemma HolderElsewhere(w: World, step: Step, p: PairId)
    requires LocksOk(w.locks, w.handlers) && Enabled(w, step) && Elsewhere(w, step, p)
    ensures HolderPhase(Next(w, step), p) == HolderPhase(w, p)
  {
    match step
    case Begin(h, kind) =>
    case Acquire(h) =>
    case Reload(h, memo) =>
    case Look(h) =>
    case Upload(h, answered) =>
    case Save(h, ok) =>
    case GiveUp(h) =>
    case Unlock(h) =>
    case ProviderDelete(id) =>
    case MoveVersion(v) =>
    case MoveCredential(g, c) =>
  }

  lemma UploadElsewhere(w: World, h: Id, answered: bool, p: PairId)
    requires Common(w) && PairOk(w, p) && Enabled(w, Step.Upload(h, answered)) && w.handlers[h].pair != p
    ensures PairOk(Next(w, Step.Upload(h, answered)), p)
  {
    HolderElsewhere(w, Step.Upload(h, answered), p);
  }

  lemma RowsElsewhere(w: World, step: Step, p: PairId)
    requires Enabled(w, step) && Elsewhere(w, step, p) && !step.Upload?
    ensures var w' := Next(w, step);
            && TallyOf(w'.tallies, p) == TallyOf(w.tallies, p)
            && w'.t.live == w.t.live && w'.t.made == w.t.made && w'.deleted == w.deleted
            && (p in w'.t.assets <==> p in w.t.assets)
            && (p in w.t.assets ==> w'.t.assets[p] == w.t.assets[p])
  {
    match step
    case Begin(h, kind) =>
    case Acquire(h) =>
    case Reload(h, memo) =>
    case Look(h) =>
    case Upload(h, answered) =>
    case Save(h, ok) =>
    case GiveUp(h) =>
    case Unlock(h) =>
    case ProviderDelete(id) =>
    case MoveVersion(v) =>
    case MoveCredential(g, c) =>
  }

  lemma ElsewhereKeeps(w: World, step: Step, p: PairId)
    requires Common(w) && PairOk(w, p) && Enabled(w, step) && Elsewhere(w, step, p)
    ensures PairOk(Next(w, step), p)
  {
    if step.Upload? {
      UploadElsewhere(w, step.h, step.answered, p);
    } else {
      HolderElsewhere(w, step, p);
      RowsElsewhere(w, step, p);
      PairFrame(w, Next(w, step), p);
    }
  }

  lemma DeleteKeeps(w: World, id: Id, p: PairId)
    requires Common(w) && PairOk(w, p) && Enabled(w, ProviderDelete(id))
    ensures PairOk(Next(w, ProviderDelete(id)), p)
  {
    assert HolderPhase(Next(w, ProviderDelete(id)), p) == HolderPhase(w, p);
  }

  lemma AcquireKeeps(w: World, h: Id, p: PairId)
    requires PairOk(w, p) && Enabled(w, Acquire(h)) && w.handlers[h].pair == p
    ensures PairOk(Next(w, Acquire(h)), p)
  {
  }

  lemma UnlockKeeps(w: World, h: Id, p: PairId)
    requires Common(w) && PairOk(w, p) && Enabled(w, Unlock(h)) && w.handlers[h].pair == p
    ensures PairOk(Next(w, Unlock(h)), p)
  {
  }

  lemma ReloadKeeps(w: World, h: Id, memo: Memo, p: PairId)
    requires Common(w) && PairOk(w, p) && Enabled(w, Reload(h, memo)) && w.handlers[h].pair == p
    ensures PairOk(Next(w, Reload(h, memo)), p)
  {
    assert w.locks[p] == h;
  }

  lemma LookKeeps(w: World, h: Id, p: PairId)
    requires Common(w) && PairOk(w, p) && Enabled(w, Look(h)) && w.handlers[h].pair == p
    ensures PairOk(Next(w, Look(h)), p)
  {
    assert w.locks[p] == h;
  }

  lemma UploadKeeps(w: World, h: Id, answered: bool, p: PairId)
    requires Common(w) && PairOk(w, p) && Enabled(w, Step.Upload(h, answered)) && w.handlers[h].pair == p
    ensures PairOk(Next(w, Step.Upload(h, answered)), p)
  {
    assert w.locks[p] == h;
  }

  lemma SaveKeeps(w: World, h: Id, ok: bool, p: PairId)
    requires Common(w) && PairOk(w, p) && Enabled(w, Save(h, ok)) && w.handlers[h].pair == p
    ensures PairOk(Next(w, Save(h, ok)), p)
  {
    assert w.locks[p] == h;
    var w' := Next(w, Save(h, ok));
    var n, n' := TallyOf(w.tallies, p), TallyOf(w'.tallies, p);
    if ok {
      forall id | id in n.saved
        ensures id in w'.deleted + n'.displaced
      {
        assert w.handlers[h].phase.stale && p in w.t.assets && id != w.t.assets[p] ==> id in n.saved - {w.t.assets[p]};
      }
      assert |n'.saved| == |n.saved| + 1;
      assert |n'.displaced| <= |n.displaced| + 1;
    }
  }

  lemma GiveUpKeeps(w: World, h: Id, p: PairId)
    requires Common(w) && PairOk(w, p) && Enabled(w, GiveUp(h)) && w.handlers[h].pair == p
    ensures PairOk(Next(w, GiveUp(h)), p)
  {
    assert w.locks[p] == h;
  }

  /** Every step keeps the books of every pair. */
  lemma StepKeeps(w: World, step: Step, p: PairId)
    requires Common(w) && PairOk(w, p) && Enabled(w, step)
    ensures Common(Next(w, step)) && PairOk(Next(w, step), p)
  {
    CommonStep(w, step);
    if Elsewhere(w, step, p) {
      ElsewhereKeeps(w, step, p);
    } else {
      match step
      case Acquire(h) => AcquireKeeps(w, h, p);
      case Reload(h, memo) => ReloadKeeps(w, h, memo, p);
      case Look(h) => LookKeeps(w, h, p);
      case Upload(h, answered) => UploadKeeps(w, h, answered, p);
      case Save(h, ok) => SaveKeeps(w, h, ok, p);
      case GiveUp(h) => GiveUpKeeps(w, h, p);
      case Unlock(h) => UnlockKeeps(w, h, p);
      case ProviderDelete(id) => DeleteKeeps(w, id, p);
      case _ =>
    }
  }

  lemma {:induction false} RunKeeps(w: World, steps: seq<Step>, p: PairId)
    requires Common(w) && PairOk(w, p) && Valid(w, steps)
    ensures Common(After(w, steps)) && PairOk(After(w, steps), p)
    decreases |steps|
  {
    if steps != [] {
      StepKeeps(w, steps[0], p);
      RunKeeps(Next(w, steps[0]), steps[1..], p);
    }
  }

  // ---------- how many certificates a pair costs ----------

  function DeletedOf(w: World, p: PairId): set<Id> {
    set id | id in w.deleted && id in w.t.made && w.t.made[id] == p
  }

  lemma UnionCard(a: set<Id>, b: set<Id>)
    ensures |a + b| <= |a| + |b|
  {
    assert |a + b| == |a| + |b| - |a * b|;
  }

  lemma SubsetCard(a: set<Id>, b: set<Id>)
    requires a <= b
    ensures |a| <= |b|
  {
    assert b == a + (b - a);
    assert |b| == |a| + |b - a|;
  }

  lemma UploadsBounded(w: World, p: PairId)
    requires PairOk(w, p)
    ensures var n := TallyOf(w.tallies, p); n.uploads <= 1 + |DeletedOf(w, p)| + n.unsaved + n.stale
  {
    var n, phase := TallyOf(w.tallies, p), HolderPhase(w, p);
    var spent := if phase.Saving? && !phase.stale then n.saved else if p in w.t.assets then n.saved - {w.t.assets[p]} else {};
    assert spent <= DeletedOf(w, p) + n.displaced;
    SubsetCard(spent, DeletedOf(w, p) + n.displaced);
    UnionCard(DeletedOf(w, p), n.displaced);
  }

  lemma EmptyBooks(lookup: bool, account: map<Id, Id>, version: Id, p: PairId)
    ensures Common(Initial(lookup, account, version)) && PairOk(Initial(lookup, account, version), p)
  {
  }

  /** In every history, whatever versions and credentials do meanwhile: the provider is asked for at
      most one certificate of a pair, plus one per certificate of the pair deleted there, per upload
      whose id was not saved, and per upload by a handler whose pair had changed under it. */
  lemma AtMostOnceUpload(lookup: bool, account: map<Id, Id>, version: Id, steps: seq<Step>, p: PairId)
    requires Valid(Initial(lookup, account, version), steps)
    ensures var w := After(Initial(lookup, account, version), steps);
            var n := TallyOf(w.tallies, p);
            n.uploads <= 1 + |DeletedOf(w, p)| + n.unsaved + n.stale
  {
    EmptyBooks(lookup, account, version, p);
    RunKeeps(Initial(lookup, account, version), steps, p);
    UploadsBounded(After(Initial(lookup, account, version), steps), p);
  }

  // ---------- while the version stays current and targets keep their credential ----------

  predicate Moves(step: Step) {
    step.MoveVersion? || step.MoveCredential?
  }

  /** Everyone at work on the pair still reads the pair, and nobody ever read another. */
  ghost predicate Steady(w: World, p: PairId) {
    && p.version == w.t.current && TallyOf(w.tallies, p).stale == 0
    && forall h | h in w.handlers && w.handlers[h].pair == p ::
         && Loads(w.t, w.handlers[h].kind) && PairOf(w.t, w.handlers[h].kind) == p
         && !IsStale(w.handlers[h].phase)
  }

  predicate IsStale(phase: Phase) {
    (phase.Looking? || phase.Uploading? || phase.Saving?) && phase.stale
  }

  /** A version that has just become current starts out steady, with every credential. */
  lemma NewVersionIsSteady(w: World, v: Id, credential: Id)
    requires Common(w) && Enabled(w, MoveVersion(v))
    ensures Steady(Next(w, MoveVersion(v)), PairId(v, credential))
  {
  }

  /** The version the system starts with is steady too. */
  lemma FirstVersionIsSteady(lookup: bool, account: map<Id, Id>, version: Id, credential: Id)
    ensures Steady(Initial(lookup, account, version), PairId(version, credential))
  {
  }

  lemma SteadyTally(w: World, step: Step, p: PairId)
    requires Steady(w, p) && Enabled(w, step) && !Moves(step)
    ensures TallyOf(Next(w, step).tallies, p).stale == 0
  {
    match step
    case Upload(h, answered) =>
    case Save(h, ok) =>
    case GiveUp(h) =>
    case _ =>
  }

  /** Outside Begin and Reload a step at most changes a handler's phase, and makes nobody stale. */
  lemma OnlyPhases(w: World, step: Step, h: Id)
    requires Enabled(w, step) && !Moves(step) && !step.Begin? && !step.Reload? && h in Next(w, step).handlers
    ensures h in w.handlers && Next(w, step).handlers[h] == w.handlers[h].(phase := Next(w, step).handlers[h].phase)
    ensures IsStale(Next(w, step).handlers[h].phase) ==> IsStale(w.handlers[h].phase)
    ensures Next(w, step).t.current == w.t.current && Next(w, step).t.credentialOf == w.t.credentialOf
  {
    match step
    case Acquire(g) =>
    case Look(g) =>
    case Upload(g, answered) =>
    case Save(g, ok) =>
    case GiveUp(g) =>
    case Unlock(g) =>
    case _ =>
  }

  lemma SteadyHandlers(w: World, step: Step, p: PairId, h: Id)
    requires Steady(w, p) && Enabled(w, step) && !Moves(step) && h in Next(w, step).handlers
    requires Next(w, step).handlers[h].pair == p
    ensures var w' := Next(w, step);
            Loads(w'.t, w'.handlers[h].kind) && PairOf(w'.t, w'.handlers[h].kind) == p && !IsStale(w'.handlers[h].phase)
  {
    match step
    case Begin(g, kind) =>
    case Reload(g, memo) =>
    case _ => OnlyPhases(w, step, h);
  }

  lemma SteadyStep(w: World, step: Step, p: PairId)
    requires Steady(w, p) && Enabled(w, step) && !Moves(step)
    ensures Steady(Next(w, step), p)
  {
    SteadyTally(w, step, p);
    forall h | h in Next(w, step).handlers && Next(w, step).handlers[h].pair == p {
      SteadyHandlers(w, step, p, h);
    }
  }

  lemma {:induction false} SteadyRun(w: World, steps: seq<Step>, p: PairId)
    requires Steady(w, p) && Valid(w, steps) && forall step | step in steps :: !Moves(step)
    ensures Steady(After(w, steps), p)
    decreases |steps|
  {
    if steps != [] {
      assert steps[0] in steps && forall step | step in steps[1..] :: step in steps;
      SteadyStep(w, steps[0], p);
      SteadyRun(Next(w, steps[0]), steps[1..], p);
    }
  }

  lemma {:induction false} LastStep(w: World, steps: seq<Step>)
    requires Valid(w, steps) && steps != []
    ensures var n := |steps| - 1;
            && Valid(w, steps[..n]) && Enabled(After(w, steps[..n]), steps[n])
            && After(w, steps) == Next(After(w, steps[..n]), steps[n])
    decreases |steps|
  {
    var n := |steps| - 1;
    if n == 0 {
      assert steps[1..] == [] && steps[..0] == [];
    } else {
      LastStep(Next(w, steps[0]), steps[1..]);
      assert steps[..n][0] == steps[0] && steps[..n][1..] == steps[1..][..n - 1] && steps[1..][n - 1] == steps[n];
    }
  }

  /** The current version has just become so: it is the first one, or a move has made it current. */
  predicate JustCurrent(steps: seq<Step>) {
    steps == [] || steps[|steps| - 1].MoveVersion?
  }

  lemma JustCurrentIsSteady(lookup: bool, account: map<Id, Id>, first: Id, before: seq<Step>, credential: Id)
    requires Valid(Initial(lookup, account, first), before) && JustCurrent(before)
    ensures var w := After(Initial(lookup, account, first), before); Steady(w, PairId(w.t.current, credential))
  {
    if before == [] {
      FirstVersionIsSteady(lookup, account, first, credential);
    } else {
      var n, start := |before| - 1, Initial(lookup, account, first);
      LastStep(start, before);
      EmptyBooks(lookup, account, first, PairId(first, credential));
      RunKeeps(start, before[..n], PairId(first, credential));
      NewVersionIsSteady(After(start, before[..n]), before[n].version, credential);
    }
  }

  /** From the moment a version is current, the first one or a later one, as long as it stays so and
      targets keep their credential: at most one upload per pair, plus deletions at the provider and
      unsaved ids. */
  lemma AtMostOnceWhileCurrent(lookup: bool, account: map<Id, Id>, first: Id, before: seq<Step>,
                               steps: seq<Step>, credential: Id)
    requires Valid(Initial(lookup, account, first), before) && JustCurrent(before)
    requires Valid(After(Initial(lookup, account, first), before), steps) && forall step | step in steps :: !Moves(step)
    ensures var w0 := After(Initial(lookup, account, first), before);
            var w, p := After(w0, steps), PairId(w0.t.current, credential);
            var n := TallyOf(w.tallies, p);
            w.t.current == w0.t.current && n.uploads <= 1 + |DeletedOf(w, p)| + n.unsaved
  {
    var w0 := After(Initial(lookup, account, first), before);
    var p := PairId(w0.t.current, credential);
    EmptyBooks(lookup, account, first, p);
    RunKeeps(Initial(lookup, account, first), before, p);
    JustCurrentIsSteady(lookup, account, first, before, credential);
    RunKeeps(w0, steps, p);
    SteadyRun(w0, steps, p);
    UploadsBounded(After(w0, steps), p);
  }

  // ---------- successes ----------

  /** A handler succeeds with the id it has just uploaded and saved, with one the provider has just
      confirmed, or, without provider lookup, with the one recorded for its version. */
  lemma SuccessIsBacked(w: World, step: Step, h: Id)
    requires Enabled(w, step) && Common(w) && h in w.handlers && PairOk(w, w.handlers[h].pair)
    requires Next(w, step).handlers[h].phase.Done? && !w.handlers[h].phase.Done?
    ensures var me := w.handlers[h];
            var id := Next(w, step).handlers[h].phase.id;
            || (step == Save(h, true) && me.phase.Saving? && me.phase.id == id && id in w.t.made && w.t.made[id] == me.pair)
            || (step == Look(h) && Exists(w.t, w.account, me.pair.credential, id))
            || (step.Reload? && step.h == h && !w.lookup
                && Reusable(Load(w.t, me.kind, step.memo), me.pair.version) == Some(id))
  {
    SuccessShape(w, step, h);
    if step == Save(h, true) {
      assert w.locks[w.handlers[h].pair] == h;
    }
  }

  lemma SuccessShape(w: World, step: Step, h: Id)
    requires Enabled(w, step) && h in w.handlers
    requires Next(w, step).handlers[h].phase.Done? && !w.handlers[h].phase.Done?
    ensures var me := w.handlers[h];
            var id := Next(w, step).handlers[h].phase.id;
            || (step == Save(h, true) && me.phase.Saving? && me.phase.id == id)
            || (step == Look(h) && Exists(w.t, w.account, me.pair.credential, id))
            || (step.Reload? && step.h == h && !w.lookup
                && Reusable(Load(w.t, me.kind, step.memo), me.pair.version) == Some(id))
  {
    match step
    case Save(g, ok) =>
    case Look(g) =>
    case Reload(g, memo) =>
    case _ =>
  }

  /** No two handlers are ever inside the section of one pair. */
  lemma MutualExclusion(lookup: bool, account: map<Id, Id>, version: Id, steps: seq<Step>, g: Id, h: Id)
    requires Valid(Initial(lookup, account, version), steps)
    requires var w := After(Initial(lookup, account, version), steps);
             && g in w.handlers && h in w.handlers && w.handlers[g].pair == w.handlers[h].pair
             && Inside(w.handlers[g].phase) && Inside(w.handlers[h].phase)
    ensures g == h
  {
    var w := After(Initial(lookup, account, version), steps);
    EmptyBooks(lookup, account, version, w.handlers[g].pair);
    RunKeeps(Initial(lookup, account, version), steps, w.handlers[g].pair);
  }

  // ---------- why the version has to stay ----------

  ghost predicate Arises(w: World) {
    exists lookup, account, version, steps ::
      Valid(Initial(lookup, account, version), steps) && After(Initial(lookup, account, version), steps) == w
  }

  lemma {:induction false} OneMore(w: World, steps: seq<Step>, step: Step)
    requires Valid(w, steps) && Enabled(After(w, steps), step)
    ensures Valid(w, steps + [step]) && After(w, steps + [step]) == Next(After(w, steps), step)
    decreases |steps|
  {
    if steps == [] {
      assert steps + [step] == [step];
    } else {
      assert (steps + [step])[1..] == steps[1..] + [step];
      OneMore(Next(w, steps[0]), steps[1..], step);
    }
  }

  lemma Then(w: World, step: Step) returns (w': World)
    requires Arises(w) && Enabled(w, step)
    ensures w' == Next(w, step) && Arises(w')
  {
    var lookup, account, version, steps :|
      Valid(Initial(lookup, account, version), steps) && After(Initial(lookup, account, version), steps) == w;
    OneMore(Initial(lookup, account, version), steps, step);
    w' := Next(w, step);
  }

  const NOTHING: Memo := Memo(None, None)

  lemma BothBegin() returns (w: World)
    ensures Arises(w)
    ensures w == World(true, map[], Tables(0, {0}, map[], map[], {}, map[], 0), map[],
                       map[0 := Handler(ForTask(0), PairId(0, 0), Idle), 1 := Handler(ForTask(0), PairId(0, 0), Idle)],
                       {}, map[])
  {
    w := Initial(true, map[], 0);
    assert Valid(w, []) && After(w, []) == w;
    w := Then(w, Begin(0, ForTask(0)));
    w := Then(w, Begin(1, ForTask(0)));
  }

  /** One undisturbed pass by a handler that finds nothing to reuse. */
  lemma UploadsAfresh(w: World, h: Id) returns (w': World)
    requires Arises(w) && Enabled(w, Acquire(h)) && Loads(w.t, w.handlers[h].kind)
    requires PairOf(w.t, w.handlers[h].kind) !in w.t.assets
    ensures Arises(w') && w'.deleted == w.deleted && w.handlers[h].pair !in w'.locks
    ensures forall g | g in w.handlers && g != h :: g in w'.handlers && w'.handlers[g] == w.handlers[g]
    ensures var p, stale := w.handlers[h].pair, PairOf(w.t, w.handlers[h].kind) != w.handlers[h].pair;
            w'.t == Bought(w.t, p) && TallyOf(w'.tallies, p) == Paid(TallyOf(w.tallies, p), w.t, p, stale)
  {
    var begun := OpensAfresh(w, h);
    var p, stale := w.handlers[h].pair, begun.handlers[h].phase.stale;
    assert begun.t == w.t && begun.tallies == w.tallies;
    var saved := UploadsAndSaves(begun, h);
    assert saved.t == Bought(w.t, p) && TallyOf(saved.tallies, p) == Paid(TallyOf(w.tallies, p), w.t, p, stale);
    w' := Leaves(saved, h);
  }

  /** The tables after an upload for the pair whose id is saved, and the pair's tally. */
  function Bought(t: Tables, p: PairId): Tables {
    Created(t, p).(assets := t.assets[p := t.nextId])
  }

  function Paid(n: Tally, t: Tables, p: PairId, stale: bool): Tally {
    Tally(n.uploads + 1, n.saved + {t.nextId},
          if stale && p in t.assets then n.displaced + {t.assets[p]} else n.displaced,
          n.unsaved, if stale then n.stale + 1 else n.stale)
  }

  lemma Leaves(w: World, h: Id) returns (w': World)
    requires Arises(w) && Enabled(w, Unlock(h))
    ensures Arises(w')
    ensures w' == w.(locks := w.locks - {w.handlers[h].pair}, handlers := w.handlers[h := w.handlers[h].(phase := Left)])
  {
    w' := Then(w, Unlock(h));
  }

  lemma OpensAfresh(w: World, h: Id) returns (w': World)
    requires Arises(w) && Enabled(w, Acquire(h)) && Loads(w.t, w.handlers[h].kind)
    requires PairOf(w.t, w.handlers[h].kind) !in w.t.assets
    ensures Arises(w')
    ensures var me := w.handlers[h];
            w' == w.(locks := w.locks[me.pair := h],
                     handlers := w.handlers[h := me.(phase := Uploading(PairOf(w.t, me.kind) != me.pair))])
  {
    w' := Then(w, Acquire(h));
    w' := Then(w', Reload(h, NOTHING));
  }

  lemma Uploads(w: World, h: Id) returns (w': World)
    requires Arises(w) && Enabled(w, Step.Upload(h, true))
    ensures Arises(w')
    ensures var me := w.handlers[h];
            var n := TallyOf(w.tallies, me.pair);
            w' == w.(t := Created(w.t, me.pair),
                     handlers := w.handlers[h := me.(phase := Saving(w.t.nextId, me.phase.stale))],
                     tallies := w.tallies[me.pair := n.(uploads := n.uploads + 1,
                                                        stale := if me.phase.stale then n.stale + 1 else n.stale)])
  {
    w' := Then(w, Step.Upload(h, true));
  }

  lemma Saves(w: World, h: Id) returns (w': World)
    requires Arises(w) && Enabled(w, Save(h, true))
    ensures Arises(w')
    ensures var me := w.handlers[h];
            var n := TallyOf(w.tallies, me.pair);
            w' == w.(t := w.t.(assets := w.t.assets[me.pair := me.phase.id]),
                     handlers := w.handlers[h := me.(phase := Done(me.phase.id))],
                     tallies := w.tallies[me.pair := n.(saved := n.saved + {me.phase.id},
                                                        displaced := if me.phase.stale && me.pair in w.t.assets
                                                                     then n.displaced + {w.t.assets[me.pair]} else n.displaced)])
  {
    w' := Then(w, Save(h, true));
  }

  lemma UploadsAndSaves(w: World, h: Id) returns (w': World)
    requires Arises(w) && Enabled(w, Step.Upload(h, true))
    ensures Arises(w') && w'.deleted == w.deleted && w'.locks == w.locks
    ensures h in w'.handlers && w'.handlers[h] == w.handlers[h].(phase := Done(w.t.nextId))
    ensures forall g | g in w.handlers && g != h :: g in w'.handlers && w'.handlers[g] == w.handlers[g]
    ensures var p := w.handlers[h].pair;
            w'.t == Bought(w.t, p) && TallyOf(w'.tallies, p) == Paid(TallyOf(w.tallies, p), w.t, p, w.handlers[h].phase.stale)
  {
    var up := Uploads(w, h);
    w' := Saves(up, h);
  }

  lemma FirstLeaves() returns (w: World)
    ensures Arises(w) && w.deleted == {} && PairId(0, 0) !in w.locks
    ensures w.t.current == 0 && w.t.versions == {0} && w.t.assets == map[PairId(0, 0) := 0] && w.t.nextId == 1
    ensures 1 in w.handlers && w.handlers[1] == Handler(ForTask(0), PairId(0, 0), Idle)
    ensures TallyOf(w.tallies, PairId(0, 0)) == Tally(1, {0}, {}, 0, 0)
  {
    w := BothBegin();
    w := UploadsAfresh(w, 0);
  }

  /** Two handlers capture a pair and the first uploads for it. The certificate moves to another
      version before the second re-reads: it uploads the old version again, although nothing was
      deleted and every id was saved. */
  lemma MovedVersionUploadsTwice() returns (w: World)
    ensures Arises(w) && w.deleted == {}
    ensures TallyOf(w.tallies, PairId(0, 0)) == Tally(2, {0, 1}, {0}, 0, 1)
  {
    var first := FirstLeaves();
    w := Then(first, MoveVersion(1));
    assert w.t.assets == first.t.assets && w.tallies == first.tallies && w.handlers[1] == first.handlers[1];
    assert PairOf(w.t, ForTask(0)) == PairId(1, 0);
    w := UploadsAfresh(w, 1);
  }

  // ---------- the handler's own code ----------

  datatype UploadAnswer = Refused | NoAnswer | Answered

  /** What the outside world answers during one pass: the re-read, the lookup, the upload and the
      save of its id. */
  datatype Answers = Answers(loads: bool, memo: Memo, looks: bool, upload: UploadAnswer, saves: bool)

  function Create(w: World, h: Id, e: Answers): (r: World)
    requires Enabled(w, Step.Upload(h, true))
    ensures h in r.handlers && (r.handlers[h].phase.Done? || r.handlers[h].phase.Gone?)
  {
    match e.upload
    case Refused => Next(w, GiveUp(h))
    case NoAnswer => Next(w, Step.Upload(h, false))
    case Answered => Next(Next(w, Step.Upload(h, true)), Save(h, e.saves))
  }

  function LookUp(w: World, h: Id, e: Answers): (r: World)
    requires h in w.handlers && (w.handlers[h].phase.Looking? || w.handlers[h].phase.Uploading? || w.handlers[h].phase.Done?)
    ensures h in r.handlers && (r.handlers[h].phase.Uploading? || r.handlers[h].phase.Done? || r.handlers[h].phase.Gone?)
  {
    if !w.handlers[h].phase.Looking? then w
    else if e.looks then Next(w, Look(h)) else Next(w, GiveUp(h))
  }

  /** The section as a run of the machine, undisturbed, up to the unlock. */
  function Section(w: World, h: Id, e: Answers): (r: World)
    requires Enabled(w, Acquire(h))
    ensures h in r.handlers && (r.handlers[h].phase.Done? || r.handlers[h].phase.Gone?)
  {
    var locked := Next(w, Acquire(h));
    if !e.loads || !Loads(w.t, w.handlers[h].kind) then Next(locked, GiveUp(h))
    else
      var looked := LookUp(Next(locked, Reload(h, e.memo)), h, e);
      if looked.handlers[h].phase.Uploading? then Create(looked, h, e) else looked
  }

  // ---------- what the section does to the rows ----------

  datatype Decision = Reuse(id: Id) | Abort | MakeNew

  /** Reuse what was loaded, give up, or make a new certificate. */
  function Decide(t: Tables, lookup: bool, account: map<Id, Id>, kind: Kind, pair: PairId, e: Answers): Decision {
    if !e.loads || !Loads(t, kind) then Abort
    else
      match Reusable(Load(t, kind, e.memo), pair.version)
      case None => MakeNew
      case Some(id) =>
        if !lookup then Reuse(id)
        else if !e.looks then Abort
        else if Exists(t, account, pair.credential, id) then Reuse(id)
        else MakeNew
  }

  function Made(t: Tables, pair: PairId, e: Answers): Tables {
    match e.upload
    case Refused => t
    case NoAnswer => Created(t, pair)
    case Answered => if e.saves then Created(t, pair).(assets := t.assets[pair := t.nextId]) else Created(t, pair)
  }

  lemma CreateMakes(w: World, h: Id, e: Answers)
    requires Enabled(w, Step.Upload(h, true))
    ensures Create(w, h, e).t == Made(w.t, w.handlers[h].pair, e)
    ensures Create(w, h, e).handlers[h].phase == if e.upload == Answered && e.saves then Done(w.t.nextId) else Gone
  {
    match e.upload
    case Refused =>
    case NoAnswer =>
    case Answered =>
      var uploaded := Next(w, Step.Upload(h, true));
      assert uploaded.t == Created(w.t, w.handlers[h].pair) && uploaded.handlers[h].phase.id == w.t.nextId;
  }

  lemma ReloadDecides(w: World, h: Id, e: Answers)
    requires h in w.handlers && w.handlers[h].phase.Locked? && Loads(w.t, w.handlers[h].kind) && e.loads
    ensures var me, looked := w.handlers[h], LookUp(Next(w, Reload(h, e.memo)), h, e);
            && looked.t == w.t && looked.handlers[h].pair == me.pair
            && match Decide(w.t, w.lookup, w.account, me.kind, me.pair, e)
               case Reuse(id) => looked.handlers[h].phase == Done(id)
               case Abort => looked.handlers[h].phase == Gone
               case MakeNew => looked.handlers[h].phase.Uploading?
  {
  }

  lemma SectionDecides(w: World, h: Id, e: Answers)
    requires Enabled(w, Acquire(h))
    ensures var me, r := w.handlers[h], Section(w, h, e);
            match Decide(w.t, w.lookup, w.account, me.kind, me.pair, e)
            case Reuse(id) => r.t == w.t && r.handlers[h].phase == Done(id)
            case Abort => r.t == w.t && r.handlers[h].phase == Gone
            case MakeNew =>
              && r.t == Made(w.t, me.pair, e)
              && r.handlers[h].phase == if e.upload == Answered && e.saves then Done(w.t.nextId) else Gone
  {
    var locked := Next(w, Acquire(h));
    if e.loads && Loads(w.t, w.handlers[h].kind) {
      ReloadDecides(locked, h, e);
      var looked := LookUp(Next(locked, Reload(h, e.memo)), h, e);
      if looked.handlers[h].phase.Uploading? {
        CreateMakes(looked, h, e);
      }
    }
  }

  /** An undisturbed pass succeeds with a certificate the provider shows to the credential, makes at most
      one, records what it made, and makes none while the recorded one is still there. */
  lemma SectionResult(w: World, h: Id, e: Answers)
    requires Enabled(w, Acquire(h))
    ensures var me, r := w.handlers[h], Section(w, h, e);
            && w.t.nextId <= r.t.nextId <= w.t.nextId + 1
            && (r.handlers[h].phase.Done? && w.lookup ==> Exists(r.t, w.account, me.pair.credential, r.handlers[h].phase.id))
            && (r.handlers[h].phase.Done? && r.t.nextId > w.t.nextId ==>
                  me.pair in r.t.assets && r.t.assets[me.pair] == r.handlers[h].phase.id == w.t.nextId)
            && (Loads(w.t, me.kind) && PairOf(w.t, me.kind) == me.pair && me.pair in w.t.assets
                && Exists(w.t, w.account, me.pair.credential, w.t.assets[me.pair]) ==>
                  r.t == w.t && (r.handlers[h].phase.Done? ==> r.handlers[h].phase.id == w.t.assets[me.pair]))
  {
    SectionDecides(w, h, e);
  }

  lemma Prepend(w: World, step: Step, steps: seq<Step>)
    requires Enabled(w, step) && Valid(Next(w, step), steps)
    ensures Valid(w, [step] + steps) && After(w, [step] + steps) == After(Next(w, step), steps)
  {
    assert ([step] + steps)[1..] == steps;
  }

  lemma CreateIsARun(w: World, h: Id, e: Answers) returns (steps: seq<Step>)
    requires Enabled(w, Step.Upload(h, true))
    ensures Valid(w, steps) && After(w, steps) == Create(w, h, e)
  {
    steps := [];
    if e.upload == Refused {
      Prepend(w, GiveUp(h), steps);
      steps := [GiveUp(h)] + steps;
    } else {
      if e.upload == Answered {
        Prepend(Next(w, Step.Upload(h, true)), Save(h, e.saves), steps);
        steps := [Save(h, e.saves)] + steps;
      }
      Prepend(w, Step.Upload(h, e.upload == Answered), steps);
      steps := [Step.Upload(h, e.upload == Answered)] + steps;
    }
  }

  lemma LookIsARun(w: World, h: Id, e: Answers) returns (steps: seq<Step>)
    requires h in w.handlers && (w.handlers[h].phase.Looking? || w.handlers[h].phase.Uploading? || w.handlers[h].phase.Done?)
    ensures var looked := LookUp(w, h, e);
            && Valid(w, steps)
            && After(w, steps) == if looked.handlers[h].phase.Uploading? then Create(looked, h, e) else looked
  {
    var looked := LookUp(w, h, e);
    steps := [];
    if looked.handlers[h].phase.Uploading? {
      steps := CreateIsARun(looked, h, e);
    }
    if w.handlers[h].phase.Looking? {
      var step := if e.looks then Look(h) else GiveUp(h);
      Prepend(w, step, steps);
      steps := [step] + steps;
    }
  }

  lemma SectionIsARun(w: World, h: Id, e: Answers) returns (steps: seq<Step>)
    requires Enabled(w, Acquire(h))
    ensures Valid(w, steps) && After(w, steps) == Section(w, h, e)
  {
    var locked := Next(w, Acquire(h));
    if !e.loads || !Loads(w.t, w.handlers[h].kind) {
      steps := [];
      Prepend(locked, GiveUp(h), steps);
      steps := [GiveUp(h)] + steps;
    } else {
      steps := LookIsARun(Next(locked, Reload(h, e.memo)), h, e);
      Prepend(locked, Reload(h, e.memo), steps);
      steps := [Reload(h, e.memo)] + steps;
    }
    Prepend(w, Acquire(h), steps);
    steps := [Acquire(h)] + steps;
  }

  /** The rows a handler works on, and its code inside the lock. */
  class Processor {
    const lookup: bool
    const account: map<Id, Id>
    var current: Id
    var versions: set<Id>
    var credentialOf: map<Id, Id>
    var assets: map<PairId, Id>
    var live: set<Id>
    var made: map<Id, PairId>
    var nextId: Id

    ghost function T(): Tables
      reads this
    {
      Tables(current, versions, credentialOf, assets, live, made, nextId)
    }

    constructor (lookup: bool, account: map<Id, Id>, version: Id)
      ensures this.lookup == lookup && this.account == account && T() == Initial(lookup, account, version).t
    {
      this.lookup, this.account := lookup, account;
      current, versions, credentialOf, assets := version, {version}, map[], map[];
      live, made, nextId := {}, map[], 0;
    }

    /** The two load queries: the asset row of the pair comes before what other rows remember. */
    method LoadConfiguration(kind: Kind, memo: Memo) returns (latest: Option<Configuration>)
      ensures latest == if Loads(T(), kind) then Some(Load(T(), kind, memo)) else None
    {
      var credential;
      match kind {
        case ForTask(c) =>
          credential := c;
        case ForTarget(g) =>
          if g !in credentialOf {
            return None;
          }
          credential := credentialOf[g];
      }
      var pair := PairId(current, credential);
      var remote, last := memo.remote, memo.last;
      if pair in assets {
        remote, last := Some(assets[pair]), Some(pair.version);
      }
      return Some(Configuration(pair, remote, last));
    }

    method UploadCertificate(pair: PairId) returns (id: Id)
      modifies `live, `made, `nextId
      ensures id == old(nextId) && T() == Created(old(T()), pair)
    {
      id := nextId;
      live, made, nextId := live + {id}, made[id := pair], id + 1;
    }

    /** The closure both handlers run under the advisory lock, for the pair they were configured with:
        the result is the id to carry on with, or None for an error return. It does to the rows exactly
        what an undisturbed run of the machine does. */
    method Synchronize(kind: Kind, pair: PairId, e: Answers, ghost w: World, ghost h: Id) returns (result: Option<Id>)
      requires Enabled(w, Acquire(h)) && w.handlers[h].kind == kind && w.handlers[h].pair == pair
      requires w.t == T() && w.lookup == lookup && w.account == account
      modifies `live, `made, `nextId, `assets
      ensures T() == Section(w, h, e).t
      ensures result == match Section(w, h, e).handlers[h].phase case Done(id) => Some(id) case _ => None
    {
      SectionDecides(w, h, e);
      var decision := Consider(kind, pair, e);
      match decision {
        case Reuse(id) =>
          result := Some(id);
        case Abort =>
          result := None;
        case MakeNew =>
          result := UploadAndRecord(pair, e);
      }
    }

    /** The first half of the closure: re-read, compare, and ask the provider. */
    method Consider(kind: Kind, pair: PairId, e: Answers) returns (decision: Decision)
      ensures decision == Decide(T(), lookup, account, kind, pair, e)
    {
      if !e.loads {
        return Abort;
      }
      var latest := LoadConfiguration(kind, e.memo);
      if latest.None? {
        return Abort;
      }
      var configuration := latest.value;
      if configuration.remote.Some? && configuration.last == Some(pair.version) {
        var id := configuration.remote.value;
        if !lookup {
          return Reuse(id);
        }
        if !e.looks {
          return Abort;
        }
        if id in live && id in made && Account(account, made[id].credential) == Account(account, pair.credential) {
          return Reuse(id);
        }
      }
      return MakeNew;
    }

    method UploadAndRecord(pair: PairId, e: Answers) returns (result: Option<Id>)
      modifies `live, `made, `nextId, `assets
      ensures T() == Made(old(T()), pair, e)
      ensures result == if e.upload == Answered && e.saves then Some(old(nextId)) else None
    {
      if e.upload == Refused {
        return None;
      }
      var remoteId := UploadCertificate(pair);
      if e.upload == NoAnswer || !e.saves {
        return None;
      }
      assets := assets[pair := remoteId];
      return Some(remoteId);
    }
  }
}
