/**
 Preview, submission and the durable restore job of
 internal/modules/backups/restore.go, over every interleaving with changes to
 copies, accounts, sites and databases.

 The MAC is unforgeable: a token verifies exactly when it carries a binding that
 a preview of this process's key issued. A build gets whatever the database and
 the resolvers answer at that moment (Env and, in the handlers, the loaded copy,
 are parameters of the step). One worker runs one job at a time, and a job that
 was running when the process ended is failed and not run again.
 */
module RestoreProtocol {
  import opened Wrappers
  import opened RestorePlan
  import opened RestoreTheorems

  const SECOND := 1_000_000_000
  const NOT_TESTED := "not_tested"

  /** restorePreviewBinding; expiresAt is in seconds, the clock in nanoseconds. */
  datatype Binding = Binding(copyId: string, actorId: string, digest: Canonical, expiresAt: int)

  /** A preview somebody was shown, with the request it stands for and when. */
  datatype Preview = Preview(binding: Binding, request: Request, shownAt: int)

  datatype Status = Queued | Running | Finished

  /** restorePayload and what the queue keeps beside it. */
  datatype Job = Job(copyId: string, choices: Choices, digest: Canonical, key: string, actorId: string,
                     submittedAt: int, status: Status)

  datatype Worker =
    | Idle
    | Checked(job: nat, request: Request, digest: Canonical)   // the rebuilt plan's digest matched
    | Ran(job: nat, copyId: string, failed: bool)              // the operator was called, the outcome is not stored

  /** One call of the destructive operator. */
  datatype Execution = Execution(job: nat, copyId: string, request: Request, digest: Canonical)

  /** `ids` are the copy ids ever used; `lost` the copies an outcome was not stored for. */
  datatype State = State(clock: int, ttl: nat, copies: map<string, CopyRow>, ids: set<string>, previews: seq<Preview>,
                         jobs: map<nat, Job>, worker: Worker, log: seq<Execution>, lost: set<string>)

  datatype Step =
    | Tick(now: int)
    | ShowPreview(copy: CopyRow, env: Env, actorId: string, requested: Choices, sorted: Choices)
    | Submit(copy: CopyRow, env: Env, actorId: string, requested: Choices, sorted: Choices, token: Option<Binding>,
      key: string, job: nat)
    | Check(job: nat, env: Env, sorted: Choices)
    | Restore(failed: bool)
    | Record(stored: bool)
    | Crash
    | InsertCopy(copy: CopyRow)
    | EditCopy(copy: CopyRow)
    | DeleteCopy(id: string)

  /** now plus the lifetime, truncated to seconds. */
  function ExpiryAt(clock: int, ttl: nat): (seconds: int)
    ensures seconds * SECOND <= clock + ttl < (seconds + 1) * SECOND
  {
    (clock + ttl) / SECOND
  }

  ghost function DoShowPreview(codec: Codec, s: State, copy: CopyRow, env: Env, actorId: string, requested: Choices,
                               sorted: Choices): State {
    if !Normalises(requested, sorted) then s
    else
      match BuildSorted(codec, env, copy, sorted)
      case Refused(_) => s
      case Ok(plan) =>
        var binding := Binding(copy.id, actorId, plan.digest, ExpiryAt(s.clock, s.ttl));
        s.(previews := s.previews + [Preview(binding, plan.request, s.clock)])
  }

  /** verifyRestorePreview. */
  ghost predicate Accepts(s: State, token: Option<Binding>, copyId: string, actorId: string, digest: Canonical) {
    && token.Some?
    && (exists p :: p in s.previews && p.binding == token.value)
    && token.value.copyId == copyId && token.value.actorId == actorId
    && token.value.expiresAt > 0 && s.clock < token.value.expiresAt * SECOND
    && token.value.digest == digest
  }

  /** A key that is in use either names the job it made before or is refused; neither makes a job. */
  ghost function DoSubmit(codec: Codec, s: State, copy: CopyRow, env: Env, actorId: string, requested: Choices,
                          sorted: Choices,
                          token: Option<Binding>, key: string, job: nat): State {
    if !Normalises(requested, sorted) || job in s.jobs || (exists j :: j in s.jobs && s.jobs[j].key == key) then s
    else
      match BuildSorted(codec, env, copy, sorted)
      case Refused(_) => s
      case Ok(plan) =>
        if !Accepts(s, token, copy.id, actorId, plan.digest) then s
        else s.(jobs := s.jobs[job := Job(copy.id, plan.choices, plan.digest, key, actorId, s.clock, Queued)])
  }

  /** restoreJob up to the digest comparison. */
  ghost function DoCheck(codec: Codec, s: State, job: nat, env: Env, sorted: Choices): State {
    if s.worker != Idle || job !in s.jobs || s.jobs[job].status != Queued then s
    else
      var j := s.jobs[job];
      var failed := s.(jobs := s.jobs[job := j.(status := Finished)]);
      if j.copyId !in s.copies then failed
      else if !Normalises(j.choices, sorted) then s
      else
        match BuildSorted(codec, env, s.copies[j.copyId], sorted)
        case Refused(_) => failed
        case Ok(plan) =>
          if plan.digest != j.digest then failed
          else s.(jobs := s.jobs[job := j.(status := Running)], worker := Checked(job, plan.request, plan.digest))
  }

  function DoRestore(s: State, failed: bool): State {
    if !s.worker.Checked? || s.worker.job !in s.jobs then s
    else
      var copyId := s.jobs[s.worker.job].copyId;
      s.(log := s.log + [Execution(s.worker.job, copyId, s.worker.request, s.worker.digest)],
        worker := Ran(s.worker.job, copyId, failed))
  }

  function Settled(s: State, job: nat): map<nat, Job> {
    if job in s.jobs then s.jobs[job := s.jobs[job].(status := Finished)] else s.jobs
  }

  /** recordRestoreVerification: the job has succeeded or failed whether or not the write goes through. */
  function DoRecord(s: State, stored: bool): State {
    if !s.worker.Ran? then s
    else
      var Ran(job, id, failed) := s.worker;
      var settled := s.(worker := Idle, jobs := Settled(s, job));
      if !stored then settled.(lost := s.lost + {id})
      else if id !in s.copies then settled
      else settled.(copies := s.copies[id := s.copies[id].(restoreTest := if failed then "failed" else "passed")])
  }

  function DoCrash(s: State): State {
    match s.worker
    case Idle => s
    case Checked(job, _, _) => s.(worker := Idle, jobs := Settled(s, job))
    case Ran(job, id, _) => s.(worker := Idle, jobs := Settled(s, job), lost := s.lost + {id})
  }

  /** Copy ids are random and never used again. */
  function DoInsertCopy(s: State, copy: CopyRow): State {
    if copy.id in s.ids then s else s.(copies := s.copies[copy.id := copy], ids := s.ids + {copy.id})
  }

  /** Whatever else rewrites a copy leaves its restore test state alone. */
  function DoEditCopy(s: State, copy: CopyRow): State {
    if copy.id !in s.copies || s.copies[copy.id].restoreTest != copy.restoreTest then s
    else s.(copies := s.copies[copy.id := copy])
  }

  ghost function Next(codec: Codec, s: State, step: Step): State {
    match step
    case Tick(now) => s.(clock := now)
    case ShowPreview(copy, env, actorId, requested, sorted) =>
      DoShowPreview(codec, s, copy, env, actorId, requested, sorted)
    case Submit(copy, env, actorId, requested, sorted, token, key, job) =>
      DoSubmit(codec, s, copy, env, actorId, requested, sorted, token, key, job)
    case Check(job, env, sorted) => DoCheck(codec, s, job, env, sorted)
    case Restore(failed) => DoRestore(s, failed)
    case Record(stored) => DoRecord(s, stored)
    case Crash => DoCrash(s)
    case InsertCopy(copy) => DoInsertCopy(s, copy)
    case EditCopy(copy) => DoEditCopy(s, copy)
    case DeleteCopy(id) => s.(copies := s.copies - {id})
  }

  ghost function Exec(codec: Codec, s: State, run: seq<Step>): State
    decreases |run|
  {
    if run == [] then s else Exec(codec, Next(codec, s, run[0]), run[1..])
  }

  function Initial(clock: int, ttl: nat): State {
    State(clock, ttl, map[], {}, [], map[], Idle, [], {})
  }

  // ----- a digest stands for one request -----

  /** Decrypting an empty ciphertext fails, so a row with an empty secret is never resolved. */
  ghost predicate EmptySecretsFail(codec: Codec) {
    forall row: AccountRow :: row.secret == Some("") ==> codec.resolve(row).None?
  }

  predicate HashedAs(row: AccountRow, hashed: AccountRow) {
    hashed == row.(secret := Some(if row.secret.Some? then row.secret.value else ""))
  }

  /** The request could have been resolved for this digest. */
  ghost predicate Denotes(codec: Codec, digest: Canonical, request: Request) {
    && request.planId == digest.copy.planId && request.copyName == digest.copy.copyName
    && request.sites == digest.sites && request.databases == digest.databases
    && exists row :: HashedAs(row, digest.account) && codec.resolve(row) == Some(request.account)
  }

  lemma PlansDenote(codec: Codec, env: Env, copy: CopyRow, sorted: Choices)
    requires BuildSorted(codec, env, copy, sorted).Ok?
    ensures
      var plan := BuildSorted(codec, env, copy, sorted).value;
      Denotes(codec, plan.digest, plan.request) && plan.digest.copy == copy && plan.digest.choices == sorted
  {
    var plan := BuildSorted(codec, env, copy, sorted).value;
    assert HashedAs(env.accounts[copy.accountId], plan.digest.account);
  }

  lemma DigestFixesRequest(codec: Codec, digest: Canonical, one: Request, other: Request)
    requires EmptySecretsFail(codec) && Denotes(codec, digest, one) && Denotes(codec, digest, other)
    ensures one == other
  {
    var row :| HashedAs(row, digest.account) && codec.resolve(row) == Some(one.account);
    var row' :| HashedAs(row', digest.account) && codec.resolve(row') == Some(other.account);
    assert row.secret != Some("") && row'.secret != Some("");
    assert row == row';
  }

  // ----- executed equals previewed -----

  ghost predicate PreviewsOk(codec: Codec, ttl: nat, previews: seq<Preview>) {
    forall i :: 0 <= i < |previews| ==>
      && Denotes(codec, previews[i].binding.digest, previews[i].request)
      && previews[i].binding.expiresAt * SECOND <= previews[i].shownAt + ttl
  }

  /** A preview of this digest was shown to this actor for this copy and was unexpired at that time. */
  ghost predicate Shown(previews: seq<Preview>, j: Job) {
    exists i :: 0 <= i < |previews|
      && previews[i].binding.copyId == j.copyId && previews[i].binding.actorId == j.actorId
      && previews[i].binding.digest == j.digest && j.submittedAt < previews[i].binding.expiresAt * SECOND
  }

  ghost predicate JobsOk(previews: seq<Preview>, jobs: map<nat, Job>) {
    forall job :: job in jobs ==> Shown(previews, jobs[job])
  }

  ghost predicate WorkerOk(codec: Codec, jobs: map<nat, Job>, worker: Worker) {
    match worker
    case Idle => true
    case Checked(job, request, digest) => job in jobs && digest == jobs[job].digest && Denotes(codec, digest, request)
    case Ran(job, copyId, _) => job in jobs && copyId == jobs[job].copyId
  }

  ghost predicate LogOk(codec: Codec, jobs: map<nat, Job>, log: seq<Execution>) {
    forall i :: 0 <= i < |log| ==>
      && log[i].job in jobs && log[i].copyId == jobs[log[i].job].copyId
      && log[i].digest == jobs[log[i].job].digest && Denotes(codec, log[i].digest, log[i].request)
  }

  ghost predicate ShownInv(codec: Codec, s: State) {
    PreviewsOk(codec, s.ttl, s.previews) && JobsOk(s.previews, s.jobs) && WorkerOk(codec, s.jobs, s.worker)
      && LogOk(codec, s.jobs, s.log)
  }

  lemma ShownGrows(previews: seq<Preview>, more: seq<Preview>, jobs: map<nat, Job>)
    requires JobsOk(previews, jobs)
    ensures JobsOk(previews + more, jobs)
  {
    forall job | job in jobs ensures Shown(previews + more, jobs[job]) {
      var i :| 0 <= i < |previews|
        && previews[i].binding.copyId == jobs[job].copyId && previews[i].binding.actorId == jobs[job].actorId
        && previews[i].binding.digest == jobs[job].digest
           && jobs[job].submittedAt < previews[i].binding.expiresAt * SECOND;
      assert (previews + more)[i] == previews[i];
    }
  }

  lemma PreviewKeepsShown(codec: Codec, s: State, copy: CopyRow, env: Env, actorId: string, requested: Choices,
                          sorted: Choices)
    requires ShownInv(codec, s)
    ensures ShownInv(codec, DoShowPreview(codec, s, copy, env, actorId, requested, sorted))
  {
    if Normalises(requested, sorted) && BuildSorted(codec, env, copy, sorted).Ok? {
      PlansDenote(codec, env, copy, sorted);
      var plan := BuildSorted(codec, env, copy, sorted).value;
      ShownGrows(s.previews,
        [Preview(Binding(copy.id, actorId, plan.digest, ExpiryAt(s.clock, s.ttl)), plan.request, s.clock)], s.jobs);
    }
  }

  lemma NewJobKeepsShown(codec: Codec, s: State, job: nat, j: Job)
    requires ShownInv(codec, s) && job !in s.jobs && Shown(s.previews, j)
    ensures ShownInv(codec, s.(jobs := s.jobs[job := j]))
  {
  }

  lemma AcceptedIsShown(s: State, token: Option<Binding>, j: Job)
    requires Accepts(s, token, j.copyId, j.actorId, j.digest) && j.submittedAt == s.clock
    ensures Shown(s.previews, j)
  {
    var p :| p in s.previews && p.binding == token.value;
    var i :| 0 <= i < |s.previews| && s.previews[i] == p;
  }

  lemma SubmitKeepsShown(codec: Codec, s: State, copy: CopyRow, env: Env, actorId: string, requested: Choices,
                         sorted: Choices,
                         token: Option<Binding>, key: string, job: nat)
    requires ShownInv(codec, s)
    ensures ShownInv(codec, DoSubmit(codec, s, copy, env, actorId, requested, sorted, token, key, job))
  {
    if job !in s.jobs && BuildSorted(codec, env, copy, sorted).Ok? {
      var plan := BuildSorted(codec, env, copy, sorted).value;
      if Accepts(s, token, copy.id, actorId, plan.digest) {
        var j := Job(copy.id, plan.choices, plan.digest, key, actorId, s.clock, Queued);
        AcceptedIsShown(s, token, j);
        NewJobKeepsShown(codec, s, job, j);
      }
    }
  }

  lemma CheckKeepsShown(codec: Codec, s: State, job: nat, env: Env, sorted: Choices)
    requires ShownInv(codec, s)
    ensures ShownInv(codec, DoCheck(codec, s, job, env, sorted))
  {
    if s.worker == Idle && job in s.jobs && s.jobs[job].status == Queued {
      assert Shown(s.previews, s.jobs[job]);
      StatusKeepsShown(codec, s, job, Finished);
      StatusKeepsShown(codec, s, job, Running);
      var copyId := s.jobs[job].copyId;
      if copyId in s.copies && Normalises(s.jobs[job].choices, sorted)
        && BuildSorted(codec, env, s.copies[copyId], sorted).Ok? {
        PlansDenote(codec, env, s.copies[copyId], sorted);
      }
    }
  }

  lemma StatusKeepsShown(codec: Codec, s: State, job: nat, status: Status)
    requires ShownInv(codec, s) && job in s.jobs
    ensures ShownInv(codec, s.(jobs := s.jobs[job := s.jobs[job].(status := status)]))
  {
    var jobs' := s.jobs[job := s.jobs[job].(status := status)];
    forall j | j in jobs' ensures Shown(s.previews, jobs'[j]) {
      assert Shown(s.previews, s.jobs[j]);
    }
  }

  lemma RestoreKeepsShown(codec: Codec, s: State, failed: bool)
    requires ShownInv(codec, s)
    ensures ShownInv(codec, DoRestore(s, failed))
  {
  }

  lemma RecordKeepsShown(codec: Codec, s: State, stored: bool)
    requires ShownInv(codec, s)
    ensures ShownInv(codec, DoRecord(s, stored))
  {
    if s.worker.Ran? { StatusKeepsShown(codec, s, s.worker.job, Finished); }
  }

  lemma CrashKeepsShown(codec: Codec, s: State)
    requires ShownInv(codec, s)
    ensures ShownInv(codec, DoCrash(s))
  {
    if s.worker != Idle { StatusKeepsShown(codec, s, s.worker.job, Finished); }
  }

  lemma StepKeepsShown(codec: Codec, s: State, step: Step)
    requires ShownInv(codec, s)
    ensures ShownInv(codec, Next(codec, s, step))
  {
    match step
    case ShowPreview(copy, env, actorId, requested, sorted) =>
      PreviewKeepsShown(codec, s, copy, env, actorId, requested, sorted);
    case Submit(copy, env, actorId, requested, sorted, token, key, job) =>
      SubmitKeepsShown(codec, s, copy, env, actorId, requested, sorted, token, key, job);
    case Check(job, env, sorted) => CheckKeepsShown(codec, s, job, env, sorted);
    case Restore(failed) => RestoreKeepsShown(codec, s, failed);
    case Record(stored) => RecordKeepsShown(codec, s, stored);
    case Crash => CrashKeepsShown(codec, s);
    case _ =>
  }

  lemma {:induction false} ExecKeepsShown(codec: Codec, s: State, run: seq<Step>)
    requires ShownInv(codec, s)
    ensures ShownInv(codec, Exec(codec, s, run))
    decreases |run|
  {
    if run != [] {
      StepKeepsShown(codec, s, run[0]);
      ExecKeepsShown(codec, Next(codec, s, run[0]), run[1..]);
    }
  }

  /**
   Every call of the operator has exactly the account, copy, sites and databases
   of a preview that was shown earlier to the same actor for the same copy and
   was within its lifetime when the job was submitted.
   */
  lemma ExecutedWasPreviewed(codec: Codec, clock: int, ttl: nat, run: seq<Step>, i: nat)
    requires EmptySecretsFail(codec)
    requires i < |Exec(codec, Initial(clock, ttl), run).log|
    ensures
      var s := Exec(codec, Initial(clock, ttl), run);
      && s.log[i].job in s.jobs
      && exists p :: p in s.previews
           && p.request == s.log[i].request && p.binding.copyId == s.log[i].copyId
           && p.binding.actorId == s.jobs[s.log[i].job].actorId
           && s.jobs[s.log[i].job].submittedAt < p.binding.expiresAt * SECOND <= p.shownAt + s.ttl
  {
    ExecKeepsShown(codec, Initial(clock, ttl), run);
    var s := Exec(codec, Initial(clock, ttl), run);
    var j := s.jobs[s.log[i].job];
    var k :| 0 <= k < |s.previews|
      && s.previews[k].binding.copyId == j.copyId && s.previews[k].binding.actorId == j.actorId
      && s.previews[k].binding.digest == j.digest && j.submittedAt < s.previews[k].binding.expiresAt * SECOND;
    DigestFixesRequest(codec, j.digest, s.previews[k].request, s.log[i].request);
    assert s.previews[k] in s.previews;
  }

  // ----- at most one restore of what was previewed as not tested -----

  /** This copy's plan was previewed before any restore of it had an outcome. */
  predicate Untested(e: Execution) {
    e.digest.copy.restoreTest == NOT_TESTED
  }

  /** A restore of this copy, previewed as not tested, was started before. */
  ghost predicate Tried(log: seq<Execution>, id: string) {
    exists i :: 0 <= i < |log| && log[i].copyId == id && Untested(log[i])
  }

  ghost predicate CopiesOk(copies: map<string, CopyRow>, ids: set<string>, jobs: map<nat, Job>) {
    && (forall id :: id in copies ==> copies[id].id == id && id in ids)
    && (forall job :: job in jobs ==> jobs[job].digest.copy.id == jobs[job].copyId)
  }

  ghost predicate OutcomeOk(copies: map<string, CopyRow>, ids: set<string>, worker: Worker, log: seq<Execution>,
                            lost: set<string>) {
    forall id :: Tried(log, id) && id !in lost ==>
      && id in ids
      && (id in copies && copies[id].restoreTest == NOT_TESTED ==> worker.Ran? && worker.copyId == id)
  }

  /** The job about to run is the first of its kind. */
  ghost predicate FirstOk(jobs: map<nat, Job>, worker: Worker, log: seq<Execution>, ids: set<string>,
                          lost: set<string>) {
    worker.Checked? && worker.digest.copy.restoreTest == NOT_TESTED ==>
      worker.digest.copy.id in ids && (Tried(log, worker.digest.copy.id) ==> worker.digest.copy.id in lost)
  }

  ghost predicate OnceOk(log: seq<Execution>, lost: set<string>) {
    forall i, j :: 0 <= i < j < |log| && Untested(log[i]) && Untested(log[j]) && log[i].copyId == log[j].copyId ==>
        log[i].copyId in lost
  }

  ghost predicate SingleInv(s: State) {
    && CopiesOk(s.copies, s.ids, s.jobs)
    && OutcomeOk(s.copies, s.ids, s.worker, s.log, s.lost)
    && FirstOk(s.jobs, s.worker, s.log, s.ids, s.lost)
    && OnceOk(s.log, s.lost)
  }

  lemma CheckKeepsSingle(codec: Codec, s: State, job: nat, env: Env, sorted: Choices)
    requires ShownInv(codec, s) && SingleInv(s)
    ensures SingleInv(DoCheck(codec, s, job, env, sorted))
  {
    var s' := DoCheck(codec, s, job, env, sorted);
    if s.worker == Idle && s'.worker.Checked? {
      PlansDenote(codec, env, s.copies[s.jobs[job].copyId], sorted);
    }
  }

  lemma TriedAppend(log: seq<Execution>, e: Execution, id: string)
    ensures Tried(log + [e], id) <==> Tried(log, id) || (e.copyId == id && Untested(e))
  {
    var log' := log + [e];
    if Tried(log, id) {
      var i :| 0 <= i < |log| && log[i].copyId == id && Untested(log[i]);
      assert log'[i] == log[i];
    }
    if e.copyId == id && Untested(e) { assert log'[|log|] == e; }
  }

  lemma RestoreKeepsSingle(codec: Codec, s: State, failed: bool)
    requires ShownInv(codec, s) && SingleInv(s)
    ensures SingleInv(DoRestore(s, failed))
  {
    if s.worker.Checked? {
      var id := s.jobs[s.worker.job].copyId;
      var e := Execution(s.worker.job, id, s.worker.request, s.worker.digest);
      assert s.worker.digest.copy.id == id;
      forall other ensures Tried(s.log + [e], other) <==> Tried(s.log, other) || (id == other && Untested(e)) {
        TriedAppend(s.log, e, other);
      }
    }
  }

  /** Storing the outcome moves the copy out of not tested; failing to store it puts the copy on record as lost. */
  lemma OutcomeSettles(copies: map<string, CopyRow>, ids: set<string>, worker: Worker, log: seq<Execution>,
                       lost: set<string>, state: string)
    requires OutcomeOk(copies, ids, worker, log, lost) && worker.Ran? && state != NOT_TESTED
    ensures OutcomeOk(copies, ids, Idle, log, lost + {worker.copyId})
    ensures worker.copyId in copies ==>
              OutcomeOk(copies[worker.copyId := copies[worker.copyId].(restoreTest := state)], ids, Idle, log, lost)
    ensures worker.copyId !in copies ==> OutcomeOk(copies, ids, Idle, log, lost)
  {
  }

  lemma SettledKeepsCopies(s: State, job: nat)
    requires CopiesOk(s.copies, s.ids, s.jobs)
    ensures CopiesOk(s.copies, s.ids, Settled(s, job))
  {
  }

  /** The worker lets go of its job; nothing runs, so nothing is about to run first. */
  lemma IdleKeepsSingle(s: State, s': State)
    requires SingleInv(s)
    requires s'.worker == Idle && s'.log == s.log && s.lost <= s'.lost && s'.ids == s.ids
    requires CopiesOk(s'.copies, s'.ids, s'.jobs) && OutcomeOk(s'.copies, s'.ids, Idle, s'.log, s'.lost)
    ensures SingleInv(s')
  {
  }

  lemma RecordKeepsSingle(codec: Codec, s: State, stored: bool)
    requires ShownInv(codec, s) && SingleInv(s)
    ensures SingleInv(DoRecord(s, stored))
  {
    if s.worker.Ran? {
      OutcomeSettles(s.copies, s.ids, s.worker, s.log, s.lost, "failed");
      OutcomeSettles(s.copies, s.ids, s.worker, s.log, s.lost, "passed");
      SettledKeepsCopies(s, s.worker.job);
      IdleKeepsSingle(s, DoRecord(s, stored));
    }
  }

  lemma CrashKeepsSingle(codec: Codec, s: State)
    requires ShownInv(codec, s) && SingleInv(s)
    ensures SingleInv(DoCrash(s))
  {
    if s.worker.Ran? { OutcomeSettles(s.copies, s.ids, s.worker, s.log, s.lost, "failed"); }
    if s.worker != Idle {
      SettledKeepsCopies(s, s.worker.job);
      IdleKeepsSingle(s, DoCrash(s));
    }
  }

  lemma SubmitKeepsSingle(codec: Codec, s: State, step: Step)
    requires ShownInv(codec, s) && SingleInv(s) && step.Submit?
    ensures SingleInv(Next(codec, s, step))
  {
    if BuildSorted(codec, step.env, step.copy, step.sorted).Ok? {
      PlansDenote(codec, step.env, step.copy, step.sorted);
    }
  }

  lemma InsertKeepsSingle(s: State, copy: CopyRow)
    requires SingleInv(s)
    ensures SingleInv(DoInsertCopy(s, copy))
  {
  }

  lemma EditKeepsSingle(s: State, copy: CopyRow)
    requires SingleInv(s)
    ensures SingleInv(DoEditCopy(s, copy))
  {
  }

  lemma DeleteKeepsSingle(s: State, id: string)
    requires SingleInv(s)
    ensures SingleInv(s.(copies := s.copies - {id}))
  {
  }

  lemma CopiesKeepSingle(codec: Codec, s: State, step: Step)
    requires ShownInv(codec, s) && SingleInv(s)
    requires step.InsertCopy? || step.EditCopy? || step.DeleteCopy? || step.Tick? || step.ShowPreview?
    ensures SingleInv(Next(codec, s, step))
  {
    match step
    case InsertCopy(copy) => InsertKeepsSingle(s, copy);
    case EditCopy(copy) => EditKeepsSingle(s, copy);
    case DeleteCopy(id) => DeleteKeepsSingle(s, id);
    case _ =>
  }

  lemma StepKeepsSingle(codec: Codec, s: State, step: Step)
    requires ShownInv(codec, s) && SingleInv(s)
    ensures SingleInv(Next(codec, s, step))
  {
    if step.Check? {
      CheckKeepsSingle(codec, s, step.job, step.env, step.sorted);
    } else if step.Restore? {
      RestoreKeepsSingle(codec, s, step.failed);
    } else if step.Record? {
      RecordKeepsSingle(codec, s, step.stored);
    } else if step == Crash {
      CrashKeepsSingle(codec, s);
    } else if step.Submit? {
      SubmitKeepsSingle(codec, s, step);
    } else {
      CopiesKeepSingle(codec, s, step);
    }
  }

  lemma {:induction false} ExecKeepsSingle(codec: Codec, s: State, run: seq<Step>)
    requires ShownInv(codec, s) && SingleInv(s)
    ensures SingleInv(Exec(codec, s, run))
    decreases |run|
  {
    if run != [] {
      StepKeepsShown(codec, s, run[0]);
      StepKeepsSingle(codec, s, run[0]);
      ExecKeepsSingle(codec, Next(codec, s, run[0]), run[1..]);
    }
  }

  /** Of all the restores of one copy that were previewed as not tested, at most one runs unless an outcome was lost. */
  lemma AtMostOneUntestedRestore(codec: Codec, clock: int, ttl: nat, run: seq<Step>, i: nat, j: nat)
    requires i < j < |Exec(codec, Initial(clock, ttl), run).log|
    requires
      var log := Exec(codec, Initial(clock, ttl), run).log;
      log[i].copyId == log[j].copyId && Untested(log[i]) && Untested(log[j])
    ensures
      var s := Exec(codec, Initial(clock, ttl), run);
      s.log[i].copyId in s.lost
  {
    ExecKeepsSingle(codec, Initial(clock, ttl), run);
  }

  // ----- an unchanged plan is accepted -----

  /** The job this submission makes. */
  ghost predicate SubmittedBy(codec: Codec, s: State, step: Step, j: Job) {
    step.Submit? && step.job !in s.jobs && step.job in Next(codec, s, step).jobs
      && Next(codec, s, step).jobs[step.job] == j
  }

  lemma SubmittedPlan(codec: Codec, s: State, submit: Step, j: Job)
    requires submit.Submit? && SubmittedBy(codec, s, submit, j)
    ensures Normalises(submit.requested, submit.sorted)
            && BuildSorted(codec, submit.env, submit.copy, submit.sorted).Ok?
    ensures
      var plan := BuildSorted(codec, submit.env, submit.copy, submit.sorted).value;
      j.copyId == submit.copy.id && j.choices == plan.choices && j.digest == plan.digest && j.status == Queued
  {
  }

  lemma SameDigestIsAccepted(codec: Codec, s: State, job: nat, env: Env, sorted: Choices)
    requires s.worker == Idle && job in s.jobs && s.jobs[job].status == Queued && s.jobs[job].copyId in s.copies
    requires Normalises(s.jobs[job].choices, sorted)
    requires
      var built := BuildSorted(codec, env, s.copies[s.jobs[job].copyId], sorted);
      built.Ok? && built.value.digest == s.jobs[job].digest
    ensures
      var w := Next(codec, s, Check(job, env, sorted)).worker;
      w.Checked? && w.job == job && w.digest == s.jobs[job].digest
  {
  }

  /**
   While its copy and what the build reads are as they were at submission, a queued job passes its check,
   however it sorts.
   */
  lemma UnchangedPlanIsAccepted(codec: Codec, s: State, submit: Step, later: State, sorted: Choices)
    requires submit.Submit? && submit.job in later.jobs && SubmittedBy(codec, s, submit, later.jobs[submit.job])
    requires later.worker == Idle && submit.copy.id in later.copies && later.copies[submit.copy.id] == submit.copy
    requires Normalises(later.jobs[submit.job].choices, sorted)
    ensures
      var w := Next(codec, later, Check(submit.job, submit.env, sorted)).worker;
      w.Checked? && w.job == submit.job && w.digest == later.jobs[submit.job].digest
  {
    SubmittedPlan(codec, s, submit, later.jobs[submit.job]);
    RebuildIsIdentical(codec, submit.env, submit.copy, submit.requested, submit.sorted, sorted);
    SameDigestIsAccepted(codec, later, submit.job, submit.env, sorted);
  }

  /** What is shown to the actor is what the actor chose, resolved at that moment. */
  lemma PreviewShowsWhatWasChosen(codec: Codec, s: State, copy: CopyRow, env: Env, actorId: string, requested: Choices,
                                  sorted: Choices)
    requires Normalises(requested, sorted) && BuildSorted(codec, env, copy, sorted).Ok?
    ensures
      var shown := Next(codec, s, ShowPreview(copy, env, actorId, requested, sorted)).previews;
      && |shown| == |s.previews| + 1 && shown[..|s.previews|] == s.previews
      && SaysWhatWasChosen(codec, env, copy, sorted, shown[|s.previews|].request)
      && shown[|s.previews|].binding.actorId == actorId && shown[|s.previews|].binding.copyId == copy.id
      && shown[|s.previews|].shownAt == s.clock
  {
    PlanSaysWhatWasChosen(codec, env, copy, sorted);
  }

  // ----- what a stored outcome says -----

  lemma {:induction false} ExecAppend(codec: Codec, s: State, run: seq<Step>, step: Step)
    ensures Exec(codec, s, run + [step]) == Next(codec, Exec(codec, s, run), step)
    decreases |run|
  {
    if run == [] {
      assert [] + [step] == [step] && [step][1..] == [];
    } else {
      assert (run + [step])[1..] == run[1..] + [step];
      ExecAppend(codec, Next(codec, s, run[0]), run[1..], step);
    }
  }

  /** At this point of the run the operator was called for this copy and answered this way. */
  ghost predicate CalledAt(codec: Codec, s: State, run: seq<Step>, k: nat, id: string, failed: bool) {
    && k < |run| && run[k] == Restore(failed)
    && var before := Exec(codec, s, run[..k]);
    before.worker.Checked? && before.worker.job in before.jobs && before.jobs[before.worker.job].copyId == id
  }

  ghost predicate WasCalled(codec: Codec, s: State, run: seq<Step>, id: string, failed: bool) {
    exists k: nat :: CalledAt(codec, s, run, k, id, failed)
  }

  lemma CalledStays(codec: Codec, s: State, run: seq<Step>, step: Step, id: string, failed: bool)
    ensures WasCalled(codec, s, run, id, failed) ==> WasCalled(codec, s, run + [step], id, failed)
  {
    if k: nat :| CalledAt(codec, s, run, k, id, failed) {
      assert (run + [step])[..k] == run[..k];
      assert CalledAt(codec, s, run + [step], k, id, failed);
    }
  }

  /** Copies are put in without a restore test of their own. */
  predicate InsertsUntested(run: seq<Step>) {
    forall k :: 0 <= k < |run| && run[k].InsertCopy? ==> run[k].copy.restoreTest == NOT_TESTED
  }

  predicate Says(state: string, failed: bool) {
    state == if failed then "failed" else "passed"
  }

  /** An outcome that is about to be stored, or is stored, is the one the operator gave. */
  ghost predicate OutcomesTold(codec: Codec, start: State, run: seq<Step>, s: State) {
    && (s.worker.Ran? ==> WasCalled(codec, start, run, s.worker.copyId, s.worker.failed))
    && (forall id :: id in s.copies && s.copies[id].restoreTest != NOT_TESTED ==>
          exists failed :: Says(s.copies[id].restoreTest, failed) && WasCalled(codec, start, run, id, failed))
  }

  lemma RestoreTellsOutcome(codec: Codec, start: State, run: seq<Step>, failed: bool)
    requires OutcomesTold(codec, start, run, Exec(codec, start, run))
    ensures OutcomesTold(codec, start, run + [Restore(failed)], DoRestore(Exec(codec, start, run), failed))
  {
    var s := Exec(codec, start, run);
    OutcomesGoOn(codec, start, run, Restore(failed), s);
    if s.worker.Checked? && s.worker.job in s.jobs {
      assert (run + [Restore(failed)])[..|run|] == run;
      assert CalledAt(codec, start, run + [Restore(failed)], |run|, s.jobs[s.worker.job].copyId, failed);
    }
  }

  lemma OutcomesGoOn(codec: Codec, start: State, run: seq<Step>, step: Step, s: State)
    requires OutcomesTold(codec, start, run, s)
    ensures OutcomesTold(codec, start, run + [step], s)
  {
    forall id, failed | WasCalled(codec, start, run, id, failed)
      ensures WasCalled(codec, start, run + [step], id, failed)
    {
      CalledStays(codec, start, run, step, id, failed);
    }
  }

  lemma RecordTellsOutcome(codec: Codec, start: State, run: seq<Step>, s: State, stored: bool)
    requires OutcomesTold(codec, start, run, s)
    ensures OutcomesTold(codec, start, run, DoRecord(s, stored))
  {
    if s.worker.Ran? { assert Says(if s.worker.failed then "failed" else "passed", s.worker.failed); }
  }

  lemma OthersTellOutcome(codec: Codec, start: State, run: seq<Step>, s: State, step: Step)
    requires OutcomesTold(codec, start, run, s) && !step.Restore? && !step.Record?
    requires step.InsertCopy? ==> step.copy.restoreTest == NOT_TESTED
    ensures OutcomesTold(codec, start, run, Next(codec, s, step))
  {
  }

  lemma {:induction false} RunTellsOutcomes(codec: Codec, start: State, run: seq<Step>)
    requires start.worker == Idle && start.copies == map[] && InsertsUntested(run)
    ensures OutcomesTold(codec, start, run, Exec(codec, start, run))
    decreases |run|
  {
    if run != [] {
      var before, step := run[..|run| - 1], run[|run| - 1];
      assert run == before + [step];
      RunTellsOutcomes(codec, start, before);
      ExecAppend(codec, start, before, step);
      var s := Exec(codec, start, before);
      if step.Restore? {
        RestoreTellsOutcome(codec, start, before, step.failed);
      } else {
        OutcomesGoOn(codec, start, before, step, s);
        if step.Record? {
          RecordTellsOutcome(codec, start, run, s, step.stored);
        } else {
          OthersTellOutcome(codec, start, run, s, step);
        }
      }
    }
  }

  /**
   A copy that says passed or failed was restored, and the operator's call succeeded or
   failed accordingly: no other state is ever stored over not tested.
   */
  lemma StoredOutcomeIsTheCalls(codec: Codec, clock: int, ttl: nat, run: seq<Step>, id: string)
    requires InsertsUntested(run)
    requires
      var s := Exec(codec, Initial(clock, ttl), run);
      id in s.copies && s.copies[id].restoreTest != NOT_TESTED
    ensures
      var s := Exec(codec, Initial(clock, ttl), run);
      exists failed :: s.copies[id].restoreTest == (if failed then "failed" else "passed")
                       && WasCalled(codec, Initial(clock, ttl), run, id, failed)
  {
    RunTellsOutcomes(codec, Initial(clock, ttl), run);
  }

  // ----- one job for one key -----

  ghost predicate KeysApart(jobs: map<nat, Job>) {
    forall i, j :: i in jobs && j in jobs && jobs[i].key == jobs[j].key ==> i == j
  }

  lemma StepKeepsKeys(codec: Codec, s: State, step: Step)
    requires KeysApart(s.jobs)
    ensures KeysApart(Next(codec, s, step).jobs)
  {
  }

  /** An idempotency key never makes a second restore job. */
  lemma {:induction false} OneJobPerKey(codec: Codec, s: State, run: seq<Step>)
    requires KeysApart(s.jobs)
    ensures KeysApart(Exec(codec, s, run).jobs)
    decreases |run|
  {
    if run != [] {
      StepKeepsKeys(codec, s, run[0]);
      OneJobPerKey(codec, Next(codec, s, run[0]), run[1..]);
    }
  }

  // ----- from the preview to the stored outcome -----

  /** A preview, its confirmation, and the job as the worker runs it. */
  function Ordered(copy: CopyRow, env: Env, actorId: string, requested: Choices, sorted: Choices, binding: Binding,
                   key: string, job: nat, now: int, failed: bool): (run: seq<Step>)
    ensures |run| == 6
  {
    [ShowPreview(copy, env, actorId, requested, sorted), Tick(now),
     Submit(copy, env, actorId, requested, sorted, Some(binding), key, job), Check(job, env, sorted),
     Restore(failed), Record(true)]
  }

  ghost function Six(codec: Codec, s: State, run: seq<Step>): State
    requires |run| == 6
  {
    Next(codec, Next(codec, Next(codec, Next(codec, Next(codec, Next(codec, s, run[0]), run[1]), run[2]), run[3]),
      run[4]), run[5])
  }

  lemma ExecSix(codec: Codec, s: State, run: seq<Step>)
    requires |run| == 6
    ensures Exec(codec, s, run) == Six(codec, s, run)
  {
    assert run == [] + [run[0]] + [run[1]] + [run[2]] + [run[3]] + [run[4]] + [run[5]];
    ExecAppend(codec, s, [], run[0]);
    ExecAppend(codec, s, [] + [run[0]], run[1]);
    ExecAppend(codec, s, [] + [run[0]] + [run[1]], run[2]);
    ExecAppend(codec, s, [] + [run[0]] + [run[1]] + [run[2]], run[3]);
    ExecAppend(codec, s, [] + [run[0]] + [run[1]] + [run[2]] + [run[3]], run[4]);
    ExecAppend(codec, s, [] + [run[0]] + [run[1]] + [run[2]] + [run[3]] + [run[4]], run[5]);
  }

  lemma ShowStep(codec: Codec, s: State, copy: CopyRow, env: Env, actorId: string, requested: Choices, sorted: Choices,
                 plan: Plan)
    requires Normalises(requested, sorted) && BuildSorted(codec, env, copy, sorted) == Ok(plan)
    ensures
      var binding := Binding(copy.id, actorId, plan.digest, ExpiryAt(s.clock, s.ttl));
      DoShowPreview(codec, s, copy, env, actorId, requested, sorted)
      == s.(previews := s.previews + [Preview(binding, plan.request, s.clock)])
  {
  }

  lemma SubmitStep(codec: Codec, s: State, copy: CopyRow, env: Env, actorId: string, requested: Choices,
                   sorted: Choices, token: Option<Binding>, key: string, job: nat, plan: Plan)
    requires Normalises(requested, sorted) && BuildSorted(codec, env, copy, sorted) == Ok(plan)
    requires job !in s.jobs && forall j :: j in s.jobs ==> s.jobs[j].key != key
    requires Accepts(s, token, copy.id, actorId, plan.digest)
    ensures DoSubmit(codec, s, copy, env, actorId, requested, sorted, token, key, job)
            == s.(jobs := s.jobs[job := Job(copy.id, plan.choices, plan.digest, key, actorId, s.clock, Queued)])
  {
  }

  lemma CheckStep(codec: Codec, s: State, job: nat, env: Env, sorted: Choices, plan: Plan)
    requires s.worker == Idle && job in s.jobs && s.jobs[job].status == Queued && s.jobs[job].copyId in s.copies
    requires Normalises(s.jobs[job].choices, sorted) && plan.digest == s.jobs[job].digest
    requires BuildSorted(codec, env, s.copies[s.jobs[job].copyId], sorted) == Ok(plan)
    ensures DoCheck(codec, s, job, env, sorted)
            == s.(jobs := s.jobs[job := s.jobs[job].(status := Running)],
                worker := Checked(job, plan.request, plan.digest))
  {
  }

  /** A checked job: the operator is called once, and its answer is stored. */
  lemma CheckedRuns(s: State, job: nat, was: Job, copy: CopyRow, request: Request, failed: bool)
    requires s.worker == Checked(job, request, was.digest) && job in s.jobs && s.jobs[job] == was.(status := Running)
    requires was.copyId in s.copies && s.copies[was.copyId] == copy
    ensures DoRecord(DoRestore(s, failed), true)
            == s.(log := s.log + [Execution(job, was.copyId, request, was.digest)], worker := Idle,
                jobs := s.jobs[job := was.(status := Finished)],
                copies := s.copies[was.copyId := copy.(restoreTest := if failed then "failed" else "passed")])
  {
  }

  /** The state after the confirmation. */
  function Confirmed(s: State, binding: Binding, request: Request, now: int, job: nat, j: Job): State {
    s.(clock := now, previews := s.previews + [Preview(binding, request, s.clock)], jobs := s.jobs[job := j])
  }

  /** The token of a preview that was just shown, confirmed by its actor before it expires, makes a queued job. */
  lemma ConfirmedIsQueued(codec: Codec, s: State, copy: CopyRow, env: Env, actorId: string, requested: Choices,
                          sorted: Choices, key: string, job: nat, now: int, plan: Plan, binding: Binding)
    requires Normalises(requested, sorted) && BuildSorted(codec, env, copy, sorted) == Ok(plan)
    requires binding == Binding(copy.id, actorId, plan.digest, ExpiryAt(s.clock, s.ttl))
    requires job !in s.jobs && forall j :: j in s.jobs ==> s.jobs[j].key != key
    requires 0 < binding.expiresAt && now < binding.expiresAt * SECOND
    ensures
      var told := DoShowPreview(codec, s, copy, env, actorId, requested, sorted).(clock := now);
      DoSubmit(codec, told, copy, env, actorId, requested, sorted, Some(binding), key, job)
      == Confirmed(s, binding, plan.request, now, job,
           Job(copy.id, plan.choices, plan.digest, key, actorId, now, Queued))
  {
    ShowStep(codec, s, copy, env, actorId, requested, sorted, plan);
    var told := s.(previews := s.previews + [Preview(binding, plan.request, s.clock)], clock := now);
    assert told.previews[|s.previews|].binding == binding && told.previews[|s.previews|] in told.previews;
    SubmitStep(codec, told, copy, env, actorId, requested, sorted, Some(binding), key, job, plan);
  }

  lemma OrderedIsItsSteps(codec: Codec, s: State, copy: CopyRow, env: Env, actorId: string, requested: Choices,
                          sorted: Choices, binding: Binding, key: string, job: nat, now: int, failed: bool)
    ensures
      var told := DoShowPreview(codec, s, copy, env, actorId, requested, sorted).(clock := now);
      var queued := DoSubmit(codec, told, copy, env, actorId, requested, sorted, Some(binding), key, job);
      Exec(codec, s, Ordered(copy, env, actorId, requested, sorted, binding, key, job, now, failed))
      == DoRecord(DoRestore(DoCheck(codec, queued, job, env, sorted), failed), true)
  {
    ExecSix(codec, s, Ordered(copy, env, actorId, requested, sorted, binding, key, job, now, failed));
  }

  lemma SortedAgain(requested: Choices, sorted: Choices)
    requires Normalises(requested, sorted)
    ensures Normalises(sorted, sorted)
  {
    TrimmedAgain(requested.sites, sorted.sites);
    TrimmedAgain(requested.databases, sorted.databases);
  }

  lemma LastUpdateStays(jobs: map<nat, Job>, job: nat, one: Job, other: Job)
    ensures jobs[job := one][job := other] == jobs[job := other]
  {
  }

  /** The queued job passes its check over unchanged state, and runs. */
  lemma ConfirmedRuns(codec: Codec, s: State, copy: CopyRow, env: Env, requested: Choices, sorted: Choices, job: nat,
                      was: Job, failed: bool, plan: Plan)
    requires Normalises(requested, sorted) && BuildSorted(codec, env, copy, sorted) == Ok(plan)
    requires s.worker == Idle && job in s.jobs && s.jobs[job] == was && was.status == Queued
    requires was.copyId == copy.id && copy.id in s.copies && s.copies[copy.id] == copy
    requires was.choices == sorted && was.digest == plan.digest
    ensures DoRecord(DoRestore(DoCheck(codec, s, job, env, sorted), failed), true)
            == s.(log := s.log + [Execution(job, copy.id, plan.request, plan.digest)],
                jobs := s.jobs[job := was.(status := Finished)],
                copies := s.copies[copy.id := copy.(restoreTest := if failed then "failed" else "passed")])
  {
    SortedAgain(requested, sorted);
    CheckStep(codec, s, job, env, sorted, plan);
    var checked := s.(jobs := s.jobs[job := was.(status := Running)],
      worker := Checked(job, plan.request, plan.digest));
    CheckedRuns(checked, job, was, copy, plan.request, failed);
    LastUpdateStays(s.jobs, job, was.(status := Running), was.(status := Finished));
  }

  /**
   A restore that is previewed, confirmed in time by the same actor and not disturbed runs once,
   with exactly what was chosen and shown, and its copy then says how it went.
   */
  lemma PreviewedRestoreRuns(codec: Codec, s: State, copy: CopyRow, env: Env, actorId: string, requested: Choices,
                             sorted: Choices, key: string, job: nat, now: int, failed: bool, plan: Plan)
    requires Normalises(requested, sorted) && BuildSorted(codec, env, copy, sorted) == Ok(plan)
    requires job !in s.jobs && forall j :: j in s.jobs ==> s.jobs[j].key != key
    requires 0 < ExpiryAt(s.clock, s.ttl) && now < ExpiryAt(s.clock, s.ttl) * SECOND
    requires s.worker == Idle && copy.id in s.copies && s.copies[copy.id] == copy
    ensures SaysWhatWasChosen(codec, env, copy, sorted, plan.request)
    ensures
      var binding := Binding(copy.id, actorId, plan.digest, ExpiryAt(s.clock, s.ttl));
      var s' := Exec(codec, s, Ordered(copy, env, actorId, requested, sorted, binding, key, job, now, failed));
      && s'.log == s.log + [Execution(job, copy.id, plan.request, plan.digest)]
      && s'.jobs == s.jobs[job := Job(copy.id, sorted, plan.digest, key, actorId, now, Finished)]
      && s'.copies == s.copies[copy.id := copy.(restoreTest := if failed then "failed" else "passed")]
      && s'.worker == Idle && s'.lost == s.lost
  {
    var binding := Binding(copy.id, actorId, plan.digest, ExpiryAt(s.clock, s.ttl));
    PlanSaysWhatWasChosen(codec, env, copy, sorted);
    OrderedIsItsSteps(codec, s, copy, env, actorId, requested, sorted, binding, key, job, now, failed);
    ConfirmedIsQueued(codec, s, copy, env, actorId, requested, sorted, key, job, now, plan, binding);
    var was := Job(copy.id, sorted, plan.digest, key, actorId, now, Queued);
    ConfirmedRuns(codec, Confirmed(s, binding, plan.request, now, job, was), copy, env, requested, sorted, job, was,
      failed, plan);
    LastUpdateStays(s.jobs, job, was, was.(status := Finished));
  }

  // ----- a job runs at most once -----

  /** The job is past its check, or past everything: nothing will call the operator for it again. */
  predicate Over(s: State, job: nat) {
    job in s.jobs && s.jobs[job].status != Queued && !(s.worker.Checked? && s.worker.job == job)
  }

  ghost predicate OnceInv(s: State) {
    && (s.worker.Checked? ==> s.worker.job in s.jobs && s.jobs[s.worker.job].status != Queued)
    && (forall i :: 0 <= i < |s.log| ==> Over(s, s.log[i].job))
    && (forall i, j :: 0 <= i < j < |s.log| ==> s.log[i].job != s.log[j].job)
  }

  lemma StepKeepsOver(codec: Codec, s: State, step: Step, job: nat)
    requires Over(s, job)
    ensures Over(Next(codec, s, step), job)
    ensures
      var log := Next(codec, s, step).log;
      s.log <= log && forall i :: |s.log| <= i < |log| ==> log[i].job != job
  {
  }

  lemma StepKeepsOnce(codec: Codec, s: State, step: Step)
    requires OnceInv(s)
    ensures OnceInv(Next(codec, s, step))
  {
    forall i | 0 <= i < |s.log| ensures Over(Next(codec, s, step), s.log[i].job) {
      StepKeepsOver(codec, s, step, s.log[i].job);
    }
  }

  lemma {:induction false} ExecKeepsOnce(codec: Codec, s: State, run: seq<Step>)
    requires OnceInv(s)
    ensures OnceInv(Exec(codec, s, run))
    decreases |run|
  {
    if run != [] {
      StepKeepsOnce(codec, s, run[0]);
      ExecKeepsOnce(codec, Next(codec, s, run[0]), run[1..]);
    }
  }

  /** In every run, crashes included, the operator is called at most once for one job. */
  lemma JobRunsAtMostOnce(codec: Codec, clock: int, ttl: nat, run: seq<Step>, i: nat, j: nat)
    requires i < j < |Exec(codec, Initial(clock, ttl), run).log|
    ensures
      var log := Exec(codec, Initial(clock, ttl), run).log;
      log[i].job != log[j].job
  {
    ExecKeepsOnce(codec, Initial(clock, ttl), run);
  }

  lemma {:induction false} OverStaysOver(codec: Codec, s: State, run: seq<Step>, job: nat)
    requires Over(s, job)
    ensures
      var log := Exec(codec, s, run).log;
      s.log <= log && forall i :: |s.log| <= i < |log| ==> log[i].job != job
    decreases |run|
  {
    if run != [] {
      StepKeepsOver(codec, s, run[0], job);
      OverStaysOver(codec, Next(codec, s, run[0]), run[1..], job);
    }
  }

  /** The check refuses: the copy is gone, the plan can no longer be built, or it has changed. */
  ghost predicate Stale(codec: Codec, s: State, job: nat, env: Env, sorted: Choices)
    requires job in s.jobs
  {
    var j := s.jobs[job];
    || j.copyId !in s.copies
    || (var built := BuildSorted(codec, env, s.copies[j.copyId], sorted);
        built.Refused? || built.value.digest != j.digest)
  }

  /**
   What has changed since the preview is never restored: the job ends at its check, for good, and nothing is
   called.
   */
  lemma StaleJobNeverRuns(codec: Codec, s: State, job: nat, env: Env, sorted: Choices, run: seq<Step>)
    requires s.worker == Idle && job in s.jobs && s.jobs[job].status == Queued && Stale(codec, s, job, env, sorted)
    requires Normalises(s.jobs[job].choices, sorted)
    ensures
      var checked := Next(codec, s, Check(job, env, sorted));
      && checked == s.(jobs := s.jobs[job := s.jobs[job].(status := Finished)])
      && var log := Exec(codec, checked, run).log;
      s.log <= log && forall i :: |s.log| <= i < |log| ==> log[i].job != job
  {
    OverStaysOver(codec, Next(codec, s, Check(job, env, sorted)), run, job);
  }

  // ----- what loses an outcome -----

  /**
   This step loses the outcome of a restore of this copy that has run: the write fails, or the process ends
   before it.
   */
  predicate Loses(s: State, step: Step, id: string) {
    s.worker.Ran? && s.worker.copyId == id && (step == Crash || (step.Record? && !step.stored))
  }

  ghost predicate NeverLoses(codec: Codec, s: State, run: seq<Step>, id: string)
    decreases |run|
  {
    run == [] || (!Loses(s, run[0], id) && NeverLoses(codec, Next(codec, s, run[0]), run[1..], id))
  }

  lemma LostIff(codec: Codec, s: State, step: Step, id: string)
    ensures id in Next(codec, s, step).lost <==> id in s.lost || Loses(s, step, id)
  {
  }

  lemma {:induction false} NothingIsLost(codec: Codec, s: State, run: seq<Step>, id: string)
    requires id !in s.lost && NeverLoses(codec, s, run, id)
    ensures id !in Exec(codec, s, run).lost
    decreases |run|
  {
    if run != [] {
      LostIff(codec, s, run[0], id);
      NothingIsLost(codec, Next(codec, s, run[0]), run[1..], id);
    }
  }

  /** When every restore of a copy gets its outcome stored, at most one of those previewed as not tested runs. */
  lemma OneUntestedRestoreWithoutLoss(codec: Codec, clock: int, ttl: nat, run: seq<Step>, id: string, i: nat, j: nat)
    requires NeverLoses(codec, Initial(clock, ttl), run, id)
    requires i < j < |Exec(codec, Initial(clock, ttl), run).log|
    ensures
      var log := Exec(codec, Initial(clock, ttl), run).log;
      log[i].copyId == id && log[j].copyId == id && Untested(log[i]) ==> !Untested(log[j])
  {
    NothingIsLost(codec, Initial(clock, ttl), run, id);
    var log := Exec(codec, Initial(clock, ttl), run).log;
    if log[i].copyId == id && log[j].copyId == id && Untested(log[i]) && Untested(log[j]) {
      AtMostOneUntestedRestore(codec, clock, ttl, run, i, j);
      assert false;
    }
  }
}
