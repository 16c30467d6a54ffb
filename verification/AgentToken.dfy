/**
 OpenOrCreate of internal/platform/agentauth/token.go, called by any number of
 processes on one path at once. One step is one file system call: lstat, read,
 temporary file, write, link, directory sync, remove. Link creates the name only
 if it is free; the temporary file is a name of its own for the same inode.
 Random tokens never repeat.
 */
module AgentToken {
  import opened Wrappers
  import opened Text

  type Thread = nat
  type Ino = nat

  /** `acceptable` is the mode check of Read: a regular file closed to other users. */
  datatype Inode = Inode(content: string, acceptable: bool)

  predicate IsHex(c: char) {
    '0' <= c <= '9' || 'a' <= c <= 'f' || 'A' <= c <= 'F'
  }

  /** 32 bytes in hexadecimal. */
  predicate ValidToken(token: string) {
    |token| == 64 && forall i :: 0 <= i < |token| ==> IsHex(token[i])
  }

  /** Read after the mode check. */
  function Parse(content: string): Option<string> {
    if ValidToken(TrimSpace(content)) then Some(TrimSpace(content)) else None
  }

  datatype Pc =
    | Start                               // first Read: before lstat
    | Found                               // first Read: the name was there, with an acceptable mode
    | Creating                            // it was not: about to create a temporary file
    | Writing(ino: Ino, token: string)    // the temporary file is empty
    | Written(ino: Ino, token: string)    // complete, synced and closed
    | Linked(ino: Ino, token: string)     // published; about to sync the directory
    | Again                               // the name was taken: second Read, before lstat
    | FoundAgain
    | Done(from: Ino, token: string)      // returned, with the inode the token was taken from
    | Failed

  /** The last two fields are ghosts: the tokens ever generated, and every publication with its token. */
  datatype State = State(path: Option<Ino>, inodes: map<Ino, Inode>, calls: map<Thread, Pc>, minted: set<string>,
                         published: map<Ino, string>)

  datatype Step =
    | Call(thread: Thread)
    | Lstat(thread: Thread)
    | ReadFile(thread: Thread)
    | CreateTemp(thread: Thread, ino: Ino, token: string)
    | Write(thread: Thread, ok: bool, partial: nat)
    | Link(thread: Thread, ok: bool)
    | SyncDir(thread: Thread, ok: bool, removed: bool)
    | Fail(thread: Thread)
    | Die(thread: Thread)

  predicate At(s: State, th: Thread, pc: Pc) {
    th in s.calls && s.calls[th] == pc
  }

  function Go(s: State, th: Thread, pc: Pc): State {
    s.(calls := s.calls[th := pc])
  }

  predicate Acceptable(s: State) {
    s.path.Some? && s.path.value in s.inodes && s.inodes[s.path.value].acceptable
  }

  /** The first Read goes on to create when the name is missing; the second one fails. */
  function DoLstat(s: State, th: Thread): State {
    if At(s, th, Start) then Go(s, th, if s.path.None? then Creating else if Acceptable(s) then Found else Failed)
    else if At(s, th, Again) then Go(s, th, if Acceptable(s) then FoundAgain else Failed)
    else s
  }

  function Outcome(s: State, ino: Ino): Pc {
    if ino !in s.inodes then Failed
    else
      match Parse(s.inodes[ino].content)
      case None => Failed
      case Some(token) => Done(ino, token)
  }

  /** The name may be gone again by now. */
  function DoReadFile(s: State, th: Thread): State {
    if At(s, th, Found) then Go(s, th, if s.path.Some? then Outcome(s, s.path.value) else Creating)
    else if At(s, th, FoundAgain) then Go(s, th, if s.path.Some? then Outcome(s, s.path.value) else Failed)
    else s
  }

  function DoCreateTemp(s: State, th: Thread, ino: Ino, token: string): State {
    if !At(s, th, Creating) || ino in s.inodes || !ValidToken(token) || token in s.minted then s
    else Go(s.(inodes := s.inodes[ino := Inode("", true)], minted := s.minted + {token}), th, Writing(ino, token))
  }

  /** A failing write may leave any prefix. */
  function DoWrite(s: State, th: Thread, ok: bool, partial: nat): State {
    if th !in s.calls || !s.calls[th].Writing? then s
    else
      var Writing(ino, token) := s.calls[th];
      var line := token + "\n";
      if ok then Go(s.(inodes := s.inodes[ino := Inode(line, true)]), th, Written(ino, token))
      else
        var left := if partial <= |line| then line[..partial] else line;
        Go(s.(inodes := s.inodes[ino := Inode(left, true)]), th, Failed)
  }

  function DoLink(s: State, th: Thread, ok: bool): State {
    if th !in s.calls || !s.calls[th].Written? then s
    else if s.path.Some? then Go(s, th, Again)
    else if !ok then Go(s, th, Failed)
    else
      var Written(ino, token) := s.calls[th];
      Go(s.(path := Some(ino), published := s.published[ino := token]), th, Linked(ino, token))
  }

  /** A failing directory sync takes the name away again, whatever it stands for by then; that removal may fail, too. */
  function DoSyncDir(s: State, th: Thread, ok: bool, removed: bool): State {
    if th !in s.calls || !s.calls[th].Linked? then s
    else if ok then Go(s, th, Done(s.calls[th].ino, s.calls[th].token))
    else if removed then Go(s.(path := None), th, Failed)
    else Go(s, th, Failed)
  }

  /** Any call before the link has taken effect may fail; the temporary name is removed. */
  function DoFail(s: State, th: Thread): State {
    if th !in s.calls || s.calls[th].Linked? || s.calls[th].Done? then s else Go(s, th, Failed)
  }

  /** The process of a call that has not returned may end at any point. */
  function DoDie(s: State, th: Thread): State {
    if th in s.calls && s.calls[th].Done? then s else s.(calls := s.calls - {th})
  }

  function Next(s: State, step: Step): State {
    match step
    case Call(th) => if th in s.calls then s else Go(s, th, Start)
    case Lstat(th) => DoLstat(s, th)
    case ReadFile(th) => DoReadFile(s, th)
    case CreateTemp(th, ino, token) => DoCreateTemp(s, th, ino, token)
    case Write(th, ok, partial) => DoWrite(s, th, ok, partial)
    case Link(th, ok) => DoLink(s, th, ok)
    case SyncDir(th, ok, removed) => DoSyncDir(s, th, ok, removed)
    case Fail(th) => DoFail(s, th)
    case Die(th) => DoDie(s, th)
  }

  function Exec(s: State, run: seq<Step>): State
    decreases |run|
  {
    if run == [] then s else Exec(Next(s, run[0]), run[1..])
  }

  /** Before any call: the name is free, or holds whatever an earlier release or operator left there. */
  function Initial(existing: Option<Inode>): State {
    match existing
    case None => State(None, map[], map[], {}, map[])
    case Some(inode) =>
      match Parse(inode.content)
      case None => State(Some(0), map[0 := inode], map[], {}, map[])
      case Some(token) => State(Some(0), map[0 := inode], map[], {token}, map[0 := token])
  }

  // ----- reading back what was written -----

  lemma TrimLeftKeeps(s: string)
    requires s != [] && !IsSpace(s[0])
    ensures TrimLeft(s) == s
  {
  }

  lemma WrittenParses(token: string)
    requires ValidToken(token)
    ensures Parse(token + "\n") == Some(token)
  {
    var line := token + "\n";
    assert IsHex(token[0]) && IsHex(token[63]);
    TrimLeftKeeps(line);
    assert line[64] == '\n' && line[..64] == token;
    assert TrimRight(token) == token;
    assert TrimRight(line) == TrimRight(line[..64]);
  }

  // ----- publications -----

  /**
   Every publication is a whole token of its own that its file keeps; what the name holds, if it reads at all,
   is one.
   */
  ghost predicate PublishedInv(path: Option<Ino>, inodes: map<Ino, Inode>, minted: set<string>, published: map<Ino,
                               string>) {
    && (forall ino :: ino in published ==>
         ino in inodes && Parse(inodes[ino].content) == Some(published[ino]) && published[ino] in minted)
    && (forall i, j :: i in published && j in published && published[i] == published[j] ==> i == j)
    && (path.Some? ==> path.value in inodes && (Parse(inodes[path.value].content).Some? ==> path.value in published))
  }

  ghost predicate Unpublished(published: map<Ino, string>, token: string) {
    forall ino :: ino in published ==> published[ino] != token
  }

  /**
   A temporary file is its call's own and not published; whoever has linked holds the name; a returned token is
   its publication's.
   */
  ghost predicate CallInv(path: Option<Ino>, inodes: map<Ino, Inode>, minted: set<string>, published: map<Ino, string>,
                          pc: Pc) {
    match pc
    case Writing(ino, token) =>
      ino in inodes && ino !in published && path != Some(ino) && ValidToken(token) && token in minted
        && Unpublished(published, token)
    case Written(ino, token) =>
      && ino in inodes && ino !in published && path != Some(ino) && ValidToken(token) && token in minted
         && Unpublished(published, token)
      && inodes[ino] == Inode(token + "\n", true)
    case Linked(ino, token) => path == Some(ino) && ino in published && published[ino] == token
    case Done(from, token) => from in published && published[from] == token
    case _ => true
  }

  predicate Owns(pc: Pc) {
    pc.Writing? || pc.Written?
  }

  /** Two calls with temporary files that share the file or the token. */
  predicate SameOwn(one: Pc, other: Pc) {
    Owns(one) && Owns(other) && (one.ino == other.ino || one.token == other.token)
  }

  ghost predicate Apart(calls: map<Thread, Pc>) {
    && (forall a, b :: a in calls && b in calls && SameOwn(calls[a], calls[b]) ==> a == b)
    && (forall a, b :: a in calls && b in calls && calls[a].Linked? && calls[b].Linked? ==> a == b)
  }

  ghost predicate Inv(s: State) {
    && PublishedInv(s.path, s.inodes, s.minted, s.published) && Apart(s.calls)
    && forall th :: th in s.calls ==> CallInv(s.path, s.inodes, s.minted, s.published, s.calls[th])
  }

  lemma InitialInv(existing: Option<Inode>)
    ensures Inv(Initial(existing))
  {
  }

  /** A call that moves on without a file or the name disturbs nobody. */
  lemma MoveKeepsInv(s: State, th: Thread, pc: Pc)
    requires Inv(s) && !Owns(pc) && !pc.Linked? && CallInv(s.path, s.inodes, s.minted, s.published, pc)
    ensures Inv(Go(s, th, pc))
  {
  }

  /** A new file is nobody's, and a new token was never published. */
  lemma NewFileIsUnpublished(s: State, ino: Ino, token: string)
    requires Inv(s) && ino !in s.inodes && token !in s.minted
    ensures PublishedInv(s.path, s.inodes[ino := Inode("", true)], s.minted + {token}, s.published)
    ensures ino !in s.published && s.path != Some(ino) && Unpublished(s.published, token)
  {
  }

  lemma NewFileKeepsCall(s: State, ino: Ino, token: string, w: Thread)
    requires Inv(s) && ino !in s.inodes && token !in s.minted && w in s.calls
    ensures CallInv(s.path, s.inodes[ino := Inode("", true)], s.minted + {token}, s.published, s.calls[w])
    ensures Owns(s.calls[w]) ==> s.calls[w].ino != ino && s.calls[w].token != token
  {
    assert CallInv(s.path, s.inodes, s.minted, s.published, s.calls[w]);
  }

  lemma CreateKeepsInv(s: State, th: Thread, ino: Ino, token: string)
    requires Inv(s)
    ensures Inv(DoCreateTemp(s, th, ino, token))
  {
    if At(s, th, Creating) && ino !in s.inodes && ValidToken(token) && token !in s.minted {
      NewFileIsUnpublished(s, ino, token);
      forall w | w in s.calls
        ensures CallInv(s.path, s.inodes[ino := Inode("", true)], s.minted + {token}, s.published, s.calls[w])
        ensures Owns(s.calls[w]) ==> s.calls[w].ino != ino && s.calls[w].token != token
      {
        NewFileKeepsCall(s, ino, token, w);
      }
    }
  }

  /** Nobody else looks at a temporary file. */
  lemma ContentKeepsOthers(s: State, th: Thread, ino: Ino, token: string, inode: Inode)
    requires Inv(s) && At(s, th, Writing(ino, token))
    ensures PublishedInv(s.path, s.inodes[ino := inode], s.minted, s.published)
    ensures forall w :: w in s.calls && w != th ==>
              CallInv(s.path, s.inodes[ino := inode], s.minted, s.published, s.calls[w])
  {
    assert CallInv(s.path, s.inodes, s.minted, s.published, s.calls[th]);
    forall w | w in s.calls && w != th
      ensures CallInv(s.path, s.inodes[ino := inode], s.minted, s.published, s.calls[w])
    {
      assert CallInv(s.path, s.inodes, s.minted, s.published, s.calls[w]);
    }
  }

  lemma WriteKeepsInv(s: State, th: Thread, ok: bool, partial: nat)
    requires Inv(s)
    ensures Inv(DoWrite(s, th, ok, partial))
  {
    if th in s.calls && s.calls[th].Writing? {
      var Writing(ino, token) := s.calls[th];
      ContentKeepsOthers(s, th, ino, token, DoWrite(s, th, ok, partial).inodes[ino]);
      assert CallInv(s.path, s.inodes, s.minted, s.published, s.calls[th]);
    }
  }

  /** The temporary file of a call becomes the publication under the free name. */
  lemma PublishKeepsInv(s: State, th: Thread, ino: Ino, token: string)
    requires Inv(s) && At(s, th, Written(ino, token)) && s.path.None?
    ensures PublishedInv(Some(ino), s.inodes, s.minted, s.published[ino := token])
    ensures Apart(s.calls[th := Linked(ino, token)])
    ensures forall w :: w in s.calls && w != th ==>
              CallInv(Some(ino), s.inodes, s.minted, s.published[ino := token], s.calls[w])
  {
    assert CallInv(s.path, s.inodes, s.minted, s.published, s.calls[th]);
    WrittenParses(token);
    forall w | w in s.calls && w != th
      ensures CallInv(Some(ino), s.inodes, s.minted, s.published[ino := token], s.calls[w])
    {
      assert CallInv(s.path, s.inodes, s.minted, s.published, s.calls[w]);
    }
  }

  lemma LinkKeepsInv(s: State, th: Thread, ok: bool)
    requires Inv(s)
    ensures Inv(DoLink(s, th, ok))
  {
    if th in s.calls && s.calls[th].Written? {
      if s.path.Some? || !ok {
        MoveKeepsInv(s, th, if s.path.Some? then Again else Failed);
      } else {
        PublishKeepsInv(s, th, s.calls[th].ino, s.calls[th].token);
      }
    }
  }

  /** The call that bound the name takes it away and gives up. */
  lemma RevokeKeepsInv(s: State, th: Thread)
    requires Inv(s) && th in s.calls && s.calls[th].Linked?
    ensures Inv(Go(s.(path := None), th, Failed))
  {
    assert CallInv(s.path, s.inodes, s.minted, s.published, s.calls[th]);
  }

  lemma SyncKeepsInv(s: State, th: Thread, ok: bool, removed: bool)
    requires Inv(s)
    ensures Inv(DoSyncDir(s, th, ok, removed))
  {
    if th in s.calls && s.calls[th].Linked? {
      assert CallInv(s.path, s.inodes, s.minted, s.published, s.calls[th]);
      if ok {
        MoveKeepsInv(s, th, Done(s.calls[th].ino, s.calls[th].token));
      } else if removed {
        RevokeKeepsInv(s, th);
      } else {
        MoveKeepsInv(s, th, Failed);
      }
    }
  }

  lemma ReadKeepsInv(s: State, th: Thread)
    requires Inv(s)
    ensures Inv(DoReadFile(s, th))
  {
    if At(s, th, Found) || At(s, th, FoundAgain) {
      MoveKeepsInv(s, th, DoReadFile(s, th).calls[th]);
    }
  }

  lemma StepKeepsInv(s: State, step: Step)
    requires Inv(s)
    ensures Inv(Next(s, step))
  {
    match step
    case ReadFile(th) => ReadKeepsInv(s, th);
    case CreateTemp(th, ino, token) => CreateKeepsInv(s, th, ino, token);
    case Write(th, ok, partial) => WriteKeepsInv(s, th, ok, partial);
    case Link(th, ok) => LinkKeepsInv(s, th, ok);
    case SyncDir(th, ok, removed) => SyncKeepsInv(s, th, ok, removed);
    case Die(th) =>
    case _ => if Next(s, step) != s { MoveKeepsInv(s, step.thread, Next(s, step).calls[step.thread]); }
  }

  lemma {:induction false} ExecKeepsInv(s: State, run: seq<Step>)
    requires Inv(s)
    ensures Inv(Exec(s, run))
    decreases |run|
  {
    if run != [] {
      StepKeepsInv(s, run[0]);
      ExecKeepsInv(Next(s, run[0]), run[1..]);
    }
  }

  ghost function Reached(existing: Option<Inode>, run: seq<Step>): State {
    Exec(Initial(existing), run)
  }

  lemma ReachedInv(existing: Option<Inode>, run: seq<Step>)
    ensures Inv(Reached(existing, run))
  {
    InitialInv(existing);
    ExecKeepsInv(Initial(existing), run);
  }

  // ----- who agrees with whom -----

  /** Two calls that succeed return the same token exactly when they took it from the same publication. */
  lemma SuccessesAgreeIff(existing: Option<Inode>, run: seq<Step>, a: Thread, b: Thread)
    requires
      var s := Reached(existing, run);
      a in s.calls && b in s.calls && s.calls[a].Done? && s.calls[b].Done?
    ensures
      var s := Reached(existing, run);
      s.calls[a].token == s.calls[b].token <==> s.calls[a].from == s.calls[b].from
  {
    ReachedInv(existing, run);
    var s := Reached(existing, run);
    assert CallInv(s.path, s.inodes, s.minted, s.published, s.calls[a]);
    assert CallInv(s.path, s.inodes, s.minted, s.published, s.calls[b]);
  }

  /** A failing directory sync only ever takes away the name its own call has linked. */
  lemma OnlyTheOwnNameIsRemoved(existing: Option<Inode>, run: seq<Step>, th: Thread)
    requires
      var s := Reached(existing, run);
      s.path.Some? && Next(s, SyncDir(th, false, true)).path.None?
    ensures
      var s := Reached(existing, run);
      s.calls[th].Linked? && s.calls[th].ino == s.path.value
  {
    ReachedInv(existing, run);
    var s := Reached(existing, run);
    assert CallInv(s.path, s.inodes, s.minted, s.published, s.calls[th]);
  }

  /** Some call has returned the token of this publication. */
  ghost predicate Returned(s: State, ino: Ino) {
    exists a :: a in s.calls && s.calls[a].Done? && s.calls[a].from == ino
  }

  /** This step revokes a publication whose token some call has returned. */
  ghost predicate Revokes(s: State, step: Step) {
    && step.SyncDir? && !step.ok && step.removed
    && step.thread in s.calls && s.calls[step.thread].Linked? && Returned(s, s.calls[step.thread].ino)
  }

  ghost predicate NeverRevokes(s: State, run: seq<Step>)
    decreases |run|
  {
    run == [] || (!Revokes(s, run[0]) && NeverRevokes(Next(s, run[0]), run[1..]))
  }

  /** Every token that was returned is the one the name holds. */
  ghost predicate Current(s: State) {
    forall a :: a in s.calls && s.calls[a].Done? ==> s.path == Some(s.calls[a].from)
  }

  /** The name changes when it was free, or when the call that bound it takes it away. */
  lemma NameFrame(s: State, step: Step)
    requires Inv(s)
    ensures
      var s' := Next(s, step);
      || s'.path == s.path || s.path.None?
      || (step.SyncDir? && !step.ok && step.removed && step.thread in s.calls && s.calls[step.thread].Linked?
         && s.path == Some(s.calls[step.thread].ino))
  {
    if step.thread in s.calls { assert CallInv(s.path, s.inodes, s.minted, s.published, s.calls[step.thread]); }
  }

  /** The token is the one this call held already, or comes from what the name stands for, which is left alone. */
  ghost predicate TakenFrom(s: State, s': State, a: Thread)
    requires a in s'.calls && s'.calls[a].Done?
  {
    || (a in s.calls && s.calls[a] == s'.calls[a])
    || (s'.path == s.path && s.path == Some(s'.calls[a].from))
  }

  lemma SyncReturns(s: State, th: Thread, ok: bool, removed: bool, a: Thread)
    requires Inv(s) && a in DoSyncDir(s, th, ok, removed).calls && DoSyncDir(s, th, ok, removed).calls[a].Done?
    ensures TakenFrom(s, DoSyncDir(s, th, ok, removed), a)
  {
    if a in s.calls { assert CallInv(s.path, s.inodes, s.minted, s.published, s.calls[a]); }
  }

  lemma ReadReturns(s: State, th: Thread, a: Thread)
    requires a in DoReadFile(s, th).calls && DoReadFile(s, th).calls[a].Done?
    ensures TakenFrom(s, DoReadFile(s, th), a)
  {
  }

  lemma NobodyElseReturns(s: State, step: Step, a: Thread)
    requires !step.ReadFile? && !step.SyncDir?
    requires a in Next(s, step).calls && Next(s, step).calls[a].Done?
    ensures TakenFrom(s, Next(s, step), a)
  {
  }

  /** A call that returns takes its token from what the name stands for, and leaves the name alone. */
  lemma ReturnFrame(s: State, step: Step, a: Thread)
    requires Inv(s) && a in Next(s, step).calls && Next(s, step).calls[a].Done?
    ensures TakenFrom(s, Next(s, step), a)
  {
    if step.SyncDir? {
      SyncReturns(s, step.thread, step.ok, step.removed, a);
    } else if step.ReadFile? {
      ReadReturns(s, step.thread, a);
    } else {
      NobodyElseReturns(s, step, a);
    }
  }

  /** Publications are never forgotten, and the name only comes to stand for a new one. */
  ghost predicate NameIsNew(s: State, s': State) {
    && (forall ino :: ino in s.published ==> ino in s'.published)
    && (s'.path.Some? && s'.path != s.path ==> s'.path.value !in s.published && s'.path.value in s'.published)
  }

  lemma LinkPublishes(s: State, th: Thread, ok: bool)
    requires Inv(s)
    ensures NameIsNew(s, DoLink(s, th, ok))
  {
    if th in s.calls && s.calls[th].Written? {
      assert CallInv(s.path, s.inodes, s.minted, s.published, s.calls[th]);
    }
  }

  lemma NobodyElsePublishes(s: State, step: Step)
    requires !step.Link?
    ensures Next(s, step).published == s.published && (Next(s, step).path == s.path || Next(s, step).path.None?)
  {
  }

  lemma PublicationFrame(s: State, step: Step)
    requires Inv(s)
    ensures NameIsNew(s, Next(s, step))
  {
    if step.Link? {
      LinkPublishes(s, step.thread, step.ok);
    } else {
      NobodyElsePublishes(s, step);
    }
  }

  lemma StepKeepsCurrent(s: State, step: Step)
    requires Inv(s) && Current(s) && !Revokes(s, step)
    ensures Current(Next(s, step))
  {
    var s' := Next(s, step);
    forall a | a in s'.calls && s'.calls[a].Done? ensures s'.path == Some(s'.calls[a].from) {
      ReturnFrame(s, step, a);
      NameFrame(s, step);
    }
  }

  lemma {:induction false} ExecKeepsCurrent(s: State, run: seq<Step>)
    requires Inv(s) && Current(s) && NeverRevokes(s, run)
    ensures Current(Exec(s, run))
    decreases |run|
  {
    if run != [] {
      StepKeepsInv(s, run[0]);
      StepKeepsCurrent(s, run[0]);
      ExecKeepsCurrent(Next(s, run[0]), run[1..]);
    }
  }

  /** The token is the one the name holds. */
  ghost predicate NameHolds(s: State, token: string) {
    s.path.Some? && s.path.value in s.inodes && Parse(s.inodes[s.path.value].content) == Some(token)
  }

  lemma CurrentIsHeld(s: State, a: Thread)
    requires Inv(s) && Current(s) && a in s.calls && s.calls[a].Done?
    ensures NameHolds(s, s.calls[a].token)
  {
    assert CallInv(s.path, s.inodes, s.minted, s.published, s.calls[a]);
  }

  /**
   All calls that succeed return the one token the name holds, unless a failing directory sync revoked a token
   somebody had returned.
   */
  lemma AllSuccessesAgree(existing: Option<Inode>, run: seq<Step>, a: Thread)
    requires NeverRevokes(Initial(existing), run)
    requires a in Reached(existing, run).calls && Reached(existing, run).calls[a].Done?
    ensures NameHolds(Reached(existing, run), Reached(existing, run).calls[a].token)
  {
    ReachedInv(existing, run);
    InitialInv(existing);
    ExecKeepsCurrent(Initial(existing), run);
    CurrentIsHeld(Reached(existing, run), a);
  }

  // ----- no partial credential is ever read -----

  /** This call, about to read the file, returns the publication the name stands for. */
  ghost predicate ReadsWhole(s: State, th: Thread) {
    s.path.Some? && s.path.value in s.published
      && At(Next(s, ReadFile(th)), th, Done(s.path.value, s.published[s.path.value]))
  }

  lemma WholeIsRead(s: State, th: Thread)
    requires Inv(s) && WholeInv(s) && s.path.Some? && (At(s, th, Found) || At(s, th, FoundAgain))
    ensures ReadsWhole(s, th)
  {
  }

  /** Whoever finds the name bound reads a whole token: the one of the publication the name stands for. */
  lemma NoPartialRead(existing: Option<Inode>, run: seq<Step>, th: Thread)
    requires existing.Some? ==> Parse(existing.value.content).Some?
    requires
      var s := Reached(existing, run);
      (At(s, th, Found) || At(s, th, FoundAgain)) && s.path.Some?
    ensures ReadsWhole(Reached(existing, run), th)
  {
    InitialInv(existing);
    StartsWhole(existing);
    ExecKeepsWhole(Initial(existing), run);
    ReachedInv(existing, run);
    WholeIsRead(Reached(existing, run), th);
  }

  lemma StartsWhole(existing: Option<Inode>)
    requires existing.Some? ==> Parse(existing.value.content).Some?
    ensures WholeInv(Initial(existing))
  {
  }

  /** The name, when it is bound, is bound to a publication. */
  ghost predicate WholeInv(s: State) {
    s.path.Some? ==> s.path.value in s.published
  }

  lemma {:induction false} ExecKeepsWhole(s: State, run: seq<Step>)
    requires Inv(s) && WholeInv(s)
    ensures WholeInv(Exec(s, run))
    decreases |run|
  {
    if run != [] {
      StepKeepsInv(s, run[0]);
      PublicationFrame(s, run[0]);
      ExecKeepsWhole(Next(s, run[0]), run[1..]);
    }
  }

  // ----- when a failing directory sync splits the callers -----

  /** Some call has returned this publication's token and another call a different one. */
  ghost predicate Split(s: State, ino: Ino) {
    exists a, b ::
        a in s.calls && b in s.calls && s.calls[a].Done? && s.calls[b].Done? && s.calls[a].from == ino
          && s.calls[b].token != s.calls[a].token
  }

  /** The run makes this call return this publication and leaves every other call as it is. */
  ghost predicate Returns(s: State, th: Thread, ino: Ino, token: string, run: seq<Step>) {
    var s' := Exec(s, run);
    At(s', th, Done(ino, token)) && forall a :: a in s.calls && a != th ==> At(s', a, s.calls[a])
  }

  lemma Ahead(s: State, th: Thread, ino: Ino, token: string, step: Step, run: seq<Step>)
    requires Returns(Next(s, step), th, ino, token, run)
    requires forall a :: a in s.calls && a != th ==> At(Next(s, step), a, s.calls[a])
    ensures Returns(s, th, ino, token, [step] + run)
  {
    assert ([step] + run)[1..] == run;
  }

  lemma FromWritten(s: State, th: Thread, ino: Ino, token: string) returns (run: seq<Step>)
    requires s.path.None? && At(s, th, Written(ino, token))
    ensures Returns(s, th, ino, token, run)
  {
    var linked := Next(s, Link(th, true));
    assert Returns(Next(linked, SyncDir(th, true, true)), th, ino, token, []);
    Ahead(linked, th, ino, token, SyncDir(th, true, true), []);
    run := [SyncDir(th, true, true)] + [];
    Ahead(s, th, ino, token, Link(th, true), run);
    run := [Link(th, true)] + run;
  }

  lemma FromCreating(s: State, th: Thread, ino: Ino, token: string) returns (run: seq<Step>)
    requires s.path.None? && At(s, th, Creating) && ino !in s.inodes && ValidToken(token) && token !in s.minted
    ensures Returns(s, th, ino, token, run)
  {
    var created := Next(s, CreateTemp(th, ino, token));
    run := FromWritten(Next(created, Write(th, true, 0)), th, ino, token);
    Ahead(created, th, ino, token, Write(th, true, 0), run);
    run := [Write(th, true, 0)] + run;
    Ahead(s, th, ino, token, CreateTemp(th, ino, token), run);
    run := [CreateTemp(th, ino, token)] + run;
  }

  /** On a free name a new call can create any token that was not generated so far. */
  lemma CreationSucceeds(s: State, th: Thread, ino: Ino, token: string) returns (run: seq<Step>)
    requires s.path.None? && th !in s.calls && ino !in s.inodes && ValidToken(token) && token !in s.minted
    ensures Returns(s, th, ino, token, run)
  {
    var called := Next(s, Call(th));
    run := FromCreating(Next(called, Lstat(th)), th, ino, token);
    Ahead(called, th, ino, token, Lstat(th), run);
    run := [Lstat(th)] + run;
    Ahead(s, th, ino, token, Call(th), run);
    run := [Call(th)] + run;
  }

  /** A publication that is off the name stays off it, and nobody returns its token any more. */
  ghost predicate Gone(s: State, ino: Ino) {
    ino in s.published && s.path != Some(ino) && !Returned(s, ino)
  }

  lemma StepKeepsGone(s: State, step: Step, ino: Ino)
    requires Inv(s) && Gone(s, ino)
    ensures Gone(Next(s, step), ino)
  {
    var s' := Next(s, step);
    PublicationFrame(s, step);
    forall a | a in s'.calls && s'.calls[a].Done? ensures s'.calls[a].from != ino {
      ReturnFrame(s, step, a);
    }
  }

  lemma {:induction false} ExecKeepsGone(s: State, run: seq<Step>, ino: Ino)
    requires Inv(s) && Gone(s, ino)
    ensures !Returned(Exec(s, run), ino)
    decreases |run|
  {
    if run != [] {
      StepKeepsInv(s, run[0]);
      StepKeepsGone(s, run[0], ino);
      ExecKeepsGone(Next(s, run[0]), run[1..], ino);
    }
  }

  /** Whether a later state can be split, when this call's directory sync fails now. */
  ghost predicate CanSplit(s: State, th: Thread, ino: Ino) {
    exists run :: Split(Exec(Next(s, SyncDir(th, false, true)), run), ino)
  }

  lemma UnreturnedIsGone(s: State, th: Thread)
    requires Inv(s) && th in s.calls && s.calls[th].Linked? && !Returned(s, s.calls[th].ino)
    ensures Gone(Next(s, SyncDir(th, false, true)), s.calls[th].ino)
  {
    assert CallInv(s.path, s.inodes, s.minted, s.published, s.calls[th]);
    StillNotReturned(s, th);
  }

  lemma SplitIff(s: State, th: Thread, spare: string)
    requires Inv(s) && ValidToken(spare) && spare !in s.minted
    requires th in s.calls && s.calls[th].Linked?
    ensures CanSplit(s, th, s.calls[th].ino) <==> Returned(s, s.calls[th].ino)
  {
    var ino := s.calls[th].ino;
    var revoked := Next(s, SyncDir(th, false, true));
    if Returned(s, ino) {
      var run := SplitFollows(s, th, spare);
    } else {
      UnreturnedIsGone(s, th);
      StepKeepsInv(s, SyncDir(th, false, true));
      forall run ensures !Split(Exec(revoked, run), ino) {
        ExecKeepsGone(revoked, run, ino);
      }
    }
  }

  /**
   A failing directory sync can split the callers of the publication it revokes
   exactly when some call has already returned its token. `spare` is any token
   that was not generated so far.
   */
  lemma FailedSyncSplitsIff(existing: Option<Inode>, before: seq<Step>, th: Thread, spare: string)
    requires ValidToken(spare) && spare !in Reached(existing, before).minted
    requires th in Reached(existing, before).calls && Reached(existing, before).calls[th].Linked?
    ensures
      var s := Reached(existing, before);
      CanSplit(s, th, s.calls[th].ino) <==> Returned(s, s.calls[th].ino)
  {
    ReachedInv(existing, before);
    SplitIff(Reached(existing, before), th, spare);
  }

  lemma StillNotReturned(s: State, th: Thread)
    requires th in s.calls && s.calls[th].Linked? && !Returned(s, s.calls[th].ino)
    ensures !Returned(Next(s, SyncDir(th, false, true)), s.calls[th].ino)
  {
    var s' := Next(s, SyncDir(th, false, true));
    forall a | a in s'.calls && s'.calls[a].Done? ensures s'.calls[a].from != s.calls[th].ino {
      assert s.calls[a] == s'.calls[a];
    }
  }

  /** After the failing sync the name is free, and who has returned has returned. */
  lemma RevokedKeeps(s: State, th: Thread, a: Thread)
    requires th in s.calls && s.calls[th].Linked? && a in s.calls && s.calls[a].Done?
    ensures
      var s' := Next(s, SyncDir(th, false, true));
      s'.path.None? && s'.minted == s.minted && At(s', a, s.calls[a])
  {
  }

  lemma SplitBy(s: State, a: Thread, b: Thread)
    requires a in s.calls && b in s.calls && s.calls[a].Done? && s.calls[b].Done?
             && s.calls[b].token != s.calls[a].token
    ensures Split(s, s.calls[a].from)
  {
  }

  /** A new call finds the name free and creates another token. */
  lemma SplitFollows(s: State, th: Thread, spare: string) returns (run: seq<Step>)
    requires Inv(s) && th in s.calls && s.calls[th].Linked? && Returned(s, s.calls[th].ino)
    requires ValidToken(spare) && spare !in s.minted
    ensures Split(Exec(Next(s, SyncDir(th, false, true)), run), s.calls[th].ino)
  {
    var a :| a in s.calls && s.calls[a].Done? && s.calls[a].from == s.calls[th].ino;
    ReturnedIsMinted(s, a);
    RevokedKeeps(s, th, a);
    var b;
    run, b := AnotherReturns(Next(s, SyncDir(th, false, true)), spare);
    SplitBy(Exec(Next(s, SyncDir(th, false, true)), run), a, b);
  }

  lemma AnotherReturns(s: State, spare: string) returns (run: seq<Step>, b: Thread)
    requires s.path.None? && ValidToken(spare) && spare !in s.minted
    ensures
      var s' := Exec(s, run);
      && (forall a :: a in s.calls ==> At(s', a, s.calls[a]))
      && b in s'.calls && s'.calls[b].Done? && s'.calls[b].token == spare
  {
    b := Unused(s.calls.Keys);
    var file := Unused(s.inodes.Keys);
    run := CreationSucceeds(s, b, file, spare);
  }

  lemma ReturnedIsMinted(s: State, a: Thread)
    requires Inv(s) && a in s.calls && s.calls[a].Done?
    ensures s.calls[a].token in s.minted
  {
    assert CallInv(s.path, s.inodes, s.minted, s.published, s.calls[a]);
  }

  lemma {:induction false} ExecConcat(s: State, a: seq<Step>, b: seq<Step>)
    ensures Exec(s, a + b) == Exec(Exec(s, a), b)
    decreases |a|
  {
    if a == [] {
      assert a + b == b;
    } else {
      assert (a + b)[1..] == a[1..] + b;
      ExecConcat(Next(s, a[0]), a[1..], b);
    }
  }

  lemma ExecTwo(s: State, one: Step, two: Step)
    ensures Exec(s, [one, two]) == Next(Next(s, one), two)
  {
    assert [one, two][1..] == [two] && [two][1..] == [];
    assert Exec(Next(s, one), [two]) == Next(Next(s, one), two);
  }

  /** The token is published and not yet synced; a second call has come this far. */
  function Bound(token: string, second: Pc): State {
    State(Some(0), map[0 := Inode(token + "\n", true)], map[0 := Linked(0, token), 1 := second], {token},
      map[0 := token])
  }

  function Empty(pc: Pc): State {
    State(None, map[], map[0 := pc], {}, map[])
  }

  lemma FreeIsSeen()
    ensures Exec(Initial(None), [Call(0), Lstat(0)]) == Empty(Creating)
  {
    ExecTwo(Initial(None), Call(0), Lstat(0));
    assert Next(Initial(None), Call(0)) == Empty(Start);
    assert Next(Empty(Start), Lstat(0)) == Empty(Creating);
  }

  /** The temporary file is complete. */
  function Prepared(token: string): State {
    State(None, map[0 := Inode(token + "\n", true)], map[0 := Written(0, token)], {token}, map[])
  }

  lemma FileIsWritten(token: string)
    requires ValidToken(token)
    ensures Exec(Empty(Creating), [CreateTemp(0, 0, token), Write(0, true, 0)]) == Prepared(token)
  {
    var created := State(None, map[0 := Inode("", true)], map[0 := Writing(0, token)], {token}, map[]);
    ExecTwo(Empty(Creating), CreateTemp(0, 0, token), Write(0, true, 0));
    assert Next(Empty(Creating), CreateTemp(0, 0, token)) == created;
    assert Next(created, Write(0, true, 0)) == Prepared(token);
  }

  lemma FileIsLinked(token: string)
    ensures Exec(Prepared(token), [Link(0, true), Call(1)]) == Bound(token, Start)
  {
    ExecTwo(Prepared(token), Link(0, true), Call(1));
    assert Next(Prepared(token), Link(0, true)).calls == map[0 := Linked(0, token)];
  }

  lemma TokenIsRead(token: string)
    requires ValidToken(token)
    ensures Exec(Bound(token, Start), [Lstat(1), ReadFile(1)]) == Bound(token, Done(0, token))
  {
    WrittenParses(token);
    ExecTwo(Bound(token, Start), Lstat(1), ReadFile(1));
    assert Next(Bound(token, Start), Lstat(1)) == Bound(token, Found);
    assert Next(Bound(token, Found), ReadFile(1)) == Bound(token, Done(0, token));
  }

  /** A first call has published its token and not yet synced the directory; a second one returns it. */
  lemma ExposureHappens(token: string) returns (run: seq<Step>)
    requires ValidToken(token)
    ensures Reached(None, run) == Bound(token, Done(0, token))
  {
    var s := Initial(None);
    FreeIsSeen();
    run := [Call(0), Lstat(0)];
    FileIsWritten(token);
    ExecConcat(s, run, [CreateTemp(0, 0, token), Write(0, true, 0)]);
    run := run + [CreateTemp(0, 0, token), Write(0, true, 0)];
    FileIsLinked(token);
    ExecConcat(s, run, [Link(0, true), Call(1)]);
    run := run + [Link(0, true), Call(1)];
    TokenIsRead(token);
    ExecConcat(s, run, [Lstat(1), ReadFile(1)]);
    run := run + [Lstat(1), ReadFile(1)];
  }

  lemma ExposedIsReturned(token: string)
    ensures Returned(Bound(token, Done(0, token)), 0)
  {
    assert At(Bound(token, Done(0, token)), 1, Done(0, token));
  }

  /** Such a state can be reached, and with one failing directory sync two calls may then return different tokens. */
  lemma FailedSyncMaySplit(first: string, second: string) returns (run: seq<Step>)
    requires ValidToken(first) && ValidToken(second) && first != second
    ensures Split(Reached(None, run), 0)
  {
    run := ExposureHappens(first);
    ReachedInv(None, run);
    ExposedIsReturned(first);
    var rest := SplitFollows(Reached(None, run), 0, second);
    ExecConcat(Initial(None), run, [SyncDir(0, false, true)] + rest);
    assert ([SyncDir(0, false, true)] + rest)[1..] == rest;
    run := run + ([SyncDir(0, false, true)] + rest);
  }
}
