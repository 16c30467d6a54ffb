/**
 What the two sshd operators do to one account of the node, call by call:
 internal/platform/operators/deploy/ssh_host.go and operators/sftp/host.go. Each
 call on the system either happens or fails and changes nothing; `failing` says
 which ones fail.
 */
module SshNode {
  import opened Wrappers

  type Key = nat

  /** The SSH drop-in, the authorized-keys file, the login shell and the SFTP jail of one account. */
  datatype Node = Node(dropIn: bool, keys: Option<set<Key>>, shell: bool, jail: bool)

  const OFF := Node(false, None, false, false)

  datatype Call =
    | InspectOther | PrepareHome | WriteKeys | WriteDropIn | Validate | Reload | SetShell | RemoveDropIn | RemoveKeys
    | UndoDropIn | UndoKeys | SetPassword | LockPassword

  datatype Reply = Done | OtherPresent | Failed

  // ----- the deploy operator -----

  function RolledBack(n: Node, failing: set<Call>): Node {
    var undone := if UndoDropIn in failing then n else n.(dropIn := false);
    if UndoKeys in failing then undone else undone.(keys := None)
  }

  function EnableSsh(n: Node, keys: set<Key>, failing: set<Call>): (Node, Reply) {
    if InspectOther in failing then (n, Failed)
    else if n.jail then (n, OtherPresent)
    else if PrepareHome in failing || WriteKeys in failing then (n, Failed)
    else
      var keyed := n.(keys := Some(keys));
      if WriteDropIn in failing then (keyed, Failed)
      else
        var written := keyed.(dropIn := true);
        if Validate in failing || Reload in failing then (RolledBack(written, failing), Failed)
        else if SetShell in failing then (written, Failed)
        else (written.(shell := true), Done)
  }

  function DisableSsh(n: Node, failing: set<Call>): (Node, Reply) {
    if SetShell in failing then (n, Failed)
    else
      var closed := n.(shell := false);
      if RemoveDropIn in failing then (closed, Failed)
      else
        var unblocked := closed.(dropIn := false);
        if RemoveKeys in failing then (unblocked, Failed)
        else
          var removed := unblocked.(keys := None);
          if Validate in failing || Reload in failing then (removed, Failed) else (removed, Done)
  }

  function ApplySsh(n: Node, enabled: bool, keys: set<Key>, failing: set<Call>): (Node, Reply) {
    if enabled then EnableSsh(n, keys, failing) else DisableSsh(n, failing)
  }

  // ----- the SFTP operator -----

  function ApplySftp(n: Node, enabled: bool, failing: set<Call>): (Node, Reply) {
    if enabled then
      if InspectOther in failing then (n, Failed)
      else if n.dropIn then (n, OtherPresent)
      else if PrepareHome in failing || WriteDropIn in failing then (n, Failed)
      else
        var jailed := n.(jail := true);
        if Validate in failing || Reload in failing then (n.(jail := UndoDropIn in failing), Failed)
        else if SetPassword in failing then (jailed, Failed)
        else (jailed, Done)
    else
      if RemoveDropIn in failing then (n, Failed)
      else
        var freed := n.(jail := false);
        if Validate in failing || Reload in failing || LockPassword in failing then (freed, Failed) else (freed, Done)
  }

  // ----- what both keep -----

  /** One account never has both an SSH login block and an SFTP jail. */
  predicate Exclusive(n: Node) {
    !(n.dropIn && n.jail)
  }

  /** Whatever fails on the way, neither operator installs its block beside the other one. */
  lemma OperatorsStayExclusive(n: Node, enabled: bool, keys: set<Key>, failing: set<Call>)
    requires Exclusive(n)
    ensures Exclusive(ApplySsh(n, enabled, keys, failing).0)
    ensures Exclusive(ApplySftp(n, enabled, failing).0)
    ensures ApplySsh(n, enabled, keys, failing).0.jail == n.jail
    ensures
      var after := ApplySftp(n, enabled, failing).0;
      after.dropIn == n.dropIn && after.keys == n.keys && after.shell == n.shell
  {
  }

  /** The account is in the state the panel asked for. */
  predicate Matches(n: Node, enabled: bool, keys: set<Key>) {
    n.dropIn == enabled && n.shell == enabled && n.keys == (if enabled then Some(keys) else None)
  }

  lemma DoneMatches(n: Node, enabled: bool, keys: set<Key>, failing: set<Call>)
    requires ApplySsh(n, enabled, keys, failing).1 == Done
    ensures Matches(ApplySsh(n, enabled, keys, failing).0, enabled, keys)
  {
  }

  // ----- when a refused change leaves the node as it was -----

  /** The first call of an enable that fails. */
  function FirstOfEnable(failing: set<Call>): Option<Call> {
    if InspectOther in failing then Some(InspectOther)
    else if PrepareHome in failing then Some(PrepareHome)
    else if WriteKeys in failing then Some(WriteKeys)
    else if WriteDropIn in failing then Some(WriteDropIn)
    else if Validate in failing then Some(Validate)
    else if Reload in failing then Some(Reload)
    else if SetShell in failing then Some(SetShell)
    else None
  }

  function FirstOfDisable(failing: set<Call>): Option<Call> {
    if SetShell in failing then Some(SetShell)
    else if RemoveDropIn in failing then Some(RemoveDropIn)
    else if RemoveKeys in failing then Some(RemoveKeys)
    else if Validate in failing then Some(Validate)
    else if Reload in failing then Some(Reload)
    else None
  }

  /** The condition for enabling, on the node before the call and on the call that fails. */
  predicate EnableUndone(n: Node, keys: set<Key>, first: Call, failing: set<Call>) {
    match first
    case WriteDropIn => n.keys == Some(keys)
    case Validate => n.dropIn == (UndoDropIn in failing) && n.keys == (if UndoKeys in failing then Some(keys) else None)
    case Reload => n.dropIn == (UndoDropIn in failing) && n.keys == (if UndoKeys in failing then Some(keys) else None)
    case SetShell => n.dropIn && n.keys == Some(keys)
    case _ => true
  }

  predicate DisableUndone(n: Node, first: Call) {
    match first
    case SetShell => true
    case RemoveDropIn => !n.shell
    case RemoveKeys => !n.shell && !n.dropIn
    case _ => !n.shell && !n.dropIn && n.keys.None?
  }

  /**
   A refused enable leaves the node unchanged exactly under EnableUndone: in particular its rollback does not
   put back an access that was on.
   */
  lemma RefusedEnableIsAtomicIff(n: Node, keys: set<Key>, failing: set<Call>)
    requires !n.jail && FirstOfEnable(failing).Some?
    ensures EnableSsh(n, keys, failing).1 == Failed
    ensures EnableSsh(n, keys, failing).0 == n <==> EnableUndone(n, keys, FirstOfEnable(failing).value, failing)
  {
  }

  lemma RefusedDisableIsAtomicIff(n: Node, failing: set<Call>)
    requires FirstOfDisable(failing).Some?
    ensures DisableSsh(n, failing).1 == Failed
    ensures DisableSsh(n, failing).0 == n <==> DisableUndone(n, FirstOfDisable(failing).value)
  {
  }

  /** The first call of switching SFTP on that fails. */
  function FirstOfJail(failing: set<Call>): Option<Call> {
    if InspectOther in failing then Some(InspectOther)
    else if PrepareHome in failing then Some(PrepareHome)
    else if WriteDropIn in failing then Some(WriteDropIn)
    else if Validate in failing then Some(Validate)
    else if Reload in failing then Some(Reload)
    else if SetPassword in failing then Some(SetPassword)
    else None
  }

  /**
   A refused SFTP enable changes nothing but the jail. A call that fails before the drop-in is
   written leaves the jail as it was; a later one leaves none where the rollback ran, and one otherwise.
   */
  lemma RefusedJailStaysIff(n: Node, failing: set<Call>)
    requires !n.dropIn && FirstOfJail(failing).Some?
    ensures
      var (after, reply) := ApplySftp(n, true, failing);
      && reply == Failed && after == n.(jail := after.jail)
      && (after.jail <==>
            match FirstOfJail(failing).value
            case Validate => UndoDropIn in failing
            case Reload => UndoDropIn in failing
            case SetPassword => true
            case _ => n.jail)
  {
  }

  /**
   Whether these failures leave the node exactly as it was, told from the node before and the first call that
   fails.
   */
  predicate LeavesAsWas(n: Node, enabled: bool, keys: set<Key>, failing: set<Call>) {
    if enabled && n.jail && InspectOther !in failing then true
    else
      match if enabled then FirstOfEnable(failing) else FirstOfDisable(failing)
      case None => Matches(n, enabled, keys)
      case Some(first) => if enabled then EnableUndone(n, keys, first, failing) else DisableUndone(n, first)
  }

  lemma ApplyLeavesIff(n: Node, enabled: bool, keys: set<Key>, failing: set<Call>)
    ensures ApplySsh(n, enabled, keys, failing).0 == n <==> LeavesAsWas(n, enabled, keys, failing)
    ensures ApplySsh(n, enabled, keys, failing).0.jail == n.jail
  {
    if enabled && !n.jail && FirstOfEnable(failing).Some? { RefusedEnableIsAtomicIff(n, keys, failing); }
    if !enabled && FirstOfDisable(failing).Some? { RefusedDisableIsAtomicIff(n, failing); }
  }

  /**
   Re-installing a key list on an account that is on, with a reload that fails: the rollback leaves the account
   without access.
   */
  lemma RefusedKeyChangeMayCutAccess(installed: set<Key>, wanted: set<Key>)
    ensures
      var before := Node(true, Some(installed), true, false);
      var (after, reply) := EnableSsh(before, wanted, {Reload});
      reply == Failed && !after.dropIn && after.keys.None? && after != before
  {
  }
}
