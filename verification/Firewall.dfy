/**
 The lockout judgement of internal/modules/firewall/lockout.go and the undo that
 internal/modules/firewall/firewall.go arms behind a risky change.

 Whether an address lies in a non-empty source range is decided by Go's net
 package; it is the parameter `covers`. A lockout reason is the reason itself
 instead of its sentence; different reasons have different sentences.
 */
module Firewall {
  import opened Wrappers
  import opened Text

  const ALLOW := "allow"
  const DENY := "deny"
  const DELETE := "delete"
  const ENABLE := "enable"
  const DISABLE := "disable"

  datatype Rule = Rule(port: string, protocol: string, action: string, from: string, comment: string, v6: bool)

  datatype Change = Change(action: string, rule: Rule)

  datatype Status = Status(active: bool, rules: seq<Rule>)

  // ----- ports -----

  const MAX_INT := 0x7FFF_FFFF_FFFF_FFFF

  predicate AllDigits(s: string) {
    s != [] && forall i :: 0 <= i < |s| ==> '0' <= s[i] <= '9'
  }

  function Digit(c: char): nat
    requires '0' <= c <= '9'
  {
    c as int - '0' as int
  }

  function Value(s: string): nat
    requires forall i :: 0 <= i < |s| ==> '0' <= s[i] <= '9'
  {
    if s == [] then 0 else 10 * Value(s[..|s| - 1]) + Digit(s[|s| - 1])
  }

  /** strconv.Atoi: an optional sign, decimal digits, and a 64-bit result. */
  function Atoi(s: string): Option<int> {
    var digits := if s != [] && (s[0] == '+' || s[0] == '-') then s[1..] else s;
    if !AllDigits(digits) then None
    else
      var value: int := Value(digits);
      var n := if s[0] == '-' then -value else value;
      if -MAX_INT - 1 <= n <= MAX_INT then Some(n) else None
  }

  function PortRange(spec: string): Option<(int, int)> {
    match Cut(spec, ':')
    case None => (match Atoi(TrimSpace(spec)) case None => None case Some(n) => Some((n, n)))
    case Some((low, high)) =>
      match Atoi(TrimSpace(low))
      case None => None
      case Some(start) =>
        match Atoi(TrimSpace(high))
        case None => None
        case Some(end) => Some((start, end))
  }

  predicate RuleAdmits(rule: Rule, port: int) {
    && (rule.protocol == "" || rule.protocol == "tcp")
    && (rule.port == ""
       || (PortRange(rule.port).Some? && PortRange(rule.port).value.0 <= port <= PortRange(rule.port).value.1))
  }

  // ----- what a rule's port says -----

  lemma DigitText(k: nat)
    requires k < 10
    ensures '0' <= DIGITS[k] <= '9' && Digit(DIGITS[k]) == k
  {
    assert DIGITS == ['0', '1', '2', '3', '4', '5', '6', '7', '8', '9'];
  }

  lemma {:induction false} DecimalReads(n: nat)
    ensures AllDigits(Decimal(n)) && Value(Decimal(n)) == n
  {
    if n < 10 {
      DigitText(n);
      assert Decimal(n)[..0] == [];
    } else {
      DecimalReads(n / 10);
      DigitText(n % 10);
      var s := Decimal(n);
      assert s[..|s| - 1] == Decimal(n / 10) && s[|s| - 1] == DIGITS[n % 10];
    }
  }

  /** A number in decimal is read as that number, as long as it fits an int. */
  lemma AtoiReads(n: nat)
    requires n <= MAX_INT
    ensures Atoi(TrimSpace(Decimal(n))) == Some(n) && ':' !in Decimal(n)
  {
    DecimalReads(n);
    var s := Decimal(n);
    assert s[0] != '+' && s[0] != '-' && !IsSpace(s[0]) && !IsSpace(s[|s| - 1]);
    TrimSpaceKeeps(s);
  }

  predicate ForTcp(rule: Rule) {
    rule.protocol == "" || rule.protocol == "tcp"
  }

  /** A rule for one port admits that port and no other. */
  lemma OnePortAdmits(rule: Rule, n: nat, port: int)
    requires n <= MAX_INT && rule.port == Decimal(n)
    ensures RuleAdmits(rule, port) <==> ForTcp(rule) && port == n
  {
    AtoiReads(n);
  }

  /** The two numbers of a range are what PortRange reads. */
  lemma RangeReads(low: nat, high: nat)
    requires low <= MAX_INT && high <= MAX_INT
    ensures PortRange(Decimal(low) + [':'] + Decimal(high)) == Some((low, high))
  {
    AtoiReads(low);
    AtoiReads(high);
    CutFirst(Decimal(low), Decimal(high), ':');
  }

  /** A rule for a range admits the ports of the range, both ends included, and no others. */
  lemma RangeAdmits(rule: Rule, low: nat, high: nat, port: int)
    requires low <= MAX_INT && high <= MAX_INT && rule.port == Decimal(low) + [':'] + Decimal(high)
    ensures RuleAdmits(rule, port) <==> ForTcp(rule) && low <= port <= high
  {
    RangeReads(low, high);
    assert rule.port[|Decimal(low)|] == ':';
  }

  /** A character that a port number is made of. */
  predicate InNumber(c: char) {
    '0' <= c <= '9' || c == '+' || c == '-' || IsSpace(c)
  }

  predicate AllInNumber(s: string) {
    forall i :: 0 <= i < |s| ==> InNumber(s[i])
  }

  lemma OnlyNumbersAreRead(s: string)
    requires Atoi(TrimSpace(s)).Some?
    ensures AllInNumber(s)
  {
    var left, right := TrimSpaceSplits(s);
    var t := TrimSpace(s);
    assert AllInNumber(t);
    forall i | 0 <= i < |s| ensures InNumber(s[i]) {
      assert s[i] == (left + t + right)[i];
    }
  }

  lemma JoinedNumbers(low: string, high: string, i: nat)
    requires AllInNumber(low) && AllInNumber(high) && i < |low + [':'] + high|
    ensures InNumber((low + [':'] + high)[i]) || (low + [':'] + high)[i] == ':'
  {
  }

  lemma OnlyNumbersInRange(spec: string, i: nat)
    requires PortRange(spec).Some? && i < |spec|
    ensures InNumber(spec[i]) || spec[i] == ':'
  {
    match Cut(spec, ':')
    case None => OnlyNumbersAreRead(spec);
    case Some((low, high)) =>
      OnlyNumbersAreRead(low);
      OnlyNumbersAreRead(high);
      JoinedNumbers(low, high, i);
  }

  /** A service name, a list or anything else that is neither a number nor a range admits no port. */
  lemma OtherTextAdmitsNothing(rule: Rule, i: nat, port: int)
    requires i < |rule.port| && !InNumber(rule.port[i]) && rule.port[i] != ':'
    ensures !RuleAdmits(rule, port)
  {
    if PortRange(rule.port).Some? { OnlyNumbersInRange(rule.port, i); }
  }

  /** A rule without a port admits every port; one for another protocol admits none. */
  lemma AnywhereAdmits(rule: Rule, port: int)
    ensures rule.port == "" ==> (RuleAdmits(rule, port) <==> ForTcp(rule))
    ensures !ForTcp(rule) ==> !RuleAdmits(rule, port)
  {
  }

  datatype AccessPort = AccessPort(number: int, panel: bool)

  const ACCESS_PORTS := [AccessPort(22, false), AccessPort(80, true), AccessPort(443, true)]

  predicate SameRuleBody(a: Rule, b: Rule) {
    a.port == b.port && a.protocol == b.protocol && a.from == b.from
  }

  predicate FromCovers(covers: (string, string) -> bool, from: string, peer: string) {
    TrimSpace(from) == "" || covers(from, peer)
  }

  // ----- the judgement -----

  datatype Reason = CarriesSession | LastRule(port: int) | DeniesPort(port: int)

  predicate OtherRuleAdmits(rules: seq<Rule>, candidate: Rule, port: int) {
    exists i ::
        0 <= i < |rules| && rules[i].action == ALLOW && !SameRuleBody(rules[i], candidate) && RuleAdmits(rules[i], port)
  }

  predicate SessionRule(covers: (string, string) -> bool, rule: Rule, peer: string) {
    peer != "" && FromCovers(covers, rule.from, peer) && exists i ::
        0 <= i < |ACCESS_PORTS| && ACCESS_PORTS[i].panel && RuleAdmits(rule, ACCESS_PORTS[i].number)
  }

  /** What the per-port check of the change's verb says about one access port. */
  function PortReason(status: Status, change: Change, covers: (string, string) -> bool, peer: string,
                      port: int): seq<Reason> {
    if change.action == DELETE then
      if RuleAdmits(change.rule, port) && !OtherRuleAdmits(status.rules, change.rule, port) then [LastRule(port)]
      else []
    else
      if RuleAdmits(change.rule, port) && FromCovers(covers, change.rule.from, peer) then [DeniesPort(port)] else []
  }

  /** One check made for every port of the list, in order. */
  function Collected(check: int -> seq<Reason>, ports: seq<AccessPort>): seq<Reason> {
    if ports == [] then [] else Collected(check, ports[..|ports| - 1]) + check(ports[|ports| - 1].number)
  }

  function PortReasons(status: Status, change: Change, covers: (string, string) -> bool, peer: string): seq<Reason> {
    Collected(port => PortReason(status, change, covers, peer, port), ACCESS_PORTS)
  }

  /** assessLockout before it drops repeats. */
  function Raised(status: Status, change: Change, covers: (string, string) -> bool, peer: string): seq<Reason> {
    if !status.active then []
    else if change.action == DELETE then
      if change.rule.action != ALLOW then []
      else
        var session := if SessionRule(covers, change.rule, peer) then [CarriesSession] else [];
        session + PortReasons(status, change, covers, peer)
    else if change.action == DENY then PortReasons(status, change, covers, peer)
    else []
  }

  /** Each value at its first place, in order. */
  function Dedupe<T(==, !new)>(values: seq<T>): (r: seq<T>)
    ensures forall v :: v in r <==> v in values
    ensures forall i, j :: 0 <= i < j < |r| ==> r[i] != r[j]
    ensures |r| <= |values|
  {
    if values == [] then []
    else
      var before := Dedupe(values[..|values| - 1]);
      var last := values[|values| - 1];
      assert values == values[..|values| - 1] + [last];
      if last in before then before else before + [last]
  }

  function AssessLockout(status: Status, change: Change, covers: (string, string) -> bool, peer: string): seq<Reason> {
    Dedupe(Raised(status, change, covers, peer))
  }

  // ----- the loops -----

  method AnyOtherRuleAdmits(status: Status, candidate: Rule, port: int) returns (found: bool)
    ensures found == OtherRuleAdmits(status.rules, candidate, port)
  {
    for i := 0 to |status.rules|
      invariant !OtherRuleAdmits(status.rules[..i], candidate, port)
    {
      var existing := status.rules[i];
      assert status.rules[..i + 1] == status.rules[..i] + [existing];
      if existing.action != ALLOW { continue; }
      if SameRuleBody(existing, candidate) { continue; }
      if RuleAdmits(existing, port) { return true; }
    }
    assert status.rules[..|status.rules|] == status.rules;
    return false;
  }

  /** dedupe filters its slice in place: the first n elements are the result. */
  method DedupeInPlace<T(==, !new)>(values: array<T>) returns (n: nat)
    modifies values
    ensures n <= values.Length && values[..n] == Dedupe(old(values[..]))
  {
    ghost var given := values[..];
    var seen: set<T> := {};
    n := 0;
    for i := 0 to values.Length
      invariant n <= i && values[..n] == Dedupe(given[..i])
      invariant forall k :: i <= k < values.Length ==> values[k] == given[k]
      invariant forall v :: v in seen <==> v in given[..i]
    {
      var value := values[i];
      assert given[..i + 1][..i] == given[..i] && given[..i + 1] == given[..i] + [value];
      if value in seen { continue; }
      seen := seen + {value};
      values[n] := value;
      n := n + 1;
    }
    assert given[..values.Length] == given;
  }

  method CollectPortReasons(status: Status, change: Change, covers: (string, string) -> bool,
                            peer: string) returns (reasons: seq<Reason>)
    requires change.action == DELETE || change.action == DENY
    ensures reasons == PortReasons(status, change, covers, peer)
  {
    reasons := [];
    ghost var check := port => PortReason(status, change, covers, peer, port);
    for i := 0 to |ACCESS_PORTS|
      invariant reasons == Collected(check, ACCESS_PORTS[..i])
    {
      var port := ACCESS_PORTS[i].number;
      assert ACCESS_PORTS[..i + 1][..i] == ACCESS_PORTS[..i];
      if !RuleAdmits(change.rule, port) {
      } else if change.action == DELETE {
        var other := AnyOtherRuleAdmits(status, change.rule, port);
        if !other { reasons := reasons + [LastRule(port)]; }
      } else if FromCovers(covers, change.rule.from, peer) {
        reasons := reasons + [DeniesPort(port)];
      }
    }
    assert ACCESS_PORTS[..|ACCESS_PORTS|] == ACCESS_PORTS;
  }

  method Assess(status: Status, change: Change, covers: (string, string) -> bool,
                peer: string) returns (reasons: seq<Reason>)
    ensures reasons == AssessLockout(status, change, covers, peer)
  {
    var raised: seq<Reason> := [];
    if status.active && change.action == DELETE && change.rule.action == ALLOW {
      if SessionRule(covers, change.rule, peer) { raised := [CarriesSession]; }
      var ports := CollectPortReasons(status, change, covers, peer);
      raised := raised + ports;
    } else if status.active && change.action == DENY {
      raised := CollectPortReasons(status, change, covers, peer);
    }
    var values := new Reason[|raised|](i requires 0 <= i < |raised| => raised[i]);
    assert values[..] == raised;
    var n := DedupeInPlace(values);
    return values[..n];
  }

  // ----- what a judgement free of reasons promises -----

  /** Some allow rule of the table admits this port. */
  predicate Admitted(rules: seq<Rule>, port: int) {
    exists i :: 0 <= i < |rules| && rules[i].action == ALLOW && RuleAdmits(rules[i], port)
  }

  /** The table without every rule of this body, both address families and all verbs. */
  function WithoutBody(rules: seq<Rule>, body: Rule): seq<Rule> {
    if rules == [] then []
    else
      var last := rules[|rules| - 1];
      WithoutBody(rules[..|rules| - 1], body) + (if SameRuleBody(last, body) then [] else [last])
  }

  lemma {:induction false} OthersRemain(rules: seq<Rule>, body: Rule, rule: Rule)
    ensures rule in WithoutBody(rules, body) <==> rule in rules && !SameRuleBody(rule, body)
  {
    if rules != [] {
      OthersRemain(rules[..|rules| - 1], body, rule);
      assert rules == rules[..|rules| - 1] + [rules[|rules| - 1]];
    }
  }

  lemma {:induction false} CollectedFrom(check: int -> seq<Reason>, ports: seq<AccessPort>, reason: Reason)
    ensures reason in Collected(check, ports) <==> exists i :: 0 <= i < |ports| && reason in check(ports[i].number)
  {
    if ports != [] { CollectedFrom(check, ports[..|ports| - 1], reason); }
  }

  /** A reason comes from the check of one of the ports. */
  lemma PortReasonsHold(status: Status, change: Change, covers: (string, string) -> bool, peer: string, reason: Reason)
    ensures reason in PortReasons(status, change, covers, peer) <==>
              exists i ::
                  0 <= i < |ACCESS_PORTS| && reason in PortReason(status, change, covers, peer, ACCESS_PORTS[i].number)
  {
    CollectedFrom(port => PortReason(status, change, covers, peer, port), ACCESS_PORTS, reason);
  }

  predicate IsAccessPort(port: int) {
    exists i :: 0 <= i < |ACCESS_PORTS| && ACCESS_PORTS[i].number == port
  }

  predicate LosesLastRule(status: Status, rule: Rule, port: int) {
    RuleAdmits(rule, port) && !OtherRuleAdmits(status.rules, rule, port)
  }

  lemma OnlyItsOwnPort(status: Status, change: Change, covers: (string, string) -> bool, peer: string, number: int,
                       port: int)
    requires change.action == DELETE
    ensures LastRule(port) in PortReason(status, change, covers, peer, number) <==>
              number == port && LosesLastRule(status, change.rule, port)
  {
  }

  lemma LastRuleCollected(status: Status, change: Change, covers: (string, string) -> bool, peer: string, port: int)
    requires change.action == DELETE && IsAccessPort(port)
    ensures LastRule(port) in PortReasons(status, change, covers, peer) <==> LosesLastRule(status, change.rule, port)
  {
    PortReasonsHold(status, change, covers, peer, LastRule(port));
    forall i | 0 <= i < |ACCESS_PORTS|
      ensures LastRule(port) in PortReason(status, change, covers, peer, ACCESS_PORTS[i].number)
              <==> ACCESS_PORTS[i].number == port && LosesLastRule(status, change.rule, port)
    {
      OnlyItsOwnPort(status, change, covers, peer, ACCESS_PORTS[i].number, port);
    }
  }

  /** A port is named as losing its last rule exactly when the rule admits it and no rule of another body does. */
  lemma LastRuleIff(status: Status, change: Change, covers: (string, string) -> bool, peer: string, port: int)
    requires status.active && change.action == DELETE && change.rule.action == ALLOW && IsAccessPort(port)
    ensures LastRule(port) in AssessLockout(status, change, covers, peer) <==> LosesLastRule(status, change.rule, port)
  {
    LastRuleCollected(status, change, covers, peer, port);
  }

  /**
   Deleting an allow rule on an active firewall, judged free of reasons, leaves
   every access port that some allow rule admitted admitted, even after all rules
   of that body are gone.
   */
  lemma FreeDeleteKeepsAccess(status: Status, change: Change, covers: (string, string) -> bool, peer: string, port: int)
    requires status.active && change.action == DELETE && change.rule.action == ALLOW
    requires AssessLockout(status, change, covers, peer) == []
    requires IsAccessPort(port) && Admitted(status.rules, port)
    ensures Admitted(WithoutBody(status.rules, change.rule), port)
  {
    LastRuleIff(status, change, covers, peer, port);
    var i :| 0 <= i < |status.rules| && status.rules[i].action == ALLOW && RuleAdmits(status.rules[i], port);
    var rule := status.rules[i];
    if SameRuleBody(rule, change.rule) {
      var j :| 0 <= j < |status.rules| && status.rules[j].action == ALLOW
        && !SameRuleBody(status.rules[j], change.rule) && RuleAdmits(status.rules[j], port);
      rule := status.rules[j];
    }
    OthersRemain(status.rules, change.rule, rule);
    var k :| 0 <= k < |WithoutBody(status.rules, change.rule)| && WithoutBody(status.rules, change.rule)[k] == rule;
  }

  /** The session is named exactly when a known caller's address is covered and a panel port is admitted by the rule. */
  lemma SessionIff(status: Status, change: Change, covers: (string, string) -> bool, peer: string)
    requires status.active && change.action == DELETE && change.rule.action == ALLOW
    ensures CarriesSession in AssessLockout(status, change, covers, peer) <==>
              peer != "" && FromCovers(covers, change.rule.from, peer)
                && (RuleAdmits(change.rule, 80) || RuleAdmits(change.rule, 443))
  {
    PortReasonsHold(status, change, covers, peer, CarriesSession);
    assert ACCESS_PORTS[1] == AccessPort(80, true) && ACCESS_PORTS[2] == AccessPort(443, true)
           && !ACCESS_PORTS[0].panel;
  }

  /** The rule is about this port and this address. */
  predicate Hits(rule: Rule, covers: (string, string) -> bool, peer: string, port: int) {
    RuleAdmits(rule, port) && FromCovers(covers, rule.from, peer)
  }

  /**
   Some allow rule lets the address in on this port, and no deny rule is about it: in whatever order the rules
   are tried.
   */
  ghost predicate OpenTo(rules: seq<Rule>, covers: (string, string) -> bool, peer: string, port: int) {
    && (exists r :: r in rules && r.action == ALLOW && Hits(r, covers, peer, port))
    && (forall r :: r in rules && r.action == DENY ==> !Hits(r, covers, peer, port))
  }

  /** The table with one more rule, put in anywhere. */
  ghost predicate Adds(rules: seq<Rule>, rule: Rule, rules': seq<Rule>) {
    multiset(rules') == multiset(rules) + multiset{rule}
  }

  lemma AddedAndKept(rules: seq<Rule>, rule: Rule, rules': seq<Rule>, r: Rule)
    requires Adds(rules, rule, rules')
    ensures r in rules' <==> r in rules || r == rule
  {
    assert r in rules' <==> r in multiset(rules');
    assert r in rules <==> r in multiset(rules);
  }

  lemma AddedDenyKeepsOpen(rules: seq<Rule>, deny: Rule, rules': seq<Rule>, covers: (string, string) -> bool,
                           peer: string, port: int)
    requires OpenTo(rules, covers, peer, port) && Adds(rules, deny, rules') && !Hits(deny, covers, peer, port)
    ensures OpenTo(rules', covers, peer, port)
  {
    var allow :| allow in rules && allow.action == ALLOW && Hits(allow, covers, peer, port);
    AddedAndKept(rules, deny, rules', allow);
    forall r | r in rules' && r.action == DENY ensures !Hits(r, covers, peer, port) {
      AddedAndKept(rules, deny, rules', r);
    }
  }

  /** A deny raises no reason exactly when it is about no access port for the caller's address. */
  lemma DenyIsFreeIff(status: Status, change: Change, covers: (string, string) -> bool, peer: string)
    requires status.active && change.action == DENY
    ensures AssessLockout(status, change, covers, peer) == [] <==>
              forall port :: IsAccessPort(port) ==> !Hits(change.rule, covers, peer, port)
  {
    forall port | IsAccessPort(port)
      ensures DeniesPort(port) in AssessLockout(status, change, covers, peer) <==> Hits(change.rule, covers, peer, port)
    {
      DenyNamesPort(status, change, covers, peer, port);
    }
    var reasons := AssessLockout(status, change, covers, peer);
    if reasons != [] {
      assert reasons[0] in reasons;
      PortReasonsHold(status, change, covers, peer, reasons[0]);
      var i :| 0 <= i < |ACCESS_PORTS|
        && reasons[0] in PortReason(status, change, covers, peer, ACCESS_PORTS[i].number);
      assert IsAccessPort(ACCESS_PORTS[i].number);
    }
  }

  lemma DenyNamesPort(status: Status, change: Change, covers: (string, string) -> bool, peer: string, port: int)
    requires status.active && change.action == DENY && IsAccessPort(port)
    ensures DeniesPort(port) in AssessLockout(status, change, covers, peer) <==> Hits(change.rule, covers, peer, port)
  {
    PortReasonsHold(status, change, covers, peer, DeniesPort(port));
    var i :| 0 <= i < |ACCESS_PORTS| && ACCESS_PORTS[i].number == port;
    assert Hits(change.rule, covers, peer, port) ==>
             DeniesPort(port) in PortReason(status, change, covers, peer, ACCESS_PORTS[i].number);
  }

  /** After a deny judged free of reasons, wherever it goes, every access port that was open to the caller still is. */
  lemma FreeDenyKeepsCaller(status: Status, change: Change, covers: (string, string) -> bool, peer: string, port: int,
                            rules': seq<Rule>)
    requires status.active && change.action == DENY && AssessLockout(status, change, covers, peer) == []
    requires IsAccessPort(port) && OpenTo(status.rules, covers, peer, port)
    requires Adds(status.rules, change.rule.(action := DENY), rules')
    ensures OpenTo(rules', covers, peer, port)
  {
    DenyIsFreeIff(status, change, covers, peer);
    assert !Hits(change.rule, covers, peer, port);
    AddedDenyKeepsOpen(status.rules, change.rule.(action := DENY), rules', covers, peer, port);
  }

  // ----- the undo -----

  function RevertFor(change: Change): Option<Change> {
    if change.action == DELETE then Some(Change(change.rule.action, change.rule))
    else if change.action == DENY || change.action == ALLOW then
      Some(Change(DELETE, change.rule.(action := change.action)))
    else None
  }

  /** changeTitle doubles as the check that the verb is one this module queues. */
  predicate Queues(action: string) {
    action == ENABLE || action == DISABLE || action == ALLOW || action == DENY || action == DELETE
  }

  /** A table as a set of rule bodies with their verb. */
  datatype Entry = Entry(port: string, protocol: string, from: string, action: string)

  function EntryOf(rule: Rule, action: string): Entry {
    Entry(rule.port, rule.protocol, rule.from, action)
  }

  function Apply(table: set<Entry>, change: Change): set<Entry> {
    if change.action == ALLOW || change.action == DENY then table + {EntryOf(change.rule, change.action)}
    else if change.action == DELETE then table - {EntryOf(change.rule, change.rule.action)}
    else table
  }

  /** The change's own entry, which it adds or removes. */
  function Touched(change: Change): Entry {
    EntryOf(change.rule, if change.action == DELETE then change.rule.action else change.action)
  }

  /**
   The undo restores the table exactly when the change had something to do: it deleted a rule that was there,
   or added one that was not.
   */
  lemma RevertUndoesIff(table: set<Entry>, change: Change)
    requires change.action == ALLOW || change.action == DENY
             || (change.action == DELETE && (change.rule.action == ALLOW || change.rule.action == DENY))
    ensures RevertFor(change).Some?
    ensures Apply(Apply(table, change), RevertFor(change).value) == table <==>
              (Touched(change) in table <==> change.action == DELETE)
  {
    var e := Touched(change);
    assert DELETE != ALLOW && DELETE != DENY by { assert |DELETE| == 6 && |ALLOW| == 5 && |DENY| == 4; }
    if change.action == DELETE {
      assert Apply(Apply(table, change), RevertFor(change).value) == table - {e} + {e};
    } else {
      assert Apply(Apply(table, change), RevertFor(change).value) == table + {e} - {e};
    }
  }

  // ----- what Submit arms -----

  /** TrimSpace(ToLower(_)) of the three words that are compared. */
  function Normalised(change: Change, lower: string -> string): Change {
    Change(TrimSpace(lower(change.action)),
           change.rule.(protocol := TrimSpace(lower(change.rule.protocol)),
             action := TrimSpace(lower(change.rule.action))))
  }

  datatype Submission = Refused | Queued | QueuedAndArmed(payload: Change)

  /**
   Submit up to the queue: `status` is None when the node could not be asked, `guard` whether a guard is
   configured.
   */
  function Submit(change: Change, lower: string -> string, status: Option<Status>, covers: (string, string) -> bool,
                  peer: string,
                  acknowledged: bool, guard: bool): Submission {
    var c := Normalised(change, lower);
    if !Queues(c.action) then Refused
    else
      var reasons := if status.Some? then AssessLockout(status.value, c, covers, peer) else [];
      if reasons == [] then Queued
      else if !acknowledged || !guard then Refused
      else
        match RevertFor(c)
        case None => Refused
        case Some(revert) => QueuedAndArmed(revert)
  }

  /** executeRevert's own checks on the payload it reads back. */
  predicate ExecuteAccepts(payload: Change) {
    payload.action != "" && Queues(payload.action)
  }

  /** Whatever Submit arms, executeRevert accepts; and only a delete of an allow rule or a deny is ever armed. */
  lemma ArmedPayloadIsAccepted(change: Change, lower: string -> string, status: Option<Status>,
                               covers: (string, string) -> bool, peer: string,
                               acknowledged: bool, guard: bool)
    ensures
      match Submit(change, lower, status, covers, peer, acknowledged, guard)
      case QueuedAndArmed(payload) =>
        && ExecuteAccepts(payload)
        && acknowledged && status.Some? && status.value.active
        && ((payload.action == ALLOW && payload.rule.action == ALLOW)
           || (payload.action == DELETE && payload.rule.action == DENY))
      case _ => true
  {
    if status.Some? { NothingRaisedNothingAssessed(status.value, Normalised(change, lower), covers, peer); }
  }

  /** The submitted change in the form it is judged in, and whether an active firewall was seen. */
  predicate Judged(change: Change, lower: string -> string, status: Option<Status>, c: Change) {
    c == Normalised(change, lower) && status.Some? && status.value.active
  }

  /**
   A change an active firewall raises a reason against is never just queued: it is refused, or armed with its
   undo.
   */
  lemma RiskyIsNeverJustQueued(change: Change, lower: string -> string, status: Option<Status>,
                               covers: (string, string) -> bool, peer: string, acknowledged: bool, guard: bool,
                                 c: Change)
    requires Judged(change, lower, status, c) && AssessLockout(status.value, c, covers, peer) != []
    ensures
      match Submit(change, lower, status, covers, peer, acknowledged, guard)
      case Refused => !(acknowledged && guard)
      case Queued => false
      case QueuedAndArmed(payload) =>
        && acknowledged && guard
        && (c.action == DELETE ==> payload == Change(ALLOW, c.rule))
        && (c.action != DELETE ==> payload == Change(DELETE, c.rule.(action := DENY)))
  {
    NothingRaisedNothingAssessed(status.value, c, covers, peer);
    assert DELETE != ALLOW && DELETE != DENY by {
      assert |DELETE| == 6 && |ALLOW| == 5 && |DENY| == 4;
    }
  }

  /** A deletion of an allow rule that is queued without an undo leaves every admitted access port admitted. */
  lemma QueuedDeleteKeepsAccess(change: Change, lower: string -> string, status: Option<Status>,
                                covers: (string, string) -> bool, peer: string, acknowledged: bool, guard: bool,
                                  c: Change,
                                port: int)
    requires Judged(change, lower, status, c) && c.action == DELETE && c.rule.action == ALLOW
    requires Submit(change, lower, status, covers, peer, acknowledged, guard) == Queued
    requires IsAccessPort(port) && Admitted(status.value.rules, port)
    ensures Admitted(WithoutBody(status.value.rules, c.rule), port)
  {
    FreeDeleteKeepsAccess(status.value, c, covers, peer, port);
  }

  /** A deny that is queued without an undo leaves every access port that was open to the caller open. */
  lemma QueuedDenyKeepsCaller(change: Change, lower: string -> string, status: Option<Status>,
                              covers: (string, string) -> bool, peer: string, acknowledged: bool, guard: bool,
                                c: Change,
                              port: int, rules': seq<Rule>)
    requires Judged(change, lower, status, c) && c.action == DENY
    requires Submit(change, lower, status, covers, peer, acknowledged, guard) == Queued
    requires IsAccessPort(port) && OpenTo(status.value.rules, covers, peer, port)
    requires Adds(status.value.rules, c.rule.(action := DENY), rules')
    ensures OpenTo(rules', covers, peer, port)
  {
    FreeDenyKeepsCaller(status.value, c, covers, peer, port, rules');
  }

  lemma NothingRaisedNothingAssessed(status: Status, change: Change, covers: (string, string) -> bool, peer: string)
    ensures Raised(status, change, covers, peer) == [] ==> AssessLockout(status, change, covers, peer) == []
  {
  }
}
