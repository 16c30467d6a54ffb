/**
 buildRestorePlan of internal/modules/backups/restore.go: from a client's
 selections to the request the destructive operator would run, and its digest.

 The digest is SHA-256 over a JSON document; here it is that document itself, so
 it is injective by construction. Decoding a manifest, decrypting an account and
 validating a request are deterministic code that is not restated: they are the
 function fields of Codec. The answers of the database and of the two resolvers
 are the maps of Env; a build asks for each reference at most once, so one map
 also stands for answers that change while a build is running.
 */
module RestorePlan {
  import opened Wrappers
  import opened Text

  // ----- what the client sends -----

  datatype Selection = Selection(entry: string, destination: string, clear: bool)

  datatype Choices = Choices(sites: seq<Selection>, databases: seq<Selection>, allowUnverified: bool)

  // ----- what the panel stores and resolves -----

  datatype CopyRow = CopyRow(id: string, planId: string, accountId: string, copyName: string, remotePath: string,
                             entries: string, status: string, integrity: string, restoreTest: string, createdAt: int)

  datatype CopyEntry = CopyEntry(name: string, sha256: string)

  datatype AccountRow = AccountRow(id: string, name: string, kind: string, path: string, config: string,
                                   secret: Option<string>, updatedAt: int)

  datatype Account = Account(name: string, kind: string, path: string, params: map<string, string>)

  datatype Target =
    | SiteTarget(slug: string, rootPath: string, unixUser: string)
    | DatabaseTarget(engine: string, name: string, version: string, port: int, socket: string)

  /** One SiteRestoreTarget or DatabaseRestoreTarget. */
  datatype Item = Item(entry: string, sha256: string, target: Target, clear: bool)

  datatype Request = Request(account: Account, planId: string, copyName: string, sites: seq<Item>, databases: seq<Item>)

  datatype Codec = Codec(decode: string -> Option<seq<CopyEntry>>, resolve: AccountRow -> Option<Account>,
                         valid: Request -> bool)

  datatype Env = Env(accounts: map<string, AccountRow>, hasSites: bool, sites: map<string, Target>,
                     databases: map<string, Target>)

  // ----- refusals -----

  datatype Problem =
    | Empty | TooManyItems | CopyInvalid | UnverifiedNotConfirmed | ManifestInvalid | ManifestDuplicate
    | SourceUnavailable | UnknownSiteEntry | UnknownDatabaseEntry | MissingSiteDestination | IncompatibleDestination
    | DuplicateEntry | DuplicateSite | DuplicateDatabase | NoSiteResolver | SiteUnavailable | DatabaseUnavailable
    | DuplicateSiteTarget | DuplicateDatabaseTarget | ChecksumInvalid | PlanInvalid

  datatype Result<T> = Ok(value: T) | Refused(problem: Problem)

  // ----- normalising and sorting the selections -----

  function Trimmed(s: Selection): Selection {
    s.(entry := TrimSpace(s.entry), destination := TrimSpace(s.destination))
  }

  function TrimAll(s: seq<Selection>): (r: seq<Selection>)
    ensures |r| == |s| && forall i :: 0 <= i < |s| ==> r[i] == Trimmed(s[i])
  {
    seq(|s|, i requires 0 <= i < |s| => Trimmed(s[i]))
  }

  /** The comparison given to sort.Slice: it does not look at clear. */
  predicate Before(a: Selection, b: Selection) {
    if a.entry == b.entry then Less(a.destination, b.destination) else Less(a.entry, b.entry)
  }

  predicate SameKeys(a: Selection, b: Selection) {
    a.entry == b.entry && a.destination == b.destination
  }

  ghost predicate Sorted(s: seq<Selection>) {
    forall i, j :: 0 <= i < j < |s| ==> !Before(s[j], s[i])
  }

  /** What sort.Slice may return: it is not stable, so several results are possible. */
  ghost predicate SortingOf(given: seq<Selection>, sorted: seq<Selection>) {
    Sorted(sorted) && multiset(sorted) == multiset(given)
  }

  // ----- the manifest -----

  /** strings.ContainsAny(name, "/\\"). */
  predicate BadName(name: string) {
    name == "" || '/' in name || '\\' in name
  }

  function IndexFrom(entries: seq<CopyEntry>, known: map<string, CopyEntry>): Result<map<string, CopyEntry>> {
    if entries == [] then Ok(known)
    else if BadName(entries[0].name) then Refused(ManifestInvalid)
    else if entries[0].name in known then Refused(ManifestDuplicate)
    else IndexFrom(entries[1..], known[entries[0].name := entries[0]])
  }

  function Index(entries: seq<CopyEntry>): Result<map<string, CopyEntry>> {
    IndexFrom(entries, map[])
  }

  // ----- one selection -----

  datatype Kind = Site | Database

  const POSTGRES := "postgres"
  const MYSQL := "mysql"
  const MARIADB := "mariadb"

  function EntryFamily(entry: string): Option<string> {
    if HasPrefix(entry, "db-postgres-") && HasSuffix(entry, ".dump") then Some(POSTGRES)
    else if (HasPrefix(entry, "db-mysql-") || HasPrefix(entry, "db-mariadb-")) && HasSuffix(entry, ".sql") then
      Some(MYSQL)
    else None
  }

  predicate TargetMatchesFamily(engine: string, family: string) {
    (family == POSTGRES && engine == POSTGRES) || (family == MYSQL && (engine == MYSQL || engine == MARIADB))
  }

  predicate IsSiteArchive(entry: string) {
    HasPrefix(entry, "site-") && HasSuffix(entry, ".tar.gz")
  }

  predicate ValidSha256(value: string) {
    |value| == 64 && forall c :: c in value ==> '0' <= c <= '9' || 'a' <= c <= 'f' || 'A' <= c <= 'F'
  }

  predicate CompatibleRef(ref: string, family: string) {
    match Cut(ref, ':')
    case None => false
    case Some((engine, id)) => id != "" && (engine == POSTGRES || engine == MYSQL) && engine == family
  }

  /** The text two selections must not share: a site's root path, a database's address on its engine. */
  function Identity(target: Target): string {
    match target
    case SiteTarget(_, rootPath, _) => rootPath
    case DatabaseTarget(engine, name, _, port, socket) => engine + ":" + socket + ":" + Decimal(port) + ":" + name
  }

  /** The maps the loop fills. Entries are shared by both loops, references and targets are per loop. */
  datatype Used = Used(entries: set<string>, refs: set<string>, targets: set<string>)

  /** The checks that need no resolver, in the order they are made. */
  function Precheck(kind: Kind, known: map<string, CopyEntry>, used: Used, s: Selection): Option<Problem> {
    match kind
    case Site =>
      if s.entry !in known || !IsSiteArchive(s.entry) then Some(UnknownSiteEntry)
      else if s.destination == "" then Some(MissingSiteDestination)
      else if s.entry in used.entries then Some(DuplicateEntry)
      else if s.destination in used.refs then Some(DuplicateSite)
      else None
    case Database =>
      if s.entry !in known || EntryFamily(s.entry).None? then Some(UnknownDatabaseEntry)
      else if !CompatibleRef(s.destination, EntryFamily(s.entry).value) then Some(IncompatibleDestination)
      else if s.entry in used.entries then Some(DuplicateEntry)
      else if s.destination in used.refs then Some(DuplicateDatabase)
      else None
  }

  function Resolve(kind: Kind, env: Env, s: Selection): Result<Target> {
    match kind
    case Site =>
      if !env.hasSites then Refused(NoSiteResolver)
      else if s.destination !in env.sites then Refused(SiteUnavailable)
      else
        var target := env.sites[s.destination];
        if !target.SiteTarget? || target.slug == "" || target.rootPath == "" || target.unixUser == "" then
          Refused(SiteUnavailable)
        else Ok(target)
    case Database =>
      if s.destination !in env.databases then Refused(DatabaseUnavailable)
      else
        var target := env.databases[s.destination];
        if !target.DatabaseTarget? || target.name == "" || EntryFamily(s.entry).None?
           || !TargetMatchesFamily(target.engine, EntryFamily(s.entry).value)
        then Refused(DatabaseUnavailable)
        else Ok(target)
  }

  /** One round of the loop up to the append: the resolved target, or the refusal. */
  function Judge(kind: Kind, known: map<string, CopyEntry>, env: Env, used: Used, s: Selection): (r: Result<Target>)
    ensures r.Ok? ==> s.entry in known && s.entry !in used.entries
  {
    match Precheck(kind, known, used, s)
    case Some(problem) => Refused(problem)
    case None =>
      match Resolve(kind, env, s)
      case Refused(problem) => Refused(problem)
      case Ok(target) =>
        if Identity(target) in used.targets then
          Refused(if kind.Site? then DuplicateSiteTarget else DuplicateDatabaseTarget)
        else if known[s.entry].sha256 != "" && !ValidSha256(known[s.entry].sha256) then Refused(ChecksumInvalid)
        else Ok(target)
  }

  function Mark(used: Used, s: Selection, target: Target): Used {
    Used(used.entries + {s.entry}, used.refs + {s.destination}, used.targets + {Identity(target)})
  }

  // ----- the loop over the selections -----

  function Walk(kind: Kind, known: map<string, CopyEntry>, env: Env, used: Used,
                chosen: seq<Selection>): Result<seq<Item>>
    decreases |chosen|
  {
    if chosen == [] then Ok([])
    else
      var s := chosen[0];
      match Judge(kind, known, env, used, s)
      case Refused(problem) => Refused(problem)
      case Ok(target) =>
        match Walk(kind, known, env, Mark(used, s, target), chosen[1..])
        case Refused(problem) => Refused(problem)
        case Ok(items) => Ok([Item(s.entry, known[s.entry].sha256, target, s.clear)] + items)
  }

  function Entries(chosen: seq<Selection>): set<string> {
    set s | s in chosen :: s.entry
  }

  // ----- the plan and its digest -----

  /** Everything digestRestorePlan hashes. */
  datatype Canonical = Canonical(version: int, copy: CopyRow, account: AccountRow, choices: Choices, sites: seq<Item>,
                                 databases: seq<Item>)

  /** A missing secret and an empty one are hashed alike. */
  function DigestOf(copy: CopyRow, account: AccountRow, choices: Choices, sites: seq<Item>,
                    databases: seq<Item>): Canonical {
    Canonical(1, copy, account.(secret := Some(if account.secret.Some? then account.secret.value else "")), choices,
      sites, databases)
  }

  datatype Plan = Plan(choices: Choices, request: Request, digest: Canonical)

  predicate CopyStateValid(copy: CopyRow) {
    && copy.status == "uploaded"
    && copy.integrity in {"passed", "unverified", "failed"}
    && copy.restoreTest in {"not_tested", "passed", "failed"}
  }

  /** The checks made before the loops. */
  function Admit(copy: CopyRow, sites: nat, databases: nat, allowUnverified: bool): Option<Problem> {
    if sites == 0 && databases == 0 then Some(Empty)
    else if sites + databases > 128 then Some(TooManyItems)
    else if !CopyStateValid(copy) then Some(CopyInvalid)
    else if copy.integrity != "passed" && !allowUnverified then Some(UnverifiedNotConfirmed)
    else None
  }

  function Manifest(codec: Codec, copy: CopyRow): Result<map<string, CopyEntry>> {
    match codec.decode(copy.entries)
    case None => Refused(CopyInvalid)
    case Some(entries) => Index(entries)
  }

  function Source(codec: Codec, env: Env, copy: CopyRow): Result<(AccountRow, Account)> {
    if copy.accountId !in env.accounts then Refused(SourceUnavailable)
    else
      match codec.resolve(env.accounts[copy.accountId])
      case None => Refused(SourceUnavailable)
      case Some(account) => Ok((env.accounts[copy.accountId], account))
  }

  /** Both loops: the site loop first, then the database loop with fresh reference and target maps. */
  function WalkBoth(known: map<string, CopyEntry>, env: Env, choices: Choices): Result<(seq<Item>, seq<Item>)> {
    match Walk(Site, known, env, Used({}, {}, {}), choices.sites)
    case Refused(problem) => Refused(problem)
    case Ok(sites) =>
      match Walk(Database, known, env, Used(Entries(choices.sites), {}, {}), choices.databases)
      case Refused(problem) => Refused(problem)
      case Ok(databases) => Ok((sites, databases))
  }

  function Finish(codec: Codec, copy: CopyRow, source: (AccountRow, Account), choices: Choices,
                  items: (seq<Item>, seq<Item>)): Result<Plan> {
    var request := Request(source.1, copy.planId, copy.copyName, items.0, items.1);
    if !codec.valid(request) then Refused(PlanInvalid)
    else Ok(Plan(choices, request, DigestOf(copy, source.0, choices, items.0, items.1)))
  }

  /** The plan for selections that were trimmed and sorted already. */
  function BuildSorted(codec: Codec, env: Env, copy: CopyRow, choices: Choices): Result<Plan> {
    match Admit(copy, |choices.sites|, |choices.databases|, choices.allowUnverified)
    case Some(problem) => Refused(problem)
    case None =>
      match Manifest(codec, copy)
      case Refused(problem) => Refused(problem)
      case Ok(known) =>
        match Source(codec, env, copy)
        case Refused(problem) => Refused(problem)
        case Ok(source) =>
          match WalkBoth(known, env, choices)
          case Refused(problem) => Refused(problem)
          case Ok(items) => Finish(codec, copy, source, choices, items)
  }

  /** The selections the plan works on: `sorted` is one of the orders sort.Slice may leave them in. */
  ghost predicate Normalises(requested: Choices, sorted: Choices) {
    && SortingOf(TrimAll(requested.sites), sorted.sites)
    && SortingOf(TrimAll(requested.databases), sorted.databases)
    && sorted.allowUnverified == requested.allowUnverified
  }

  /** `result` is a possible outcome of building a plan for the request. */
  ghost predicate Builds(codec: Codec, env: Env, copy: CopyRow, requested: Choices, result: Result<Plan>) {
    exists sorted :: Normalises(requested, sorted) && result == BuildSorted(codec, env, copy, sorted)
  }
}
