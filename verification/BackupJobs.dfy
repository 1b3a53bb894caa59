/** The names and the lifetimes of the backup Jobs (internal/backup/backup.go). */
module BackupJobs {
  import opened Text
  import Decimal

  datatype Direction = Backup | Restore | Import

  /** What a Job is for: one operation, the deletion of a snapshot, or the purge
      of a deleted server. */
  datatype JobName = Operation(dir: Direction, id: nat) | Forget(of: nat) | Purge(slug: string)

  datatype Params = Params(slug: string, id: nat, dir: Direction, forget: bool, purge: bool)

  function DirName(dir: Direction): string {
    match dir
    case Backup => "backup"
    case Restore => "restore"
    case Import => "db-import"
  }

  function PrintedName(p: Params): string {
    if p.purge then "quetzal-purge-" + p.slug
    else if p.forget then "quetzal-forget-" + Decimal.Digits(p.id)
    else "quetzal-" + DirName(p.dir) + "-" + Decimal.Digits(p.id)
  }

  function SubjectOf(p: Params): JobName {
    if p.purge then Purge(p.slug) else if p.forget then Forget(p.id) else Operation(p.dir, p.id)
  }

  /** The kind of a name, up to its second dash or, for an import, its third. */
  function Kind(p: Params): string {
    if p.purge then "purge-" else if p.forget then "forget-" else DirName(p.dir) + "-"
  }

  function Tail(p: Params): string { if p.purge then p.slug else Decimal.Digits(p.id) }

  predicate IsKind(k: string) {
    k == "purge-" || k == "forget-" || k == "backup-" || k == "restore-" || k == "db-import-"
  }

  lemma NameParts(p: Params)
    ensures PrintedName(p) == "quetzal-" + (Kind(p) + Tail(p)) && IsKind(Kind(p))
  {}

  /** The kinds begin differently. */
  lemma KindsDiffer(k: string, l: string)
    requires IsKind(k) && IsKind(l) && k[0] == l[0]
    ensures k == l
  {}

  lemma SameKinds(p: Params, q: Params)
    requires Kind(p) == Kind(q)
    ensures p.purge == q.purge && (!p.purge ==> p.forget == q.forget) && (!p.purge && !p.forget ==> p.dir == q.dir)
  {
    assert Kind(p)[0] == Kind(q)[0];
  }

  /** Jobs have the same name exactly when they are for the same thing: no
      operation can take another's Job for its own. */
  lemma NamesAreUnique(p: Params, q: Params)
    ensures PrintedName(p) == PrintedName(q) <==> SubjectOf(p) == SubjectOf(q)
  {
    hide PrintedName, Kind, Tail, IsKind;
    NameParts(p);
    NameParts(q);
    if PrintedName(p) == PrintedName(q) {
      SameParts(Kind(p), Tail(p), Kind(q), Tail(q));
      SameKinds(p, q);
      SameTails(p, q);
    } else if SubjectOf(p) == SubjectOf(q) {
      SameSubjects(p, q);
    }
  }

  lemma SameSubjects(p: Params, q: Params)
    requires SubjectOf(p) == SubjectOf(q)
    ensures PrintedName(p) == PrintedName(q)
  {}

  lemma SameTails(p: Params, q: Params)
    requires p.purge == q.purge && Tail(p) == Tail(q)
    ensures if p.purge then p.slug == q.slug else p.id == q.id
  {
    if !p.purge { Decimal.DigitsAreUnique(p.id, q.id); }
  }

  lemma SameParts(k: string, s: string, l: string, t: string)
    requires IsKind(k) && IsKind(l) && "quetzal-" + (k + s) == "quetzal-" + (l + t)
    ensures k == l && s == t
  {
    assert ("quetzal-" + (k + s))[8..] == k + s && ("quetzal-" + (l + t))[8..] == l + t;
    assert (k + s)[0] == k[0] && (l + t)[0] == l[0];
    KindsDiffer(k, l);
    assert (k + s)[|k|..] == s && (l + t)[|l|..] == t;
  }

  // ---- the Job ----

  datatype JobSpec = JobSpec(name: string, ttl: Option<nat>, backoff: nat, deadline: nat, dataVolume: bool, readOnly: bool)

  /** BuildJob and podSpec, as far as an operation's outcome hangs on them. */
  function BuildJob(p: Params): JobSpec {
    JobSpec(PrintedName(p),
            if p.purge then Some(86400) else None,
            if p.dir == Import then 0 else 1,
            6 * 60 * 60,
            !p.forget && !p.purge,
            p.dir == Backup || p.dir == Import)
  }

  /** The parameters a Job of this name was built from, as far as its name says. */
  function ParamsOf(name: JobName): Params {
    match name
    case Operation(dir, id) => Params("", id, dir, false, false)
    case Forget(id) => Params("", id, Backup, true, false)
    case Purge(slug) => Params(slug, 0, Backup, false, true)
  }

  /** The cluster removes a Job with a time to live by itself once it has ended. */
  predicate Expires(name: JobName) { BuildJob(ParamsOf(name)).ttl.Some? }
}
