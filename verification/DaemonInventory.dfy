/** The directory of daemon sidecar files: for a session `s` the files s.pid,
    s.version, s.stream and s.sock. A walk classifies the sessions and removes
    what dead ones left behind. */
module DaemonInventory {
  import opened Wrappers
  import opened Strings

  /** File contents; None when a file cannot be read as text. */
  type Files = map<string, Option<string>>

  const DASHBOARD := "dashboard"

  /** What does not change during a walk: which processes live, and how a pid is
      read from trimmed text. */
  datatype Machine = Machine(alive: nat -> bool, parsePid: string -> Option<nat>)

  function PidFile(session: string): string { session + ".pid" }

  function SockFile(session: string): string { session + ".sock" }

  function VersionFile(session: string): string { session + ".version" }

  function StreamFile(session: string): string { session + ".stream" }

  // ----- file names -------------------------------------------------------

  predicate EndsWith(name: string, suffix: string) {
    |suffix| <= |name| && name[|name| - |suffix|..] == suffix
  }

  function Stem(name: string, suffix: string): string
    requires EndsWith(name, suffix)
  {
    name[..|name| - |suffix|]
  }

  /** The session a sidecar file belongs to. */
  function Owner(name: string): Option<string> {
    if EndsWith(name, ".pid") then Some(Stem(name, ".pid"))
    else if EndsWith(name, ".sock") then Some(Stem(name, ".sock"))
    else if EndsWith(name, ".version") then Some(Stem(name, ".version"))
    else if EndsWith(name, ".stream") then Some(Stem(name, ".stream"))
    else None
  }

  function Sidecars(session: string): set<string> {
    {PidFile(session), VersionFile(session), StreamFile(session), SockFile(session)}
  }

  lemma StemOf(session: string, suffix: string)
    ensures EndsWith(session + suffix, suffix) && Stem(session + suffix, suffix) == session
  {
  }

  lemma StemBack(name: string, suffix: string)
    requires EndsWith(name, suffix)
    ensures Stem(name, suffix) + suffix == name
  {
  }

  lemma LastChar(name: string, suffix: string)
    requires suffix != "" && EndsWith(name, suffix)
    ensures name != "" && name[|name| - 1] == suffix[|suffix| - 1]
  {
    assert name[|name| - |suffix|..][|suffix| - 1] == name[|name| - 1];
  }

  /** A session's sidecar files are exactly the files it owns: cleaning one session
      never touches another's. */
  lemma SidecarsAreOwned(session: string, name: string)
    ensures name in Sidecars(session) <==> Owner(name) == Some(session)
  {
    StemOf(session, ".pid");
    StemOf(session, ".sock");
    StemOf(session, ".version");
    StemOf(session, ".stream");
    if EndsWith(name, ".pid") { LastChar(name, ".pid"); StemBack(name, ".pid"); }
    if EndsWith(name, ".sock") { LastChar(name, ".sock"); StemBack(name, ".sock"); }
    if EndsWith(name, ".version") { LastChar(name, ".version"); StemBack(name, ".version"); }
    if EndsWith(name, ".stream") { LastChar(name, ".stream"); StemBack(name, ".stream"); }
  }

  // ----- what a walk should do --------------------------------------------

  datatype CleanReason = ProcessGone | UnreadablePidFile | OrphanedSocket | DashboardGone

  datatype ActiveSession = ActiveSession(name: string, pid: nat, version: Option<string>)

  datatype CleanedSession = CleanedSession(name: string, reason: CleanReason)

  datatype DashboardInfo = DashboardInfo(pid: nat, alive: bool)

  datatype Inventory = Inventory(
    sessions: seq<ActiveSession>, cleaned: seq<CleanedSession>, dashboard: Option<DashboardInfo>)

  const EMPTY := Inventory([], [], None)

  function ReadPid(m: Machine, f: Files, session: string): Option<nat> {
    if PidFile(session) in f && f[PidFile(session)].Some? then m.parsePid(Trim(f[PidFile(session)].value)) else None
  }

  predicate Live(m: Machine, f: Files, session: string) {
    ReadPid(m, f, session).Some? && m.alive(ReadPid(m, f, session).value)
  }

  function Version(f: Files, session: string): Option<string> {
    if VersionFile(session) in f && f[VersionFile(session)].Some? && Trim(f[VersionFile(session)].value) != ""
    then Some(Trim(f[VersionFile(session)].value)) else None
  }

  predicate Ordinary(session: string) { session != "" && session != DASHBOARD }

  /** Why an ordinary session must be cleaned, if it must. */
  function Verdict(m: Machine, f: Files, session: string): Option<CleanReason> {
    if PidFile(session) in f then
      if ReadPid(m, f, session).None? then Some(UnreadablePidFile)
      else if !Live(m, f, session) then Some(ProcessGone)
      else None
    else if SockFile(session) in f then Some(OrphanedSocket)
    else None
  }

  predicate DashboardIsGone(m: Machine, f: Files) {
    ReadPid(m, f, DASHBOARD).Some? && !Live(m, f, DASHBOARD)
  }

  predicate DashboardIsOrphan(m: Machine, f: Files) {
    SockFile(DASHBOARD) in f && (PidFile(DASHBOARD) !in f || DashboardIsGone(m, f))
  }

  predicate Dropped(m: Machine, f: Files, name: string) {
    match Owner(name)
    case None => false
    case Some(s) =>
      if s == DASHBOARD then DashboardIsOrphan(m, f) || (DashboardIsGone(m, f) && name == PidFile(DASHBOARD))
      else s != "" && Verdict(m, f, s).Some?
  }

  /** The directory a walk leaves behind. */
  function AfterWalk(m: Machine, f: Files): Files {
    map name | name in f && !Dropped(m, f, name) :: f[name]
  }

  /** Every ordinary session with a pid or socket file is reported exactly once,
      as live or as cleaned with the right reason; the dashboard apart. */
  ghost predicate Reports(m: Machine, f: Files, inv: Inventory) {
    && SessionsOf(m, f, f.Keys, inv.sessions)
    && (forall s, r :: Ordinary(s) ==> (CleanedSession(s, r) in inv.cleaned <==> Verdict(m, f, s) == Some(r)))
    && (CleanedSession(DASHBOARD, DashboardGone) in inv.cleaned <==> DashboardIsGone(m, f))
    && (CleanedSession(DASHBOARD, OrphanedSocket) in inv.cleaned <==> DashboardIsOrphan(m, f))
    && CleanedOnce(inv.cleaned) && CleanedNames(inv.cleaned)
    && inv.dashboard == DashboardOf(m, f)
  }

  predicate CleanedOnce(cleaned: seq<CleanedSession>) {
    forall i, j :: 0 <= i < j < |cleaned| && cleaned[i].name == cleaned[j].name ==>
      cleaned[i].name == DASHBOARD && cleaned[i].reason != cleaned[j].reason
  }

  /** Only named sessions are reported, the dashboard for its own two reasons. */
  predicate CleanedNames(cleaned: seq<CleanedSession>) {
    forall i :: 0 <= i < |cleaned| ==>
      && cleaned[i].name != ""
      && (cleaned[i].name == DASHBOARD ==> cleaned[i].reason == DashboardGone || cleaned[i].reason == OrphanedSocket)
  }

  function DashboardOf(m: Machine, f: Files): Option<DashboardInfo> {
    var pid := ReadPid(m, f, DASHBOARD);
    if pid.Some? then Some(DashboardInfo(pid.value, m.alive(pid.value))) else None
  }

  function EntryFor(m: Machine, f: Files, s: string): ActiveSession
    requires ReadPid(m, f, s).Some?
  {
    ActiveSession(s, ReadPid(m, f, s).value, Version(f, s))
  }

  /** The live ordinary sessions whose pid file is in `seen`, each once. */
  ghost predicate SessionsOf(m: Machine, f: Files, seen: set<string>, sessions: seq<ActiveSession>) {
    && (forall s :: Ordinary(s) && PidFile(s) in seen && Live(m, f, s) ==> EntryFor(m, f, s) in sessions)
    && (forall a :: a in sessions ==>
          Ordinary(a.name) && PidFile(a.name) in seen && Live(m, f, a.name) && a == EntryFor(m, f, a.name))
    && (forall i, j :: 0 <= i < j < |sessions| ==> sessions[i].name != sessions[j].name)
  }

  // ----- settled directories ----------------------------------------------

  /** Nothing is left to clean: every named session's pid file belongs to a live
      process, every socket has its pid file, and the dashboard is not dead. */
  ghost predicate Settled(m: Machine, f: Files) {
    && (forall s :: Ordinary(s) && PidFile(s) in f ==> Live(m, f, s))
    && (forall s :: s != "" && SockFile(s) in f ==> PidFile(s) in f)
    && !DashboardIsGone(m, f)
  }

  lemma OwnsItsFiles(s: string)
    ensures Owner(PidFile(s)) == Some(s) && Owner(SockFile(s)) == Some(s) && Owner(VersionFile(s)) == Some(s)
  {
    SidecarsAreOwned(s, PidFile(s));
    SidecarsAreOwned(s, SockFile(s));
    SidecarsAreOwned(s, VersionFile(s));
  }

  /** After a walk the directory is settled, and a walk of a settled directory
      changes nothing: so a second walk cleans nothing. */
  lemma WalkSettles(m: Machine, f: Files)
    ensures Settled(m, AfterWalk(m, f))
    ensures Settled(m, f) ==> AfterWalk(m, f) == f
    ensures AfterWalk(m, AfterWalk(m, f)) == AfterWalk(m, f)
  {
    var g := AfterWalk(m, f);
    forall s | s != "" ensures Ordinary(s) && PidFile(s) in g ==> Live(m, g, s)
                       ensures SockFile(s) in g ==> PidFile(s) in g
    {
      OwnsItsFiles(s);
    }
    OwnsItsFiles(DASHBOARD);
    SettledStays(m, g);
    if Settled(m, f) { SettledStays(m, f); }
  }

  lemma SettledStays(m: Machine, f: Files)
    requires Settled(m, f)
    ensures AfterWalk(m, f) == f
  {
    forall name | name in f ensures !Dropped(m, f, name) {
      if Owner(name).Some? {
        var s := Owner(name).value;
        SidecarsAreOwned(s, name);
        assert s != "" && SockFile(s) in f ==> PidFile(s) in f;
      }
    }
  }

  lemma EmptyOrHeaded(cleaned: seq<CleanedSession>)
    ensures cleaned == [] || CleanedSession(cleaned[0].name, cleaned[0].reason) in cleaned
  {
    assert cleaned != [] ==> cleaned[0] == CleanedSession(cleaned[0].name, cleaned[0].reason);
  }

  /** A settled directory is walked without cleaning anything. */
  lemma SettledReportsNothing(m: Machine, f: Files, inv: Inventory)
    requires Settled(m, f) && Reports(m, f, inv)
    ensures inv.cleaned == []
  {
    EmptyOrHeaded(inv.cleaned);
  }

  /** What the report says of an ordinary session: live with its pid and version, or
      cleaned because its pid could not be read, its process was gone, or only its
      socket was left. */
  lemma SessionIsReported(m: Machine, f: Files, inv: Inventory, s: string)
    requires Reports(m, f, inv) && s != "" && s != "dashboard"
    ensures CleanedSession(s, UnreadablePidFile) in inv.cleaned <==> s + ".pid" in f && ReadPid(m, f, s).None?
    ensures CleanedSession(s, ProcessGone) in inv.cleaned <==>
              s + ".pid" in f && ReadPid(m, f, s).Some? && !m.alive(ReadPid(m, f, s).value)
    ensures CleanedSession(s, OrphanedSocket) in inv.cleaned <==> s + ".pid" !in f && s + ".sock" in f
    ensures CleanedSession(s, DashboardGone) !in inv.cleaned
    ensures forall pid: nat, version :: ActiveSession(s, pid, version) in inv.sessions <==>
              && s + ".pid" in f && ReadPid(m, f, s) == Some(pid) && m.alive(pid) && version == Version(f, s)
  {
    assert Ordinary(s);
    forall pid: nat, version |
      s + ".pid" in f && ReadPid(m, f, s) == Some(pid) && m.alive(pid) && version == Version(f, s)
      ensures ActiveSession(s, pid, version) in inv.sessions
    {
      assert Live(m, f, s) && EntryFor(m, f, s) == ActiveSession(s, pid, version);
    }
  }

  /** What the report says of the dashboard: its pid and whether that process lives,
      when its pid file can be read; and what was cleaned of it. */
  lemma DashboardIsReported(m: Machine, f: Files, inv: Inventory)
    requires Reports(m, f, inv)
    ensures ReadPid(m, f, "dashboard").None? ==> inv.dashboard.None?
    ensures ReadPid(m, f, "dashboard").Some? ==>
              && inv.dashboard.Some? && inv.dashboard.value.pid == ReadPid(m, f, "dashboard").value
              && inv.dashboard.value.alive == m.alive(inv.dashboard.value.pid)
    ensures CleanedSession("dashboard", DashboardGone) in inv.cleaned <==>
              ReadPid(m, f, "dashboard").Some? && !m.alive(ReadPid(m, f, "dashboard").value)
  {
  }

  // ----- the effect of a walk, file by file -------------------------------

  /** Of an ordinary session a walk removes all four files or none: it keeps them when
      the process lives, or when neither a pid nor a socket file is there. */
  lemma WalkOfSession(m: Machine, f: Files, s: string, name: string)
    requires s != "" && s != "dashboard" && name in f
    requires name == s + ".pid" || name == s + ".version" || name == s + ".stream" || name == s + ".sock"
    ensures name in AfterWalk(m, f) <==> Live(m, f, s) || (s + ".pid" !in f && s + ".sock" !in f)
    ensures name in AfterWalk(m, f) ==> AfterWalk(m, f)[name] == f[name]
  {
    SidecarsAreOwned(s, name);
    OwnsItsFiles(s);
  }

  /** A file that is nobody's sidecar stays as it is, and no file is added. */
  lemma WalkKeepsOthers(m: Machine, f: Files, name: string)
    ensures name in AfterWalk(m, f) ==> name in f && AfterWalk(m, f)[name] == f[name]
    ensures name in f && (forall s :: name !in {s + ".pid", s + ".version", s + ".stream", s + ".sock"}) ==>
              name in AfterWalk(m, f)
  {
    if Owner(name).Some? { SidecarsAreOwned(Owner(name).value, name); }
  }

  /** Of the dashboard it removes the pid file of a dead process, and everything when a
      socket is left without a pid file. */
  lemma WalkOfDashboard(m: Machine, f: Files, name: string)
    requires name in f
    requires name == "dashboard" + ".pid" || name == "dashboard" + ".version"
          || name == "dashboard" + ".stream" || name == "dashboard" + ".sock"
    ensures var dead := ReadPid(m, f, "dashboard").Some? && !Live(m, f, "dashboard");
            name in AfterWalk(m, f) <==>
              && !(dead && name == "dashboard" + ".pid")
              && !("dashboard" + ".sock" in f && ("dashboard" + ".pid" !in f || dead))
  {
    SidecarsAreOwned(DASHBOARD, name);
    OwnsItsFiles(DASHBOARD);
  }

  /** A session lives exactly when its pid file can be read and, without the white space
      around it, names a process that does. */
  lemma LiveIsRead(m: Machine, f: Files, s: string, before: string, pid: string, after: string)
    requires Blank(before) && Blank(after) && Bare(pid) && f == f[s + ".pid" := Some(before + pid + after)]
    ensures ReadPid(m, f, s) == m.parsePid(pid)
    ensures Live(m, f, s) <==> m.parsePid(pid).Some? && m.alive(m.parsePid(pid).value)
  {
    assert s + ".pid" in f && f[s + ".pid"] == Some(before + pid + after);
    TrimPadded(before, pid, after);
  }

  /** Without a readable pid file there is no pid. */
  lemma NoPidIsRead(m: Machine, f: Files, s: string)
    requires s + ".pid" in f ==> f[s + ".pid"] == None
    ensures ReadPid(m, f, s) == None && !Live(m, f, s)
  {
  }

  /** The version reported is the text of the version file without the white space
      around it, and none when the file is missing, unreadable or blank. */
  lemma VersionIsRead(f: Files, s: string, before: string, version: string, after: string)
    requires Blank(before) && Blank(after) && Bare(version)
    ensures f == f[s + ".version" := Some(before + version + after)] ==> Version(f, s) == Some(version)
    ensures f == f[s + ".version" := Some(before)] ==> Version(f, s) == None
    ensures f == f[s + ".version" := None] || s + ".version" !in f ==> Version(f, s) == None
  {
    TrimPadded(before, version, after);
    BlankTrims(before);
    var name := s + ".version";
    assert f == f[name := Some(before + version + after)] ==> name in f && f[name] == Some(before + version + after);
    assert f == f[name := Some(before)] ==> name in f && f[name] == Some(before);
    assert f == f[name := None] ==> name in f && f[name] == None;
  }

  // ----- the two passes ---------------------------------------------------

  /** What the first pass drops once it has seen the names in `seen`. */
  predicate FirstDrops(m: Machine, f: Files, seen: set<string>, name: string) {
    match Owner(name)
    case None => false
    case Some(s) =>
      && PidFile(s) in seen && PidFile(s) in f
      && (if s == DASHBOARD then DashboardIsGone(m, f) && name == PidFile(s) else s != "" && !Live(m, f, s))
  }

  function AfterFirst(m: Machine, f: Files, seen: set<string>): Files {
    map name | name in f && !FirstDrops(m, f, seen, name) :: f[name]
  }

  predicate Orphan(g: Files, session: string) {
    session != "" && SockFile(session) in g && PidFile(session) !in g
  }

  function AfterSecond(g: Files, seen: set<string>): Files {
    map name | name in g
      && !(Owner(name).Some? && SockFile(Owner(name).value) in seen && Orphan(g, Owner(name).value)) :: g[name]
  }

  lemma DashboardAfterPasses(m: Machine, f: Files, name: string)
    requires name in f && Owner(name) == Some(DASHBOARD)
    ensures var g := AfterFirst(m, f, f.Keys); name in AfterSecond(g, g.Keys) <==> name in AfterWalk(m, f)
  {
    OwnsItsFiles(DASHBOARD);
  }

  lemma SessionAfterPasses(m: Machine, f: Files, name: string)
    requires name in f && Owner(name) != Some(DASHBOARD)
    ensures var g := AfterFirst(m, f, f.Keys); name in AfterSecond(g, g.Keys) <==> name in AfterWalk(m, f)
  {
    if Owner(name).Some? {
      OwnsItsFiles(Owner(name).value);
      SidecarsAreOwned(Owner(name).value, name);
    }
  }

  /** The two passes together are the walk. */
  lemma PassesCompose(m: Machine, f: Files)
    ensures AfterSecond(AfterFirst(m, f, f.Keys), AfterFirst(m, f, f.Keys).Keys) == AfterWalk(m, f)
  {
    var g := AfterFirst(m, f, f.Keys);
    forall name | name in f ensures name in AfterSecond(g, g.Keys) <==> name in AfterWalk(m, f) {
      if Owner(name) == Some(DASHBOARD) { DashboardAfterPasses(m, f, name); } else { SessionAfterPasses(m, f, name); }
    }
    assert forall name :: name in AfterSecond(g, g.Keys) ==> name in f;
  }

  /** What the orphan test of the second pass means for the original directory. */
  lemma OrphansAre(m: Machine, f: Files, s: string)
    requires s != ""
    ensures var g := AfterFirst(m, f, f.Keys);
            Orphan(g, s) <==>
              if s == DASHBOARD then DashboardIsOrphan(m, f) else Verdict(m, f, s) == Some(OrphanedSocket)
  {
    OwnsItsFiles(s);
  }

  // ----- one entry at a time ----------------------------------------------

  /** Seeing a name that is nobody's pid file drops nothing more. */
  lemma SeeOther(m: Machine, f: Files, seen: set<string>, name: string)
    requires !EndsWith(name, ".pid") || Stem(name, ".pid") == ""
    ensures AfterFirst(m, f, seen + {name}) == AfterFirst(m, f, seen)
  {
    forall other, s | Owner(other) == Some(s) && s != "" ensures PidFile(s) != name {
      StemOf(s, ".pid");
    }
  }

  /** Seeing the pid file of a live session, or of a dashboard that is not gone. */
  lemma SeeLive(m: Machine, f: Files, seen: set<string>, s: string)
    requires if s == DASHBOARD then !DashboardIsGone(m, f) else Live(m, f, s)
    ensures AfterFirst(m, f, seen + {PidFile(s)}) == AfterFirst(m, f, seen)
  {
    forall other, t | Owner(other) == Some(t) && PidFile(t) == PidFile(s) ensures t == s {
      StemOf(t, ".pid");
      StemOf(s, ".pid");
    }
  }

  /** Seeing the pid file of a dead ordinary session drops exactly its sidecars. */
  lemma SeeDead(m: Machine, f: Files, seen: set<string>, s: string)
    requires Ordinary(s) && PidFile(s) in f && !Live(m, f, s)
    ensures AfterFirst(m, f, seen + {PidFile(s)}) == AfterFirst(m, f, seen) - Sidecars(s)
  {
    forall name ensures name in Sidecars(s) <==> Owner(name) == Some(s) { SidecarsAreOwned(s, name); }
    forall other, t | Owner(other) == Some(t) && PidFile(t) == PidFile(s) ensures t == s {
      StemOf(t, ".pid");
      StemOf(s, ".pid");
    }
  }

  lemma SeeDeadDashboard(m: Machine, f: Files, seen: set<string>)
    requires DashboardIsGone(m, f)
    ensures AfterFirst(m, f, seen + {PidFile(DASHBOARD)}) == AfterFirst(m, f, seen) - {PidFile(DASHBOARD)}
  {
    OwnsItsFiles(DASHBOARD);
    forall other, t | Owner(other) == Some(t) && PidFile(t) == PidFile(DASHBOARD) ensures t == DASHBOARD {
      StemOf(t, ".pid");
      StemOf(DASHBOARD, ".pid");
    }
  }

  /** An unseen pid file, and its session's version, still stand in the directory. */
  lemma UnseenStands(m: Machine, f: Files, seen: set<string>, s: string)
    requires PidFile(s) in f && PidFile(s) !in seen
    ensures var g := AfterFirst(m, f, seen);
            && PidFile(s) in g && g[PidFile(s)] == f[PidFile(s)]
            && Version(g, s) == Version(f, s)
  {
    OwnsItsFiles(s);
  }

  lemma SeeSock(g: Files, seen: set<string>, s: string)
    ensures AfterSecond(g, seen + {SockFile(s)})
         == if Orphan(g, s) then AfterSecond(g, seen) - Sidecars(s) else AfterSecond(g, seen)
    ensures PidFile(s) in AfterSecond(g, seen) ==> PidFile(s) in g
    ensures PidFile(s) in g ==> PidFile(s) in AfterSecond(g, seen)
  {
    OwnsItsFiles(s);
    var g1, g2 := AfterSecond(g, seen), AfterSecond(g, seen + {SockFile(s)});
    var g3 := if Orphan(g, s) then g1 - Sidecars(s) else g1;
    forall name | name in g ensures name in g2 <==> name in g3 { SeeSockFor(g, seen, s, name); }
    assert g2.Keys == g3.Keys;
  }

  lemma SeeSockFor(g: Files, seen: set<string>, s: string, name: string)
    requires name in g
    ensures name in AfterSecond(g, seen + {SockFile(s)}) <==>
              name in AfterSecond(g, seen) && !(Orphan(g, s) && name in Sidecars(s))
  {
    SidecarsAreOwned(s, name);
    if Owner(name).Some? { SamePidFile(Owner(name).value, s); }
  }

  lemma SeeNoSock(g: Files, seen: set<string>, name: string)
    requires !EndsWith(name, ".sock") || Stem(name, ".sock") == ""
    ensures AfterSecond(g, seen + {name}) == AfterSecond(g, seen)
  {
    forall other, s | Owner(other) == Some(s) && s != "" ensures SockFile(s) != name {
      StemOf(s, ".sock");
    }
  }

  // ----- reports ----------------------------------------------------------

  /** Cleaned entries after the first pass has seen `seen`. */
  ghost predicate FirstCleaned(m: Machine, f: Files, seen: set<string>, cleaned: seq<CleanedSession>) {
    && (forall s, r :: Ordinary(s) ==>
          (CleanedSession(s, r) in cleaned <==> PidFile(s) in seen && PidFile(s) in f && Verdict(m, f, s) == Some(r)))
    && (CleanedSession(DASHBOARD, DashboardGone) in cleaned <==> PidFile(DASHBOARD) in seen && DashboardIsGone(m, f))
    && CleanedSession(DASHBOARD, OrphanedSocket) !in cleaned
    && CleanedOnce(cleaned) && CleanedNames(cleaned)
  }

  /** Cleaned entries after the second pass has seen `seen` of directory `g`. */
  ghost predicate SecondCleaned(m: Machine, f: Files, g: Files, seen: set<string>, cleaned: seq<CleanedSession>) {
    && (forall s, r :: Ordinary(s) ==>
          (CleanedSession(s, r) in cleaned <==>
             || (PidFile(s) in f && Verdict(m, f, s) == Some(r))
             || (r == OrphanedSocket && SockFile(s) in seen && Orphan(g, s))))
    && (CleanedSession(DASHBOARD, DashboardGone) in cleaned <==> DashboardIsGone(m, f))
    && (CleanedSession(DASHBOARD, OrphanedSocket) in cleaned <==> SockFile(DASHBOARD) in seen && Orphan(g, DASHBOARD))
    && CleanedOnce(cleaned) && CleanedNames(cleaned)
  }

  lemma SamePidFile(s: string, t: string)
    ensures PidFile(s) == PidFile(t) <==> s == t
    ensures SockFile(s) == SockFile(t) <==> s == t
  {
    StemOf(s, ".pid");
    StemOf(t, ".pid");
    StemOf(s, ".sock");
    StemOf(t, ".sock");
  }

  lemma DashboardName()
    ensures PidFile(DASHBOARD) == "dashboard.pid"
  {
  }

  class DaemonDir {
    var present: bool
    var files: Files

    constructor (present: bool, files: Files)
      ensures this.present == present && this.files == files
    {
      this.present, this.files := present, files;
    }

    /** cleanup_stale_files. */
    method CleanupStaleFiles(session: string)
      modifies this`files
      ensures files == old(files) - Sidecars(session)
    {
      files := files - {session + ".pid"};
      files := files - {session + ".version"};
      files := files - {session + ".stream"};
      files := files - {session + ".sock"};
    }

    /** The `.pid` entry of an ordinary session: clean it or report it. */
    method VisitPid(m: Machine, name: string, session: string, inv: Inventory, ghost f: Files, ghost seen: set<string>)
      returns (inv': Inventory)
      requires Ordinary(session) && name == PidFile(session) && name in f && name !in seen
      requires files == AfterFirst(m, f, seen)
      requires SessionsOf(m, f, seen, inv.sessions) && FirstCleaned(m, f, seen, inv.cleaned)
      modifies this`files
      ensures files == AfterFirst(m, f, seen + {name})
      ensures SessionsOf(m, f, seen + {name}, inv'.sessions) && FirstCleaned(m, f, seen + {name}, inv'.cleaned)
      ensures inv'.dashboard == inv.dashboard
    {
      UnseenStands(m, f, seen, session);
      forall t ensures PidFile(t) == name <==> t == session { SamePidFile(t, session); }
      var pid := if files[name].Some? then m.parsePid(Trim(files[name].value)) else None;
      if pid.None? || !m.alive(pid.value) {
        SeeDead(m, f, seen, session);
        CleanupStaleFiles(session);
        var reason := if pid.None? then UnreadablePidFile else ProcessGone;
        inv' := inv.(cleaned := inv.cleaned + [CleanedSession(session, reason)]);
      } else {
        SeeLive(m, f, seen, session);
        inv' := inv.(sessions := inv.sessions + [ActiveSession(session, pid.value, Version(files, session))]);
        assert inv'.sessions[|inv.sessions|] == EntryFor(m, f, session);
      }
    }

    method VisitDashboard(m: Machine, inv: Inventory, ghost f: Files, ghost seen: set<string>) returns (inv': Inventory)
      requires PidFile(DASHBOARD) in f && PidFile(DASHBOARD) !in seen
      requires files == AfterFirst(m, f, seen) && inv.dashboard.None?
      requires SessionsOf(m, f, seen, inv.sessions) && FirstCleaned(m, f, seen, inv.cleaned)
      modifies this`files
      ensures files == AfterFirst(m, f, seen + {PidFile(DASHBOARD)})
      ensures SessionsOf(m, f, seen + {PidFile(DASHBOARD)}, inv'.sessions)
      ensures FirstCleaned(m, f, seen + {PidFile(DASHBOARD)}, inv'.cleaned)
      ensures inv'.dashboard == DashboardOf(m, f)
    {
      inv' := inv;
      DashboardName();
      UnseenStands(m, f, seen, DASHBOARD);
      forall t ensures PidFile(t) == PidFile(DASHBOARD) <==> t == DASHBOARD { SamePidFile(t, DASHBOARD); }
      var name := "dashboard.pid";
      var pid := if files[name].Some? then m.parsePid(Trim(files[name].value)) else None;
      if pid.Some? {
        var alive := m.alive(pid.value);
        inv' := inv'.(dashboard := Some(DashboardInfo(pid.value, alive)));
        if !alive {
          SeeDeadDashboard(m, f, seen);
          files := files - {name};
          inv' := inv'.(cleaned := inv'.cleaned + [CleanedSession(DASHBOARD, DashboardGone)]);
        } else {
          SeeLive(m, f, seen, DASHBOARD);
        }
      } else {
        SeeLive(m, f, seen, DASHBOARD);
      }
    }

    /** The first loop of walk_daemons, over the entries in any order. */
    method FirstPass(m: Machine) returns (inv: Inventory)
      modifies this`files
      ensures files == AfterFirst(m, old(files), old(files).Keys)
      ensures SessionsOf(m, old(files), old(files).Keys, inv.sessions)
      ensures FirstCleaned(m, old(files), old(files).Keys, inv.cleaned)
      ensures inv.dashboard == DashboardOf(m, old(files))
    {
      inv := EMPTY;
      ghost var f := files;
      var entries := files.Keys;
      ghost var seen: set<string> := {};
      assert AfterFirst(m, f, {}) == f;
      while entries != {}
        invariant entries !! seen && entries + seen == f.Keys
        invariant files == AfterFirst(m, f, seen)
        invariant SessionsOf(m, f, seen, inv.sessions) && FirstCleaned(m, f, seen, inv.cleaned)
        invariant inv.dashboard == if PidFile(DASHBOARD) in seen then DashboardOf(m, f) else None
        decreases entries
      {
        var name :| name in entries;
        entries := entries - {name};
        DashboardName();
        if name == "dashboard.pid" {
          inv := VisitDashboard(m, inv, f, seen);
        } else if EndsWith(name, ".pid") && Stem(name, ".pid") != "" {
          StemBack(name, ".pid");
          inv := VisitPid(m, name, Stem(name, ".pid"), inv, f, seen);
        } else {
          SeeOther(m, f, seen, name);
          forall s | s != "" ensures PidFile(s) != name { StemOf(s, ".pid"); }
        }
        seen := seen + {name};
      }
      assert seen == f.Keys;
    }

    /** A `.sock` entry: its session is cleaned if it has no `.pid` left. */
    method VisitSock(
      m: Machine, name: string, session: string, inv: Inventory, ghost f: Files, ghost g: Files,
      ghost seen: set<string>)
      returns (inv': Inventory)
      requires session != "" && name == SockFile(session) && name in g && name !in seen
      requires g == AfterFirst(m, f, f.Keys) && files == AfterSecond(g, seen)
      requires SecondCleaned(m, f, g, seen, inv.cleaned)
      modifies this`files
      ensures files == AfterSecond(g, seen + {name})
      ensures SecondCleaned(m, f, g, seen + {name}, inv'.cleaned)
      ensures inv'.sessions == inv.sessions && inv'.dashboard == inv.dashboard
    {
      inv' := inv;
      SeeSock(g, seen, session);
      forall t ensures SockFile(t) == name <==> t == session { SamePidFile(t, session); }
      if session + ".pid" !in files {
        CleanupStaleFiles(session);
        OrphanIsNew(m, f, g, seen, session, inv.cleaned);
        inv' := inv.(cleaned := inv.cleaned + [CleanedSession(session, OrphanedSocket)]);
      }
    }

    /** The second loop of walk_daemons: sockets without a pid file. */
    method SecondPass(m: Machine, inv: Inventory, ghost f: Files) returns (inv': Inventory)
      requires files == AfterFirst(m, f, f.Keys) && FirstCleaned(m, f, f.Keys, inv.cleaned)
      modifies this`files
      ensures files == AfterSecond(old(files), old(files).Keys)
      ensures SecondCleaned(m, f, old(files), old(files).Keys, inv'.cleaned)
      ensures inv'.sessions == inv.sessions && inv'.dashboard == inv.dashboard
    {
      inv' := inv;
      ghost var g := files;
      var entries := files.Keys;
      ghost var seen: set<string> := {};
      assert AfterSecond(g, {}) == g;
      while entries != {}
        invariant entries !! seen && entries + seen == g.Keys
        invariant files == AfterSecond(g, seen)
        invariant SecondCleaned(m, f, g, seen, inv'.cleaned)
        invariant inv'.sessions == inv.sessions && inv'.dashboard == inv.dashboard
        decreases entries
      {
        var name :| name in entries;
        entries := entries - {name};
        if EndsWith(name, ".sock") && Stem(name, ".sock") != "" {
          StemBack(name, ".sock");
          inv' := VisitSock(m, name, Stem(name, ".sock"), inv', f, g, seen);
        } else {
          SeeNoSock(g, seen, name);
          forall s | s != "" ensures SockFile(s) != name { StemOf(s, ".sock"); }
        }
        seen := seen + {name};
      }
      assert seen == g.Keys;
    }

    /** walk_daemons. */
    method WalkDaemons(m: Machine) returns (inv: Inventory)
      modifies this`files
      ensures !present ==> inv == EMPTY && files == old(files)
      ensures present ==> files == AfterWalk(m, old(files)) && Reports(m, old(files), inv)
    {
      if !present {
        return EMPTY;
      }
      ghost var f := files;
      inv := FirstPass(m);
      ghost var g := files;
      inv := SecondPass(m, inv, f);
      PassesCompose(m, f);
      OrphansAre(m, f, DASHBOARD);
      forall s | s != ""
        ensures Orphan(g, s) <==>
          if s == DASHBOARD then DashboardIsOrphan(m, f) else Verdict(m, f, s) == Some(OrphanedSocket)
      {
        OrphansAre(m, f, s);
      }
    }
  }

  /** A session cleaned as an orphan has not been cleaned for another reason. */
  lemma OrphanIsNew(m: Machine, f: Files, g: Files, seen: set<string>, s: string, cleaned: seq<CleanedSession>)
    requires s != "" && Orphan(g, s) && g == AfterFirst(m, f, f.Keys) && SockFile(s) !in seen
    requires SecondCleaned(m, f, g, seen, cleaned)
    ensures Ordinary(s) ==> forall i :: 0 <= i < |cleaned| ==> cleaned[i].name != s
    ensures PidFile(s) in f ==> s == DASHBOARD
  {
    OrphansAre(m, f, s);
    OwnsItsFiles(s);
    if Ordinary(s) {
      forall i | 0 <= i < |cleaned| ensures cleaned[i].name != s {
        assert cleaned[i] == CleanedSession(cleaned[i].name, cleaned[i].reason);
        assert cleaned[i] in cleaned;
      }
    }
  }
}
