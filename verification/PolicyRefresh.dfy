/** How one policy reaches every replica: publishing and refreshing over a shared, versioned source.

    A publish stores its document and then installs it on its own replica, without the lock; a refresh
    holds its replica's lock from the moment it asks the source until it installs what it got. Anything
    else may happen in between. */
module PolicyRefresh {
  import opened Domain
  import opened Policy
  import opened PolicyDocument

  /** What a replica has in force. */
  datatype InForce = Nothing | Version(compiled: Compiled, doc: Document, version: nat)

  /** The refresh that holds the replica's lock. */
  datatype Refresher = Idle | Asking(newerThan: InForce) | Got(version: nat, doc: Document)

  datatype Replica = Replica(inForce: InForce, refresher: Refresher)

  datatype Publisher = Storing(replica: string, doc: Document) | Stored(replica: string, doc: Document, version: nat)

  /** `history[v - 1]` is version v of the source. */
  datatype Cluster = Cluster(history: seq<Document>, replicas: map<string, Replica>, publishers: map<string, Publisher>)

  datatype Action =
    | Join(r: string)
    | BeginPublish(p: string, r: string, doc: Document)  // compiled, about to be stored
    | Store(p: string)
    | Install(p: string)
    | Edit(doc: Document)                                // somebody changes the source by hand
    | BeginRefresh(r: string)                            // takes the lock, asks the source
    | Load(r: string)
    | LoadFails(r: string)
    | Apply(r: string)                                   // compiles and installs what it got

  predicate Enabled(s: Cluster, a: Action) {
    match a
    case Join(r) => r !in s.replicas
    case BeginPublish(p, r, doc) => p !in s.publishers && r in s.replicas && GoodDocument(doc)
    case Store(p) => p in s.publishers && s.publishers[p].Storing?
    case Install(p) => p in s.publishers && s.publishers[p].Stored? && s.publishers[p].replica in s.replicas
                       && GoodDocument(s.publishers[p].doc)
    case Edit(doc) => true
    case BeginRefresh(r) => r in s.replicas && s.replicas[r].refresher.Idle?
    case Load(r) => r in s.replicas && s.replicas[r].refresher.Asking?
    case LoadFails(r) => r in s.replicas && s.replicas[r].refresher.Asking?
    case Apply(r) => r in s.replicas && s.replicas[r].refresher.Got?
  }

  function At(s: Cluster, r: string, replica: Replica): Cluster {
    s.(replicas := s.replicas[r := replica])
  }

  function Latest(s: Cluster): nat {
    |s.history|
  }

  function Next(s: Cluster, a: Action): Cluster
    requires Enabled(s, a)
  {
    match a
    case Join(r) => At(s, r, Replica(Nothing, Idle))
    case BeginPublish(p, r, doc) => s.(publishers := s.publishers[p := Storing(r, doc)])
    case Store(p) =>
      var b := s.publishers[p];
      s.(history := s.history + [b.doc],
         publishers := s.publishers[p := Stored(b.replica, b.doc, |s.history| + 1)])
    case Install(p) =>
      var b := s.publishers[p];
      At(s, b.replica, s.replicas[b.replica].(inForce := Version(CompilePolicy(b.doc).value, b.doc, b.version)))
        .(publishers := s.publishers - {p})
    case Edit(doc) => s.(history := s.history + [doc])
    case BeginRefresh(r) => At(s, r, s.replicas[r].(refresher := Asking(s.replicas[r].inForce)))
    case Load(r) =>
      var seen := s.replicas[r].refresher.newerThan;
      if Latest(s) == 0 || (seen.Version? && seen.version == Latest(s))
      then At(s, r, s.replicas[r].(refresher := Idle))
      else At(s, r, s.replicas[r].(refresher := Got(Latest(s), s.history[Latest(s) - 1])))
    case LoadFails(r) => At(s, r, s.replicas[r].(refresher := Idle))
    case Apply(r) =>
      var got := s.replicas[r].refresher;
      if GoodDocument(got.doc)
      then At(s, r, Replica(Version(CompilePolicy(got.doc).value, got.doc, got.version), Idle))
      else At(s, r, s.replicas[r].(refresher := Idle))
  }

  predicate Reaches(s: Cluster, run: seq<Action>, end: Cluster)
    decreases |run|
  {
    if run == [] then s == end
    else Enabled(s, run[0]) && Reaches(Next(s, run[0]), run[1..], end)
  }

  const START := Cluster([], map[], map[])

  // ---- what is in force was published ----------------------------------------------------------

  predicate IsVersion(s: Cluster, version: nat, doc: Document) {
    1 <= version <= |s.history| && s.history[version - 1] == doc
  }

  predicate RealVersion(s: Cluster, f: InForce) {
    f.Version? ==> IsVersion(s, f.version, f.doc) && CompilePolicy(f.doc) == Some(f.compiled)
  }

  ghost predicate ReplicaOk(s: Cluster, x: Replica) {
    && RealVersion(s, x.inForce)
    && (x.refresher.Got? ==> IsVersion(s, x.refresher.version, x.refresher.doc))
    && (x.refresher.Asking? ==> RealVersion(s, x.refresher.newerThan))
  }

  ghost predicate Inv(s: Cluster) {
    && (forall r :: r in s.replicas ==> ReplicaOk(s, s.replicas[r]))
    && (forall p :: p in s.publishers && s.publishers[p].Stored? ==>
          IsVersion(s, s.publishers[p].version, s.publishers[p].doc))
  }

  lemma ReplicaKept(s: Cluster, n: Cluster, x: Replica)
    requires s.history <= n.history && ReplicaOk(s, x)
    ensures ReplicaOk(n, x)
  {
  }

  /** The replica an action moves, if any. */
  function Moved(s: Cluster, a: Action): Option<string>
    requires Enabled(s, a)
  {
    match a
    case Join(r) => Some(r)
    case Install(p) => Some(s.publishers[p].replica)
    case BeginRefresh(r) => Some(r)
    case Load(r) => Some(r)
    case LoadFails(r) => Some(r)
    case Apply(r) => Some(r)
    case _ => None
  }

  lemma MovedReplica(s: Cluster, a: Action)
    requires Inv(s) && Enabled(s, a) && Moved(s, a).Some?
    ensures var r := Moved(s, a).value; r in Next(s, a).replicas && ReplicaOk(s, Next(s, a).replicas[r])
  {
    if !a.Join? {
      assert ReplicaOk(s, s.replicas[Moved(s, a).value]);
    }
  }

  lemma OthersStay(s: Cluster, a: Action)
    requires Enabled(s, a)
    ensures s.history <= Next(s, a).history
    ensures forall r :: r in Next(s, a).replicas && Some(r) != Moved(s, a) ==>
              r in s.replicas && Next(s, a).replicas[r] == s.replicas[r]
  {
  }

  lemma PublishersOk(s: Cluster, a: Action, p: string)
    requires Inv(s) && Enabled(s, a) && p in Next(s, a).publishers && Next(s, a).publishers[p].Stored?
    ensures IsVersion(Next(s, a), Next(s, a).publishers[p].version, Next(s, a).publishers[p].doc)
  {
  }

  lemma StepKeepsInv(s: Cluster, a: Action)
    requires Inv(s) && Enabled(s, a)
    ensures Inv(Next(s, a))
  {
    var n := Next(s, a);
    OthersStay(s, a);
    forall r | r in n.replicas ensures ReplicaOk(n, n.replicas[r]) {
      if Some(r) == Moved(s, a) {
        MovedReplica(s, a);
      } else {
        assert ReplicaOk(s, s.replicas[r]);
      }
      ReplicaKept(s, n, n.replicas[r]);
    }
    forall p | p in n.publishers && n.publishers[p].Stored?
      ensures IsVersion(n, n.publishers[p].version, n.publishers[p].doc)
    {
      PublishersOk(s, a, p);
    }
  }

  lemma {:induction false} RunKeepsInv(s: Cluster, run: seq<Action>, end: Cluster)
    requires Inv(s) && Reaches(s, run, end)
    ensures Inv(end)
    decreases |run|
  {
    if run != [] {
      StepKeepsInv(s, run[0]);
      RunKeepsInv(Next(s, run[0]), run[1..], end);
    }
  }

  /** In every run, a replica has nothing in force or a version the source really held, compiled from
      exactly that document. */
  lemma InForceWasPublished(run: seq<Action>, s: Cluster, r: string)
    requires Reaches(START, run, s) && r in s.replicas && s.replicas[r].inForce.Version?
    ensures var f := s.replicas[r].inForce;
            && 1 <= f.version <= |s.history| && s.history[f.version - 1] == f.doc
            && GoodDocument(f.doc) && f.compiled == CompilePolicy(f.doc).value
  {
    RunKeepsInv(START, run, s);
    assert ReplicaOk(s, s.replicas[r]);
  }

  // ---- convergence -----------------------------------------------------------------------------

  /** No publish in flight, and the latest document compiles. */
  predicate Quiet(s: Cluster) {
    s.publishers == map[] && Latest(s) >= 1 && GoodDocument(s.history[Latest(s) - 1])
  }

  predicate Refreshes(a: Action) {
    a.Join? || a.BeginRefresh? || a.Load? || a.LoadFails? || a.Apply?
  }

  predicate QuietRun(s: Cluster, run: seq<Action>)
    decreases |run|
  {
    run == [] || (Refreshes(run[0]) && Enabled(s, run[0]) && QuietRun(Next(s, run[0]), run[1..]))
  }

  predicate UpToDate(s: Cluster, f: InForce) {
    f.Version? && f.version == Latest(s)
  }

  /** A refresh begun since the source went quiet is on its way. */
  ghost predicate Fresh(s: Cluster, x: Replica) {
    || (x.refresher.Asking? && x.refresher.newerThan == x.inForce)
    || (x.refresher.Got? && x.refresher.version == Latest(s))
  }

  /** The latest version is in force, and nothing under way replaces it by another. */
  ghost predicate Converged(s: Cluster, x: Replica) {
    && UpToDate(s, x.inForce)
    && (x.refresher.Asking? ==> x.refresher.newerThan == x.inForce)
    && (x.refresher.Got? ==> x.refresher.version == Latest(s))
  }

  lemma QuietStays(s: Cluster, a: Action)
    requires Quiet(s) && Refreshes(a) && Enabled(s, a)
    ensures Quiet(Next(s, a)) && Next(s, a).history == s.history
  {
  }

  lemma ConvergedStep(s: Cluster, a: Action, r: string)
    requires Refreshes(a) && Enabled(s, a) && r in s.replicas && Converged(s, s.replicas[r])
    ensures Converged(Next(s, a), Next(s, a).replicas[r])
  {
  }

  lemma FreshStep(s: Cluster, a: Action, r: string)
    requires Quiet(s) && Refreshes(a) && Enabled(s, a) && r in s.replicas && a != LoadFails(r)
    requires ReplicaOk(s, s.replicas[r]) && Fresh(s, s.replicas[r])
    ensures Fresh(Next(s, a), Next(s, a).replicas[r]) || Converged(Next(s, a), Next(s, a).replicas[r])
  {
  }

  lemma QuietStep(s: Cluster, a: Action, r: string)
    requires Inv(s) && Quiet(s) && Refreshes(a) && Enabled(s, a) && r in s.replicas
    ensures Inv(Next(s, a)) && Quiet(Next(s, a)) && Next(s, a).history == s.history && r in Next(s, a).replicas
    ensures Converged(s, s.replicas[r]) ==> Converged(Next(s, a), Next(s, a).replicas[r])
    ensures Fresh(s, s.replicas[r]) && a != LoadFails(r) ==>
              Fresh(Next(s, a), Next(s, a).replicas[r]) || Converged(Next(s, a), Next(s, a).replicas[r])
  {
    StepKeepsInv(s, a);
    QuietStays(s, a);
    if Converged(s, s.replicas[r]) {
      ConvergedStep(s, a, r);
    }
    if Fresh(s, s.replicas[r]) && a != LoadFails(r) {
      FreshStep(s, a, r);
    }
  }

  predicate NeverFails(run: seq<Action>, r: string) {
    forall i :: 0 <= i < |run| ==> run[i] != LoadFails(r)
  }

  lemma {:induction false} ConvergedStays(s: Cluster, run: seq<Action>, end: Cluster, r: string)
    requires Inv(s) && Quiet(s) && QuietRun(s, run) && Reaches(s, run, end)
    requires r in s.replicas && Converged(s, s.replicas[r])
    ensures end.history == s.history && r in end.replicas && Converged(end, end.replicas[r])
    decreases |run|
  {
    if run != [] {
      QuietStep(s, run[0], r);
      ConvergedStays(Next(s, run[0]), run[1..], end, r);
    }
  }

  lemma {:induction false} FreshConverges(s: Cluster, run: seq<Action>, end: Cluster, r: string)
    requires Inv(s) && Quiet(s) && QuietRun(s, run) && Reaches(s, run, end) && NeverFails(run, r)
    requires r in s.replicas && Fresh(s, s.replicas[r])
    ensures end.history == s.history && r in end.replicas
    ensures Fresh(end, end.replicas[r]) || Converged(end, end.replicas[r])
    decreases |run|
  {
    if run != [] {
      var n := Next(s, run[0]);
      QuietStep(s, run[0], r);
      assert run[0] != LoadFails(r);
      if Converged(n, n.replicas[r]) {
        ConvergedStays(n, run[1..], end, r);
      } else {
        forall i | 0 <= i < |run[1..]| ensures run[1..][i] != LoadFails(r) {
          assert run[1..][i] == run[i + 1];
        }
        FreshConverges(n, run[1..], end, r);
      }
    }
  }

  /** Once publishing has stopped on a document that compiles, a refresh begun afterwards and answered by
      the source leaves the latest version in force, and no later refresh, answered or not, changes that. */
  lemma RefreshConverges(before: seq<Action>, s: Cluster, r: string, run: seq<Action>, mid: Cluster,
                         later: seq<Action>, end: Cluster)
    requires Reaches(START, before, s) && Quiet(s)
    requires Enabled(s, BeginRefresh(r)) && QuietRun(Next(s, BeginRefresh(r)), run)
    requires Reaches(Next(s, BeginRefresh(r)), run, mid) && NeverFails(run, r)
    requires r in mid.replicas ==> mid.replicas[r].refresher.Idle?
    requires QuietRun(mid, later) && Reaches(mid, later, end)
    ensures r in mid.replicas && UpToDate(mid, mid.replicas[r].inForce)
    ensures r in end.replicas && end.history == s.history && UpToDate(end, end.replicas[r].inForce)
    ensures end.replicas[r].inForce.doc == s.history[|s.history| - 1]
  {
    RunKeepsInv(START, before, s);
    var n := Next(s, BeginRefresh(r));
    StepKeepsInv(s, BeginRefresh(r));
    FreshConverges(n, run, mid, r);
    RunKeepsInv(n, run, mid);
    QuietRunIsQuiet(n, run, mid);
    ConvergedStays(mid, later, end, r);
    RunKeepsInv(mid, later, end);
    assert ReplicaOk(end, end.replicas[r]);
  }

  lemma {:induction false} QuietRunIsQuiet(s: Cluster, run: seq<Action>, end: Cluster)
    requires Quiet(s) && QuietRun(s, run) && Reaches(s, run, end)
    ensures Quiet(end)
    decreases |run|
  {
    if run != [] {
      QuietRunIsQuiet(Next(s, run[0]), run[1..], end);
    }
  }

  // ---- when versions go back -------------------------------------------------------------------

  /** The version in force on r falls. */
  predicate Drops(s: Cluster, a: Action, r: string)
    requires Enabled(s, a)
  {
    var n := Next(s, a);
    && r in s.replicas && s.replicas[r].inForce.Version?
    && r in n.replicas && n.replicas[r].inForce.Version?
    && n.replicas[r].inForce.version < s.replicas[r].inForce.version
  }

  predicate InForceOver(s: Cluster, r: string, v: nat) {
    r in s.replicas && s.replicas[r].inForce.Version? && s.replicas[r].inForce.version > v
  }

  /** Publish p is stored and about to be installed on r. */
  predicate Installable(s: Cluster, r: string, p: string) {
    Enabled(s, Install(p)) && s.publishers[p].replica == r
  }

  /** The refresh under way on r is about to install what it got. */
  predicate Applicable(s: Cluster, r: string) {
    Enabled(s, Apply(r)) && GoodDocument(s.replicas[r].refresher.doc)
  }

  /** One step takes a replica back exactly when it installs an older version than the one in force: that
      of a publish, or that of a refresh. */
  lemma StepGoesBackIff(s: Cluster, a: Action, r: string)
    requires Enabled(s, a)
    ensures Drops(s, a, r) <==>
              || (a.Install? && Installable(s, r, a.p) && InForceOver(s, r, s.publishers[a.p].version))
              || (a == Apply(r) && Applicable(s, r) && InForceOver(s, r, s.replicas[r].refresher.version))
  {
  }

  /** What is installed on r by this action, if anything, is the source's latest version: nothing was stored
      between storing it, or getting it, and installing it. */
  predicate Punctual(s: Cluster, a: Action, r: string) {
    && (a.Install? && Installable(s, r, a.p) ==> s.publishers[a.p].version == Latest(s))
    && (a == Apply(r) && Applicable(s, r) ==> s.replicas[r].refresher.version == Latest(s))
  }

  predicate PunctualRun(s: Cluster, run: seq<Action>, r: string)
    decreases |run|
  {
    run == [] || (Punctual(s, run[0], r) && Enabled(s, run[0]) && PunctualRun(Next(s, run[0]), run[1..], r))
  }

  /** The version in force, 0 for none. */
  function VersionOf(s: Cluster, r: string): nat
    requires r in s.replicas
  {
    if s.replicas[r].inForce.Version? then s.replicas[r].inForce.version else 0
  }

  lemma PunctualStep(s: Cluster, a: Action, r: string)
    requires Inv(s) && Enabled(s, a) && Punctual(s, a, r) && r in s.replicas
    ensures r in Next(s, a).replicas && VersionOf(Next(s, a), r) >= VersionOf(s, r)
  {
    assert ReplicaOk(s, s.replicas[r]);
  }

  /** Over any run, stores and edits included, whose installs on r do not overlap a later store, the versions
      in force on r never fall. */
  lemma {:induction false} PunctualRunsNeverGoBack(s: Cluster, run: seq<Action>, end: Cluster, r: string)
    requires Inv(s) && Reaches(s, run, end) && PunctualRun(s, run, r) && r in s.replicas
    ensures r in end.replicas && VersionOf(end, r) >= VersionOf(s, r)
    ensures !GoesBack(s, run, r)
    decreases |run|
  {
    if run != [] {
      StepKeepsInv(s, run[0]);
      PunctualStep(s, run[0], r);
      PunctualRunsNeverGoBack(Next(s, run[0]), run[1..], end, r);
    }
  }

  /** Somewhere along the run the version in force on r falls. */
  predicate GoesBack(s: Cluster, run: seq<Action>, r: string)
    decreases |run|
  {
    run != [] && Enabled(s, run[0]) && (Drops(s, run[0], r) || GoesBack(Next(s, run[0]), run[1..], r))
  }

  predicate StoresNothing(a: Action) {
    !a.Store? && !a.Edit?
  }

  /** It can happen from here without the source changing again. */
  ghost predicate CanGoBack(s: Cluster, r: string) {
    exists run :: GoesBack(s, run, r) && forall i :: 0 <= i < |run| ==> StoresNothing(run[i])
  }

  /** A version newer than v is in force on r, or about to be installed by a publish. */
  ghost predicate Overtakes(s: Cluster, r: string, v: nat) {
    InForceOver(s, r, v) || exists q :: Installable(s, r, q) && s.publishers[q].version > v
  }

  /** A refresh brings a version newer than v, or can. */
  predicate Outdates(s: Cluster, r: string, v: nat) {
    || (Applicable(s, r) && s.replicas[r].refresher.version > v)
    || (Latest(s) > v && GoodDocument(s.history[Latest(s) - 1]))
  }

  /** Something about to be installed on r has been, or can be, overtaken: a publish by anything newer, a
      refresh by a newer version in force or a newer publish (it holds the lock against other refreshes). */
  ghost predicate Overtaken(s: Cluster, r: string) {
    || (exists p :: Installable(s, r, p)
                    && (Overtakes(s, r, s.publishers[p].version) || Outdates(s, r, s.publishers[p].version)))
    || (Applicable(s, r) && Overtakes(s, r, s.replicas[r].refresher.version))
  }

  // ---- nothing overtaken, nothing goes back ----------------------------------------------------

  lemma StillInstallable(s: Cluster, a: Action, r: string, p: string)
    requires Enabled(s, a) && StoresNothing(a) && r in s.replicas && Installable(Next(s, a), r, p)
    ensures Installable(s, r, p) && Next(s, a).publishers[p] == s.publishers[p]
  {
  }

  lemma OvertakesBefore(s: Cluster, a: Action, r: string, v: nat)
    requires Enabled(s, a) && StoresNothing(a) && r in s.replicas && Overtakes(Next(s, a), r, v)
    ensures Overtakes(s, r, v) || (a == Apply(r) && Applicable(s, r) && s.replicas[r].refresher.version > v)
  {
    var n := Next(s, a);
    if InForceOver(n, r, v) {
      if a.Install? && s.publishers[a.p].replica == r {
        assert Installable(s, r, a.p);
      }
    } else {
      var q :| Installable(n, r, q) && n.publishers[q].version > v;
      StillInstallable(s, a, r, q);
    }
  }

  lemma OutdatesBefore(s: Cluster, a: Action, r: string, v: nat)
    requires Enabled(s, a) && StoresNothing(a) && r in s.replicas && Outdates(Next(s, a), r, v)
    ensures Outdates(s, r, v)
  {
  }

  lemma NothingOverLatest(s: Cluster, r: string, v: nat)
    requires Inv(s) && r in s.replicas && v >= Latest(s)
    ensures !Overtakes(s, r, v)
  {
    assert ReplicaOk(s, s.replicas[r]);
  }

  lemma PublishesOvertakenBefore(s: Cluster, a: Action, r: string, p: string)
    requires Enabled(s, a) && StoresNothing(a) && r in s.replicas && Installable(Next(s, a), r, p)
    requires var n := Next(s, a); Overtakes(n, r, n.publishers[p].version) || Outdates(n, r, n.publishers[p].version)
    ensures Overtaken(s, r)
  {
    var n := Next(s, a);
    StillInstallable(s, a, r, p);
    if Overtakes(n, r, n.publishers[p].version) {
      OvertakesBefore(s, a, r, s.publishers[p].version);
    } else {
      OutdatesBefore(s, a, r, s.publishers[p].version);
    }
  }

  lemma RefreshOvertakenBefore(s: Cluster, a: Action, r: string)
    requires Inv(s) && r in s.replicas && Enabled(s, a) && StoresNothing(a)
    requires Applicable(Next(s, a), r) && Overtakes(Next(s, a), r, Next(s, a).replicas[r].refresher.version)
    ensures Overtaken(s, r)
  {
    var v := Next(s, a).replicas[r].refresher.version;
    OvertakesBefore(s, a, r, v);
    if a == Load(r) {
      NothingOverLatest(s, r, v);
    }
  }

  lemma CalmStays(s: Cluster, a: Action, r: string)
    requires Inv(s) && r in s.replicas && Enabled(s, a) && StoresNothing(a) && Overtaken(Next(s, a), r)
    ensures Overtaken(s, r)
  {
    var n := Next(s, a);
    if p :| Installable(n, r, p)
            && (Overtakes(n, r, n.publishers[p].version) || Outdates(n, r, n.publishers[p].version)) {
      PublishesOvertakenBefore(s, a, r, p);
    } else {
      RefreshOvertakenBefore(s, a, r);
    }
  }

  lemma {:induction false} CalmNeverGoesBack(s: Cluster, run: seq<Action>, r: string)
    requires Inv(s) && r in s.replicas && !Overtaken(s, r) && forall i :: 0 <= i < |run| ==> StoresNothing(run[i])
    ensures !GoesBack(s, run, r)
    decreases |run|
  {
    if run != [] && Enabled(s, run[0]) {
      StepGoesBackIff(s, run[0], r);
      StepKeepsInv(s, run[0]);
      if Overtaken(Next(s, run[0]), r) {
        CalmStays(s, run[0], r);
      }
      CalmNeverGoesBack(Next(s, run[0]), run[1..], r);
    }
  }

  // ---- something overtaken goes back -----------------------------------------------------------

  lemma Lead(s: Cluster, a: Action, r: string)
    requires Enabled(s, a) && StoresNothing(a) && (Drops(s, a, r) || CanGoBack(Next(s, a), r))
    ensures CanGoBack(s, r)
  {
    var rest: seq<Action> := [];
    if !Drops(s, a, r) {
      rest :| GoesBack(Next(s, a), rest, r) && forall i :: 0 <= i < |rest| ==> StoresNothing(rest[i]);
    }
    var run := [a] + rest;
    assert run[1..] == rest;
    assert GoesBack(s, run, r);
  }

  lemma InstallGoesBack(s: Cluster, r: string, p: string)
    requires Installable(s, r, p) && InForceOver(s, r, s.publishers[p].version)
    ensures CanGoBack(s, r)
  {
    StepGoesBackIff(s, Install(p), r);
    Lead(s, Install(p), r);
  }

  /** With no refresh under way, one more brings the latest version before p is installed. */
  lemma IdleGoesBack(s: Cluster, r: string, p: string)
    requires Installable(s, r, p) && s.replicas[r].refresher.Idle?
    requires Latest(s) > s.publishers[p].version && GoodDocument(s.history[Latest(s) - 1])
    ensures CanGoBack(s, r)
  {
    if InForceOver(s, r, s.publishers[p].version) {
      InstallGoesBack(s, r, p);
    } else {
      var asked := Next(s, BeginRefresh(r));
      var got := Next(asked, Load(r));
      InstallGoesBack(Next(got, Apply(r)), r, p);
      Lead(got, Apply(r), r);
      Lead(asked, Load(r), r);
      Lead(s, BeginRefresh(r), r);
    }
  }

  lemma RefreshedGoesBack(s: Cluster, r: string, p: string)
    requires Installable(s, r, p) && Outdates(s, r, s.publishers[p].version)
    ensures CanGoBack(s, r)
  {
    if s.replicas[r].refresher.Got? {
      var n := Next(s, Apply(r));
      if InForceOver(n, r, s.publishers[p].version) {
        InstallGoesBack(n, r, p);
      } else {
        IdleGoesBack(n, r, p);
      }
      Lead(s, Apply(r), r);
    } else if s.replicas[r].refresher.Asking? {
      IdleGoesBack(Next(s, LoadFails(r)), r, p);
      Lead(s, LoadFails(r), r);
    } else {
      IdleGoesBack(s, r, p);
    }
  }

  lemma OvertakenGoesBack(s: Cluster, r: string)
    requires r in s.replicas && Overtaken(s, r)
    ensures CanGoBack(s, r)
  {
    if p :| Installable(s, r, p)
            && (Overtakes(s, r, s.publishers[p].version) || Outdates(s, r, s.publishers[p].version)) {
      if InForceOver(s, r, s.publishers[p].version) {
        InstallGoesBack(s, r, p);
      } else if q :| Installable(s, r, q) && s.publishers[q].version > s.publishers[p].version {
        InstallGoesBack(Next(s, Install(q)), r, p);
        Lead(s, Install(q), r);
      } else {
        RefreshedGoesBack(s, r, p);
      }
    } else {
      var v := s.replicas[r].refresher.version;
      StepGoesBackIff(s, Apply(r), r);
      if InForceOver(s, r, v) {
        Lead(s, Apply(r), r);
      } else {
        var q :| Installable(s, r, q) && s.publishers[q].version > v;
        var n := Next(s, Install(q));
        StepGoesBackIff(n, Apply(r), r);
        Lead(n, Apply(r), r);
        Lead(s, Install(q), r);
      }
    }
  }

  /** In every run, a replica can go back without the source changing again if and only if something about
      to be installed on it is overtaken. */
  lemma GoesBackIffOvertaken(before: seq<Action>, s: Cluster, r: string)
    requires Reaches(START, before, s) && r in s.replicas
    ensures CanGoBack(s, r) <==> Overtaken(s, r)
  {
    RunKeepsInv(START, before, s);
    if CanGoBack(s, r) && !Overtaken(s, r) {
      var run :| GoesBack(s, run, r) && forall i :: 0 <= i < |run| ==> StoresNothing(run[i]);
      CalmNeverGoesBack(s, run, r);
      assert false;
    }
    if Overtaken(s, r) {
      OvertakenGoesBack(s, r);
    }
  }

  // ---- it happens ------------------------------------------------------------------------------

  lemma {:induction false} OneMore(s: Cluster, run: seq<Action>, mid: Cluster, a: Action)
    requires Reaches(s, run, mid) && Enabled(mid, a)
    ensures Reaches(s, run + [a], Next(mid, a))
    decreases |run|
  {
    if run == [] {
      assert (run + [a])[1..] == [];
    } else {
      assert (run + [a])[1..] == run[1..] + [a];
      OneMore(Next(s, run[0]), run[1..], mid, a);
    }
  }

  /** One replica, and a publish of d stored as version 1 and not yet installed. */
  function StoredOnce(r: string, d: Document): Cluster {
    Cluster([d], map[r := Replica(Nothing, Idle)], map["p" := Stored(r, d, 1)])
  }

  lemma StoredOnceIsReached(r: string, d: Document) returns (run: seq<Action>)
    requires GoodDocument(d)
    ensures Reaches(START, run, StoredOnce(r, d))
  {
    var s0 := Next(START, Join(r));
    var s1 := Next(s0, BeginPublish("p", r, d));
    assert Reaches(START, [], START);
    OneMore(START, [], START, Join(r));
    OneMore(START, [] + [Join(r)], s0, BeginPublish("p", r, d));
    OneMore(START, [] + [Join(r)] + [BeginPublish("p", r, d)], s1, Store("p"));
    run := [] + [Join(r)] + [BeginPublish("p", r, d)] + [Store("p")];
    assert Next(s1, Store("p")) == StoredOnce(r, d);
  }

  /** Once more, with a second publish stored as version 2, and the replica's refresh where it is. */
  function StoredTwice(r: string, d: Document, refresher: Refresher): Cluster {
    Cluster([d, d], map[r := Replica(Nothing, refresher)], map["p" := Stored(r, d, 1), "q" := Stored(r, d, 2)])
  }

  lemma SecondStore(run: seq<Action>, s: Cluster, r: string, d: Document, refresher: Refresher)
    requires Reaches(START, run, s) && GoodDocument(d)
    requires s == StoredOnce(r, d).(replicas := map[r := Replica(Nothing, refresher)])
    ensures exists run' :: Reaches(START, run', StoredTwice(r, d, refresher))
  {
    var n := Next(s, BeginPublish("q", r, d));
    OneMore(START, run, s, BeginPublish("q", r, d));
    OneMore(START, run + [BeginPublish("q", r, d)], n, Store("q"));
    assert Next(n, Store("q")) == StoredTwice(r, d, refresher);
  }

  predicate InForceAt(s: Cluster, r: string, version: nat) {
    r in s.replicas && s.replicas[r].inForce.Version? && s.replicas[r].inForce.version == version
  }

  /** Publishes take no lock, so a replica can go back: two racing publishes on one replica may leave
      the older version in force. */
  lemma VersionsCanGoBack(r: string, d: Document)
    requires GoodDocument(d)
    ensures exists run, s, a :: Reaches(START, run, s) && Enabled(s, a) && InForceAt(s, r, 2) && InForceAt(Next(s, a), r, 1)
  {
    var start := StoredOnceIsReached(r, d);
    SecondStore(start, StoredOnce(r, d), r, d, Idle);
    var run :| Reaches(START, run, StoredTwice(r, d, Idle));
    var s := Next(StoredTwice(r, d, Idle), Install("q"));
    OneMore(START, run, StoredTwice(r, d, Idle), Install("q"));
    assert InForceAt(s, r, 2);
    assert Reaches(START, run + [Install("q")], s) && Enabled(s, Install("p"));
    assert InForceAt(Next(s, Install("p")), r, 1);
  }

  /** A refresh can take a replica back too: it got version 1, a publish installed version 2 meanwhile. */
  lemma RefreshesCanGoBack(r: string, d: Document)
    requires GoodDocument(d)
    ensures exists run, s :: Reaches(START, run, s) && Enabled(s, Apply(r)) && InForceAt(s, r, 2)
                             && InForceAt(Next(s, Apply(r)), r, 1)
  {
    var start := StoredOnceIsReached(r, d);
    var asked := Next(StoredOnce(r, d), BeginRefresh(r));
    OneMore(START, start, StoredOnce(r, d), BeginRefresh(r));
    OneMore(START, start + [BeginRefresh(r)], asked, Load(r));
    SecondStore(start + [BeginRefresh(r)] + [Load(r)], Next(asked, Load(r)), r, d, Got(1, d));
    var run :| Reaches(START, run, StoredTwice(r, d, Got(1, d)));
    var s := Next(StoredTwice(r, d, Got(1, d)), Install("q"));
    OneMore(START, run, StoredTwice(r, d, Got(1, d)), Install("q"));
    assert Reaches(START, run + [Install("q")], s) && Enabled(s, Apply(r));
    assert InForceAt(s, r, 2) && InForceAt(Next(s, Apply(r)), r, 1);
  }
}
