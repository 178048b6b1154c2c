/** Three-valued SQL truth, as the USING clauses of the policies see it. */
module Sql {

  datatype Null<+T> = NULL | Val(v: T)

  datatype Tri = True | False | Unknown

  function Of(b: bool): Tri { if b then True else False }

  function Or(a: Tri, b: Tri): Tri
  {
    if a == True || b == True then True
    else if a == Unknown || b == Unknown then Unknown
    else False
  }

  function And(a: Tri, b: Tri): Tri
  {
    if a == False || b == False then False
    else if a == Unknown || b == Unknown then Unknown
    else True
  }

  function Eq<T(==)>(a: Null<T>, b: Null<T>): Tri
  {
    if a.NULL? || b.NULL? then Unknown else Of(a.v == b.v)
  }

  function IsNull<T>(a: Null<T>): Tri { Of(a.NULL?) }

  // x IN (subquery): true if some element equals x, unknown if that cannot be ruled out.
  function In<T(==)>(x: Null<T>, xs: set<Null<T>>): Tri
  {
    if exists y :: y in xs && Eq(x, y) == True then True
    else if exists y :: y in xs && Eq(x, y) == Unknown then Unknown
    else False
  }

  // The truth values an unknown one may turn out to be.
  function Worlds(t: Tri): set<bool>
  {
    match t
    case True => {true}
    case False => {false}
    case Unknown => {true, false}
  }

  /** A connective is true, or false, exactly if it is so whatever the unknown operands turn out to be. */
  lemma Kleene(a: Tri, b: Tri, v: bool)
    ensures Or(a, b) == Of(v) <==> forall x, y :: x in Worlds(a) && y in Worlds(b) ==> (x || y) == v
    ensures And(a, b) == Of(v) <==> forall x, y :: x in Worlds(a) && y in Worlds(b) ==> (x && y) == v
  {
    assert Worlds(a) != {} && Worlds(b) != {};
    assert forall t, w :: w in Worlds(t) ==> (t == True ==> w) && (t == False ==> !w);
    assert true in Worlds(Unknown) && false in Worlds(Unknown);
    assert true in Worlds(True) && false in Worlds(False);
  }

  /** Membership is false exactly if no element is, or may be, the value. */
  lemma InIsFalse<T(!new)>(x: Null<T>, xs: set<Null<T>>)
    ensures In(x, xs) == False <==> xs == {} || (x.Val? && x !in xs && NULL !in xs)
  {
    if y :| y in xs && Eq(x, y) == Unknown { assert y in xs; }
    if xs != {} && (x.NULL? || NULL in xs) {
      var y :| y in xs && (x.NULL? || y == NULL);
      assert Eq(x, y) == Unknown;
    }
    if x.Val? && x in xs { assert Eq(x, x) == True; }
  }

  lemma InIsTrue<T(!new)>(x: Null<T>, xs: set<Null<T>>)
    ensures In(x, xs) == True <==> x.Val? && x in xs
  {
    if x.Val? && x in xs { assert Eq(x, x) == True; }
  }
}

/**
 * The row-level-security policies as they stand after the whole migration chain.  A policy's
 * subqueries are themselves filtered by the policies of the tables they read.
 */
module RowSecurity {
  import opened Sql

  datatype Repo = Repo(id: int, fullName: string, owner: Null<int>, payload: int)

  datatype Analysis = Analysis(id: int, repoId: Null<int>, payload: int)

  // One constructor per policied table besides repositories and analyses; `payload` stands for the
  // columns no policy reads.
  datatype Row =
    | MergeAttempt(id: int, repoName: Null<string>, payload: int)
    | SecurityAlert(id: int, repoId: Null<int>, payload: int)
    | InsightCache(id: int, userId: Null<int>, payload: int)
    | User(id: int, payload: int)
    | RepoConfig(id: int, repoName: Null<string>, payload: int)
    | GateDecision(id: int, analysisId: Null<int>, payload: int)
    | MergeRetry(id: int, repoName: Null<string>, payload: int)
    | AnalysisFeedback(id: int, userId: Null<int>, payload: int)
    | IssueRegistration(id: int, repoId: Null<int>, payload: int)
    | ApiCall(id: int, userId: Null<int>, repoId: Null<int>, payload: int)
    | AnalysisAttempt(id: int, repoId: Null<int>, payload: int)

  datatype Db = Db(repos: set<Repo>, analyses: set<Analysis>, rows: set<Row>)

  // The setting holds the request's user id as text and is read back through NULLIF(..., '');
  // an absent user and user id 0 are both written as the empty string.
  function CurrentUser(requestUser: Null<int>): (u: Null<int>)
  {
    if requestUser.NULL? || requestUser.v == 0 then NULL else requestUser
  }

  // ----- the USING clauses -----

  function OwnedOrOwnerless(u: Null<int>, owner: Null<int>): Tri
  {
    Or(IsNull(owner), Eq(owner, u))
  }

  function RepoUsing(u: Null<int>, r: Repo): Tri { OwnedOrOwnerless(u, r.owner) }

  function RepoIds(u: Null<int>, repos: set<Repo>): set<Null<int>>
  {
    set r | r in repos && OwnedOrOwnerless(u, r.owner) == True :: Val(r.id)
  }

  function OwnedRepoIds(u: Null<int>, repos: set<Repo>): set<Null<int>>
  {
    set r | r in repos && Eq(r.owner, u) == True :: Val(r.id)
  }

  function RepoNames(u: Null<int>, repos: set<Repo>): set<Null<string>>
  {
    set r | r in repos && OwnedOrOwnerless(u, r.owner) == True :: Val(r.fullName)
  }

  // SELECT a.id FROM analyses a JOIN repositories r ON r.id = a.repo_id WHERE ...
  function JoinedAnalysisIds(u: Null<int>, repos: set<Repo>, analyses: set<Analysis>): set<Null<int>>
  {
    set a, r | a in analyses && r in repos && Eq(Val(r.id), a.repoId) == True
               && OwnedOrOwnerless(u, r.owner) == True :: Val(a.id)
  }

  function AnalysisUsing(u: Null<int>, repos: set<Repo>, a: Analysis): Tri
  {
    In(a.repoId, RepoIds(u, repos))
  }

  function CallUsing(u: Null<int>, repoIds: set<Null<int>>, c: Row): Tri
    requires c.ApiCall?
  {
    Or(Or(And(IsNull(c.userId), IsNull(c.repoId)), Eq(c.userId, u)), In(c.repoId, repoIds))
  }

  function RowUsing(u: Null<int>, repos: set<Repo>, analyses: set<Analysis>, row: Row): Tri
  {
    match row
    case MergeAttempt(_, name, _) => In(name, RepoNames(u, repos))
    case SecurityAlert(_, repoId, _) => In(repoId, OwnedRepoIds(u, repos))
    case InsightCache(_, userId, _) => Eq(userId, u)
    case User(id, _) => Eq(Val(id), u)
    case RepoConfig(_, name, _) => In(name, RepoNames(u, repos))
    case GateDecision(_, analysisId, _) => In(analysisId, JoinedAnalysisIds(u, repos, analyses))
    case MergeRetry(_, name, _) => In(name, RepoNames(u, repos))
    case AnalysisFeedback(_, userId, _) => Eq(userId, u)
    case IssueRegistration(_, repoId, _) => In(repoId, RepoIds(u, repos))
    case ApiCall(_, _, _, _) => CallUsing(u, RepoIds(u, repos), row)
    case AnalysisAttempt(_, repoId, _) => In(repoId, RepoIds(u, repos))
  }

  // ----- what a user sees -----

  // Every subquery reads only what the policies of the tables in it let through.
  function VisibleRepos(u: Null<int>, d: Db): set<Repo>
  {
    set r | r in d.repos && RepoUsing(u, r) == True
  }

  function VisibleAnalyses(u: Null<int>, d: Db): set<Analysis>
  {
    set a | a in d.analyses && AnalysisUsing(u, VisibleRepos(u, d), a) == True
  }

  predicate RowVisible(u: Null<int>, d: Db, row: Row)
  {
    RowUsing(u, VisibleRepos(u, d), VisibleAnalyses(u, d), row) == True
  }

  function View(u: Null<int>, d: Db): Db
  {
    Db(VisibleRepos(u, d), VisibleAnalyses(u, d), set row | row in d.rows && RowVisible(u, d, row))
  }

  // ----- nested evaluation equals flat evaluation -----

  lemma RepoIdsNested(u: Null<int>, d: Db)
    ensures RepoIds(u, VisibleRepos(u, d)) == RepoIds(u, d.repos)
    ensures OwnedRepoIds(u, VisibleRepos(u, d)) == OwnedRepoIds(u, d.repos)
    ensures RepoNames(u, VisibleRepos(u, d)) == RepoNames(u, d.repos)
  {
    forall r | r in d.repos && OwnedOrOwnerless(u, r.owner) == True
      ensures r in VisibleRepos(u, d)
    {
    }
  }

  lemma JoinNested(u: Null<int>, d: Db)
    ensures JoinedAnalysisIds(u, VisibleRepos(u, d), VisibleAnalyses(u, d))
         == JoinedAnalysisIds(u, d.repos, d.analyses)
  {
    var nested := JoinedAnalysisIds(u, VisibleRepos(u, d), VisibleAnalyses(u, d));
    forall x | x in JoinedAnalysisIds(u, d.repos, d.analyses)
      ensures x in nested
    {
      var a, r :| a in d.analyses && r in d.repos && Eq(Val(r.id), a.repoId) == True
                  && OwnedOrOwnerless(u, r.owner) == True && x == Val(a.id);
      assert r in VisibleRepos(u, d);
      assert Val(r.id) in RepoIds(u, VisibleRepos(u, d));
      InIsTrue(a.repoId, RepoIds(u, VisibleRepos(u, d)));
      assert a in VisibleAnalyses(u, d);
    }
  }

  /** Filtering the tables a policy reads by their own policies first, one hop or two, changes
      nothing: every policy has the same truth value over the raw tables. */
  lemma {:induction false} NestedEqualsFlat(u: Null<int>, d: Db)
    ensures forall a :: AnalysisUsing(u, VisibleRepos(u, d), a) == AnalysisUsing(u, d.repos, a)
    ensures forall row :: RowUsing(u, VisibleRepos(u, d), VisibleAnalyses(u, d), row)
                       == RowUsing(u, d.repos, d.analyses, row)
  {
    RepoIdsNested(u, d);
    JoinNested(u, d);
  }

  // ----- writes -----

  datatype Edit =
    | PutRepo(r: Repo)
    | DropRepo(r: Repo)
    | PutAnalysis(a: Analysis)
    | DropAnalysis(a: Analysis)
    | PutRow(row: Row)
    | DropRow(row: Row)

  // An update is a drop followed by a put.
  function Apply(d: Db, e: Edit): Db
  {
    match e
    case PutRepo(r) => d.(repos := d.repos + {r})
    case DropRepo(r) => d.(repos := d.repos - {r})
    case PutAnalysis(a) => d.(analyses := d.analyses + {a})
    case DropAnalysis(a) => d.(analyses := d.analyses - {a})
    case PutRow(row) => d.(rows := d.rows + {row})
    case DropRow(row) => d.(rows := d.rows - {row})
  }

  // The row that the edit writes or removes passes the policy for u.  Policies declared FOR ALL with
  // a USING clause only apply that clause to written rows too, so this is also when u may write it.
  predicate Sees(u: Null<int>, d: Db, e: Edit)
  {
    match e
    case PutRepo(r) => RepoUsing(u, r) == True
    case DropRepo(r) => RepoUsing(u, r) == True
    case PutAnalysis(a) => AnalysisUsing(u, VisibleRepos(u, d), a) == True
    case DropAnalysis(a) => AnalysisUsing(u, VisibleRepos(u, d), a) == True
    case PutRow(row) => RowVisible(u, d, row)
    case DropRow(row) => RowVisible(u, d, row)
  }

  // Everything u sees is unaffected by a write of a row that u's policies do not pass.
  lemma {:induction false} UnseenWriteHarmless(u: Null<int>, d: Db, e: Edit)
    requires !Sees(u, d, e)
    ensures View(u, Apply(d, e)) == View(u, d)
  {
    var d2 := Apply(d, e);
    assert VisibleRepos(u, d2) == VisibleRepos(u, d);
    assert VisibleAnalyses(u, d2) == VisibleAnalyses(u, d);
    assert forall row :: RowVisible(u, d2, row) == RowVisible(u, d, row);
  }

  /** What an edit writes is seen by exactly those whose policies it passes, and what it removes by nobody. */
  lemma EditIsSeen(u: Null<int>, d: Db, e: Edit)
    ensures match e {
      case PutRepo(r) => r in View(u, Apply(d, e)).repos <==> Sees(u, d, e)
      case DropRepo(r) => r !in View(u, Apply(d, e)).repos
      case PutAnalysis(a) => a in View(u, Apply(d, e)).analyses <==> Sees(u, d, e)
      case DropAnalysis(a) => a !in View(u, Apply(d, e)).analyses
      case PutRow(row) => row in View(u, Apply(d, e)).rows <==> Sees(u, d, e)
      case DropRow(row) => row !in View(u, Apply(d, e)).rows
    }
  {
    var d2 := Apply(d, e);
    if e.PutAnalysis? || e.PutRow? {
      assert VisibleRepos(u, d2) == VisibleRepos(u, d);
    }
    if e.PutRow? {
      assert VisibleAnalyses(u, d2) == VisibleAnalyses(u, d);
    }
  }

  // ----- writes to other tenants' rows -----

  predicate UniqueKeys(d: Db)
  {
    && (forall r, s :: r in d.repos && s in d.repos && (r.id == s.id || r.fullName == s.fullName) ==> r == s)
    && (forall a, b :: a in d.analyses && b in d.analyses && a.id == b.id ==> a == b)
  }

  predicate OwnedByOther(u: Null<int>, owner: Null<int>)
  {
    owner.Val? && owner != u
  }

  ghost predicate OtherRepoId(u: Null<int>, d: Db, id: Null<int>)
  {
    exists r :: r in d.repos && Val(r.id) == id && OwnedByOther(u, r.owner)
  }

  ghost predicate OtherRepoName(u: Null<int>, d: Db, name: Null<string>)
  {
    exists r :: r in d.repos && Val(r.fullName) == name && OwnedByOther(u, r.owner)
  }

  ghost predicate OtherAnalysisId(u: Null<int>, d: Db, id: Null<int>)
  {
    exists a :: a in d.analyses && Val(a.id) == id && OtherRepoId(u, d, a.repoId)
  }

  // The row hangs only off another user's repository or carries only another user's id.
  ghost predicate OtherTenant(u: Null<int>, d: Db, e: Edit)
  {
    match e
    case PutRepo(r) => OwnedByOther(u, r.owner)
    case DropRepo(r) => OwnedByOther(u, r.owner)
    case PutAnalysis(a) => OtherRepoId(u, d, a.repoId)
    case DropAnalysis(a) => OtherRepoId(u, d, a.repoId)
    case PutRow(row) => OtherTenantRow(u, d, row)
    case DropRow(row) => OtherTenantRow(u, d, row)
  }

  ghost predicate OtherTenantRow(u: Null<int>, d: Db, row: Row)
  {
    match row
    case MergeAttempt(_, name, _) => OtherRepoName(u, d, name)
    case SecurityAlert(_, repoId, _) => OtherRepoId(u, d, repoId)
    case InsightCache(_, userId, _) => OwnedByOther(u, userId)
    case User(id, _) => OwnedByOther(u, Val(id))
    case RepoConfig(_, name, _) => OtherRepoName(u, d, name)
    case GateDecision(_, analysisId, _) => OtherAnalysisId(u, d, analysisId)
    case MergeRetry(_, name, _) => OtherRepoName(u, d, name)
    case AnalysisFeedback(_, userId, _) => OwnedByOther(u, userId)
    case IssueRegistration(_, repoId, _) => OtherRepoId(u, d, repoId)
    case ApiCall(_, userId, repoId, _) =>
      && (userId.NULL? || OwnedByOther(u, userId))
      && (repoId.NULL? || OtherRepoId(u, d, repoId))
      && !(userId.NULL? && repoId.NULL?)
    case AnalysisAttempt(_, repoId, _) => OtherRepoId(u, d, repoId)
  }

  lemma OtherRepoIdHidden(u: Null<int>, d: Db, id: Null<int>)
    requires UniqueKeys(d) && OtherRepoId(u, d, id)
    ensures In(id, RepoIds(u, d.repos)) != True && In(id, OwnedRepoIds(u, d.repos)) != True
  {
    InIsTrue(id, RepoIds(u, d.repos));
    InIsTrue(id, OwnedRepoIds(u, d.repos));
  }

  lemma OtherRepoNameHidden(u: Null<int>, d: Db, name: Null<string>)
    requires UniqueKeys(d) && OtherRepoName(u, d, name)
    ensures In(name, RepoNames(u, d.repos)) != True
  {
    InIsTrue(name, RepoNames(u, d.repos));
  }

  lemma OtherAnalysisIdHidden(u: Null<int>, d: Db, id: Null<int>)
    requires UniqueKeys(d) && OtherAnalysisId(u, d, id)
    ensures In(id, JoinedAnalysisIds(u, d.repos, d.analyses)) != True
  {
    InIsTrue(id, JoinedAnalysisIds(u, d.repos, d.analyses));
  }

  lemma OtherTenantRowHidden(u: Null<int>, d: Db, row: Row)
    requires UniqueKeys(d) && OtherTenantRow(u, d, row)
    ensures !RowVisible(u, d, row)
  {
    NestedEqualsFlat(u, d);
    match row
    case MergeAttempt(_, name, _) => OtherRepoNameHidden(u, d, name);
    case RepoConfig(_, name, _) => OtherRepoNameHidden(u, d, name);
    case MergeRetry(_, name, _) => OtherRepoNameHidden(u, d, name);
    case SecurityAlert(_, repoId, _) => OtherRepoIdHidden(u, d, repoId);
    case IssueRegistration(_, repoId, _) => OtherRepoIdHidden(u, d, repoId);
    case AnalysisAttempt(_, repoId, _) => OtherRepoIdHidden(u, d, repoId);
    case GateDecision(_, analysisId, _) => OtherAnalysisIdHidden(u, d, analysisId);
    case ApiCall(_, _, repoId, _) =>
      InIsTrue(repoId, RepoIds(u, d.repos));
      if repoId.Val? { OtherRepoIdHidden(u, d, repoId); }
    case _ =>
  }

  lemma OtherTenantHidden(u: Null<int>, d: Db, e: Edit)
    requires UniqueKeys(d) && OtherTenant(u, d, e)
    ensures !Sees(u, d, e)
  {
    match e
    case PutAnalysis(a) => NestedEqualsFlat(u, d); OtherRepoIdHidden(u, d, a.repoId);
    case DropAnalysis(a) => NestedEqualsFlat(u, d); OtherRepoIdHidden(u, d, a.repoId);
    case PutRow(row) => OtherTenantRowHidden(u, d, row);
    case DropRow(row) => OtherTenantRowHidden(u, d, row);
    case _ =>
  }

  function ApplyAll(d: Db, es: seq<Edit>): Db
    decreases |es|
  {
    if es == [] then d else Apply(ApplyAll(d, es[..|es| - 1]), es[|es| - 1])
  }

  /** Edits are applied one after the other, each to what the ones before it left. */
  lemma {:induction false} ApplyInOrder(d: Db, es: seq<Edit>, fs: seq<Edit>)
    ensures ApplyAll(d, []) == d
    ensures ApplyAll(d, es + fs) == ApplyAll(ApplyAll(d, es), fs)
    ensures |es| == 1 ==> ApplyAll(d, es) == Apply(d, es[0])
    decreases |fs|
  {
    if fs == [] {
      assert es + fs == es;
    } else {
      var all, n := es + fs, |fs| - 1;
      assert all[..|all| - 1] == es + fs[..n] && all[|all| - 1] == fs[n];
      ApplyInOrder(d, es, fs[..n]);
    }
  }

  // Every edit touches only other tenants' rows, and the keys stay unique throughout.
  ghost predicate OtherTenantsOnly(u: Null<int>, d: Db, es: seq<Edit>)
    decreases |es|
  {
    UniqueKeys(ApplyAll(d, es)) &&
    (es == [] ||
      var before := es[..|es| - 1];
      OtherTenantsOnly(u, d, before) && OtherTenant(u, ApplyAll(d, before), es[|es| - 1]))
  }

  /** Tenant noninterference: however long other tenants insert, delete and edit rows of their own,
      user u sees the same rows in every policied table. */
  lemma {:induction false} Noninterference(u: Null<int>, d: Db, es: seq<Edit>)
    requires OtherTenantsOnly(u, d, es)
    ensures View(u, ApplyAll(d, es)) == View(u, d)
    decreases |es|
  {
    if es != [] {
      var before := es[..|es| - 1];
      Noninterference(u, d, before);
      OtherTenantHidden(u, ApplyAll(d, before), es[|es| - 1]);
      UnseenWriteHarmless(u, ApplyAll(d, before), es[|es| - 1]);
    }
  }

  // ----- rows that two users share -----

  ghost predicate OwnerlessId(d: Db, id: Null<int>)
  {
    exists r :: r in d.repos && Val(r.id) == id && r.owner.NULL?
  }

  ghost predicate OwnerlessName(d: Db, name: Null<string>)
  {
    exists r :: r in d.repos && Val(r.fullName) == name && r.owner.NULL?
  }

  ghost predicate OwnedId(d: Db, id: Null<int>, owner: Null<int>)
  {
    exists r :: r in d.repos && Val(r.id) == id && r.owner == owner
  }

  ghost predicate OwnerlessAnalysis(d: Db, id: Null<int>)
  {
    exists a :: a in d.analyses && Val(a.id) == id && OwnerlessId(d, a.repoId)
  }

  // A call charged to one user on a repository of the other.
  ghost predicate CrossAttributed(u: Null<int>, v: Null<int>, d: Db, row: Row)
    requires row.ApiCall?
  {
    || (row.userId == u && OwnedId(d, row.repoId, v))
    || (row.userId == v && OwnedId(d, row.repoId, u))
  }

  ghost predicate Shared(u: Null<int>, v: Null<int>, d: Db, row: Row)
  {
    match row
    case MergeAttempt(_, name, _) => OwnerlessName(d, name)
    case SecurityAlert(_, _, _) => false
    case InsightCache(_, _, _) => false
    case User(_, _) => false
    case RepoConfig(_, name, _) => OwnerlessName(d, name)
    case GateDecision(_, analysisId, _) => OwnerlessAnalysis(d, analysisId)
    case MergeRetry(_, name, _) => OwnerlessName(d, name)
    case AnalysisFeedback(_, _, _) => false
    case IssueRegistration(_, repoId, _) => OwnerlessId(d, repoId)
    case ApiCall(_, userId, repoId, _) =>
      (userId.NULL? && repoId.NULL?) || OwnerlessId(d, repoId) || CrossAttributed(u, v, d, row)
    case AnalysisAttempt(_, repoId, _) => OwnerlessId(d, repoId)
  }

  lemma IdVisible(u: Null<int>, d: Db, id: Null<int>)
    requires u.Val?
    ensures In(id, RepoIds(u, d.repos)) == True <==> OwnerlessId(d, id) || OwnedId(d, id, u)
    ensures In(id, OwnedRepoIds(u, d.repos)) == True <==> OwnedId(d, id, u)
  {
    InIsTrue(id, RepoIds(u, d.repos));
    InIsTrue(id, OwnedRepoIds(u, d.repos));
  }

  lemma NameVisible(u: Null<int>, d: Db, name: Null<string>)
    requires u.Val?
    ensures In(name, RepoNames(u, d.repos)) == True
      <==> exists r :: r in d.repos && Val(r.fullName) == name && (r.owner.NULL? || r.owner == u)
  {
    InIsTrue(name, RepoNames(u, d.repos));
  }

  lemma AnalysisVisible(u: Null<int>, d: Db, id: Null<int>)
    requires u.Val?
    ensures In(id, JoinedAnalysisIds(u, d.repos, d.analyses)) == True
      <==> exists a :: a in d.analyses && Val(a.id) == id && (OwnerlessId(d, a.repoId) || OwnedId(d, a.repoId, u))
  {
    InIsTrue(id, JoinedAnalysisIds(u, d.repos, d.analyses));
    if a :| a in d.analyses && Val(a.id) == id && (OwnerlessId(d, a.repoId) || OwnedId(d, a.repoId, u)) {
      var r :| r in d.repos && Val(r.id) == a.repoId && (r.owner.NULL? || r.owner == u);
      assert OwnedOrOwnerless(u, r.owner) == True && Eq(Val(r.id), a.repoId) == True;
      assert id in JoinedAnalysisIds(u, d.repos, d.analyses);
    }
  }

  lemma SharedAnalysis(u: Null<int>, v: Null<int>, d: Db, a: Analysis)
    requires UniqueKeys(d) && u.Val? && v.Val? && u != v
    ensures AnalysisUsing(u, VisibleRepos(u, d), a) == True == AnalysisUsing(v, VisibleRepos(v, d), a)
      <==> OwnerlessId(d, a.repoId)
  {
    NestedEqualsFlat(u, d);
    NestedEqualsFlat(v, d);
    IdVisible(u, d, a.repoId);
    IdVisible(v, d, a.repoId);
  }

  /** Two different users both see a repository exactly when it has no owner, and an analysis exactly when
      its repository has none. */
  lemma {:induction false} SharedReposAndAnalyses(u: Null<int>, v: Null<int>, d: Db)
    requires UniqueKeys(d) && u.Val? && v.Val? && u != v
    ensures forall r :: r in View(u, d).repos && r in View(v, d).repos <==> r in d.repos && r.owner.NULL?
    ensures forall a :: a in View(u, d).analyses && a in View(v, d).analyses
                   <==> a in d.analyses && OwnerlessId(d, a.repoId)
  {
    forall a
      ensures a in View(u, d).analyses && a in View(v, d).analyses <==> a in d.analyses && OwnerlessId(d, a.repoId)
    {
      SharedAnalysis(u, v, d, a);
    }
  }

  /** Two different users both see a row of the other tables exactly when it hangs off an ownerless
      repository, is an API call with neither user nor repository, or is an API call charged to one of
      them on a repository of the other. */
  lemma {:induction false} SharedRows(u: Null<int>, v: Null<int>, d: Db, row: Row)
    requires UniqueKeys(d) && u.Val? && v.Val? && u != v
    ensures RowVisible(u, d, row) && RowVisible(v, d, row) <==> Shared(u, v, d, row)
  {
    NestedEqualsFlat(u, d);
    NestedEqualsFlat(v, d);
    match row
    case MergeAttempt(_, name, _) => NameVisible(u, d, name); NameVisible(v, d, name);
    case RepoConfig(_, name, _) => NameVisible(u, d, name); NameVisible(v, d, name);
    case MergeRetry(_, name, _) => NameVisible(u, d, name); NameVisible(v, d, name);
    case GateDecision(_, analysisId, _) => AnalysisVisible(u, d, analysisId); AnalysisVisible(v, d, analysisId);
    case SecurityAlert(_, repoId, _) => IdVisible(u, d, repoId); IdVisible(v, d, repoId);
    case IssueRegistration(_, repoId, _) => IdVisible(u, d, repoId); IdVisible(v, d, repoId);
    case AnalysisAttempt(_, repoId, _) => IdVisible(u, d, repoId); IdVisible(v, d, repoId);
    case ApiCall(_, userId, repoId, _) => IdVisible(u, d, repoId); IdVisible(v, d, repoId);
    case _ =>
  }

  // The edit writes or removes something that both users see.
  ghost predicate SharedTarget(u: Null<int>, v: Null<int>, d: Db, e: Edit)
  {
    match e
    case PutRepo(r) => r.owner.NULL?
    case DropRepo(r) => r.owner.NULL?
    case PutAnalysis(a) => OwnerlessId(d, a.repoId)
    case DropAnalysis(a) => OwnerlessId(d, a.repoId)
    case PutRow(row) => Shared(u, v, d, row)
    case DropRow(row) => Shared(u, v, d, row)
  }

  /** A write that user v's policies allow changes what another user sees only where the two share: on
      ownerless repositories and what hangs off them, and on shared API calls. */
  lemma {:induction false} CrossTenantChangesAreShared(u: Null<int>, v: Null<int>, d: Db, e: Edit)
    requires UniqueKeys(d) && u.Val? && v.Val? && u != v
    requires Sees(v, d, e) && View(u, Apply(d, e)) != View(u, d)
    ensures SharedTarget(u, v, d, e)
  {
    if !Sees(u, d, e) { UnseenWriteHarmless(u, d, e); }
    match e
    case PutAnalysis(a) => SharedAnalysis(u, v, d, a);
    case DropAnalysis(a) => SharedAnalysis(u, v, d, a);
    case PutRow(row) => SharedRows(u, v, d, row);
    case DropRow(row) => SharedRows(u, v, d, row);
    case _ =>
  }

  /** So ownership alone does not separate tenants: a call may be visible to two users although no
      ownerless repository exists and both its columns are set. */
  lemma {:induction false} CrossAttributedCallIsShared()
    ensures var repo := Repo(7, "o/r", Val(2), 0);
      var call := ApiCall(1, Val(1), Val(7), 0);
      var d := Db({repo}, {Analysis(3, Val(7), 0)}, {call});
      UniqueKeys(d) && call in View(Val(1), d).rows && call in View(Val(2), d).rows
  {
    var repo := Repo(7, "o/r", Val(2), 0);
    var call := ApiCall(1, Val(1), Val(7), 0);
    var d := Db({repo}, {Analysis(3, Val(7), 0)}, {call});
    SharedRows(Val(1), Val(2), d, call);
    assert repo in d.repos && OwnedId(d, Val(7), Val(2));
  }

  // ----- the two policies of claude_api_calls -----

  // The policy before the legacy clause was added.
  predicate StrictCallVisible(u: Null<int>, d: Db, c: Row)
    requires c.ApiCall?
  {
    CallUsing(u, OwnedRepoIds(u, VisibleRepos(u, d)), c) == True
  }

  /** The later policy shows every call the earlier one showed, and in addition exactly the calls on
      ownerless repositories. */
  lemma {:induction false} LegacyClauseAddsOwnerlessCalls(u: Null<int>, d: Db, c: Row)
    requires c.ApiCall?
    ensures RowVisible(u, d, c) <==> StrictCallVisible(u, d, c) || OwnerlessId(d, c.repoId)
  {
    RepoIdsNested(u, d);
    InIsTrue(c.repoId, RepoIds(u, d.repos));
    InIsTrue(c.repoId, OwnedRepoIds(u, d.repos));
  }

  /** Without a request user (or with user id 0) nothing owned is visible: repositories without an owner, what
      hangs off them, and calls with neither user nor repository. */
  lemma {:induction false} AnonymousSeesOwnerlessOnly(requestUser: Null<int>, d: Db, row: Row)
    requires requestUser.NULL? || requestUser.v == 0
    ensures View(CurrentUser(requestUser), d).repos == set r | r in d.repos && r.owner.NULL?
    ensures forall a :: a in View(CurrentUser(requestUser), d).analyses <==> a in d.analyses && OwnerlessId(d, a.repoId)
    ensures RowVisible(CurrentUser(requestUser), d, row) <==>
      match row {
        case MergeAttempt(_, name, _) => OwnerlessName(d, name)
        case RepoConfig(_, name, _) => OwnerlessName(d, name)
        case MergeRetry(_, name, _) => OwnerlessName(d, name)
        case GateDecision(_, analysisId, _) => OwnerlessAnalysis(d, analysisId)
        case IssueRegistration(_, repoId, _) => OwnerlessId(d, repoId)
        case AnalysisAttempt(_, repoId, _) => OwnerlessId(d, repoId)
        case ApiCall(_, userId, repoId, _) => (userId.NULL? && repoId.NULL?) || OwnerlessId(d, repoId)
        case _ => false
      }
  {
    NestedEqualsFlat(NULL, d);
    AnonymousAnalyses(d);
    match row
    case MergeAttempt(_, name, _) => InIsTrue(name, RepoNames(NULL, d.repos));
    case RepoConfig(_, name, _) => InIsTrue(name, RepoNames(NULL, d.repos));
    case MergeRetry(_, name, _) => InIsTrue(name, RepoNames(NULL, d.repos));
    case SecurityAlert(_, repoId, _) => InIsTrue(repoId, OwnedRepoIds(NULL, d.repos));
    case IssueRegistration(_, repoId, _) => InIsTrue(repoId, RepoIds(NULL, d.repos));
    case AnalysisAttempt(_, repoId, _) => InIsTrue(repoId, RepoIds(NULL, d.repos));
    case ApiCall(_, _, repoId, _) => InIsTrue(repoId, RepoIds(NULL, d.repos));
    case GateDecision(_, analysisId, _) => AnonymousAnalysis(d, analysisId);
    case _ =>
  }

  lemma AnonymousAnalyses(d: Db)
    ensures forall a :: a in View(NULL, d).analyses <==> a in d.analyses && OwnerlessId(d, a.repoId)
  {
    NestedEqualsFlat(NULL, d);
    forall a | a in d.analyses
      ensures a in View(NULL, d).analyses <==> OwnerlessId(d, a.repoId)
    {
      InIsTrue(a.repoId, RepoIds(NULL, d.repos));
    }
  }

  lemma AnonymousAnalysis(d: Db, id: Null<int>)
    ensures In(id, JoinedAnalysisIds(NULL, d.repos, d.analyses)) == True <==> OwnerlessAnalysis(d, id)
  {
    InIsTrue(id, JoinedAnalysisIds(NULL, d.repos, d.analyses));
    if a :| a in d.analyses && Val(a.id) == id && OwnerlessId(d, a.repoId) {
      var r :| r in d.repos && Val(r.id) == a.repoId && r.owner.NULL?;
      assert OwnedOrOwnerless(NULL, r.owner) == True && Eq(Val(r.id), a.repoId) == True;
      assert id in JoinedAnalysisIds(NULL, d.repos, d.analyses);
    }
  }

  // ----- what a signed-in user sees -----

  // The row carries the user's id, hangs off a repository of the user, or off one without an owner where the
  // policy admits that.
  ghost predicate Mine(n: int, d: Db, row: Row)
  {
    match row
    case MergeAttempt(_, name, _) => OwnedName(d, name, Val(n)) || OwnerlessName(d, name)
    case SecurityAlert(_, repoId, _) => OwnedId(d, repoId, Val(n))
    case InsightCache(_, userId, _) => userId == Val(n)
    case User(id, _) => id == n
    case RepoConfig(_, name, _) => OwnedName(d, name, Val(n)) || OwnerlessName(d, name)
    case GateDecision(_, analysisId, _) => OwnedAnalysis(d, analysisId, Val(n)) || OwnerlessAnalysis(d, analysisId)
    case MergeRetry(_, name, _) => OwnedName(d, name, Val(n)) || OwnerlessName(d, name)
    case AnalysisFeedback(_, userId, _) => userId == Val(n)
    case IssueRegistration(_, repoId, _) => OwnedId(d, repoId, Val(n)) || OwnerlessId(d, repoId)
    case ApiCall(_, userId, repoId, _) =>
      || userId == Val(n)
      || (userId.NULL? && repoId.NULL?)
      || OwnedId(d, repoId, Val(n)) || OwnerlessId(d, repoId)
    case AnalysisAttempt(_, repoId, _) => OwnedId(d, repoId, Val(n)) || OwnerlessId(d, repoId)
  }

  ghost predicate OwnedName(d: Db, name: Null<string>, owner: Null<int>)
  {
    exists r :: r in d.repos && Val(r.fullName) == name && r.owner == owner
  }

  ghost predicate OwnedAnalysis(d: Db, id: Null<int>, owner: Null<int>)
  {
    exists a :: a in d.analyses && Val(a.id) == id && OwnedId(d, a.repoId, owner)
  }

  /** A request of user n sees exactly the repositories of n and those without an owner, and the analyses of
      both. */
  lemma {:induction false} UserSeesRepos(n: int, d: Db)
    requires n != 0
    ensures View(CurrentUser(Val(n)), d).repos == set r | r in d.repos && (r.owner == Val(n) || r.owner.NULL?)
    ensures forall a :: a in View(CurrentUser(Val(n)), d).analyses
                   <==> a in d.analyses && (OwnedId(d, a.repoId, Val(n)) || OwnerlessId(d, a.repoId))
  {
    NestedEqualsFlat(Val(n), d);
    forall a | a in d.analyses
      ensures a in View(Val(n), d).analyses <==> OwnedId(d, a.repoId, Val(n)) || OwnerlessId(d, a.repoId)
    {
      IdVisible(Val(n), d, a.repoId);
    }
  }

  /** And of the other tables exactly the rows that carry n, or hang off a repository of n or one without an
      owner; insights, users, feedback and alerts without such an exception. */
  lemma {:induction false} UserSeesMine(n: int, d: Db, row: Row)
    requires n != 0
    ensures row in View(CurrentUser(Val(n)), d).rows <==> row in d.rows && Mine(n, d, row)
  {
    var u := Val(n);
    NestedEqualsFlat(u, d);
    match row
    case MergeAttempt(_, name, _) => NameVisible(u, d, name);
    case RepoConfig(_, name, _) => NameVisible(u, d, name);
    case MergeRetry(_, name, _) => NameVisible(u, d, name);
    case GateDecision(_, analysisId, _) => AnalysisVisible(u, d, analysisId);
    case SecurityAlert(_, repoId, _) => IdVisible(u, d, repoId);
    case IssueRegistration(_, repoId, _) => IdVisible(u, d, repoId);
    case AnalysisAttempt(_, repoId, _) => IdVisible(u, d, repoId);
    case ApiCall(_, _, repoId, _) => IdVisible(u, d, repoId);
    case _ =>
  }

  // ----- which rows are other tenants' -----

  ghost predicate HasRepo(d: Db, id: Null<int>)
  {
    exists r :: r in d.repos && Val(r.id) == id
  }

  ghost predicate HasName(d: Db, name: Null<string>)
  {
    exists r :: r in d.repos && Val(r.fullName) == name
  }

  ghost predicate HasAnalysis(d: Db, id: Null<int>)
  {
    exists a :: a in d.analyses && Val(a.id) == id && HasRepo(d, a.repoId)
  }

  // The references of the row are not dangling, and it is no alert on a repository without an owner, which
  // nobody sees.
  ghost predicate Resolves(d: Db, e: Edit)
  {
    match e
    case PutRepo(r) => true
    case DropRepo(r) => true
    case PutAnalysis(a) => HasRepo(d, a.repoId)
    case DropAnalysis(a) => HasRepo(d, a.repoId)
    case PutRow(row) => RowResolves(d, row)
    case DropRow(row) => RowResolves(d, row)
  }

  ghost predicate RowResolves(d: Db, row: Row)
  {
    match row
    case MergeAttempt(_, name, _) => HasName(d, name)
    case SecurityAlert(_, repoId, _) => HasRepo(d, repoId) && !OwnerlessId(d, repoId)
    case InsightCache(_, userId, _) => userId.Val?
    case User(_, _) => true
    case RepoConfig(_, name, _) => HasName(d, name)
    case GateDecision(_, analysisId, _) => HasAnalysis(d, analysisId)
    case MergeRetry(_, name, _) => HasName(d, name)
    case AnalysisFeedback(_, userId, _) => userId.Val?
    case IssueRegistration(_, repoId, _) => HasRepo(d, repoId)
    case ApiCall(_, _, repoId, _) => repoId.NULL? || HasRepo(d, repoId)
    case AnalysisAttempt(_, repoId, _) => HasRepo(d, repoId)
  }

  lemma OtherIdIff(u: Null<int>, d: Db, id: Null<int>)
    requires u.Val? && UniqueKeys(d) && HasRepo(d, id)
    ensures OtherRepoId(u, d, id) <==> !(OwnedId(d, id, u) || OwnerlessId(d, id))
  {
  }

  lemma OtherNameIff(u: Null<int>, d: Db, name: Null<string>)
    requires u.Val? && UniqueKeys(d) && HasName(d, name)
    ensures OtherRepoName(u, d, name) <==> In(name, RepoNames(u, d.repos)) != True
  {
    NameVisible(u, d, name);
  }

  lemma OtherAnalysisIff(u: Null<int>, d: Db, id: Null<int>)
    requires u.Val? && UniqueKeys(d) && HasAnalysis(d, id)
    ensures OtherAnalysisId(u, d, id) <==> In(id, JoinedAnalysisIds(u, d.repos, d.analyses)) != True
  {
    AnalysisVisible(u, d, id);
    var a :| a in d.analyses && Val(a.id) == id && HasRepo(d, a.repoId);
    OtherIdIff(u, d, a.repoId);
  }

  lemma OtherRowIff(u: Null<int>, d: Db, row: Row)
    requires u.Val? && UniqueKeys(d) && RowResolves(d, row)
    ensures OtherTenantRow(u, d, row) <==> !RowVisible(u, d, row)
  {
    NestedEqualsFlat(u, d);
    match row
    case MergeAttempt(_, name, _) => OtherNameIff(u, d, name);
    case RepoConfig(_, name, _) => OtherNameIff(u, d, name);
    case MergeRetry(_, name, _) => OtherNameIff(u, d, name);
    case GateDecision(_, analysisId, _) => OtherAnalysisIff(u, d, analysisId);
    case SecurityAlert(_, repoId, _) => IdVisible(u, d, repoId); OtherIdIff(u, d, repoId);
    case IssueRegistration(_, repoId, _) => IdVisible(u, d, repoId); OtherIdIff(u, d, repoId);
    case AnalysisAttempt(_, repoId, _) => IdVisible(u, d, repoId); OtherIdIff(u, d, repoId);
    case ApiCall(_, _, repoId, _) =>
      IdVisible(u, d, repoId);
      if repoId.Val? { OtherIdIff(u, d, repoId); }
    case _ =>
  }

  /** So noninterference holds for all edits that the user may not make: where references are intact, the rows
      of other tenants are exactly those that the user's policies do not pass. */
  lemma {:induction false} OtherTenantIff(u: Null<int>, d: Db, e: Edit)
    requires u.Val? && UniqueKeys(d) && Resolves(d, e)
    ensures OtherTenant(u, d, e) <==> !Sees(u, d, e)
  {
    match e
    case PutAnalysis(a) => NestedEqualsFlat(u, d); IdVisible(u, d, a.repoId); OtherIdIff(u, d, a.repoId);
    case DropAnalysis(a) => NestedEqualsFlat(u, d); IdVisible(u, d, a.repoId); OtherIdIff(u, d, a.repoId);
    case PutRow(row) => OtherRowIff(u, d, row);
    case DropRow(row) => OtherRowIff(u, d, row);
    case _ =>
  }
}
