/**
 * The lexical database-path computation of the sqlite helper (`getSqliteDbPath`).
 * A path is the sequence of its segments below the filesystem root; no
 * filesystem access takes place.
 */
module Sqlite {

  type Path = seq<string>

  const Workspace: string := "hello-world-location-and-weather-dashboard-228752-228762"
  const DatabaseDir: string := "hello_database"
  const DatabaseFile: string := "myapp.db"
  /** The backend's own workspace and directory, as the layout comment in the helper names them. */
  const BackendWorkspace: string := "hello-world-location-and-weather-dashboard-228752-228761"
  const BackendDir: string := "hello_backend"

  /** `..` of an absolute path: the root is its own parent. */
  function Parent(p: Path): (r: Path)
    ensures p == [] ==> r == []
    ensures p != [] ==> p == r + [p[|p| - 1]]
  {
    if p == [] then [] else p[..|p| - 1]
  }

  /** The directory `n` levels above `p`. */
  function Ancestor(p: Path, n: nat): (r: Path)
    ensures |r| == if n <= |p| then |p| - n else 0
    ensures r <= p
  {
    if n == 0 then p else Parent(Ancestor(p, n - 1))
  }

  /** A segment with no special meaning to path resolution. */
  predicate Plain(a: string) {
    a != "" && a != "." && a != ".."
  }

  /**
   * One relative argument of `path.resolve` / `path.join` applied to an absolute path.
   * Every argument the source passes is a single segment (it holds no `/`).
   */
  function Step(p: Path, a: string): (r: Path)
    ensures Plain(a) ==> r == p + [a]
    ensures !Plain(a) ==> r <= p && |p| - 1 <= |r|
  {
    if a == ".." then Parent(p) else if a == "." || a == "" then p else p + [a]
  }

  /**
   * `path.resolve(base, ...args)` for relative arguments of one segment each. On an
   * absolute first argument `path.join` normalises to the same path.
   */
  function Resolve(base: Path, args: seq<string>): Path
    decreases |args|
  {
    if args == [] then base else Resolve(Step(base, args[0]), args[1..])
  }

  /** `k` copies of `..`. */
  function Ups(k: nat): (r: seq<string>)
    ensures |r| == k && forall i | 0 <= i < k :: r[i] == ".."
  {
    if k == 0 then [] else [".."] + Ups(k - 1)
  }

  /** Resolving plain names only appends them. */
  lemma {:induction false} ResolvePlain(base: Path, names: seq<string>)
    requires forall i | 0 <= i < |names| :: Plain(names[i])
    ensures Resolve(base, names) == base + names
    decreases |names|
  {
    if names != [] {
      assert Plain(names[0]);
      assert Step(base, names[0]) == base + [names[0]];
      ResolvePlain(base + [names[0]], names[1..]);
      assert base + [names[0]] + names[1..] == base + names;
    }
  }

  lemma {:induction false} AncestorStep(p: Path, n: nat)
    ensures Ancestor(Parent(p), n) == Ancestor(p, n + 1)
    decreases n
  {
    if n > 0 {
      AncestorStep(p, n - 1);
    }
  }

  /** Resolving `k` copies of `..` after `rest` gives the `k`-th ancestor, then `rest`. */
  lemma {:induction false} ResolveUps(base: Path, k: nat, rest: seq<string>)
    ensures Resolve(base, Ups(k) + rest) == Resolve(Ancestor(base, k), rest)
    decreases k
  {
    if k > 0 {
      var args := Ups(k) + rest;
      assert args[0] == ".." && args[1..] == Ups(k - 1) + rest;
      assert Step(base, "..") == Parent(base);
      ResolveUps(Parent(base), k - 1, rest);
      AncestorStep(base, k - 1);
    } else {
      assert Ups(k) + rest == rest;
    }
  }

  lemma ConstantsArePlain()
    ensures Plain(Workspace) && Plain(DatabaseDir) && Plain(DatabaseFile)
  {
  }

  /** `localBackendDb`: the grandparent directory of the module, with `myapp.db`. */
  function LocalBackendDb(moduleDir: Path): (r: Path)
    ensures r == Ancestor(moduleDir, 2) + [DatabaseFile]
  {
    assert ["..", "..", DatabaseFile] == Ups(2) + [DatabaseFile];
    ResolveUps(moduleDir, 2, [DatabaseFile]);
    ConstantsArePlain();
    ResolvePlain(Ancestor(moduleDir, 2), [DatabaseFile]);
    Resolve(moduleDir, ["..", "..", DatabaseFile])
  }

  /**
   * `getSqliteDbPath`, given the directory of the module: four levels up, then the sibling
   * workspace's `hello_database/myapp.db`. The fallback it computes is never returned.
   */
  function GetSqliteDbPath(moduleDir: Path): (r: Path)
    ensures r == Ancestor(moduleDir, 4) + [Workspace, DatabaseDir, DatabaseFile]
  {
    var repoRoot := Resolve(moduleDir, ["..", "..", "..", ".."]);
    var helloDatabaseWorkspace := Resolve(repoRoot, [Workspace, DatabaseDir, DatabaseFile]);
    var localBackendDb := LocalBackendDb(moduleDir);
    assert ["..", "..", "..", ".."] == Ups(4) + [];
    ResolveUps(moduleDir, 4, []);
    ConstantsArePlain();
    ResolvePlain(repoRoot, [Workspace, DatabaseDir, DatabaseFile]);
    helloDatabaseWorkspace
  }

  /** The preferred path always names `myapp.db` inside `hello_database`, inside the sibling workspace. */
  lemma PreferredPathShape(moduleDir: Path)
    ensures var r := GetSqliteDbPath(moduleDir);
      |r| >= 3 && r[|r| - 1] == DatabaseFile && r[|r| - 2] == DatabaseDir && r[|r| - 3] == Workspace
  {
  }

  /** Above a shallow directory, `..` stops at the root. */
  lemma ShallowModuleDir(moduleDir: Path)
    requires |moduleDir| <= 4
    ensures GetSqliteDbPath(moduleDir) == [Workspace, DatabaseDir, DatabaseFile]
  {
  }

  /** Going up once per appended segment returns to the starting directory. */
  lemma {:induction false} AncestorOfExtension(p: Path, q: Path)
    ensures Ancestor(p + q, |q|) == p
    decreases |q|
  {
    if q != [] {
      var q' := q[..|q| - 1];
      assert p + q == (p + q') + [q[|q| - 1]];
      assert Parent(p + q) == p + q';
      AncestorStep(p + q, |q'|);
      AncestorOfExtension(p, q');
    } else {
      assert p + q == p;
    }
  }

  /** The layout the source describes: `<root>/<backend workspace>/hello_backend/src/db`. */
  lemma RepositoryLayout(root: Path)
    ensures var dir := root + [BackendWorkspace, BackendDir, "src", "db"];
      GetSqliteDbPath(dir) == root + [Workspace, DatabaseDir, DatabaseFile] &&
      LocalBackendDb(dir) == root + [BackendWorkspace, BackendDir, DatabaseFile]
  {
    var backend := root + [BackendWorkspace, BackendDir];
    var dir := root + [BackendWorkspace, BackendDir, "src", "db"];
    assert dir == backend + ["src", "db"];
    AncestorOfExtension(backend, ["src", "db"]);
    AncestorOfExtension(root, [BackendWorkspace, BackendDir, "src", "db"]);
    assert backend + [DatabaseFile] == root + [BackendWorkspace, BackendDir, DatabaseFile];
  }
}
