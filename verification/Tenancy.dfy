/** Which database a SQLite connect opens (`_get_sqlite_connection`), as a path and as the file that the
    path leads to. */
module Tenancy {
  import opened Common
  import opened Text

  const DEFAULT_DB_PATH := "pygo.db"

  /** Python truth of an optional string: None and "" are both false. */
  predicate Truthy(s: Option<string>) { s.Some? && s.value != "" }

  function TenantPath(tenant: string): string { "pygo_" + tenant + ".db" }

  function DbPath(dbPath: Option<string>, tenant: Option<string>,
                  current: Option<string>, environment: Option<string>): string {
    if Truthy(dbPath) then dbPath.value
    else if Truthy(tenant) then TenantPath(tenant.value)
    else if Truthy(current) then TenantPath(current.value)
    else if Truthy(environment) then environment.value
    else DEFAULT_DB_PATH
  }

  /** The path of a connect, by what is given and not empty: an explicit path before an explicit tenant, that
      before the current one, that before the configured default, and "pygo.db" when there is nothing. */
  lemma FirstGivenDecides(dbPath: Option<string>, tenant: Option<string>, current: Option<string>,
                          environment: Option<string>)
    ensures forall p :: dbPath == Some(p) && p != "" ==> DbPath(dbPath, tenant, current, environment) == p
    ensures dbPath == None || dbPath == Some("") ==>
      && DbPath(dbPath, tenant, current, environment) == DbPath(None, tenant, current, environment)
      && forall t :: tenant == Some(t) && t != "" ==> DbPath(None, tenant, current, environment) == "pygo_" + t + ".db"
    ensures tenant == None || tenant == Some("") ==>
      && DbPath(None, tenant, current, environment) == DbPath(None, None, current, environment)
      && forall t :: current == Some(t) && t != "" ==> DbPath(None, None, current, environment) == "pygo_" + t + ".db"
    ensures current == None || current == Some("") ==>
      DbPath(None, None, current, environment) ==
      if environment.Some? && environment.value != "" then environment.value else "pygo.db"
  {
  }

  // ---- From paths to files ----

  /** A database file, by the names on the way from the root, or a database of the connection's own. */
  datatype Place = File(names: seq<string>) | Private

  function Enter(at: seq<string>, name: string): seq<string> {
    if name == "" || name == "." then at
    else if name == ".." then (if at == [] then at else at[..|at| - 1])
    else at + [name]
  }

  function Walk(at: seq<string>, names: seq<string>): seq<string>
    decreases |names|
  {
    if names == [] then at else Walk(Enter(at, names[0]), names[1..])
  }

  /** Where a path leads from the working directory when every directory on it exists. */
  function Resolve(cwd: seq<string>, path: string): seq<string> {
    Walk(if path != "" && path[0] == '/' then [] else cwd, Split(path, '/'))
  }

  /** `sqlite3.connect`: an empty name and ":memory:" name no file. */
  function Opens(cwd: seq<string>, path: string): Place {
    if path == "" || path == ":memory:" then Private else File(Resolve(cwd, path))
  }

  /** Relative paths start at the working directory and absolute ones at the root; "." and nothing stay where they
      are, ".." goes up, at the root too, and any other name goes down. */
  lemma ResolveMeans(cwd: seq<string>, at: seq<string>, path: string, name: string)
    ensures Opens(cwd, "") == Private && Opens(cwd, ":memory:") == Private
    ensures path != "" && path != ":memory:" ==>
      Opens(cwd, path) == File(Walk(if path[0] == '/' then [] else cwd, Split(path, '/')))
    ensures Walk(at, []) == at && Walk(at, ["."]) == at && Walk(at, [""]) == at
    ensures Walk(at, [".."]) == (if at == [] then [] else at[..|at| - 1])
    ensures name != "" && name != "." && name != ".." ==> Walk(at, [name]) == at + [name]
  {
    WalkOne(at, ".");
    WalkOne(at, "");
    WalkOne(at, "..");
    WalkOne(at, name);
  }

  function TenantFile(cwd: seq<string>, tenant: string): seq<string> { Resolve(cwd, TenantPath(tenant)) }

  /** What a connect opens that is made for the current tenant, or for none. */
  function DefaultOpens(cwd: seq<string>, current: Option<string>, environment: Option<string>): Place {
    Opens(cwd, DbPath(None, None, current, environment))
  }

  predicate Shares(p: Place, q: Place) { p.File? && p == q }

  predicate SlashFree(tenant: string) { '/' !in tenant }

  lemma {:induction false} WalkAppend(at: seq<string>, a: seq<string>, b: seq<string>)
    ensures Walk(at, a + b) == Walk(Walk(at, a), b)
    decreases |a|
  {
    if a == [] {
      assert a + b == b;
    } else {
      assert (a + b)[1..] == a[1..] + b;
      WalkAppend(Enter(at, a[0]), a[1..], b);
    }
  }

  lemma WalkOne(at: seq<string>, name: string)
    ensures Walk(at, [name]) == Enter(at, name)
  {
    assert [name][1..] == [];
  }

  lemma TenantPathInjective(a: string, b: string)
    requires TenantPath(a) == TenantPath(b)
    ensures a == b
  {
    var p := TenantPath(a);
    assert |a| == |b|;
    assert p[5..5 + |a|] == a;
    assert TenantPath(b)[5..5 + |b|] == b;
  }

  lemma TenantPathShape(tenant: string)
    ensures var p := TenantPath(tenant);
      |p| >= 8 && p[0] == 'p' && p != ":memory:" && (SlashFree(tenant) ==> '/' !in p)
  {
    assert TenantPath(tenant)[0] == 'p' && ":memory:"[0] == ':';
  }

  lemma SlashFreeFile(cwd: seq<string>, tenant: string)
    requires SlashFree(tenant)
    ensures TenantFile(cwd, tenant) == cwd + [TenantPath(tenant)]
  {
    TenantPathShape(tenant);
    SplitOnePiece(TenantPath(tenant), '/');
    WalkOne(cwd, TenantPath(tenant));
  }

  lemma {:induction false} WalkWithout(at: seq<string>, names: seq<string>)
    requires Without(at, '/') && Without(names, '/')
    ensures Without(Walk(at, names), '/')
    decreases |names|
  {
    if names != [] { WalkWithout(Enter(at, names[0]), names[1..]); }
  }

  /** A tenant's file is the one named after it in the working directory exactly if its name has no
      slash. */
  lemma OwnFileIff(cwd: seq<string>, tenant: string)
    requires Without(cwd, '/')
    ensures TenantFile(cwd, tenant) == cwd + [TenantPath(tenant)] <==> SlashFree(tenant)
  {
    if SlashFree(tenant) {
      SlashFreeFile(cwd, tenant);
    } else {
      var p := TenantPath(tenant);
      TenantPathShape(tenant);
      SplitHasNoSeparator(p, '/');
      WalkWithout(cwd, Split(p, '/'));
      var i :| 0 <= i < |tenant| && tenant[i] == '/';
      assert p[5 + i] == '/';
      assert (cwd + [p])[|cwd|] == p;
    }
  }

  /** A tenant without slash shares its file with another such tenant only if they are the same, and
      with a tenant that has slashes exactly if that one's path leads to the file named after the
      first. */
  lemma TenantsShareIff(cwd: seq<string>, a: string, b: string)
    requires SlashFree(a)
    ensures TenantFile(cwd, a) == TenantFile(cwd, b) <==>
            if SlashFree(b) then a == b else TenantFile(cwd, b) == cwd + [TenantPath(a)]
  {
    SlashFreeFile(cwd, a);
    if SlashFree(b) {
      SlashFreeFile(cwd, b);
      if cwd + [TenantPath(a)] == cwd + [TenantPath(b)] {
        assert (cwd + [TenantPath(a)])[|cwd|] == (cwd + [TenantPath(b)])[|cwd|];
        TenantPathInjective(a, b);
      }
    }
  }

  // ---- Where isolation by path fails ----

  /** Doubling a slash changes the tenant but not its file. */
  lemma DoubledSlashShares(cwd: seq<string>, x: string, y: string)
    ensures TenantFile(cwd, x + "//" + y) == TenantFile(cwd, x + "/" + y)
  {
    var u, v := "pygo_" + x, y + ".db";
    assert TenantPath(x + "/" + y) == u + ['/'] + v;
    assert TenantPath(x + "//" + y) == u + ['/'] + ("" + ['/'] + v);
    SplitAppend(u, v, '/');
    SplitAppend(u, "" + ['/'] + v, '/');
    SplitAppend("", v, '/');
    var names := Split(u, '/');
    WalkAppend(cwd, names, Split(v, '/'));
    WalkAppend(cwd, names, [""] + Split(v, '/'));
    WalkAppend(Walk(cwd, names), [""], Split(v, '/'));
    WalkOne(Walk(cwd, names), "");
    assert TenantPath(x + "/" + y)[0] == 'p' && TenantPath(x + "//" + y)[0] == 'p';
  }

  /** A tenant can name another one's file by going through a directory and back. */
  lemma ThroughParentShares(cwd: seq<string>, through: string, tenant: string)
    requires SlashFree(through) && SlashFree(tenant)
    ensures TenantFile(cwd, through + "/../pygo_" + tenant) == TenantFile(cwd, tenant)
  {
    var dir, file := "pygo_" + through, TenantPath(tenant);
    var p := TenantPath(through + "/../pygo_" + tenant);
    TenantPathShape(tenant);
    assert p == dir + ['/'] + (".." + ['/'] + file) && p[0] == 'p';
    SplitFirst(dir, ".." + ['/'] + file, '/');
    SplitFirst("..", file, '/');
    SplitOnePiece(file, '/');
    WalkAppend(cwd, [dir], [".."] + [file]);
    WalkAppend(Walk(cwd, [dir]), [".."], [file]);
    WalkOne(cwd, dir);
    assert |dir| >= 5;
    WalkOne(cwd + [dir], "..");
    assert (cwd + [dir])[..|cwd|] == cwd;
    SlashFreeFile(cwd, tenant);
    WalkOne(cwd, file);
  }

  /** So no tenant is isolated from all others: the absence of slashes has to be checked on both. */
  lemma EveryTenantIsShared(cwd: seq<string>, tenant: string) returns (other: string)
    ensures other != tenant && !SlashFree(other) && TenantFile(cwd, other) == TenantFile(cwd, tenant)
  {
    if SlashFree(tenant) {
      other := "x/../pygo_" + tenant;
      assert "x" + "/../pygo_" + tenant == other && other[1] == '/';
      ThroughParentShares(cwd, "x", tenant);
    } else {
      var i :| 0 <= i < |tenant| && tenant[i] == '/';
      other := tenant[..i] + "//" + tenant[i + 1..];
      assert tenant == tenant[..i] + "/" + tenant[i + 1..];
      assert other[i] == '/' && |other| == |tenant| + 1;
      DoubledSlashShares(cwd, tenant[..i], tenant[i + 1..]);
    }
  }

  /** Two of them: tenants "a//b" and "a/b", and "data/../pygo_acme" and "acme". */
  lemma CollidingTenants(cwd: seq<string>)
    ensures TenantFile(cwd, "a//b") == TenantFile(cwd, "a/b")
    ensures TenantFile(cwd, "data/../pygo_acme") == TenantFile(cwd, "acme")
  {
    DoubledSlashShares(cwd, "a", "b");
    assert "a" + "//" + "b" == "a//b" && "a" + "/" + "b" == "a/b";
    ThroughParentShares(cwd, "data", "acme");
    assert "data" + "/../pygo_" + "acme" == "data/../pygo_acme";
  }

  // ---- Connects with and without a tenant ----

  /** Two default connects share a file exactly if: they run for the same tenant, when both tenants are
      without slash; for tenants with slashes, if their paths lead to the same file; for a tenant and
      none, if the configured default leads to the tenant's file; for none and none, if the default
      names a file at all. */
  lemma DefaultConnectsShareFileIff(cwd: seq<string>, a: Option<string>, b: Option<string>, environment: Option<string>)
    ensures Shares(DefaultOpens(cwd, a, environment), DefaultOpens(cwd, b, environment)) <==>
      if Truthy(a) && Truthy(b) then
        if SlashFree(a.value) && SlashFree(b.value) then a == b
          else TenantFile(cwd, a.value) == TenantFile(cwd, b.value)
      else if Truthy(a) then DefaultOpens(cwd, None, environment) == File(TenantFile(cwd, a.value))
      else if Truthy(b) then DefaultOpens(cwd, None, environment) == File(TenantFile(cwd, b.value))
      else DefaultOpens(cwd, None, environment).File?
  {
    if Truthy(a) { TenantPathShape(a.value); }
    if Truthy(b) { TenantPathShape(b.value); }
    if Truthy(a) && Truthy(b) && SlashFree(a.value) { TenantsShareIff(cwd, a.value, b.value); }
  }

  /** The default configured as "./" and a tenant's file name is the tenant's file. */
  lemma DotSlashDefaultIsTenants(cwd: seq<string>, tenant: string)
    requires SlashFree(tenant)
    ensures DefaultOpens(cwd, None, Some("./" + TenantPath(tenant))) == File(TenantFile(cwd, tenant))
  {
    var file := TenantPath(tenant);
    TenantPathShape(tenant);
    SlashFreeFile(cwd, tenant);
    assert "./" + file == "." + ['/'] + file && ("./" + file)[0] == '.';
    SplitFirst(".", file, '/');
    SplitOnePiece(file, '/');
    WalkAppend(cwd, ["."], [file]);
    WalkOne(cwd, ".");
    WalkOne(cwd, file);
  }

  /** So is its absolute path. */
  lemma AbsoluteDefaultIsTenants(cwd: seq<string>, tenant: string)
    requires SlashFree(tenant)
    requires forall i :: 0 <= i < |cwd| ==> '/' !in cwd[i] && cwd[i] != "" && cwd[i] != "." && cwd[i] != ".."
    ensures DefaultOpens(cwd, None, Some("/" + Join(cwd + [TenantPath(tenant)], '/'))) == File(TenantFile(cwd, tenant))
  {
    TenantPathShape(tenant);
    SlashFreeFile(cwd, tenant);
    PlainNames(cwd, TenantPath(tenant));
    var names := cwd + [TenantPath(tenant)];
    AbsoluteResolves(names, cwd);
    StartsWithSlash(Join(names, '/'));
  }

  lemma StartsWithSlash(rest: string)
    ensures "/" + rest != "" && "/" + rest != ":memory:"
  {
    assert ("/" + rest)[0] == '/' && ":memory:"[0] == ':';
  }

  lemma PlainNames(cwd: seq<string>, last: string)
    requires forall i :: 0 <= i < |cwd| ==> '/' !in cwd[i] && cwd[i] != "" && cwd[i] != "." && cwd[i] != ".."
    requires '/' !in last && |last| > 2
    ensures Without(cwd + [last], '/') && NoDots(cwd + [last])
  {
  }

  predicate NoDots(names: seq<string>) {
    forall i :: 0 <= i < |names| ==> names[i] != "" && names[i] != "." && names[i] != ".."
  }

  lemma AbsoluteResolves(names: seq<string>, cwd: seq<string>)
    requires names != [] && Without(names, '/') && NoDots(names)
    ensures Resolve(cwd, "/" + Join(names, '/')) == names
  {
    var rest := Join(names, '/');
    assert "/" + rest == "" + ['/'] + rest && ("/" + rest)[0] == '/';
    SplitFirst("", rest, '/');
    SplitOfJoin(names, '/');
    WalkAppend([], [""], names);
    WalkOne([], "");
    WalkPlain([], names);
    assert [] + names == names;
  }

  lemma {:induction false} WalkPlain(at: seq<string>, names: seq<string>)
    requires NoDots(names)
    ensures Walk(at, names) == at + names
    decreases |names|
  {
    if names == [] {
      assert at + names == at;
    } else {
      WalkPlain(at + [names[0]], names[1..]);
      assert at + [names[0]] + names[1..] == at + names;
    }
  }
}
