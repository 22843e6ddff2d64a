/** From the arguments of a request to the file its handler's default connect opens: `dispatch` of
    core/runtime/pyclient/__init__.py together with `_get_sqlite_connection` of core/runtime/db.py. */
module DispatchTenants {
  import opened Common
  import opened Text
  import opened Dispatch
  import Tenancy

  /** A handler that connects without a path or a tenant of its own and answers with the path it opened. */
  ghost predicate Connecting(h: Handler, environment: Option<string>) {
    && h.signature.Params?
    && forall tenant: Value, clean: Args :: tenant.Str? || tenant.Null? ==>
         h.call(tenant, clean) ==
         Returns(Str(Tenancy.DbPath(None, None, if tenant.Str? then Some(tenant.s) else None, environment)))
  }

  /** Whatever the process served before, a connecting handler opens the database of the tenant in its
      own request's arguments; without one, or with an empty one, the configured or the built-in default. */
  method OpensOwnDatabase(process: Process, handler: string, args: Args, environment: Option<string>)
    returns (reply: Reply)
    requires handler in process.handlers && Callable(process.handlers, handler)
    requires Connecting(process.handlers[handler], environment)
    requires "tenant" in args ==> args["tenant"].Str? || args["tenant"].Null?
    modifies process
    ensures reply.error == None && reply.result.Str?
    ensures forall tenant :: "tenant" in args && args["tenant"] == Str(tenant) && tenant != "" ==>
      reply.result.s == "pygo_" + tenant + ".db"
    ensures "tenant" !in args || args["tenant"] == Null || args["tenant"] == Str("") ==>
      reply.result.s == if environment.Some? && environment.value != "" then environment.value else "pygo.db"
  {
    ghost var clean;
    reply, clean := process.Dispatch(handler, args);
  }

  /** Two requests in a row with the tenants a and b are served under a and b: their handlers open the
      files named after a and after b, and these are different files if a and b are. */
  method TwoTenants(process: Process, first: string, second: string, argsA: Args, argsB: Args,
                    a: string, b: string, environment: Option<string>, cwd: seq<string>)
    returns (replyA: Reply, replyB: Reply)
    requires first in process.handlers && Callable(process.handlers, first)
    requires second in process.handlers && Callable(process.handlers, second)
    requires Connecting(process.handlers[first], environment) && Connecting(process.handlers[second], environment)
    requires "tenant" in argsA && argsA["tenant"] == Str(a) && a != "" && '/' !in a
    requires "tenant" in argsB && argsB["tenant"] == Str(b) && b != "" && '/' !in b
    modifies process
    ensures replyA.result.Str? && Tenancy.Opens(cwd, replyA.result.s) == Tenancy.File(cwd + ["pygo_" + a + ".db"])
    ensures replyB.result.Str? && Tenancy.Opens(cwd, replyB.result.s) == Tenancy.File(cwd + ["pygo_" + b + ".db"])
    ensures a != b ==> Tenancy.Opens(cwd, replyA.result.s) != Tenancy.Opens(cwd, replyB.result.s)
    ensures process.tenant == Str(b)
  {
    replyA := OpensOwnDatabase(process, first, argsA, environment);
    ghost var clean;
    replyB, clean := process.Dispatch(second, argsB);
    Tenancy.SlashFreeFile(cwd, a);
    Tenancy.SlashFreeFile(cwd, b);
    Tenancy.TenantPathShape(a);
    Tenancy.TenantPathShape(b);
    if a != b {
      Tenancy.TenantsShareIff(cwd, a, b);
    }
  }
}
