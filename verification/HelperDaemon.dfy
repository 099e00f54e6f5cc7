/**
 The commands of the elevated helper: what each one does to the firewall and the
 route table, and which requests get that far.
 */
module HelperDaemon {
  import opened Wrappers

  /** A static route as route.exe keeps it. */
  datatype Route = Route(dest: string, mask: string, gateway: string)

  /** `engines` are the programs the outbound allow rule names. */
  datatype Os = Os(blocked: bool, engines: set<string>, loopback: bool, routes: set<Route>)

  /** One run of netsh.exe or route.exe. */
  datatype Command =
    | SetPolicy(block: bool)
    | AllowEngine(path: string)
    | AllowLoopback
    | DropEngineRule
    | DropLoopbackRule
    | AddToTable(route: Route)
    | DeleteFromTable(dest: string)

  function Apply(os: Os, c: Command): Os {
    match c
    case SetPolicy(block) => os.(blocked := block)
    case AllowEngine(path) => os.(engines := os.engines + {path})
    case AllowLoopback => os.(loopback := true)
    case DropEngineRule => os.(engines := {})
    case DropLoopbackRule => os.(loopback := false)
    case AddToTable(route) => os.(routes := os.routes + {route})
    case DeleteFromTable(dest) => os.(routes := set r | r in os.routes && r.dest != dest)
  }

  datatype Network = Network(dest: string, mask: string)

  /** What the tools and parsers answer: `fails` gives the error of a run that fails, which then changes nothing. */
  datatype Tools = Tools(fails: Command -> Option<string>, cidr: string -> Result<Network>, gateway: string -> Result<string>)

  function Tried(os: Os, c: Command, tools: Tools): Os {
    if tools.fails(c).Some? then os else Apply(os, c)
  }

  // ---- Requests -------------------------------------------------------------

  /** A decoded request; a parameter of the wrong type is absent. */
  datatype Request = Request(
    id: int, token: string, command: string,
    enabled: Option<bool>, cidr: Option<string>, gateway: Option<string>, appPath: Option<string>)

  datatype Response = Response(id: int, ok: bool, error: string)

  // The three requests the client sends.

  function SetKillSwitch(id: int, token: string, on: bool, appPath: string): Request {
    Request(id, token, "killSwitch", Some(on), None, None, Some(appPath))
  }

  function AddRoute(id: int, token: string, cidr: string, gateway: string): Request {
    Request(id, token, "addRoute", None, Some(cidr), Some(gateway), None)
  }

  function RemoveRoute(id: int, token: string, cidr: string): Request {
    Request(id, token, "removeRoute", None, Some(cidr), None, None)
  }

  // ---- What each command does -----------------------------------------------

  /** How a command ends, and the system it leaves. */
  datatype Done = Done(error: Option<string>, os: Os)

  function RunOne(os: Os, c: Command, tools: Tools): Done { Done(tools.fails(c), Tried(os, c, tools)) }

  /** The next command, unless one has failed. */
  function Then(before: Done, c: Command, tools: Tools): Done {
    if before.error.Some? then before else RunOne(before.os, c, tools)
  }

  function Enabled(os: Os, path: string, tools: Tools): Done {
    var policy := RunOne(os, SetPolicy(true), tools);
    var engine := if path != "" then Then(policy, AllowEngine(path), tools) else policy;
    Then(engine, AllowLoopback, tools)
  }

  /** Rules that cannot be deleted are left, and nobody is told. */
  function Disabled(os: Os, tools: Tools): Done {
    var lifted := RunOne(os, SetPolicy(false), tools);
    if lifted.error.Some? then lifted
    else Done(None, Tried(Tried(lifted.os, DropEngineRule, tools), DropLoopbackRule, tools))
  }

  function RouteAdded(os: Os, cidr: string, gateway: string, tools: Tools): Done {
    var net, gw := tools.cidr(cidr), tools.gateway(gateway);
    if net.Err? then Done(Some(net.error), os)
    else if gw.Err? then Done(Some(gw.error), os)
    else RunOne(os, AddToTable(Route(net.value.dest, net.value.mask, gw.value)), tools)
  }

  function RouteDeleted(os: Os, cidr: string, tools: Tools): Done {
    var net := tools.cidr(cidr);
    if net.Err? then Done(Some(net.error), os) else RunOne(os, DeleteFromTable(net.value.dest), tools)
  }

  function Answer(id: int, error: Option<string>): Response {
    if error.Some? then Response(id, false, error.value) else Response(id, true, "")
  }

  datatype Served = Served(response: Response, os: Os)

  /** `path` is the verified image of the peer. */
  function Dispatched(os: Os, r: Request, path: string, token: string, tools: Tools): Served {
    if r.token != token then Served(Response(r.id, false, "unauthorized"), os)
    else if r.command == "ping" then Served(Response(r.id, true, ""), os)
    else if r.command == "killSwitch" then
      var done := if r.enabled == Some(true) then Enabled(os, path, tools) else Disabled(os, tools);
      Served(Answer(r.id, done.error), done.os)
    else if r.command == "addRoute" then
      var done := RouteAdded(os, r.cidr.GetOrElse(""), r.gateway.GetOrElse(""), tools);
      Served(Answer(r.id, done.error), done.os)
    else if r.command == "removeRoute" then
      var done := RouteDeleted(os, r.cidr.GetOrElse(""), tools);
      Served(Answer(r.id, done.error), done.os)
    else Served(Response(r.id, false, "unknown method: " + r.command), os)
  }

  // ---- What the client's requests mean --------------------------------------

  lemma EnabledByValue(os: Os, path: string, tools: Tools)
    ensures var done, policy := Enabled(os, path, tools), tools.fails(SetPolicy(true));
            && (done.error.None? <==>
                  policy.None? && tools.fails(AllowLoopback).None? && (path != "" ==> tools.fails(AllowEngine(path)).None?))
            && (done.error.None? ==> done.os == os.(blocked := true, loopback := true,
                                                    engines := if path != "" then os.engines + {path} else os.engines))
            && done.os.blocked == (os.blocked || policy.None?)
            && done.os.routes == os.routes
  {
  }

  /**
   The client's setKillSwitch(on), with the right token and whatever path it names:
   an ok answer means that the firewall blocks exactly if `on`, and that switching on
   let the verified image and the loopback through; routes are left alone.
   */
  lemma KillSwitchRequestSetsTheBlock(os: Os, id: int, token: string, on: bool, appPath: string, path: string, tools: Tools)
    requires path != ""
    ensures var served := Dispatched(os, SetKillSwitch(id, token, on, appPath), path, token, tools);
            && served.response.id == id && served.os.routes == os.routes && (served.response.ok ==> served.response.error == "")
            && (served.response.ok ==>
                  && served.os.blocked == on
                  && (on ==> served.os.loopback && served.os.engines == os.engines + {path})
                  && (!on && tools.fails(DropEngineRule).None? ==> served.os.engines == {})
                  && (!on && tools.fails(DropLoopbackRule).None? ==> !served.os.loopback))
            && (served.response.ok <==>
                  if on then
                    && tools.fails(SetPolicy(true)).None? && tools.fails(AllowEngine(path)).None?
                    && tools.fails(AllowLoopback).None?
                  else tools.fails(SetPolicy(false)).None?)
  {
    EnabledByValue(os, path, tools);
  }

  /** After switching on, the verified image is the only engine let through, exactly if no other was before. */
  lemma OnlyTheVerifiedImageExactly(os: Os, id: int, token: string, appPath: string, path: string, tools: Tools)
    requires path != ""
    ensures var served := Dispatched(os, SetKillSwitch(id, token, true, appPath), path, token, tools);
            served.response.ok ==> (served.os.engines == {path} <==> os.engines <= {path})
  {
    EnabledByValue(os, path, tools);
  }

  /** Switching on can fail and block all the same: exactly if the policy was set before the failure, or already. */
  lemma ARefusedBlockMayBlock(os: Os, id: int, token: string, appPath: string, path: string, tools: Tools)
    ensures var served := Dispatched(os, SetKillSwitch(id, token, true, appPath), path, token, tools);
            !served.response.ok ==> (served.os.blocked <==> os.blocked || tools.fails(SetPolicy(true)).None?)
  {
    EnabledByValue(os, path, tools);
  }

  predicate CanAdd(cidr: string, gateway: string, tools: Tools) {
    && tools.cidr(cidr).Ok? && tools.gateway(gateway).Ok?
    && var net := tools.cidr(cidr).value; tools.fails(AddToTable(Route(net.dest, net.mask, tools.gateway(gateway).value))).None?
  }

  /** The client's addRoute puts that network with that gateway in the table, exactly if both parse and the tool runs. */
  lemma AddRouteRequest(os: Os, id: int, token: string, cidr: string, gateway: string, path: string, tools: Tools)
    ensures var served := Dispatched(os, AddRoute(id, token, cidr, gateway), path, token, tools);
            && served.response.id == id && (served.response.ok <==> CanAdd(cidr, gateway, tools))
            && (served.response.ok ==>
                  var net := tools.cidr(cidr).value;
                  served.os == os.(routes := os.routes + {Route(net.dest, net.mask, tools.gateway(gateway).value)}))
            && (!served.response.ok ==> served.os == os)
  {
  }

  /** The client's removeRoute takes every route to that network out, exactly if it parses and the tool runs. */
  lemma RemoveRouteRequest(os: Os, id: int, token: string, cidr: string, path: string, tools: Tools)
    ensures var served := Dispatched(os, RemoveRoute(id, token, cidr), path, token, tools);
            && served.response.id == id
            && (served.response.ok <==> tools.cidr(cidr).Ok? && tools.fails(DeleteFromTable(tools.cidr(cidr).value.dest)).None?)
            && (served.response.ok ==>
                  && served.os == os.(routes := served.os.routes)
                  && forall r :: r in served.os.routes <==> r in os.routes && r.dest != tools.cidr(cidr).value.dest)
            && (!served.response.ok ==> served.os == os)
  {
  }

  /** Adding a route and removing it again restores the table, exactly if it held no route to that network. */
  lemma RemoveUndoesAddExactly(os: Os, id: int, token: string, cidr: string, gateway: string, path: string, tools: Tools)
    ensures var added := Dispatched(os, AddRoute(id, token, cidr, gateway), path, token, tools);
            var removed := Dispatched(added.os, RemoveRoute(id + 1, token, cidr), path, token, tools);
            added.response.ok && removed.response.ok ==>
              (removed.os == os <==> forall r :: r in os.routes ==> r.dest != tools.cidr(cidr).value.dest)
  {
    var added := Dispatched(os, AddRoute(id, token, cidr, gateway), path, token, tools);
    var removed := Dispatched(added.os, RemoveRoute(id + 1, token, cidr), path, token, tools);
    if added.response.ok && removed.response.ok {
      var dest := tools.cidr(cidr).value.dest;
      assert forall r :: r in removed.os.routes <==> r in os.routes && r.dest != dest;
      if forall r :: r in os.routes ==> r.dest != dest { assert removed.os.routes == os.routes; }
    }
  }

  /** A wrong token, a ping or a method that does not exist changes nothing, and is answered so. */
  lemma NothingElseActs(os: Os, r: Request, path: string, token: string, tools: Tools)
    requires r.token != token || r.command !in {"killSwitch", "addRoute", "removeRoute"}
    ensures var served := Dispatched(os, r, path, token, tools);
            && served.os == os && served.response.id == r.id
            && (r.token != token ==> served.response == Response(r.id, false, "unauthorized"))
            && (r.token == token && r.command == "ping" ==> served.response == Response(r.id, true, ""))
            && (r.token == token && r.command != "ping" ==>
                  served.response == Response(r.id, false, "unknown method: " + r.command))
  {
  }

  // ---- The helper -----------------------------------------------------------

  class Helper {
    const token: string
    const tools: Tools
    var os: Os

    constructor (token: string, tools: Tools, os: Os)
      ensures this.token == token && this.tools == tools && this.os == os
    {
      this.token, this.tools, this.os := token, tools, os;
    }

    method RunTool(c: Command) returns (error: Option<string>)
      modifies this
      ensures error == tools.fails(c) && os == Tried(old(os), c, tools)
    {
      error := tools.fails(c);
      if error.None? { os := Apply(os, c); }
    }

    /** Blocks first, then lets the engine and the loopback through; the first failure ends it. */
    method EnableKillSwitch(path: string) returns (error: Option<string>)
      modifies this
      ensures Done(error, os) == Enabled(old(os), path, tools)
    {
      error := RunTool(SetPolicy(true));
      if error.Some? { return; }
      if path != "" {
        error := RunTool(AllowEngine(path));
        if error.Some? { return; }
      }
      error := RunTool(AllowLoopback);
    }

    method DisableKillSwitch() returns (error: Option<string>)
      modifies this
      ensures Done(error, os) == Disabled(old(os), tools)
    {
      error := RunTool(SetPolicy(false));
      if error.Some? { return; }
      var _ := RunTool(DropEngineRule);
      var _ := RunTool(DropLoopbackRule);
    }

    method InstallRoute(cidr: string, gateway: string) returns (error: Option<string>)
      modifies this
      ensures Done(error, os) == RouteAdded(old(os), cidr, gateway, tools)
    {
      var net := tools.cidr(cidr);
      if net.Err? { return Some(net.error); }
      var gw := tools.gateway(gateway);
      if gw.Err? { return Some(gw.error); }
      error := RunTool(AddToTable(Route(net.value.dest, net.value.mask, gw.value)));
    }

    method DeleteRoute(cidr: string) returns (error: Option<string>)
      modifies this
      ensures Done(error, os) == RouteDeleted(old(os), cidr, tools)
    {
      var net := tools.cidr(cidr);
      if net.Err? { return Some(net.error); }
      error := RunTool(DeleteFromTable(net.value.dest));
    }

    method Dispatch(r: Request, path: string) returns (resp: Response)
      modifies this
      ensures Served(resp, os) == Dispatched(old(os), r, path, token, tools)
    {
      if r.token != token { return Response(r.id, false, "unauthorized"); }
      if r.command == "ping" { return Response(r.id, true, ""); }
      var error: Option<string>;
      if r.command == "killSwitch" {
        var enabled := r.enabled == Some(true);
        if enabled { error := EnableKillSwitch(path); } else { error := DisableKillSwitch(); }
      } else if r.command == "addRoute" {
        error := InstallRoute(r.cidr.GetOrElse(""), r.gateway.GetOrElse(""));
      } else if r.command == "removeRoute" {
        error := DeleteRoute(r.cidr.GetOrElse(""));
      } else {
        return Response(r.id, false, "unknown method: " + r.command);
      }
      resp := Answer(r.id, error);
    }

    /** One line of the peer, decoded if it is a request: a request is dispatched, anything else is refused. */
    method ServeLine(line: Option<Request>, path: string) returns (resp: Response)
      modifies this
      ensures line.Some? ==> Served(resp, os) == Dispatched(old(os), line.value, path, token, tools)
      ensures line.None? ==> resp == Response(0, false, "invalid json") && os == old(os)
    {
      if line.None? { return Response(0, false, "invalid json"); }
      resp := Dispatch(line.value, path);
    }
  }
}
