/** Registered services, the tools they expose and the approvals operators gave: three stores as one value. */
module ServiceWorld {
  import opened Prelude

  datatype Tool = Tool(name: string, decl: string)

  /** A fetched manifest: its tools, and the rest of what a fingerprint covers. */
  datatype Manifest = Manifest(tools: seq<Tool>, rest: string)

  datatype Status = Pending | Approved | PendingReapproval | Revoked

  datatype Tier = Managed | External

  datatype Entry = Entry(
    tier: Tier, title: string, url: string, capabilities: seq<string>,
    healthy: bool, manifest: Option<Manifest>, registeredTools: seq<string>, approvalStatus: Status)

  datatype Approval = Approval(status: Status, fingerprint: Option<string>)

  datatype HttpTool = HttpTool(serviceId: string, decl: string)

  /** The hash of a manifest with the service's capabilities and identity, as an opaque function. */
  type Fingerprint = (Manifest, seq<string>, Tier, string) -> string

  datatype World = World(
    services: map<string, Entry>, toolMap: map<string, HttpTool>, approvals: map<string, Approval>)

  function FreshEntry(tier: Tier, title: string, url: string, capabilities: seq<string>): Entry
  {
    Entry(tier, title, url, capabilities, true, None, [], Status.Pending)
  }

  function NamesOf(tools: seq<Tool>): (names: seq<string>)
    ensures |names| == |tools|
  {
    seq(|tools|, i requires 0 <= i < |tools| => tools[i].name)
  }

  /** `toolMap.set` for each tool in turn. */
  function WithTools(toolMap: map<string, HttpTool>, id: string, tools: seq<Tool>): map<string, HttpTool>
  {
    if tools == [] then toolMap
    else
      var n := |tools| - 1;
      WithTools(toolMap, id, tools[..n])[tools[n].name := HttpTool(id, tools[n].decl)]
  }

  function WithoutTools(toolMap: map<string, HttpTool>, id: string): map<string, HttpTool>
  {
    map name | name in toolMap && toolMap[name].serviceId != id :: toolMap[name]
  }

  function Updated(services: map<string, Entry>, id: string, f: Entry -> Entry): map<string, Entry>
  {
    if id in services then services[id := f(services[id])] else services
  }

  // ----- Operations of the single stores, on the whole world -----

  function Registered(w: World, id: string, e: Entry): World
  {
    if id in w.services then w else w.(services := w.services[id := e])
  }

  function ToolsRegistered(w: World, id: string, m: Manifest): World
  {
    w.(toolMap := WithTools(w.toolMap, id, m.tools),
       services := Updated(w.services, id, (e: Entry) => e.(registeredTools := e.registeredTools + NamesOf(m.tools))))
  }

  function ToolsDropped(w: World, id: string): World
  {
    w.(toolMap := WithoutTools(w.toolMap, id),
       services := Updated(w.services, id, (e: Entry) => e.(registeredTools := [])))
  }

  /** Removing an entry makes the tool registry drop the service's tools. */
  function Deregistered(w: World, id: string): World
  {
    if id in w.services then ToolsDropped(w.(services := w.services - {id}), id) else w
  }

  function StatusSet(w: World, id: string, status: Status): World
  {
    w.(services := Updated(w.services, id, (e: Entry) => e.(approvalStatus := status)))
  }

  function HealthSet(w: World, id: string, healthy: bool): World
  {
    w.(services := Updated(w.services, id, (e: Entry) => e.(healthy := healthy)))
  }

  function ManifestStored(w: World, id: string, m: Manifest): World
  {
    w.(services := Updated(w.services, id, (e: Entry) => e.(manifest := Some(m))))
  }

  function Upserted(w: World, id: string, status: Status, fingerprint: Option<string>): World
  {
    w.(approvals := w.approvals[id := Approval(status, fingerprint)])
  }

  /** Revoking keeps the fingerprint that was approved. */
  function ApprovalRevoked(w: World, id: string): World
  {
    w.(approvals := w.approvals[id :=
      Approval(Revoked, if id in w.approvals then w.approvals[id].fingerprint else None)])
  }
}
