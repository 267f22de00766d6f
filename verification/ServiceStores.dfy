/** The stores as objects: service registry, tool registry and approval store. */
module ServiceStores {
  import opened Prelude
  import opened ServiceWorld

  class ServiceRegistry {
    var services: map<string, Entry>

    constructor ()
      ensures services == map[]
    {
      services := map[];
    }

    /** Fails, changing nothing, when the id is taken. */
    method Register(id: string, entry: Entry) returns (ok: bool)
      modifies this
      ensures ok <==> id !in old(services)
      ensures services == if ok then old(services)[id := entry] else old(services)
    {
      ok := id !in services;
      if ok {
        services := services[id := entry];
      }
    }

    /** Tells whether there was something to deregister, which is when the event is emitted. */
    method Deregister(id: string) returns (emitted: bool)
      modifies this
      ensures emitted <==> id in old(services)
      ensures services == old(services) - {id}
    {
      emitted := id in services;
      services := services - {id};
    }

    method MarkUnhealthy(id: string)
      modifies this
      ensures services == Updated(old(services), id, (e: Entry) => e.(healthy := false))
    {
      if id in services {
        services := services[id := services[id].(healthy := false)];
      }
    }

    method MarkHealthy(id: string)
      modifies this
      ensures services == Updated(old(services), id, (e: Entry) => e.(healthy := true))
    {
      if id in services {
        services := services[id := services[id].(healthy := true)];
      }
    }

    method SetApprovalStatus(id: string, status: Status)
      modifies this
      ensures services == Updated(old(services), id, (e: Entry) => e.(approvalStatus := status))
    {
      if id in services {
        services := services[id := services[id].(approvalStatus := status)];
      }
    }

    method StoreManifest(id: string, m: Manifest)
      modifies this
      ensures services == Updated(old(services), id, (e: Entry) => e.(manifest := Some(m)))
    {
      if id in services {
        services := services[id := services[id].(manifest := Some(m))];
      }
    }

    method SetTools(id: string, tools: seq<string>)
      modifies this
      ensures services == Updated(old(services), id, (e: Entry) => e.(registeredTools := tools))
    {
      if id in services {
        services := services[id := services[id].(registeredTools := tools)];
      }
    }
  }

  class ServiceToolRegistry {
    const serviceRegistry: ServiceRegistry
    var toolMap: map<string, HttpTool>

    constructor (registry: ServiceRegistry)
      ensures serviceRegistry == registry && toolMap == map[]
    {
      serviceRegistry := registry;
      toolMap := map[];
    }

    method RegisterServiceTools(id: string, m: Manifest) returns (registered: seq<string>)
      modifies this, serviceRegistry
      ensures registered == NamesOf(m.tools)
      ensures toolMap == WithTools(old(toolMap), id, m.tools)
      ensures serviceRegistry.services
           == Updated(old(serviceRegistry.services), id,
                      (e: Entry) => e.(registeredTools := e.registeredTools + NamesOf(m.tools)))
    {
      registered := [];
      for i := 0 to |m.tools|
        invariant registered == NamesOf(m.tools[..i])
        invariant toolMap == WithTools(old(toolMap), id, m.tools[..i])
        invariant serviceRegistry.services == old(serviceRegistry.services)
      {
        assert m.tools[..i + 1][..i] == m.tools[..i];
        toolMap := toolMap[m.tools[i].name := HttpTool(id, m.tools[i].decl)];
        registered := registered + [m.tools[i].name];
      }
      assert m.tools[..|m.tools|] == m.tools;
      if id in serviceRegistry.services {
        serviceRegistry.SetTools(id, serviceRegistry.services[id].registeredTools + registered);
      }
    }

    method DeregisterServiceTools(id: string)
      modifies this, serviceRegistry
      ensures toolMap == WithoutTools(old(toolMap), id)
      ensures serviceRegistry.services
           == Updated(old(serviceRegistry.services), id, (e: Entry) => e.(registeredTools := []))
    {
      var left := toolMap.Keys;
      ghost var before := toolMap;
      while left != {}
        invariant left <= before.Keys
        invariant toolMap == map name | name in before && (name in left || before[name].serviceId != id) :: before[name]
        invariant serviceRegistry.services == old(serviceRegistry.services)
        decreases left
      {
        var name :| name in left;
        left := left - {name};
        if toolMap[name].serviceId == id {
          toolMap := toolMap - {name};
        }
      }
      serviceRegistry.SetTools(id, []);
    }
  }

  class ServiceApprovalStore {
    var rows: map<string, Approval>

    constructor ()
      ensures rows == map[]
    {
      rows := map[];
    }

    method Upsert(id: string, status: Status, fingerprint: Option<string>)
      modifies this
      ensures rows == old(rows)[id := Approval(status, fingerprint)]
    {
      rows := rows[id := Approval(status, fingerprint)];
    }

    method Approve(id: string, fingerprint: string)
      modifies this
      ensures rows == old(rows)[id := Approval(Approved, Some(fingerprint))]
    {
      rows := rows[id := Approval(Approved, Some(fingerprint))];
    }

    method Revoke(id: string)
      modifies this
      ensures rows == old(rows)[id := Approval(Revoked, if id in old(rows) then old(rows)[id].fingerprint else None)]
    {
      if id in rows {
        rows := rows[id := rows[id].(status := Revoked)];
      } else {
        rows := rows[id := Approval(Revoked, None)];
      }
    }
  }
}
