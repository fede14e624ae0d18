/**
 * The backend registry of the switchboard proxy: every configured backend
 * with its health flag, and the one backend (if any) that new client
 * connections are routed to.
 */
module Domain {

  /** One configured backend node: its name, address and health-check port. */
  datatype BackendConfig = BackendConfig(name: string, host: string, port: nat, healthcheckPort: nat)

  /** One entry of the status listing served to the admin interface. */
  datatype BackendJSON = BackendJSON(
    name: string, host: string, port: nat, healthcheckPort: nat,
    healthy: bool, active: bool)

  /**
   * A backend node. Backends are compared by identity: two backends with
   * the same configuration are still two entries of the registry.
   */
  class Backend {
    const config: BackendConfig

    constructor (config: BackendConfig)
      ensures this.config == config
    {
      this.config := config;
    }

    /** The identity part of a status entry; the registry fills in the flags. */
    function AsJSON(): (j: BackendJSON) {
      BackendJSON(config.name, config.host, config.port, config.healthcheckPort, false, false)
    }
  }

  /** No registered backend is flagged healthy. */
  ghost predicate NoneHealthy(all: map<Backend, bool>) {
    forall b :: b in all ==> !all[b]
  }

  /**
   * The election invariant: the active backend is a registered healthy one,
   * and there is no active backend exactly when no backend is healthy.
   */
  ghost predicate ElectionInvariant(all: map<Backend, bool>, active: Backend?) {
    && (active != null ==> active in all && all[active])
    && (active == null <==> NoneHealthy(all))
  }

  /** The elements of `s` are pairwise different. */
  ghost predicate Distinct(s: seq<Backend>) {
    forall i, j :: 0 <= i < j < |s| ==> s[i] != s[j]
  }

  /** The status entry of backend `b` with health flag `healthy` when `active` is the active one. */
  function Entry(b: Backend, healthy: bool, active: Backend?): (e: BackendJSON) {
    b.AsJSON().(healthy := healthy, active := active == b)
  }

  class Backends {
    /** Every backend known to the registry, with its health flag. */
    var all: map<Backend, bool>
    /** The backend new connections are routed to, or null. */
    var active: Backend?
    /** The backends whose connections were severed, in order. */
    ghost var Severed: seq<Backend>

    ghost predicate Valid()
      reads this
    {
      ElectionInvariant(all, active)
    }

    /**
     * Registers one fresh backend per configuration entry, all healthy,
     * and elects one of them; there is an active backend unless the
     * configuration is empty.
     */
    constructor (configs: seq<BackendConfig>)
      ensures Valid()
      ensures |all| == |configs|
      ensures forall b :: b in all ==> fresh(b) && all[b] && b.config in configs
      ensures forall i :: 0 <= i < |configs| ==> exists b :: b in all && b.config == configs[i]
      ensures active == null <==> configs == []
      ensures Severed == []
    {
      var registered;
      ghost var created;
      registered, created := Provision(configs);
      all := registered;
      active := null;
      Severed := [];
      new;
      active := NextHealthy();
      forall i | 0 <= i < |configs|
        ensures exists b :: b in all && b.config == configs[i]
      {
        assert created[i] in all;
      }
      if configs != [] {
        assert created[0] in all;
      }
    }

    /**
     * One fresh backend per configuration entry, each flagged healthy;
     * `created` lists them in configuration order.
     */
    static method Provision(configs: seq<BackendConfig>) returns (m: map<Backend, bool>, ghost created: seq<Backend>)
      ensures |created| == |configs| && Distinct(created)
      ensures forall i :: 0 <= i < |configs| ==> created[i].config == configs[i]
      ensures forall b :: b in m <==> b in created
      ensures forall b :: b in m ==> fresh(b) && m[b]
      ensures |m| == |configs|
    {
      m, created := map[], [];
      var i := 0;
      while i < |configs|
        invariant 0 <= i <= |configs|
        invariant |created| == i && Distinct(created)
        invariant forall j :: 0 <= j < i ==> created[j].config == configs[j]
        invariant forall b :: b in m <==> b in created
        invariant forall b :: b in m ==> fresh(b) && m[b]
        invariant |m| == i
      {
        var backend := new Backend(configs[i]);
        assert backend !in m;
        m := m[backend := true];
        created := created + [backend];
        i := i + 1;
      }
    }

    /**
     * Some backend flagged healthy, or null when there is none. Which one is
     * returned depends on the map's iteration order and is left open.
     */
    method NextHealthy() returns (r: Backend?)
      ensures r != null ==> r in all && all[r]
      ensures r == null <==> NoneHealthy(all)
    {
      var unvisited := all.Keys;
      while unvisited != {}
        invariant unvisited <= all.Keys
        invariant forall b :: b in all && b !in unvisited ==> !all[b]
        decreases unvisited
      {
        var b :| b in unvisited;
        if all[b] {
          return b;
        }
        unvisited := unvisited - {b};
      }
      return null;
    }

    /** Every registered backend, each exactly once, in no particular order. */
    method All() returns (s: seq<Backend>)
      ensures Distinct(s)
      ensures forall b :: b in s <==> b in all
      ensures |s| == |all|
    {
      s := [];
      var unvisited := all.Keys;
      while unvisited != {}
        invariant unvisited <= all.Keys
        invariant Distinct(s)
        invariant forall b :: b in s <==> b in all && b !in unvisited
        invariant |s| + |unvisited| == |all|
        decreases unvisited
      {
        var b :| b in unvisited;
        s := s + [b];
        unvisited := unvisited - {b};
      }
    }

    /** Every backend flagged healthy, each exactly once, in no particular order. */
    method Healthy() returns (s: seq<Backend>)
      ensures Distinct(s)
      ensures forall b :: b in s <==> b in all && all[b]
    {
      s := [];
      var unvisited := all.Keys;
      while unvisited != {}
        invariant unvisited <= all.Keys
        invariant Distinct(s)
        invariant forall b :: b in s <==> b in all && all[b] && b !in unvisited
        decreases unvisited
      {
        var b :| b in unvisited;
        if all[b] {
          s := s + [b];
        }
        unvisited := unvisited - {b};
      }
    }

    /** Some registered backend, or null exactly when the registry is empty. */
    method Any() returns (r: Backend?)
      ensures r != null ==> r in all
      ensures r == null <==> |all| == 0
    {
      r := null;
      if all.Keys != {} {
        var b :| b in all.Keys;
        r := b;
      }
    }

    /** The active backend: a healthy one, or null only when none is healthy. */
    method Active() returns (r: Backend?)
      requires Valid()
      ensures r == active
      ensures r != null ==> r in all && all[r]
      ensures r == null <==> NoneHealthy(all)
    {
      r := active;
    }

    /**
     * Flags `backend` healthy (registering it if it was unknown); it becomes
     * the active backend when there was none. Nothing is severed.
     */
    method SetHealthy(backend: Backend)
      requires Valid()
      modifies this
      ensures Valid()
      ensures all == old(all)[backend := true]
      ensures active == if old(active) == null then backend else old(active)
      ensures Severed == old(Severed)
    {
      all := all[backend := true];
      if active == null {
        active := backend;
      }
    }

    /**
     * Flags `backend` unhealthy (registering it if it was unknown). When it
     * was the active backend, its connections are severed once and some
     * other healthy backend, or none, takes over.
     */
    method SetUnhealthy(backend: Backend)
      requires Valid()
      modifies this
      ensures Valid()
      ensures all == old(all)[backend := false]
      ensures old(active) == backend ==> Severed == old(Severed) + [backend] && active != backend
      ensures old(active) != backend ==> Severed == old(Severed) && active == old(active)
    {
      all := all[backend := false];
      if active == backend {
        Severed := Severed + [backend];
        active := NextHealthy();
      }
    }

    /**
     * The status listing: one entry per registered backend (listed in
     * `order`), carrying its health flag, and flagged active only for the
     * active backend, so at most one entry is active.
     */
    method AsJSON() returns (entries: seq<BackendJSON>, ghost order: seq<Backend>)
      ensures Distinct(order)
      ensures forall b :: b in order <==> b in all
      ensures |entries| == |order| == |all|
      ensures forall i :: 0 <= i < |entries| ==> entries[i] == Entry(order[i], all[order[i]], active)
      ensures forall i, j :: 0 <= i < j < |entries| ==> !(entries[i].active && entries[j].active)
      ensures Valid() && active != null ==> exists i :: 0 <= i < |entries| && entries[i].active
    {
      entries, order := [], [];
      var unvisited := all.Keys;
      while unvisited != {}
        invariant unvisited <= all.Keys
        invariant Distinct(order)
        invariant forall b :: b in order <==> b in all && b !in unvisited
        invariant |entries| == |order|
        invariant |order| + |unvisited| == |all|
        invariant forall i :: 0 <= i < |entries| ==> entries[i] == Entry(order[i], all[order[i]], active)
        decreases unvisited
      {
        var b :| b in unvisited;
        entries := entries + [Entry(b, all[b], active)];
        order := order + [b];
        unvisited := unvisited - {b};
      }
      if Valid() && active != null {
        assert active in order;
        var k :| 0 <= k < |order| && order[k] == active;
        assert entries[k].active;
      }
    }
  }
}
