/**
 * The cloud-resource store (lib/resource-context.tsx): the resource record
 * and its three enumerations, the nine built-in resources, and the store
 * object whose operations replace its list. Ids and timestamps (milliseconds
 * since the epoch) are parameters; costs are exact reals.
 */
module ResourceContext {
  import opened Wrappers
  import opened Collections

  datatype ResourceType = Compute | Storage | Database | Network | Container | Serverless {
    /** The string the program stores for the type. */
    function Tag(): string {
      match this
      case Compute => "compute"
      case Storage => "storage"
      case Database => "database"
      case Network => "network"
      case Container => "container"
      case Serverless => "serverless"
    }
  }

  datatype ResourceStatus = Active | Inactive | Pending | Error {
    function Tag(): string {
      match this
      case Active => "active"
      case Inactive => "inactive"
      case Pending => "pending"
      case Error => "error"
    }
  }

  datatype CloudProvider = Aws | Azure | Gcp {
    function Tag(): string {
      match this
      case Aws => "aws"
      case Azure => "azure"
      case Gcp => "gcp"
    }
  }

  /** Different values have different tags, for each of the three enumerations. */
  lemma TagsInjective(a: ResourceType, b: ResourceType, s: ResourceStatus, t: ResourceStatus, p: CloudProvider, q: CloudProvider)
    ensures a.Tag() == b.Tag() ==> a == b
    ensures s.Tag() == t.Tag() ==> s == t
    ensures p.Tag() == q.Tag() ==> p == q
  {
  }

  datatype Resource = Resource(
    id: string,
    name: string,
    resourceType: ResourceType,
    status: ResourceStatus,
    provider: CloudProvider,
    region: string,
    cpu: Option<real>,
    memory: Option<real>,
    storage: Option<real>,
    cost: real,
    createdAt: int,
    updatedAt: int,
    tags: seq<string>)

  /** `Omit<Resource, "id" | "createdAt" | "updatedAt">`. */
  datatype ResourceInput = ResourceInput(
    name: string,
    resourceType: ResourceType,
    status: ResourceStatus,
    provider: CloudProvider,
    region: string,
    cpu: Option<real>,
    memory: Option<real>,
    storage: Option<real>,
    cost: real,
    tags: seq<string>)

  /** `Partial<Resource>`; `Put(None)` on an optional number stands for an explicit `undefined`. */
  datatype ResourcePatch = ResourcePatch(
    id: Upd<string>,
    name: Upd<string>,
    resourceType: Upd<ResourceType>,
    status: Upd<ResourceStatus>,
    provider: Upd<CloudProvider>,
    region: Upd<string>,
    cpu: Upd<Option<real>>,
    memory: Upd<Option<real>>,
    storage: Upd<Option<real>>,
    cost: Upd<real>,
    createdAt: Upd<int>,
    updatedAt: Upd<int>,
    tags: Upd<seq<string>>)

  /** `initialResources`. */
  function InitialResources(): seq<Resource> {
    [ Resource("1", "Production Web Server", Compute, Active, Aws, "us-east-1", Some(4.0), Some(16.0), Some(100.0),
               150.0, 1735689600000, 1738022400000, ["production", "web", "critical"]),
      Resource("2", "User Data Store", Database, Active, Aws, "us-east-1", None, None, Some(500.0),
               280.0, 1736035200000, 1737849600000, ["production", "database", "critical"]),
      Resource("3", "Staging Environment", Container, Active, Gcp, "us-central1", Some(2.0), Some(8.0), None,
               75.0, 1736467200000, 1737763200000, ["staging", "kubernetes"]),
      Resource("4", "Backup Storage", Storage, Active, Azure, "eastus", None, None, Some(2000.0),
               45.0, 1735776000000, 1737331200000, ["backup", "archive"]),
      Resource("5", "API Gateway", Serverless, Active, Aws, "us-east-1", None, None, None,
               35.0, 1736294400000, 1737936000000, ["production", "api"]),
      Resource("6", "CDN Network", Network, Active, Aws, "global", None, None, None,
               120.0, 1735862400000, 1737504000000, ["production", "cdn", "global"]),
      Resource("7", "Dev Database", Database, Inactive, Gcp, "us-west1", None, None, Some(50.0),
               0.0, 1736640000000, 1736899200000, ["development", "database"]),
      Resource("8", "ML Training Cluster", Compute, Pending, Aws, "us-west-2", Some(64.0), Some(256.0), Some(1000.0),
               0.0, 1737936000000, 1738022400000, ["ml", "training", "gpu"]),
      Resource("9", "Legacy App Server", Compute, Error, Azure, "westus", Some(2.0), Some(4.0), Some(50.0),
               45.0, 1718409600000, 1738022400000, ["legacy", "maintenance"]) ]
  }

  /** The ids of a list, in order. */
  function Ids(rs: seq<Resource>): (r: seq<string>)
    ensures |r| == |rs| && forall k :: 0 <= k < |rs| ==> r[k] == rs[k].id
  {
    seq(|rs|, k requires 0 <= k < |rs| => rs[k].id)
  }

  /** The built-in store holds nine resources with ids "1" to "9". */
  lemma InitialResourcesShape()
    ensures |InitialResources()| == 9
    ensures Ids(InitialResources()) == ["1", "2", "3", "4", "5", "6", "7", "8", "9"]
  {
  }

  /** `{ ...resource, id, createdAt: now, updatedAt: now }`. */
  function NewResource(input: ResourceInput, id: string, now: int): (r: Resource)
    ensures r.id == id && r.createdAt == now && r.updatedAt == now
    ensures r.name == input.name && r.resourceType == input.resourceType && r.status == input.status
    ensures r.provider == input.provider && r.region == input.region && r.cost == input.cost
    ensures r.cpu == input.cpu && r.memory == input.memory && r.storage == input.storage && r.tags == input.tags
  {
    Resource(id, input.name, input.resourceType, input.status, input.provider, input.region,
             input.cpu, input.memory, input.storage, input.cost, now, now, input.tags)
  }

  /** `{ ...resource, ...updates, updatedAt: now }`. */
  function MergeResource(r: Resource, p: ResourcePatch, now: int): Resource {
    Resource(p.id.Over(r.id), p.name.Over(r.name), p.resourceType.Over(r.resourceType), p.status.Over(r.status),
             p.provider.Over(r.provider), p.region.Over(r.region), p.cpu.Over(r.cpu), p.memory.Over(r.memory),
             p.storage.Over(r.storage), p.cost.Over(r.cost), p.createdAt.Over(r.createdAt), now, p.tags.Over(r.tags))
  }

  /** `prev.map((r) => (r.id === id ? merged : r))`. */
  function UpdatedResources(rs: seq<Resource>, id: string, p: ResourcePatch, now: int): (r: seq<Resource>)
    ensures |r| == |rs|
    ensures forall k :: 0 <= k < |rs| ==> r[k] == if rs[k].id == id then MergeResource(rs[k], p, now) else rs[k]
  {
    seq(|rs|, k requires 0 <= k < |rs| => if rs[k].id == id then MergeResource(rs[k], p, now) else rs[k])
  }

  /** `prev.filter((r) => r.id !== id)`. */
  function DeletedResources(rs: seq<Resource>, id: string): (r: seq<Resource>)
    ensures IsSubseq(r, rs)
    ensures forall k :: 0 <= k < |r| ==> r[k].id != id
    ensures forall x :: x in rs && x.id != id ==> x in r
  {
    Filter((x: Resource) => x.id != id, rs)
  }

  /** `k` is the first position holding the id. */
  predicate FirstWithId(rs: seq<Resource>, k: int, id: string) {
    0 <= k < |rs| && rs[k].id == id && forall j :: 0 <= j < k ==> rs[j].id != id
  }

  /** `resources.find((r) => r.id === id)`: the first resource with the id, if any. */
  function FindResource(rs: seq<Resource>, id: string): (r: Option<Resource>)
    ensures r.None? <==> forall k :: 0 <= k < |rs| ==> rs[k].id != id
    ensures r.Some? ==> exists k :: FirstWithId(rs, k, id) && rs[k] == r.value
  {
    if rs == [] then None
    else if rs[0].id == id then
      assert FirstWithId(rs, 0, id);
      Some(rs[0])
    else
      var r := FindResource(rs[1..], id);
      assert r.Some? ==> exists k :: FirstWithId(rs, k, id) && rs[k] == r.value by {
        if r.Some? {
          var k :| FirstWithId(rs[1..], k, id) && rs[1..][k] == r.value;
          assert forall j :: 1 <= j < k + 1 ==> rs[j] == rs[1..][j - 1];
          assert FirstWithId(rs, k + 1, id);
        }
      }
      r
  }

  /** After a delete the id cannot be found. */
  lemma DeleteThenFind(rs: seq<Resource>, id: string)
    ensures FindResource(DeletedResources(rs, id), id) == None
  {
  }

  /** An update keeps the length and every other resource, and moves nobody. */
  lemma UpdateUnknownId(rs: seq<Resource>, id: string, p: ResourcePatch, now: int)
    requires forall k :: 0 <= k < |rs| ==> rs[k].id != id
    ensures UpdatedResources(rs, id, p, now) == rs
  {
  }

  /** A resource added under a fresh id is the one found for that id. */
  lemma FindAfterAdd(rs: seq<Resource>, input: ResourceInput, id: string, now: int)
    requires forall k :: 0 <= k < |rs| ==> rs[k].id != id
    ensures FindResource(rs + [NewResource(input, id, now)], id) == Some(NewResource(input, id, now))
  {
    var s := rs + [NewResource(input, id, now)];
    assert s[|rs|].id == id;
    var r := FindResource(s, id);
    var k :| FirstWithId(s, k, id) && s[k] == r.value;
    assert k == |rs|;
  }

  /** The provider's `resources` state; each operation replaces the list. */
  class ResourceStore {
    var resources: seq<Resource>

    constructor ()
      ensures resources == InitialResources()
    {
      resources := InitialResources();
    }

    /** The new resource goes last; the others stay as they were. */
    method AddResource(input: ResourceInput, id: string, now: int)
      modifies this
      ensures resources == old(resources) + [NewResource(input, id, now)]
    {
      resources := resources + [NewResource(input, id, now)];
    }

    method UpdateResource(id: string, p: ResourcePatch, now: int)
      modifies this
      ensures resources == UpdatedResources(old(resources), id, p, now)
    {
      resources := UpdatedResources(resources, id, p, now);
    }

    method DeleteResource(id: string)
      modifies this
      ensures resources == DeletedResources(old(resources), id)
    {
      resources := DeletedResources(resources, id);
    }

    /** `getResourceById`. */
    function GetResourceById(id: string): (r: Option<Resource>)
      reads this
      ensures r.Some? ==> r.value in resources && r.value.id == id
      ensures r.None? <==> forall k :: 0 <= k < |resources| ==> resources[k].id != id
    {
      FindResource(resources, id)
    }
  }
}
