/** The relationship loaders of graphql-gateway/src/dataloaders.js: the three
    one-to-many loaders that group child records by a foreign key, and the
    chained loader that resolves each employee's manager through the employee
    loader. */
module Relationships {
  import opened Base
  import opened Store
  import opened BatchLoader

  // ------------------------------------------------------------- grouping

  /** The children of `parent`, in backend order: the reference the grouping
      map is measured against. */
  function Children(items: seq<Entity>, foreignKey: string, parent: string): (r: seq<Entity>)
    ensures |r| <= |items|
    ensures forall c :: c in r ==> c in items && Field(c, foreignKey) == Some(parent)
    decreases |items|
  {
    if |items| == 0 then []
    else
      var rest := Children(items[1..], foreignKey, parent);
      if Field(items[0], foreignKey) == Some(parent) then [items[0]] + rest else rest
  }

  /** A child is listed under its parent exactly when its foreign key names it. */
  lemma {:induction false} ChildrenComplete(items: seq<Entity>, foreignKey: string, parent: string, c: Entity)
    ensures c in Children(items, foreignKey, parent) <==> c in items && Field(c, foreignKey) == Some(parent)
    decreases |items|
  {
    if |items| > 0 {
      ChildrenComplete(items[1..], foreignKey, parent, c);
      assert c in items <==> c == items[0] || c in items[1..];
    }
  }

  /** Grouping the concatenation of two responses groups each and concatenates. */
  lemma {:induction false} ChildrenAppend(a: seq<Entity>, b: seq<Entity>, foreignKey: string, parent: string)
    ensures Children(a + b, foreignKey, parent) == Children(a, foreignKey, parent) + Children(b, foreignKey, parent)
    decreases |a|
  {
    if |a| == 0 {
      assert a + b == b;
    } else {
      assert (a + b)[1..] == a[1..] + b;
      ChildrenAppend(a[1..], b, foreignKey, parent);
    }
  }

  /** The map built by `forEach`: create `[]` on a parent's first child, then
      `push`. A child without the foreign key is filed under `undefined`,
      which no parent id reaches, so it is dropped here. */
  function GroupBy(items: seq<Entity>, foreignKey: string): map<string, seq<Entity>>
    decreases |items|
  {
    if |items| == 0 then map[]
    else
      var m := GroupBy(items[..|items| - 1], foreignKey);
      var last := items[|items| - 1];
      match Field(last, foreignKey)
      case Some(k) => m[k := (if k in m then m[k] else []) + [last]]
      case None => m
  }

  /** The map holds a parent exactly when it has a child, and then its children
      in backend order. */
  lemma {:induction false} GroupByIsChildren(items: seq<Entity>, foreignKey: string, parent: string)
    ensures parent in GroupBy(items, foreignKey) <==> Children(items, foreignKey, parent) != []
    ensures parent in GroupBy(items, foreignKey) ==> GroupBy(items, foreignKey)[parent] == Children(items, foreignKey, parent)
    decreases |items|
  {
    if |items| > 0 {
      var init := items[..|items| - 1];
      var last := items[|items| - 1];
      GroupByIsChildren(init, foreignKey, parent);
      assert init + [last] == items;
      ChildrenAppend(init, [last], foreignKey, parent);
      assert Children([last], foreignKey, parent) == if Field(last, foreignKey) == Some(parent) then [last] else [];
    }
  }

  /** `map.get(id) || []`: a parent without children gets an empty list, never `null`. */
  function ChildrenOf(groups: map<string, seq<Entity>>, parent: string): Value {
    List(if parent in groups then groups[parent] else [])
  }

  function AllEmpty(n: nat): (results: seq<Value>)
    ensures |results| == n && forall i :: 0 <= i < n ==> results[i] == List([])
  {
    seq(n, _ => List([]))
  }

  /** The request of a grouping loader. */
  datatype GroupRequest = GroupRequest(parents: seq<string>, limit: Option<nat>)

  /** The backend's answer: the repeated field (`lineItems`, `movements`,
      `leads`), absent when the response leaves it out. */
  datatype GroupReply = Grouped(children: Option<seq<Entity>>) | GroupFailed

  datatype GroupOutcome = GroupOutcome(results: seq<Value>, request: GroupRequest)

  /** The uncached grouping loaders: one request for all parents, then each
      parent's children; a failed call gives every parent `[]`. */
  function GroupLoad(parents: seq<string>, foreignKey: string, limit: Option<nat>, reply: GroupReply): (o: GroupOutcome)
    ensures |o.results| == |parents|
    ensures o.request == GroupRequest(parents, limit)
  {
    var results := match reply
      case GroupFailed => AllEmpty(|parents|)
      case Grouped(children) =>
        var groups := GroupBy(children.GetOr([]), foreignKey);
        seq(|parents|, i requires 0 <= i < |parents| => ChildrenOf(groups, parents[i]));
    GroupOutcome(results, GroupRequest(parents, limit))
  }

  /** `invoiceLineItemsLoader`: line items grouped by `invoiceId`. */
  function InvoiceLineItems(invoiceIds: seq<string>, reply: GroupReply): (o: GroupOutcome)
    ensures o.request == GroupRequest(invoiceIds, None)
  {
    GroupLoad(invoiceIds, "invoiceId", None, reply)
  }

  /** `productStockMovementsLoader`: movements grouped by `productId`, at most
      10 requested per product. */
  function ProductStockMovements(productIds: seq<string>, reply: GroupReply): (o: GroupOutcome)
    ensures o.request == GroupRequest(productIds, Some(10))
  {
    GroupLoad(productIds, "productId", Some(10), reply)
  }

  /** Every parent gets a list, never `null`: its children in backend order on
      success, `[]` on failure. */
  lemma GroupLoadAnswers(parents: seq<string>, foreignKey: string, limit: Option<nat>, reply: GroupReply, i: int)
    requires 0 <= i < |parents|
    ensures reply.Grouped? ==>
      GroupLoad(parents, foreignKey, limit, reply).results[i] == List(Children(reply.children.GetOr([]), foreignKey, parents[i]))
    ensures reply.GroupFailed? ==> GroupLoad(parents, foreignKey, limit, reply).results[i] == List([])
  {
    if reply.Grouped? {
      GroupByIsChildren(reply.children.GetOr([]), foreignKey, parents[i]);
    }
  }

  // ---------------------------------------------------------- contact leads

  datatype LeadsOutcome = LeadsOutcome(results: seq<Value>, request: Option<seq<string>>, writes: seq<Write>)

  /** The cache write for every contact in request order, empty lists included. */
  function LeadWrites(ttl: int, contactIds: seq<string>, groups: map<string, seq<Entity>>): (ws: seq<Write>)
    ensures |ws| == |contactIds|
    ensures forall j :: 0 <= j < |ws| ==> ws[j] == Write(CacheKey("crm", "contactLeads", contactIds[j]), ttl, ChildrenOf(groups, contactIds[j]))
  {
    seq(|contactIds|, j requires 0 <= j < |contactIds| =>
      Write(CacheKey("crm", "contactLeads", contactIds[j]), ttl, ChildrenOf(groups, contactIds[j])))
  }

  /** Hits keep their cached value; misses take their contact's leads. */
  function MergeLeads(contactIds: seq<string>, hits: seq<Option<Value>>, groups: map<string, seq<Entity>>): (results: seq<Value>)
    requires |hits| == |contactIds|
    ensures |results| == |contactIds|
    ensures forall i :: 0 <= i < |contactIds| && hits[i].Some? ==> results[i] == hits[i].value
    ensures forall i :: 0 <= i < |contactIds| && hits[i].None? ==> results[i] == ChildrenOf(groups, contactIds[i])
  {
    seq(|contactIds|, i requires 0 <= i < |contactIds| =>
      if hits[i].Some? then hits[i].value else ChildrenOf(groups, contactIds[i]))
  }

  /** `contactLeadsLoader`: cache-aside like the generic batch function, under
      the keys `dl:crm:contactLeads:<id>`, grouping `leads` by `contactId`;
      any failure gives every contact `[]`. */
  function ContactLeads(ttl: int, contactIds: seq<string>, read: CacheRead, reply: GroupReply): (o: LeadsOutcome)
    ensures |o.results| == |contactIds|
  {
    var failed := LeadsOutcome(AllEmpty(|contactIds|), None, []);
    match read
    case ReadFailed => failed
    case Snapshot(store) =>
      match Probe(store, CacheKeys("crm", "contactLeads", contactIds))
      case None => failed
      case Some(hits) =>
        var missed := Misses(contactIds, hits);
        if |missed| == 0 then LeadsOutcome(MergeLeads(contactIds, hits, map[]), None, [])
        else match reply
          case GroupFailed => LeadsOutcome(AllEmpty(|contactIds|), Some(missed), [])
          case Grouped(leads) =>
            var groups := GroupBy(leads.GetOr([]), "contactId");
            LeadsOutcome(MergeLeads(contactIds, hits, groups), Some(missed), LeadWrites(ttl, missed, groups))
  }

  /** The literal key `dl:crm:contactLeads:<id>` is the generic cache key, so
      `clearCache("crm", "contactLeads", id)` evicts it. */
  lemma ContactLeadsKeyIsCacheKey(id: string)
    ensures "dl:crm:contactLeads:" + id == CacheKey("crm", "contactLeads", id)
  {
  }

  /** After a successful fetch every uncached contact is written back, even
      one without leads, with the list it was answered. */
  lemma ContactLeadsWritesEveryMiss(ttl: int, contactIds: seq<string>, store: Redis, leads: Option<seq<Entity>>, i: int)
    requires 0 <= i < |contactIds|
    requires forall k :: 0 <= k < |contactIds| ==> !Unparsable(store, CacheKey("crm", "contactLeads", contactIds[k]))
    requires !Hit(store, CacheKey("crm", "contactLeads", contactIds[i]))
    ensures Write(CacheKey("crm", "contactLeads", contactIds[i]), ttl, List(Children(leads.GetOr([]), "contactId", contactIds[i])))
      in ContactLeads(ttl, contactIds, Snapshot(store), Grouped(leads)).writes
    ensures ContactLeads(ttl, contactIds, Snapshot(store), Grouped(leads)).results[i]
      == List(Children(leads.GetOr([]), "contactId", contactIds[i]))
  {
    var hits := Probe(store, CacheKeys("crm", "contactLeads", contactIds)).value;
    ProbeSucceeds("crm", "contactLeads", contactIds, store);
    var missed := Misses(contactIds, hits);
    var groups := GroupBy(leads.GetOr([]), "contactId");
    MissesAreTheMissedKeys(contactIds, hits, contactIds[i]);
    var j :| 0 <= j < |missed| && missed[j] == contactIds[i];
    GroupByIsChildren(leads.GetOr([]), "contactId", contactIds[i]);
    assert LeadWrites(ttl, missed, groups)[j] == Write(CacheKey("crm", "contactLeads", contactIds[i]), ttl, ChildrenOf(groups, contactIds[i]));
  }

  /** Any failure answers `[]` for every contact, cached ones included. */
  lemma ContactLeadsFailureIsEmpty(ttl: int, contactIds: seq<string>, read: CacheRead, reply: GroupReply)
    requires read.ReadFailed? || reply.GroupFailed?
    requires read.Snapshot? ==> exists i :: 0 <= i < |contactIds| && !Hit(read.store, CacheKey("crm", "contactLeads", contactIds[i]))
    ensures ContactLeads(ttl, contactIds, read, reply).results == AllEmpty(|contactIds|)
    ensures ContactLeads(ttl, contactIds, read, reply).writes == []
  {
    if read.Snapshot? {
      var cacheKeys := CacheKeys("crm", "contactLeads", contactIds);
      var p := Probe(read.store, cacheKeys);
      if p.Some? {
        var i :| 0 <= i < |contactIds| && !Hit(read.store, CacheKey("crm", "contactLeads", contactIds[i]));
        MissesAreTheMissedKeys(contactIds, p.value, contactIds[i]);
      }
    }
  }

  // --------------------------------------------------------- employee managers

  /** `emp?.managerId`, kept only when truthy: a non-empty string on a record. */
  function ManagerId(v: Value): (r: Option<string>)
    ensures r.Some? <==> v.Record? && Field(v.entity, "managerId").Some? && Field(v.entity, "managerId").value != ""
    ensures r.Some? ==> Field(v.entity, "managerId") == Some(r.value)
  {
    match v
    case Record(e) =>
      (match Field(e, "managerId")
       case Some(m) => if m != "" then Some(m) else None
       case None => None)
    case _ => None
  }

  /** `employees.map(emp => emp?.managerId).filter(Boolean)`. */
  function ManagerIds(employees: seq<Value>): (ids: seq<string>)
    ensures forall id :: id in ids <==> exists i :: 0 <= i < |employees| && ManagerId(employees[i]) == Some(id)
    ensures |ids| == 0 <==> forall i :: 0 <= i < |employees| ==> ManagerId(employees[i]).None?
    decreases |employees|
  {
    if |employees| == 0 then []
    else
      var rest := ManagerIds(employees[1..]);
      assert forall i :: 1 <= i < |employees| ==> employees[1..][i - 1] == employees[i];
      match ManagerId(employees[0])
      case Some(id) => [id] + rest
      case None => rest
  }

  /** The `managerMap`: each loaded record under its `id`, the later one
      winning. Loaded values that are not records are skipped (`null`), or
      filed under `undefined` (a list), which no manager id reaches. */
  function ManagerMap(managers: seq<Value>): map<string, Entity>
    decreases |managers|
  {
    if |managers| == 0 then map[]
    else
      var m := ManagerMap(managers[..|managers| - 1]);
      match managers[|managers| - 1]
      case Record(e) => (match Field(e, "id") case Some(id) => m[id := e] case None => m)
      case _ => m
  }

  /** Each loaded record sits in the map under its id, unless a later one took
      the slot; and the map holds nothing else. */
  lemma {:induction false} ManagerMapHolds(managers: seq<Value>, id: string)
    ensures id in ManagerMap(managers) ==>
      exists j :: 0 <= j < |managers| && managers[j] == Record(ManagerMap(managers)[id]) && Field(managers[j].entity, "id") == Some(id)
    ensures (exists j :: 0 <= j < |managers| && managers[j].Record? && Field(managers[j].entity, "id") == Some(id)) ==> id in ManagerMap(managers)
    decreases |managers|
  {
    if |managers| > 0 {
      var init := managers[..|managers| - 1];
      ManagerMapHolds(init, id);
      assert forall j :: 0 <= j < |init| ==> init[j] == managers[j];
    }
  }

  /** `employeeManagerLoader`, with `load` standing for `employeeLoader.load`
      (whose batch function never rejects). */
  function EmployeeManagers(employeeIds: seq<string>, load: string -> Value): (results: seq<Value>)
    ensures |results| == |employeeIds|
  {
    var employees := seq(|employeeIds|, i requires 0 <= i < |employeeIds| => load(employeeIds[i]));
    var managerIds := ManagerIds(employees);
    if |managerIds| == 0 then seq(|employeeIds|, _ => Null)
    else
      var managers := seq(|managerIds|, j requires 0 <= j < |managerIds| => load(managerIds[j]));
      var managerMap := ManagerMap(managers);
      seq(|employeeIds|, i requires 0 <= i < |employeeIds| =>
        match ManagerId(employees[i])
        case Some(mid) => if mid in managerMap then Record(managerMap[mid]) else Null
        case None => Null)
  }

  /** Result `i` is `null` unless employee `i` has a manager id, and otherwise
      a loaded record whose `id` is that manager id, or `null` when none was
      loaded. */
  lemma EmployeeManagerIsLoadedManager(employeeIds: seq<string>, load: string -> Value, i: int)
    requires 0 <= i < |employeeIds|
    ensures ManagerId(load(employeeIds[i])).None? ==> EmployeeManagers(employeeIds, load)[i] == Null
    ensures ManagerId(load(employeeIds[i])).Some? ==>
      var mid := ManagerId(load(employeeIds[i])).value;
      && (EmployeeManagers(employeeIds, load)[i] != Null ==>
            exists e :: EmployeeManagers(employeeIds, load)[i] == Record(e) && Field(e, "id") == Some(mid))
      && (load(mid).Record? && Field(load(mid).entity, "id") == Some(mid) ==> EmployeeManagers(employeeIds, load)[i] != Null)
  {
    var employees := seq(|employeeIds|, k requires 0 <= k < |employeeIds| => load(employeeIds[k]));
    var managerIds := ManagerIds(employees);
    assert employees[i] == load(employeeIds[i]);
    if ManagerId(employees[i]).Some? {
      var mid := ManagerId(employees[i]).value;
      var managers := seq(|managerIds|, j requires 0 <= j < |managerIds| => load(managerIds[j]));
      assert mid in managerIds;
      var jm :| 0 <= jm < |managerIds| && managerIds[jm] == mid;
      assert managers[jm] == load(mid);
      ManagerMapHolds(managers, mid);
    }
  }

  /** With no manager id among the employees, every result is `null`. */
  lemma NoManagersAllNull(employeeIds: seq<string>, load: string -> Value)
    requires forall i :: 0 <= i < |employeeIds| ==> ManagerId(load(employeeIds[i])).None?
    ensures forall i :: 0 <= i < |employeeIds| ==> EmployeeManagers(employeeIds, load)[i] == Null
  {
    var employees := seq(|employeeIds|, k requires 0 <= k < |employeeIds| => load(employeeIds[k]));
    assert forall i :: 0 <= i < |employees| ==> ManagerId(employees[i]).None?;
  }

  /** When every load answers either `null` or the record with the requested
      id, the loader answers exactly `load(managerId)` for each employee with a
      manager id. */
  lemma {:induction false} ConsistentLoadGivesManager(employeeIds: seq<string>, load: string -> Value, i: int)
    requires 0 <= i < |employeeIds|
    requires forall x :: load(x) == Null || (load(x).Record? && Field(load(x).entity, "id") == Some(x))
    requires ManagerId(load(employeeIds[i])).Some?
    ensures EmployeeManagers(employeeIds, load)[i] == load(ManagerId(load(employeeIds[i])).value)
  {
    var employees := seq(|employeeIds|, k requires 0 <= k < |employeeIds| => load(employeeIds[k]));
    var managerIds := ManagerIds(employees);
    var mid := ManagerId(load(employeeIds[i])).value;
    assert employees[i] == load(employeeIds[i]);
    assert mid in managerIds;
    var managers := seq(|managerIds|, j requires 0 <= j < |managerIds| => load(managerIds[j]));
    var jm :| 0 <= jm < |managerIds| && managerIds[jm] == mid;
    assert managers[jm] == load(mid);
    ManagerMapHolds(managers, mid);
    if mid in ManagerMap(managers) {
      var j :| 0 <= j < |managers| && managers[j] == Record(ManagerMap(managers)[mid]) && Field(managers[j].entity, "id") == Some(mid);
      assert managers[j] == load(managerIds[j]);
      assert managerIds[j] == mid;
    }
  }
}
