/**
 Which reconciles a change wakes: the request mappers and the event predicate, against the reads
 they are meant to invert.
 */
module Watches {
  import opened Kube
  import opened Sorting
  import opened KubeconfigExport
  import opened ExportModel
  import opened ExportSteps
  import opened ExportSafety

  // ---------------------------------------------------------------- no lost wake-up

  datatype ChildKind = ControlPlaneChild | WorkersChild | MachineChild

  datatype ChildKey = ChildKey(kind: ChildKind, namespace: string, name: string)

  /** A child document; `body` is the rest of its spec, `status` everything the template never reads. */
  datatype Child = Child(generation: int, deleting: bool, clusterRef: string, body: string, status: string)

  type Store = map<ChildKey, Child>

  datatype Event =
    | Created(k: ChildKey, after: Child)
    | Updated(k: ChildKey, before: Child, after: Child)
    | Deleted(k: ChildKey, before: Child)

  /** The API server: an event matches the store, and a spec change bumps the generation. */
  predicate Possible(store: Store, e: Event) {
    match e
    case Created(k, _) => k !in store
    case Updated(k, before, after) =>
      && k in store && store[k] == before
      && (before.clusterRef != after.clusterRef || before.body != after.body ==> before.generation != after.generation)
    case Deleted(k, before) => k in store && store[k] == before
  }

  function After(store: Store, e: Event): Store {
    match e
    case Created(k, after) => store[k := after]
    case Updated(k, _, after) => store[k := after]
    case Deleted(k, _) => store - {k}
  }

  /** specOrDeletionChangedPredicate. */
  predicate Passes(e: Event) {
    match e
    case Created(_, _) => true
    case Updated(_, before, after) =>
      before.generation != after.generation || before.deleting != after.deleting
    case Deleted(_, _) => true
  }

  /** requestForChildCluster: nothing for an empty reference. */
  function RequestForChild(k: ChildKey, c: Child): set<Key> {
    if c.clusterRef == "" then {} else {Key(k.namespace, c.clusterRef)}
  }

  /** What an event enqueues; an update maps both the old and the new object. */
  function Enqueued(e: Event): set<Key> {
    if !Passes(e) then {}
    else
      match e
      case Created(k, after) => RequestForChild(k, after)
      case Updated(k, before, after) => RequestForChild(k, before) + RequestForChild(k, after)
      case Deleted(k, before) => RequestForChild(k, before)
  }

  /** What templateInputs selects for a cluster, as far as Render reads it. */
  function Selected(store: Store, cluster: Key): map<ChildKey, string> {
    map k | k in store && k.namespace == cluster.namespace && store[k].clusterRef == cluster.name :: store[k].body
  }

  /** No lost wake-up: a cluster whose selected inputs change is enqueued. */
  lemma ChangeWakesCluster(store: Store, e: Event, cluster: Key)
    requires Possible(store, e) && cluster.name != ""
    requires Selected(store, cluster) != Selected(After(store, e), cluster)
    ensures cluster in Enqueued(e)
  {
    var before, after := Selected(store, cluster), Selected(After(store, e), cluster);
    assert exists k :: (k in before) != (k in after) || (k in before && k in after && before[k] != after[k]);
  }

  /**
   And nobody else is: an event enqueues exactly the clusters in its namespace that the child references before or after
   it, and only if the child comes, goes, is marked for deletion or has another generation.
   */
  lemma OnlyReferencedClustersWake(store: Store, e: Event, cluster: Key)
    requires Possible(store, e)
    ensures cluster in Enqueued(e) <==>
      && cluster.namespace == e.k.namespace && cluster.name != ""
      && (|| (e.k in store && store[e.k].clusterRef == cluster.name)
          || (e.k in After(store, e) && After(store, e)[e.k].clusterRef == cluster.name))
      && (e.Updated? ==> e.before.generation != e.after.generation || e.before.deleting != e.after.deleting)
  {
  }

  /** So the operator's own status writes wake nobody. */
  lemma StatusWakesNobody(e: Event)
    requires e.Updated? && e.after == e.before.(status := e.after.status)
    ensures Enqueued(e) == {}
  {
  }

  ghost predicate IsHistory(stores: seq<Store>, events: seq<Event>) {
    && |stores| == |events| + 1
    && forall i :: 0 <= i < |events| ==> Possible(stores[i], events[i]) && stores[i + 1] == After(stores[i], events[i])
  }

  /**
   Over any history: if a cluster's inputs are no longer those its last reconcile read at state i,
   some event since then has enqueued it.
   */
  lemma {:induction false} StaleClusterWasWoken(stores: seq<Store>, events: seq<Event>, cluster: Key, i: nat, n: nat)
    requires IsHistory(stores, events) && i <= n < |stores| && cluster.name != ""
    requires Selected(stores[i], cluster) != Selected(stores[n], cluster)
    ensures exists j :: i <= j < n && cluster in Enqueued(events[j])
    decreases n
  {
    hide Enqueued, Selected, Possible, After;
    if Selected(stores[n - 1], cluster) != Selected(stores[n], cluster) {
      ChangeWakesCluster(stores[n - 1], events[n - 1], cluster);
    } else {
      StaleClusterWasWoken(stores, events, cluster, i, n - 1);
    }
  }

  // ---------------------------------------------------------------- request loops

  /** The text that requests are sorted by. */
  function RequestText(r: Key): string {
    r.namespace + "/" + r.name
  }

  /** An item in a namespace list, with the names of the objects its reconcile reads. */
  datatype Item = Item(key: Key, clusterRef: string, sourceRef: string, kubeconfigRef: string)

  /** The requests for the items that satisfy p, in list order. */
  function RequestsWhere(items: seq<Item>, p: Item -> bool): (r: seq<Key>)
    ensures forall k :: k in r <==> exists i :: 0 <= i < |items| && p(items[i]) && items[i].key == k
  {
    if items == [] then []
    else
      var rest := RequestsWhere(items[..|items| - 1], p);
      var last := items[|items| - 1];
      assert forall i :: 0 <= i < |items| - 1 ==> items[..|items| - 1][i] == items[i];
      if p(last) then rest + [last.key] else rest
  }

  /** Each item that satisfies p gives its key once, and list order is kept: this determines the requests of any list. */
  lemma {:induction false} RequestsInOrder(items: seq<Item>, more: seq<Item>, item: Item, p: Item -> bool)
    ensures RequestsWhere([], p) == []
    ensures RequestsWhere([item], p) == if p(item) then [item.key] else []
    ensures RequestsWhere(items + more, p) == RequestsWhere(items, p) + RequestsWhere(more, p)
    decreases |more|
  {
    assert [item][..0] == [];
    if more == [] {
      assert items + more == items;
    } else {
      var n := |more| - 1;
      RequestsInOrder(items, more[..n], item, p);
      assert (items + more)[..|items| + n] == items + more[..n];
      assert (items + more)[|items| + n] == more[n];
    }
  }

  /** The loop every mapper shares: append a request for each item that reads the object. */
  method Requests(items: seq<Item>, p: Item -> bool) returns (requests: seq<Key>)
    ensures requests == RequestsWhere(items, p)
  {
    requests := [];
    for i := 0 to |items|
      invariant requests == RequestsWhere(items[..i], p)
    {
      assert items[..i + 1][..i] == items[..i];
      if p(items[i]) {
        requests := requests + [items[i].key];
      }
    }
    assert items[..|items|] == items;
  }

  ghost predicate InTextOrder(requests: seq<Key>) {
    forall i, j :: 0 <= i < j < |requests| ==>
      StringLe(requests[i].namespace + "/" + requests[i].name, requests[j].namespace + "/" + requests[j].name)
  }

  lemma TextOrder(requests: seq<Key>)
    requires SortedBy(requests, RequestText)
    ensures InTextOrder(requests)
  {
    hide StringLe;
    forall i, j | 0 <= i < j < |requests| ensures StringLe(RequestText(requests[i]), RequestText(requests[j])) {
    }
  }

  predicate ReadsSecret(item: Item, name: string) {
    item.sourceRef == name || item.kubeconfigRef == name
  }

  /** secretSyncRequestsForSecret: exactly the syncs that read the Secret, sorted. */
  method SecretSyncRequestsForSecret(items: seq<Item>, name: string) returns (requests: seq<Key>)
    ensures SortedPermutation(requests, RequestsWhere(items, (x: Item) => ReadsSecret(x, name)), RequestText)
    ensures InTextOrder(requests)
    ensures forall k :: k in requests <==>
      exists i :: 0 <= i < |items| && items[i].key == k && (items[i].sourceRef == name || items[i].kubeconfigRef == name)
  {
    var found := Requests(items, (x: Item) => ReadsSecret(x, name));
    requests := Sort(found, RequestText);
    TextOrder(requests);
    SameMembers(requests, found);
  }

  /** The requests-for-cluster loops of child_watch.go: exactly the items that name the cluster, sorted. */
  method RequestsForCluster(items: seq<Item>, cluster: string) returns (requests: seq<Key>)
    ensures SortedPermutation(requests, RequestsWhere(items, (x: Item) => x.clusterRef == cluster), RequestText)
    ensures InTextOrder(requests)
    ensures forall k :: k in requests <==> exists i :: 0 <= i < |items| && items[i].clusterRef == cluster && items[i].key == k
  {
    var found := Requests(items, (x: Item) => x.clusterRef == cluster);
    requests := Sort(found, RequestText);
    TextOrder(requests);
    SameMembers(requests, found);
  }

  datatype ClusterItem = ClusterItem(name: string, connectionRef: string)

  /** The forward dependency: this export's cluster exists and names this connection. */
  predicate ReadsConnection(item: Item, clusters: seq<ClusterItem>, connection: string) {
    exists c :: c in clusters && c.name == item.clusterRef && c.connectionRef == connection
  }

  lemma {:induction false} SameTest(items: seq<Item>, p: Item -> bool, q: Item -> bool)
    requires forall x :: p(x) == q(x)
    ensures RequestsWhere(items, p) == RequestsWhere(items, q)
  {
    if items != [] {
      SameTest(items[..|items| - 1], p, q);
    }
  }

  lemma {:induction false} NoRequests(items: seq<Item>, p: Item -> bool)
    requires forall x :: !p(x)
    ensures RequestsWhere(items, p) == []
  {
    if items != [] {
      NoRequests(items[..|items| - 1], p);
    }
  }

  /** kubeconfigExportRequestsForConnection inverts the two-hop dependency exactly. */
  method ExportRequestsForConnection(items: seq<Item>, clusters: seq<ClusterItem>, connection: string)
    returns (requests: seq<Key>)
    ensures requests == RequestsWhere(items, (x: Item) => ReadsConnection(x, clusters, connection))
    ensures forall k :: k in requests <==>
      exists i, c :: 0 <= i < |items| && c in clusters && items[i].key == k
        && c.name == items[i].clusterRef && c.connectionRef == connection
  {
    var names: set<string> := {};
    for i := 0 to |clusters|
      invariant forall n :: n in names <==>
        exists j :: 0 <= j < i && clusters[j].name == n && clusters[j].connectionRef == connection
    {
      if clusters[i].connectionRef == connection {
        names := names + {clusters[i].name};
      }
    }
    assert forall item: Item :: ReadsConnection(item, clusters, connection) <==> item.clusterRef in names;
    SameTest(items, (x: Item) => x.clusterRef in names, (x: Item) => ReadsConnection(x, clusters, connection));
    if names == {} {
      NoRequests(items, (x: Item) => x.clusterRef in names);
      return [];
    }
    requests := Requests(items, (x: Item) => x.clusterRef in names);
  }

  /** The names of the clusters that name the connection, in list order. */
  function Referencing(clusters: seq<ClusterItem>, connection: string): seq<string> {
    if clusters == [] then []
    else
      var last := clusters[|clusters| - 1];
      Referencing(clusters[..|clusters| - 1], connection) + (if last.connectionRef == connection then [last.name] else [])
  }

  lemma {:induction false} ReferencingInOrder(clusters: seq<ClusterItem>, more: seq<ClusterItem>, c: ClusterItem, connection: string)
    ensures Referencing([], connection) == []
    ensures Referencing([c], connection) == if c.connectionRef == connection then [c.name] else []
    ensures Referencing(clusters + more, connection) == Referencing(clusters, connection) + Referencing(more, connection)
    decreases |more|
  {
    assert [c][..0] == [];
    if more == [] {
      assert clusters + more == clusters;
    } else {
      var n := |more| - 1;
      ReferencingInOrder(clusters, more[..n], c, connection);
      assert (clusters + more)[..|clusters| + n] == clusters + more[..n];
      assert (clusters + more)[|clusters| + n] == more[n];
    }
  }

  /** referencingClusterNames: exactly the clusters that name the connection, sorted. */
  method ReferencingClusterNames(clusters: seq<ClusterItem>, connection: string) returns (references: seq<string>)
    ensures SortedPermutation(references, Referencing(clusters, connection), (n: string) => n)
    ensures forall n :: n in references <==>
      exists j :: 0 <= j < |clusters| && clusters[j].name == n && clusters[j].connectionRef == connection
  {
    var names: seq<string> := [];
    for i := 0 to |clusters|
      invariant names == Referencing(clusters[..i], connection)
      invariant forall n :: n in names <==>
        exists j :: 0 <= j < i && clusters[j].name == n && clusters[j].connectionRef == connection
    {
      assert clusters[..i + 1][..i] == clusters[..i];
      if clusters[i].connectionRef == connection {
        names := names + [clusters[i].name];
      }
    }
    assert clusters[..|clusters|] == clusters;
    references := Sort(names, (n: string) => n);
    SameMembers(references, names);
  }

  // ---------------------------------------------------------------- the Secret watch

  /** kubeconfigExportRequestsForSecret: the export named by the owner annotations. */
  function ExportRequestsForSecret(x: Key, s: Secret): seq<Key> {
    match Annotation(s, OWNER_ANNOTATION)
    case Text(owner) =>
      if owner == "" then []
      else
        (match Annotation(s, OWNER_NAMESPACE_ANNOTATION)
         case Text(namespace) => [Key(if namespace == "" then x.namespace else namespace, owner)]
         case _ => [Key(x.namespace, owner)])
    case _ => []
  }

  /** Step j made the latest rewrite of x before state n. */
  ghost predicate LastRewrite(ws: seq<World>, steps: seq<Step>, n: nat, x: Key, j: nat)
    requires |steps| < |ws| && n <= |steps|
  {
    j < n && Rewrites(ws[j], steps[j], x) && forall i :: j < i < n ==> !Rewrites(ws[i], steps[i], x)
  }

  predicate OwnerMarked(s: Secret) {
    OWNER_ANNOTATION in s.annotations || OWNER_NAMESPACE_ANNOTATION in s.annotations
  }

  /** The owner annotations that are still there are those of this export. */
  predicate NamesOwner(s: Secret, owner: Key) {
    && (OWNER_ANNOTATION in s.annotations ==> s.annotations[OWNER_ANNOTATION] == Text(owner.name))
    && (OWNER_NAMESPACE_ANNOTATION in s.annotations ==> s.annotations[OWNER_NAMESPACE_ANNOTATION] == Text(owner.namespace))
  }

  lemma RewriteNamesOwner(base: Secret, item: Export, clusterName: string, kubeconfig: Bytes, now: Nanos)
    ensures
      var s := Rewrite(base, item, clusterName, kubeconfig, now);
      NamesOwner(s, item.key) && OWNER_ANNOTATION in s.annotations && OWNER_NAMESPACE_ANNOTATION in s.annotations
  {
  }

  /** In every reachable state the owner annotations of a Secret name the export that rewrote it last. */
  lemma {:induction false} OwnerAnnotationsNameAuthor(ws: seq<World>, steps: seq<Step>, n: nat, x: Key) returns (j: nat)
    requires IsRun(ws, steps) && n < |ws| && Init(ws[0]) && x in ws[n].secrets && OwnerMarked(ws[n].secrets[x])
    ensures LastRewrite(ws, steps, n, x, j) && NamesOwner(ws[n].secrets[x], Author(ws[j], steps[j], x).item.key)
    decreases n
  {
    hide Apply, Enabled, Rewrite;
    var m := n - 1;
    SecretAfter(ws[m], steps[m], x);
    if Rewrites(ws[m], steps[m], x) {
      var p := ws[m].workers[steps[m].k];
      RewriteNamesOwner(Before(ws[m], x), p.pass.item, p.pass.clusterName, p.kubeconfig, p.pass.now);
      j := m;
    } else {
      j := OwnerAnnotationsNameAuthor(ws, steps, m, x);
    }
  }

  lemma {:induction false} OneLastRewrite(ws: seq<World>, steps: seq<Step>, n: nat, x: Key, i: nat, j: nat)
    requires |steps| < |ws| && n <= |steps| && LastRewrite(ws, steps, n, x, i) && LastRewrite(ws, steps, n, x, j)
    ensures i == j
  {
  }

  /**
   In any run, a change to a Secret wakes the export that rewrote it last, and nobody else, if and only if the
   owner annotation is still on it and either the namespace annotation is too or the two share a namespace.  Without
   the owner annotation it wakes nobody, and without the namespace annotation that name in the Secret's namespace.
   */
  lemma SecretEventWakesAuthor(ws: seq<World>, steps: seq<Step>, n: nat, x: Key, j: nat)
    requires IsRun(ws, steps) && n < |ws| && Init(ws[0]) && x in ws[n].secrets && LastRewrite(ws, steps, n, x, j)
    ensures
      var s, owner := ws[n].secrets[x], Author(ws[j], steps[j], x).item.key;
      ExportRequestsForSecret(x, s) == [owner] <==>
        OWNER_ANNOTATION in s.annotations && (OWNER_NAMESPACE_ANNOTATION in s.annotations || owner.namespace == x.namespace)
    ensures OWNER_ANNOTATION !in ws[n].secrets[x].annotations ==> ExportRequestsForSecret(x, ws[n].secrets[x]) == []
    ensures
      var s, owner := ws[n].secrets[x], Author(ws[j], steps[j], x).item.key;
      OWNER_ANNOTATION in s.annotations && OWNER_NAMESPACE_ANNOTATION !in s.annotations ==>
        ExportRequestsForSecret(x, s) == [Key(x.namespace, owner.name)]
  {
    hide Apply, Enabled;
    var s, owner := ws[n].secrets[x], Author(ws[j], steps[j], x).item.key;
    AlwaysHonest(ws, steps, j);
    assert Snapshot(ws[j].workers[steps[j].k]) == Some(Author(ws[j], steps[j], x).item);
    if OwnerMarked(s) {
      var i := OwnerAnnotationsNameAuthor(ws, steps, n, x);
      OneLastRewrite(ws, steps, n, x, i, j);
    }
  }
}
