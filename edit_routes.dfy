/** The relationship, state and query routes of the edit API, as their route
    tests pin them down: each handler first reads what it needs and validates,
    producing a plan (a rejection, or the store writes to make), and only then
    performs the writes one at a time against the repository store. */
module EditRoutes {
  import opened Wrappers
  import opened Strings
  import opened Hierarchy

  // ---- Constants ----

  const ModelPrefix := "vudl-system:"
  const CollectionModel := "vudl-system:CollectionModel"
  const DataModel := "vudl-system:DataModel"
  const ListCollection := "vudl-system:ListCollection"
  const ResourceCollection := "vudl-system:ResourceCollection"
  const FolderCollection := "vudl-system:FolderCollection"

  /** The object states the state route accepts. */
  const LegalStates: set<string> := {"Active", "Inactive", "Deleted"}

  const SolrCore := "biblio"
  const DefaultChildRows := "100000"
  const DefaultChildStart := "0"

  const Success := 200
  const BadRequest := 400
  const NotFound := 404
  const ServerError := 500

  // ---- The repository store ----

  /** What a single-level fetch of an object reports. */
  datatype Descriptor = Descriptor(models: set<string>, title: string, state: string, sortOn: string)

  /** An object the store does not describe reads as an empty, title-sorted one. */
  const Blank := Descriptor({}, "", "", "title")

  /** Objects, parent edges, and sequence edges keyed by (child, parent);
      `None` is the `NaN` a non-numeric position parses to. */
  datatype Store = Store(objects: map<string, Descriptor>, parents: Graph, sequences: map<(string, string), Option<int>>)

  function Describe(s: Store, pid: string): Descriptor
  {
    if pid in s.objects then s.objects[pid] else Blank
  }

  function Titles(s: Store): map<string, string>
  {
    map pid | pid in s.objects :: s.objects[pid].title
  }

  /** One call to the repository, the search index or the object factory. */
  datatype Call =
    | GetObjectData(pid: string)
    | GetHierarchy(pid: string, shallow: bool)
    | SolrQuery(core: string, query: string, params: map<string, string>)
    | AddParentRelationship(pid: string, parent: string)
    | AddSequenceRelationship(pid: string, parent: string, position: int)
    | DeleteParentRelationship(pid: string, parent: string)
    | DeleteSequenceRelationship(pid: string, parent: string)
    | UpdateSequenceRelationship(pid: string, parent: string, newPosition: Option<int>)
    | MovePidToParent(pid: string, parent: string, maybePosition: Option<int>)
    | ModifyObjectState(pid: string, state: string)
    | UpdateSortOnRelationship(pid: string, sortOn: string)
    | BuildObject(model: string, title: string, newState: string, parentPid: Option<string>)

  predicate Mutates(c: Call)
  {
    !(c.GetObjectData? || c.GetHierarchy? || c.SolrQuery?)
  }

  predicate ReadsOnly(calls: seq<Call>)
  {
    forall i :: 0 <= i < |calls| ==> !Mutates(calls[i])
  }

  /** What a search-index query answers. */
  datatype SolrReply = SolrReply(statusCode: int, numFound: nat, responseJson: string)

  /** The outside world the handlers cannot see into: which calls throw (and
      with what message), what the index answers, which pid the factory mints,
      and the model catalog (model id to the model tags its objects carry). */
  datatype World = World(
    fault: Call -> Option<string>,
    solr: Call -> SolrReply,
    created: Call -> string,
    catalog: map<string, set<string>>)

  datatype Body = Text(text: string) | Tree(node: TreeNode)

  datatype Response = Response(status: int, body: Body)

  // ---- Plans ----

  datatype Verdict = Reject(response: Response) | Proceed(writes: seq<Call>, reply: Body)

  /** The reads a handler makes and what it decides from them. */
  datatype Plan = Plan(lookups: seq<Call>, verdict: Verdict)

  function Refuse(lookups: seq<Call>, status: int, message: string): Plan
  {
    Plan(lookups, Reject(Response(status, Text(message))))
  }

  /** The status a failing write is reported with: the factory's failures are
      the caller's fault, everything else is a server error. */
  function FaultStatus(c: Call): int
  {
    if c.BuildObject? then BadRequest else ServerError
  }

  // ---- Containment ----

  /** Why objects with `child` models may not go under `parentPid` with
      `parent` models: first the collection check, then the type chain. */
  function ParentError(child: set<string>, parentPid: string, parent: set<string>): Option<string>
  {
    if CollectionModel !in parent then Some("Illegal parent " + parentPid + "; not a collection!")
    else if DataModel in child && ListCollection !in parent then
      Some("DataModel objects must be contained by a ListCollection")
    else if ListCollection in child && ResourceCollection !in parent then
      Some("ListCollection objects must be contained by a ResourceCollection")
    else if ResourceCollection in child && FolderCollection !in parent then
      Some("ResourceCollection objects must be contained by a FolderCollection")
    else if FolderCollection in child && FolderCollection !in parent then
      Some("FolderCollection objects must be contained by a FolderCollection")
    else None
  }

  /** The containment rules, stated as implications. */
  predicate MayContain(child: set<string>, parent: set<string>)
  {
    && CollectionModel in parent
    && (DataModel in child ==> ListCollection in parent)
    && (ListCollection in child ==> ResourceCollection in parent)
    && (ResourceCollection in child ==> FolderCollection in parent)
    && (FolderCollection in child ==> FolderCollection in parent)
  }

  lemma ParentErrorIffRules(child: set<string>, parentPid: string, parent: set<string>)
    ensures ParentError(child, parentPid, parent).None? <==> MayContain(child, parent)
  {
  }

  /** A parent that is not a collection is refused for that reason whatever the child is. */
  lemma ParentErrorCollectionFirst(child: set<string>, parentPid: string, parent: set<string>)
    requires CollectionModel !in parent
    ensures ParentError(child, parentPid, parent) == Some("Illegal parent " + parentPid + "; not a collection!")
  {
  }

  /** The position written with a relationship: only under a custom-sorted
      parent, and only when the body reads as an integer. */
  function SequencePosition(sortOn: string, body: string): (r: Option<int>)
    ensures r.Some? <==> sortOn == "custom" && ParseInt(body).Some?
    ensures r.Some? ==> r == ParseInt(body)
  {
    if sortOn == "custom" then ParseInt(body) else None
  }

  // ---- Relationship routes ----

  /** The precondition checks shared by attaching and moving: not its own
      parent, not among the new parent's ancestors, and the containment rules
      between the child's models and the parent's. */
  function RelinkCheck(s: Store, w: World, pid: string, parent: string): Plan
  {
    if pid == parent then Refuse([], BadRequest, "Object cannot be its own parent.")
    else
      var h := GetHierarchy(parent, false);
      if w.fault(h).Some? then Refuse([h], ServerError, w.fault(h).value)
      else if InTree(AncestorTree(s.parents, Titles(s), parent), pid) then
        Refuse([h], BadRequest, "Object cannot be its own grandparent.")
      else
        var d := GetObjectData(pid);
        if w.fault(d).Some? then Refuse([h, d], ServerError, w.fault(d).value)
        else match ParentError(Describe(s, pid).models, parent, Describe(s, parent).models)
          case Some(why) => Refuse([h, d], BadRequest, why)
          case None => Plan([h, d], Proceed([], Text("ok")))
  }

  function AttachWrites(pid: string, parent: string, sortOn: string, body: string): seq<Call>
  {
    [AddParentRelationship(pid, parent)]
      + match SequencePosition(sortOn, body)
        case Some(n) => [AddSequenceRelationship(pid, parent, n)]
        case None => []
  }

  /** PUT /object/:pid/parent/:parentPid */
  function PlanAttach(s: Store, w: World, pid: string, parent: string, body: string): Plan
  {
    var check := RelinkCheck(s, w, pid, parent);
    if check.verdict.Reject? then check
    else Plan(check.lookups, Proceed(AttachWrites(pid, parent, Describe(s, parent).sortOn, body), Text("ok")))
  }

  /** POST /object/:pid/moveToParent/:parentPid */
  function PlanMove(s: Store, w: World, pid: string, parent: string, body: string): Plan
  {
    var check := RelinkCheck(s, w, pid, parent);
    if check.verdict.Reject? then check
    else Plan(check.lookups, Proceed([MovePidToParent(pid, parent, SequencePosition(Describe(s, parent).sortOn, body))], Text("ok")))
  }

  /** `parent` is one of the parents listed in a shallow hierarchy. */
  predicate ListsParent(t: TreeNode, parent: string)
  {
    exists i :: 0 <= i < |t.parents| && t.parents[i].pid == parent
  }

  lemma ListsParentIff(g: Graph, titles: map<string, string>, pid: string, parent: string)
    ensures ListsParent(ShallowTree(g, titles, pid), parent) <==> parent in ParentsOf(g, pid)
  {
    var ps := ParentsOf(g, pid);
    var t := ShallowTree(g, titles, pid);
    if parent in ps {
      var i :| 0 <= i < |ps| && ps[i] == parent;
      assert t.parents[i].pid == parent;
    }
  }

  /** The check shared by the routes that act on an existing edge. */
  function ImmediateCheck(s: Store, w: World, pid: string, parent: string): Plan
  {
    var h := GetHierarchy(pid, true);
    if w.fault(h).Some? then Refuse([h], ServerError, w.fault(h).value)
    else if !ListsParent(ShallowTree(s.parents, Titles(s), pid), parent) then
      Refuse([h], BadRequest, parent + " is not an immediate parent of " + pid + ".")
    else Plan([h], Proceed([], Text("ok")))
  }

  /** DELETE /object/:pid/parent/:parentPid */
  function PlanDetach(s: Store, w: World, pid: string, parent: string): Plan
  {
    var check := ImmediateCheck(s, w, pid, parent);
    if check.verdict.Reject? then check
    else
      var writes := [DeleteParentRelationship(pid, parent)]
        + (if Describe(s, parent).sortOn == "custom" then [DeleteSequenceRelationship(pid, parent)] else []);
      Plan(check.lookups, Proceed(writes, Text("ok")))
  }

  /** The checks of the two position routes: an immediate, custom-sorted parent. */
  function PositionCheck(s: Store, w: World, pid: string, parent: string): Plan
  {
    var check := ImmediateCheck(s, w, pid, parent);
    var sortOn := Describe(s, parent).sortOn;
    if check.verdict.Reject? then check
    else if sortOn != "custom" then
      Refuse(check.lookups, BadRequest, parent + " has sort value of " + sortOn + "; custom is required.")
    else check
  }

  /** PUT /object/:pid/positionInParent/:parentPid */
  function PlanSetPosition(s: Store, w: World, pid: string, parent: string, body: string): Plan
  {
    var check := PositionCheck(s, w, pid, parent);
    if check.verdict.Reject? then check
    else Plan(check.lookups, Proceed([UpdateSequenceRelationship(pid, parent, ParseInt(body))], Text("ok")))
  }

  /** DELETE /object/:pid/positionInParent/:parentPid */
  function PlanClearPosition(s: Store, w: World, pid: string, parent: string): Plan
  {
    var check := PositionCheck(s, w, pid, parent);
    if check.verdict.Reject? then check
    else Plan(check.lookups, Proceed([DeleteSequenceRelationship(pid, parent)], Text("ok")))
  }

  // ---- State and sort routes ----

  /** PUT /object/:pid/state */
  function PlanSetState(s: Store, w: World, pid: string, body: string): Plan
  {
    if body !in LegalStates then Refuse([], BadRequest, "Illegal state: " + body)
    else
      var d := GetObjectData(pid);
      if w.fault(d).Some? then Refuse([d], ServerError, w.fault(d).value)
      else if Describe(s, pid).state == body then Plan([d], Proceed([], Text("ok")))
      else Plan([d], Proceed([ModifyObjectState(pid, body)], Text("ok")))
  }

  /** PUT /object/:pid/sortOn */
  function PlanSetSortOn(s: Store, w: World, pid: string, body: string): Plan
  {
    if body != "custom" && body != "title" then
      Refuse([], BadRequest, "Unrecognized sortOn value: " + body + ". Legal values: custom, title")
    else Plan([], Proceed([UpdateSortOnRelationship(pid, body)], Text("ok")))
  }

  // ---- Object creation ----

  /** A request field that is absent or empty. */
  predicate Missing(field: Option<string>)
  {
    field.None? || field.value == ""
  }

  function StripModelPrefix(model: string): string
  {
    if StartsWith(model, ModelPrefix) then model[|ModelPrefix|..] else model
  }

  /** POST /object/new */
  function PlanNewObject(s: Store, w: World, model: Option<string>, title: Option<string>, state: Option<string>, parent: Option<string>): Plan
  {
    if Missing(model) then Refuse([], BadRequest, "Missing model parameter.")
    else if model.value !in w.catalog then Refuse([], BadRequest, "Unrecognized model " + model.value + ".")
    else if Missing(title) then Refuse([], BadRequest, "Missing title parameter.")
    else if Missing(state) then Refuse([], BadRequest, "Missing state parameter.")
    else
      var parentPid := if Missing(parent) then None else parent;
      var build := BuildObject(StripModelPrefix(model.value), title.value, state.value, parentPid);
      match parentPid
      case None => Plan([], Proceed([build], Text(w.created(build))))
      case Some(p) =>
        var d := GetObjectData(p);
        if w.fault(d).Some? then Refuse([d], NotFound, "Error loading parent PID: " + p)
        else match ParentError(w.catalog[model.value], p, Describe(s, p).models)
          case Some(why) => Refuse([d], BadRequest, why)
          case None => Plan([d], Proceed([build], Text(w.created(build))))
  }

  // ---- Query routes ----

  /** GET /object/:pid/parents, full by default and one level with `shallow`. */
  function PlanParents(s: Store, w: World, pid: string, shallow: bool): Plan
  {
    var h := GetHierarchy(pid, shallow);
    if w.fault(h).Some? then Refuse([h], ServerError, "")
    else
      var tree := if shallow then ShallowTree(s.parents, Titles(s), pid) else AncestorTree(s.parents, Titles(s), pid);
      Plan([h], Proceed([], Tree(tree)))
  }

  function FieldQuery(field: string, pid: string): string
  {
    field + ":\"" + pid + "\""
  }

  function CountsJson(direct: nat, total: nat): string
  {
    "{\"directChildren\":" + NatToString(direct) + ",\"totalDescendants\":" + NatToString(total) + "}"
  }

  /** GET /object/:pid/childCounts: direct children, then all descendants. */
  function PlanChildCounts(s: Store, w: World, pid: string): Plan
  {
    var direct := SolrQuery(SolrCore, FieldQuery("fedora_parent_id_str_mv", pid), map["rows" := "0"]);
    var all := SolrQuery(SolrCore, FieldQuery("hierarchy_all_parents_str_mv", pid), map["rows" := "0"]);
    if w.solr(direct).statusCode != 200 then Refuse([direct], ServerError, "")
    else if w.solr(all).statusCode != 200 then Refuse([direct, all], ServerError, "")
    else Plan([direct, all], Proceed([], Text(CountsJson(w.solr(direct).numFound, w.solr(all).numFound))))
  }

  /** `s` with every `from` replaced by `to`. */
  function ReplaceChar(s: string, from: char, to: char): (r: string)
    ensures |r| == |s|
    ensures forall i :: 0 <= i < |s| ==> r[i] == (if s[i] == from then to else s[i])
  {
    seq(|s|, i requires 0 <= i < |s| => if s[i] == from then to else s[i])
  }

  /** Siblings are listed by their sequence under `pid`, then by title. */
  function ChildSort(pid: string): string
  {
    "sequence_" + ReplaceChar(pid, ':', '_') + "_str ASC,title_sort ASC"
  }

  function ChildrenQuery(pid: string, start: Option<string>, rows: Option<string>): Call
  {
    SolrQuery(SolrCore, FieldQuery("fedora_parent_id_str_mv", pid),
      map["fl" := "id,title", "rows" := rows.GetOr(DefaultChildRows), "sort" := ChildSort(pid), "start" := start.GetOr(DefaultChildStart)])
  }

  /** GET /object/:pid/children */
  function PlanChildren(s: Store, w: World, pid: string, start: Option<string>, rows: Option<string>): Plan
  {
    var q := ChildrenQuery(pid, start, rows);
    if w.solr(q).statusCode != 200 then Refuse([q], ServerError, "")
    else Plan([q], Proceed([], Text(w.solr(q).responseJson)))
  }

  // ---- Performing writes ----

  /** What one successful write does to the store. */
  function Apply(s: Store, w: World, c: Call): Store
  {
    match c
    case AddParentRelationship(pid, parent) => s.(parents := AddParentEdge(s.parents, pid, parent))
    case AddSequenceRelationship(pid, parent, n) => s.(sequences := s.sequences[(pid, parent) := Some(n)])
    case DeleteParentRelationship(pid, parent) => s.(parents := RemoveParentEdge(s.parents, pid, parent))
    case DeleteSequenceRelationship(pid, parent) => s.(sequences := s.sequences - {(pid, parent)})
    case UpdateSequenceRelationship(pid, parent, n) => s.(sequences := s.sequences[(pid, parent) := n])
    case MovePidToParent(pid, parent, n) =>
      var kept := map k | k in s.sequences && k.0 != pid :: s.sequences[k];
      s.(parents := ReplaceParents(s.parents, pid, parent),
         sequences := if n.Some? then kept[(pid, parent) := n] else kept)
    case ModifyObjectState(pid, st) => s.(objects := s.objects[pid := Describe(s, pid).(state := st)])
    case UpdateSortOnRelationship(pid, v) => s.(objects := s.objects[pid := Describe(s, pid).(sortOn := v)])
    case BuildObject(model, title, st, parent) =>
      var pid := w.created(c);
      var tags := if ModelPrefix + model in w.catalog then w.catalog[ModelPrefix + model] else {};
      Store(s.objects[pid := Descriptor(tags, title, st, "title")],
            s.parents[pid := if parent.Some? then [parent.value] else []],
            s.sequences)
    case _ => s
  }

  /** How far a list of writes gets: the store after the successful ones, the
      calls attempted, and the failure that stopped it, if any. */
  datatype Progress = Progress(store: Store, attempted: seq<Call>, failure: Option<Response>)

  /** One more write after `before`. */
  function Step(before: Progress, w: World, c: Call): Progress
  {
    if before.failure.Some? then before
    else match w.fault(c)
      case Some(m) => Progress(before.store, before.attempted + [c], Some(Response(FaultStatus(c), Text(m))))
      case None => Progress(Apply(before.store, w, c), before.attempted + [c], None)
  }

  function Perform(s: Store, w: World, writes: seq<Call>): Progress
    decreases |writes|
  {
    if |writes| == 0 then Progress(s, [], None)
    else Step(Perform(s, w, writes[..|writes| - 1]), w, writes[|writes| - 1])
  }

  lemma PerformNext(s: Store, w: World, writes: seq<Call>, i: nat)
    requires i < |writes|
    ensures Perform(s, w, writes[..i + 1]) == Step(Perform(s, w, writes[..i]), w, writes[i])
  {
    assert writes[..i + 1][..i] == writes[..i];
  }

  /** A handler's whole effect: its response, every call it made, the new store. */
  datatype Outcome = Outcome(response: Response, calls: seq<Call>, store: Store)

  function Respond(s: Store, w: World, plan: Plan): Outcome
  {
    match plan.verdict
    case Reject(r) => Outcome(r, plan.lookups, s)
    case Proceed(writes, reply) =>
      var p := Perform(s, w, writes);
      Outcome(if p.failure.Some? then p.failure.value else Response(Success, reply), plan.lookups + p.attempted, p.store)
  }

  /** The in-memory repository the handlers act on, with the log of calls made. */
  class Repository {
    var store: Store
    var log: seq<Call>
    const world: World

    constructor (initial: Store, w: World)
      ensures store == initial && log == [] && world == w
    {
      store := initial;
      log := [];
      world := w;
    }

    /** Makes the reads of `plan`, then its writes in order until one throws. */
    method Carry(plan: Plan) returns (r: Response)
      modifies this
      ensures var o := Respond(old(store), world, plan);
        r == o.response && store == o.store && log == old(log) + o.calls
    {
      log := log + plan.lookups;
      match plan.verdict {
        case Reject(rejection) =>
          r := rejection;
        case Proceed(writes, reply) =>
          var failure := CarryWrites(writes);
          r := if failure.Some? then failure.value else Response(Success, reply);
      }
    }

    /** Makes the writes in order, stopping at the first fault. */
    method CarryWrites(writes: seq<Call>) returns (failure: Option<Response>)
      modifies this
      ensures var p := Perform(old(store), world, writes);
        store == p.store && log == old(log) + p.attempted && failure == p.failure
    {
      ghost var attempted: seq<Call> := [];
      var i := 0;
      while i < |writes|
        invariant 0 <= i <= |writes|
        invariant log == old(log) + attempted
        invariant Perform(old(store), world, writes[..i]) == Progress(store, attempted, None)
      {
        var c := writes[i];
        PerformNext(old(store), world, writes, i);
        log := log + [c];
        attempted := attempted + [c];
        if world.fault(c).Some? {
          PerformStaysFailed(old(store), world, writes, i + 1);
          return Some(Response(FaultStatus(c), Text(world.fault(c).value)));
        }
        store := Apply(store, world, c);
        i := i + 1;
      }
      assert writes[..i] == writes;
      return None;
    }

    method AttachToParent(pid: string, parent: string, body: string) returns (r: Response)
      modifies this
      ensures var o := Respond(old(store), world, PlanAttach(old(store), world, pid, parent, body));
        r == o.response && store == o.store && log == old(log) + o.calls
    {
      r := Carry(PlanAttach(store, world, pid, parent, body));
    }

    method MoveToParent(pid: string, parent: string, body: string) returns (r: Response)
      modifies this
      ensures var o := Respond(old(store), world, PlanMove(old(store), world, pid, parent, body));
        r == o.response && store == o.store && log == old(log) + o.calls
    {
      r := Carry(PlanMove(store, world, pid, parent, body));
    }

    method DetachFromParent(pid: string, parent: string) returns (r: Response)
      modifies this
      ensures var o := Respond(old(store), world, PlanDetach(old(store), world, pid, parent));
        r == o.response && store == o.store && log == old(log) + o.calls
    {
      r := Carry(PlanDetach(store, world, pid, parent));
    }

    method SetPosition(pid: string, parent: string, body: string) returns (r: Response)
      modifies this
      ensures var o := Respond(old(store), world, PlanSetPosition(old(store), world, pid, parent, body));
        r == o.response && store == o.store && log == old(log) + o.calls
    {
      r := Carry(PlanSetPosition(store, world, pid, parent, body));
    }

    method ClearPosition(pid: string, parent: string) returns (r: Response)
      modifies this
      ensures var o := Respond(old(store), world, PlanClearPosition(old(store), world, pid, parent));
        r == o.response && store == o.store && log == old(log) + o.calls
    {
      r := Carry(PlanClearPosition(store, world, pid, parent));
    }

    method SetState(pid: string, body: string) returns (r: Response)
      modifies this
      ensures var o := Respond(old(store), world, PlanSetState(old(store), world, pid, body));
        r == o.response && store == o.store && log == old(log) + o.calls
    {
      r := Carry(PlanSetState(store, world, pid, body));
    }

    method SetSortOn(pid: string, body: string) returns (r: Response)
      modifies this
      ensures var o := Respond(old(store), world, PlanSetSortOn(old(store), world, pid, body));
        r == o.response && store == o.store && log == old(log) + o.calls
    {
      r := Carry(PlanSetSortOn(store, world, pid, body));
    }

    method NewObject(model: Option<string>, title: Option<string>, state: Option<string>, parent: Option<string>) returns (r: Response)
      modifies this
      ensures var o := Respond(old(store), world, PlanNewObject(old(store), world, model, title, state, parent));
        r == o.response && store == o.store && log == old(log) + o.calls
    {
      r := Carry(PlanNewObject(store, world, model, title, state, parent));
    }

    method Parents(pid: string, shallow: bool) returns (r: Response)
      modifies this
      ensures var o := Respond(old(store), world, PlanParents(old(store), world, pid, shallow));
        r == o.response && store == old(store) && log == old(log) + o.calls
    {
      r := Carry(PlanParents(store, world, pid, shallow));
    }

    method ChildCounts(pid: string) returns (r: Response)
      modifies this
      ensures var o := Respond(old(store), world, PlanChildCounts(old(store), world, pid));
        r == o.response && store == old(store) && log == old(log) + o.calls
    {
      r := Carry(PlanChildCounts(store, world, pid));
    }

    method Children(pid: string, start: Option<string>, rows: Option<string>) returns (r: Response)
      modifies this
      ensures var o := Respond(old(store), world, PlanChildren(old(store), world, pid, start, rows));
        r == o.response && store == old(store) && log == old(log) + o.calls
    {
      r := Carry(PlanChildren(store, world, pid, start, rows));
    }
  }

  /** Once a write has failed, the later writes are not attempted. */
  lemma {:induction false} PerformStaysFailed(s: Store, w: World, writes: seq<Call>, k: nat)
    requires 0 < k <= |writes|
    requires Perform(s, w, writes[..k]).failure.Some?
    ensures Perform(s, w, writes) == Perform(s, w, writes[..k])
    decreases |writes| - k
  {
    if k < |writes| {
      assert writes[..|writes| - 1][..k] == writes[..k];
      PerformStaysFailed(s, w, writes[..|writes| - 1], k);
    } else {
      assert writes[..k] == writes;
    }
  }
}
