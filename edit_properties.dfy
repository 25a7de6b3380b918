/** What the edit routes promise, stated over their plans and outcomes. */
module EditProperties {
  import opened Wrappers
  import opened Strings
  import opened Hierarchy
  import opened EditRoutes

  // ---- Performing writes ----

  /** The calls attempted are a prefix of the writes, all of them when none failed. */
  lemma {:induction false} PerformAttemptsPrefix(s: Store, w: World, writes: seq<Call>)
    ensures Perform(s, w, writes).attempted <= writes
    ensures Perform(s, w, writes).failure.None? ==> Perform(s, w, writes).attempted == writes
    ensures Perform(s, w, writes).failure.Some? ==> Perform(s, w, writes).failure.value.status != Success
    decreases |writes|
  {
    if |writes| > 0 {
      var init := writes[..|writes| - 1];
      PerformAttemptsPrefix(s, w, init);
      StepBookkeeping(Perform(s, w, init), w, writes[|writes| - 1]);
      assert init + [writes[|writes| - 1]] == writes;
    }
  }

  /** What one step records, whatever it does to the store. */
  lemma StepBookkeeping(before: Progress, w: World, c: Call)
    ensures before.failure.Some? ==> Step(before, w, c) == before
    ensures before.failure.None? ==> Step(before, w, c).attempted == before.attempted + [c]
    ensures before.failure.None? && Step(before, w, c).failure.Some? ==> Step(before, w, c).failure.value.status == FaultStatus(c)
  {
  }

  lemma PerformOne(s: Store, w: World, a: Call)
    ensures Perform(s, w, [a]) == Step(Progress(s, [], None), w, a)
  {
    assert [a][..0] == [];
  }

  lemma PerformTwo(s: Store, w: World, a: Call, b: Call)
    ensures Perform(s, w, [a, b]) == Step(Step(Progress(s, [], None), w, a), w, b)
  {
    assert [a, b][..1] == [a];
    PerformOne(s, w, a);
  }

  /** A rejected request changes nothing and makes only its reads. */
  lemma RejectionChangesNothing(s: Store, w: World, plan: Plan)
    requires plan.verdict.Reject? && ReadsOnly(plan.lookups)
    ensures Respond(s, w, plan).store == s
    ensures ReadsOnly(Respond(s, w, plan).calls)
    ensures Respond(s, w, plan).response == plan.verdict.response
  {
  }

  /** Every handler validates with reads only; a mutating call is only ever
      among the writes of an accepted plan. */
  lemma ValidationReadsOnly(s: Store, w: World, pid: string, parent: string, body: string,
                            model: Option<string>, title: Option<string>, state: Option<string>, parentField: Option<string>)
    ensures ReadsOnly(PlanAttach(s, w, pid, parent, body).lookups)
    ensures ReadsOnly(PlanMove(s, w, pid, parent, body).lookups)
    ensures ReadsOnly(PlanDetach(s, w, pid, parent).lookups)
    ensures ReadsOnly(PlanSetPosition(s, w, pid, parent, body).lookups)
    ensures ReadsOnly(PlanClearPosition(s, w, pid, parent).lookups)
    ensures ReadsOnly(PlanSetState(s, w, pid, body).lookups)
    ensures ReadsOnly(PlanSetSortOn(s, w, pid, body).lookups)
    ensures ReadsOnly(PlanNewObject(s, w, model, title, state, parentField).lookups)
  {
    RelinkReadsOnly(s, w, pid, parent, body);
    PositionReadsOnly(s, w, pid, parent, body);
    SettingsReadOnly(s, w, pid, body, model, title, state, parentField);
  }

  lemma RelinkReadsOnly(s: Store, w: World, pid: string, parent: string, body: string)
    ensures ReadsOnly(PlanAttach(s, w, pid, parent, body).lookups)
    ensures ReadsOnly(PlanMove(s, w, pid, parent, body).lookups)
  {
  }

  lemma PositionReadsOnly(s: Store, w: World, pid: string, parent: string, body: string)
    ensures ReadsOnly(PlanDetach(s, w, pid, parent).lookups)
    ensures ReadsOnly(PlanSetPosition(s, w, pid, parent, body).lookups)
    ensures ReadsOnly(PlanClearPosition(s, w, pid, parent).lookups)
  {
  }

  lemma SettingsReadOnly(s: Store, w: World, pid: string, body: string,
                         model: Option<string>, title: Option<string>, state: Option<string>, parentField: Option<string>)
    ensures ReadsOnly(PlanSetState(s, w, pid, body).lookups)
    ensures ReadsOnly(PlanSetSortOn(s, w, pid, body).lookups)
    ensures ReadsOnly(PlanNewObject(s, w, model, title, state, parentField).lookups)
  {
  }

  // ---- Attach and move ----

  lemma RejectsSelfParent(s: Store, w: World, pid: string, body: string)
    ensures PlanAttach(s, w, pid, pid, body) == Refuse([], BadRequest, "Object cannot be its own parent.")
    ensures PlanMove(s, w, pid, pid, body) == Refuse([], BadRequest, "Object cannot be its own parent.")
  {
  }

  /** An object may not gain a parent of which it is already an ancestor, at any depth. */
  lemma RejectsOwnAncestor(s: Store, w: World, pid: string, parent: string, body: string)
    requires pid != parent && w.fault(GetHierarchy(parent, false)).None?
    requires Reachable(s.parents, parent, pid)
    ensures PlanAttach(s, w, pid, parent, body) == Refuse([GetHierarchy(parent, false)], BadRequest, "Object cannot be its own grandparent.")
    ensures PlanMove(s, w, pid, parent, body) == Refuse([GetHierarchy(parent, false)], BadRequest, "Object cannot be its own grandparent.")
  {
    AncestorTreeComplete(s.parents, Titles(s), parent, pid);
  }

  /** Attach and move run the same checks and agree on every rejection. */
  lemma MoveChecksAsAttach(s: Store, w: World, pid: string, parent: string, body: string)
    ensures PlanMove(s, w, pid, parent, body).lookups == PlanAttach(s, w, pid, parent, body).lookups
    ensures PlanMove(s, w, pid, parent, body).verdict.Reject? <==> PlanAttach(s, w, pid, parent, body).verdict.Reject?
    ensures PlanAttach(s, w, pid, parent, body).verdict.Reject? ==> PlanMove(s, w, pid, parent, body) == PlanAttach(s, w, pid, parent, body)
  {
  }

  /** The checks pass exactly when the parent is another object, the reads
      succeed, the child is not among the parent's ancestors, and the
      containment rules allow the pair. */
  lemma RelinkAcceptedIff(s: Store, w: World, pid: string, parent: string)
    ensures RelinkCheck(s, w, pid, parent).verdict.Proceed? <==>
      && pid != parent
      && w.fault(GetHierarchy(parent, false)).None?
      && !Reachable(s.parents, parent, pid)
      && w.fault(GetObjectData(pid)).None?
      && MayContain(Describe(s, pid).models, Describe(s, parent).models)
  {
    AncestorTreeExact(s.parents, Titles(s), parent, pid);
    ParentErrorIffRules(Describe(s, pid).models, parent, Describe(s, parent).models);
  }

  /** An accepted attach always adds the parent edge, and a sequence edge
      exactly when the parent is custom-sorted and the body is an integer. */
  lemma AttachWritesEdges(s: Store, w: World, pid: string, parent: string, body: string)
    requires PlanAttach(s, w, pid, parent, body).verdict.Proceed?
    ensures var writes := PlanAttach(s, w, pid, parent, body).verdict.writes;
      && writes[0] == AddParentRelationship(pid, parent)
      && (|writes| == 2 <==> Describe(s, parent).sortOn == "custom" && ParseInt(body).Some?)
      && (|writes| == 2 ==> writes[1] == AddSequenceRelationship(pid, parent, ParseInt(body).value))
      && |writes| <= 2
  {
  }

  /** The attach case of api/src/routes/edit.test.ts:1239-1251: a custom-sorted parent and the body "2". */
  lemma AttachedAtPositionTwo(s: Store, w: World, pid: string, parent: string)
    requires PlanAttach(s, w, pid, parent, "2").verdict.Proceed?
    requires Describe(s, parent).sortOn == "custom"
    ensures PlanAttach(s, w, pid, parent, "2").verdict.writes
      == [AddParentRelationship(pid, parent), AddSequenceRelationship(pid, parent, 2)]
  {
    assert LeadingDigits("2") == 1 by {
      assert LeadingDigits("2"[1..]) == 0;
    }
    assert "2"[..1] == "2";
    assert DigitsValue("2") == 2 by {
      assert "2"[..0] == "";
    }
  }

  /** An accepted move is one relocating call, with a position only under a custom-sorted parent. */
  lemma MoveWritesOneCall(s: Store, w: World, pid: string, parent: string, body: string)
    requires PlanMove(s, w, pid, parent, body).verdict.Proceed?
    ensures PlanMove(s, w, pid, parent, body).verdict.writes
      == [MovePidToParent(pid, parent, SequencePosition(Describe(s, parent).sortOn, body))]
    ensures SequencePosition(Describe(s, parent).sortOn, body).Some? ==> Describe(s, parent).sortOn == "custom"
  {
  }

  /** The attach writes change the graph by the one new edge at most. */
  lemma AttachWritesParents(s: Store, w: World, pid: string, parent: string, sortOn: string, body: string)
    ensures var g := Perform(s, w, AttachWrites(pid, parent, sortOn, body)).store.parents;
      g == s.parents || g == AddParentEdge(s.parents, pid, parent)
  {
    var writes := AttachWrites(pid, parent, sortOn, body);
    if |writes| == 1 {
      PerformOne(s, w, writes[0]);
    } else {
      assert writes == [writes[0], writes[1]];
      PerformTwo(s, w, writes[0], writes[1]);
    }
  }

  /** Attaching never closes a cycle in the parent graph. */
  lemma AttachKeepsGraphAcyclic(s: Store, w: World, pid: string, parent: string, body: string)
    requires Acyclic(s.parents)
    ensures Acyclic(Respond(s, w, PlanAttach(s, w, pid, parent, body)).store.parents)
  {
    if PlanAttach(s, w, pid, parent, body).verdict.Proceed? {
      RelinkAcceptedIff(s, w, pid, parent);
      AttachKeepsAcyclic(s.parents, pid, parent);
      AttachWritesParents(s, w, pid, parent, Describe(s, parent).sortOn, body);
    }
  }

  /** The move call either fails, leaving the graph, or relocates the child. */
  lemma MoveWriteParents(s: Store, w: World, pid: string, parent: string, position: Option<int>)
    ensures var p := Perform(s, w, [MovePidToParent(pid, parent, position)]);
      && (p.failure.Some? ==> p.store.parents == s.parents)
      && (p.failure.None? ==> p.store.parents == ReplaceParents(s.parents, pid, parent))
  {
    PerformOne(s, w, MovePidToParent(pid, parent, position));
  }

  /** Moving never closes a cycle, and a completed move leaves the new parent as the only one. */
  lemma MoveKeepsGraphAcyclic(s: Store, w: World, pid: string, parent: string, body: string)
    requires Acyclic(s.parents)
    ensures var o := Respond(s, w, PlanMove(s, w, pid, parent, body));
      && Acyclic(o.store.parents)
      && (PlanMove(s, w, pid, parent, body).verdict.Proceed? && o.response.status == Success ==> ParentsOf(o.store.parents, pid) == [parent])
  {
    if PlanMove(s, w, pid, parent, body).verdict.Proceed? {
      RelinkAcceptedIff(s, w, pid, parent);
      MoveKeepsAcyclic(s.parents, pid, parent);
      MoveWriteParents(s, w, pid, parent, SequencePosition(Describe(s, parent).sortOn, body));
    }
  }

  // ---- Detach ----

  /** Only an immediate parent can be detached; otherwise nothing is written. */
  lemma DetachRequiresImmediateParent(s: Store, w: World, pid: string, parent: string)
    requires w.fault(GetHierarchy(pid, true)).None?
    ensures PlanDetach(s, w, pid, parent).verdict.Proceed? <==> parent in ParentsOf(s.parents, pid)
    ensures parent !in ParentsOf(s.parents, pid) ==>
      PlanDetach(s, w, pid, parent) == Refuse([GetHierarchy(pid, true)], BadRequest, parent + " is not an immediate parent of " + pid + ".")
  {
    ListsParentIff(s.parents, Titles(s), pid, parent);
  }

  /** Detaching removes the parent edge, then the sequence edge when the parent is custom-sorted. */
  lemma DetachWrites(s: Store, w: World, pid: string, parent: string)
    requires PlanDetach(s, w, pid, parent).verdict.Proceed?
    ensures PlanDetach(s, w, pid, parent).verdict.writes
      == [DeleteParentRelationship(pid, parent)]
         + (if Describe(s, parent).sortOn == "custom" then [DeleteSequenceRelationship(pid, parent)] else [])
  {
  }

  /** The detach writes: the graph keeps or loses the one edge; when both
      succeed the sequence edge is gone too. */
  lemma DetachWritesEffect(s: Store, w: World, pid: string, parent: string, custom: bool)
    ensures var writes := [DeleteParentRelationship(pid, parent)] + (if custom then [DeleteSequenceRelationship(pid, parent)] else []);
      var p := Perform(s, w, writes);
      && (p.store.parents == s.parents || p.store.parents == RemoveParentEdge(s.parents, pid, parent))
      && (p.failure.None? ==> p.store.parents == RemoveParentEdge(s.parents, pid, parent))
      && (p.failure.None? && custom ==> (pid, parent) !in p.store.sequences)
  {
    var writes := [DeleteParentRelationship(pid, parent)] + (if custom then [DeleteSequenceRelationship(pid, parent)] else []);
    if custom {
      assert writes == [DeleteParentRelationship(pid, parent), DeleteSequenceRelationship(pid, parent)];
      PerformTwo(s, w, DeleteParentRelationship(pid, parent), DeleteSequenceRelationship(pid, parent));
    } else {
      assert writes == [DeleteParentRelationship(pid, parent)];
      PerformOne(s, w, DeleteParentRelationship(pid, parent));
    }
  }

  /** A completed detach leaves `parent` off the child's parents, and detaching keeps the graph acyclic. */
  lemma DetachRemovesEdge(s: Store, w: World, pid: string, parent: string)
    requires Acyclic(s.parents)
    requires PlanDetach(s, w, pid, parent).verdict.Proceed?
    ensures var o := Respond(s, w, PlanDetach(s, w, pid, parent));
      && Acyclic(o.store.parents)
      && (o.response.status == Success ==>
            && o.store.parents == RemoveParentEdge(s.parents, pid, parent)
            && parent !in ParentsOf(o.store.parents, pid)
            && (Describe(s, parent).sortOn == "custom" ==> (pid, parent) !in o.store.sequences))
  {
    DetachKeepsAcyclic(s.parents, pid, parent);
    RemoveParentEdgeShrinks(s.parents, pid, parent);
    DetachWritesEffect(s, w, pid, parent, Describe(s, parent).sortOn == "custom");
    PerformAttemptsPrefix(s, w, PlanDetach(s, w, pid, parent).verdict.writes);
  }

  // ---- Positions ----

  /** Setting or clearing a position needs an immediate, custom-sorted parent. */
  lemma PositionNeedsCustomParent(s: Store, w: World, pid: string, parent: string, body: string)
    requires w.fault(GetHierarchy(pid, true)).None?
    ensures PlanSetPosition(s, w, pid, parent, body).verdict.Proceed?
      <==> parent in ParentsOf(s.parents, pid) && Describe(s, parent).sortOn == "custom"
    ensures PlanClearPosition(s, w, pid, parent).verdict.Proceed?
      <==> parent in ParentsOf(s.parents, pid) && Describe(s, parent).sortOn == "custom"
    ensures parent in ParentsOf(s.parents, pid) && Describe(s, parent).sortOn != "custom" ==>
      && PlanSetPosition(s, w, pid, parent, body).verdict.response.body
           == Text(parent + " has sort value of " + Describe(s, parent).sortOn + "; custom is required.")
      && PlanClearPosition(s, w, pid, parent).verdict == PlanSetPosition(s, w, pid, parent, body).verdict
  {
    ListsParentIff(s.parents, Titles(s), pid, parent);
  }

  /** A completed position update records the parsed body as the position. */
  lemma SetPositionRecords(s: Store, w: World, pid: string, parent: string, body: string)
    requires PlanSetPosition(s, w, pid, parent, body).verdict.Proceed?
    ensures var o := Respond(s, w, PlanSetPosition(s, w, pid, parent, body));
      o.response.status == Success ==> (pid, parent) in o.store.sequences && o.store.sequences[(pid, parent)] == ParseInt(body)
  {
    PerformOne(s, w, UpdateSequenceRelationship(pid, parent, ParseInt(body)));
  }

  /** A completed position clear leaves no sequence edge for the pair. */
  lemma ClearPositionRemoves(s: Store, w: World, pid: string, parent: string)
    requires PlanClearPosition(s, w, pid, parent).verdict.Proceed?
    ensures var o := Respond(s, w, PlanClearPosition(s, w, pid, parent));
      o.response.status == Success ==> (pid, parent) !in o.store.sequences && o.store.parents == s.parents
  {
    PerformOne(s, w, DeleteSequenceRelationship(pid, parent));
  }

  // ---- State and sort ----

  /** An unknown state is refused before anything is fetched. */
  lemma SetStateRejectsIllegal(s: Store, w: World, pid: string, body: string)
    requires body !in LegalStates
    ensures PlanSetState(s, w, pid, body) == Refuse([], BadRequest, "Illegal state: " + body)
  {
  }

  /** A legal state is fetched first, and written only when it differs. */
  lemma SetStateWritesOnChange(s: Store, w: World, pid: string, body: string)
    requires body in LegalStates && w.fault(GetObjectData(pid)).None?
    ensures PlanSetState(s, w, pid, body).lookups == [GetObjectData(pid)]
    ensures PlanSetState(s, w, pid, body).verdict.Proceed?
    ensures PlanSetState(s, w, pid, body).verdict.writes
      == if Describe(s, pid).state == body then [] else [ModifyObjectState(pid, body)]
  {
  }

  /** Setting a state twice: the second request writes nothing and still succeeds. */
  lemma SetStateIdempotent(s: Store, w: World, pid: string, body: string)
    requires body in LegalStates && w.fault(GetObjectData(pid)).None? && w.fault(ModifyObjectState(pid, body)).None?
    ensures var first := Respond(s, w, PlanSetState(s, w, pid, body));
      var second := Respond(first.store, w, PlanSetState(first.store, w, pid, body));
      && first.response == Response(Success, Text("ok"))
      && Describe(first.store, pid).state == body
      && second.response == Response(Success, Text("ok"))
      && second.store == first.store
      && second.calls == [GetObjectData(pid)]
  {
    var first := Respond(s, w, PlanSetState(s, w, pid, body));
    if Describe(s, pid).state != body {
      PerformOne(s, w, ModifyObjectState(pid, body));
    }
    assert Describe(first.store, pid).state == body;
  }

  /** Only "custom" and "title" are accepted as sort values. */
  lemma SetSortOnValidates(s: Store, w: World, pid: string, body: string)
    ensures PlanSetSortOn(s, w, pid, body).verdict.Proceed? <==> body == "custom" || body == "title"
    ensures body != "custom" && body != "title" ==>
      PlanSetSortOn(s, w, pid, body) == Refuse([], BadRequest, "Unrecognized sortOn value: " + body + ". Legal values: custom, title")
    ensures var o := Respond(s, w, PlanSetSortOn(s, w, pid, body));
      o.response.status == Success ==> Describe(o.store, pid).sortOn == body
  {
    if body == "custom" || body == "title" {
      PerformOne(s, w, UpdateSortOnRelationship(pid, body));
    }
  }

  // ---- Object creation ----

  /** The request fields are checked in order: model, its recognition, title, state. */
  lemma NewObjectChecksFields(s: Store, w: World, model: Option<string>, title: Option<string>, state: Option<string>, parent: Option<string>)
    ensures Missing(model) ==> PlanNewObject(s, w, model, title, state, parent) == Refuse([], BadRequest, "Missing model parameter.")
    ensures !Missing(model) && model.value !in w.catalog ==>
      PlanNewObject(s, w, model, title, state, parent) == Refuse([], BadRequest, "Unrecognized model " + model.value + ".")
    ensures !Missing(model) && model.value in w.catalog && Missing(title) ==>
      PlanNewObject(s, w, model, title, state, parent) == Refuse([], BadRequest, "Missing title parameter.")
    ensures !Missing(model) && model.value in w.catalog && !Missing(title) && Missing(state) ==>
      PlanNewObject(s, w, model, title, state, parent) == Refuse([], BadRequest, "Missing state parameter.")
  {
  }

  /** With a parent: a failed fetch is a 404, the containment rules decide,
      and an accepted request builds the object under that parent. */
  lemma NewObjectUnderParent(s: Store, w: World, model: string, title: string, state: string, parent: string)
    requires model in w.catalog && model != "" && title != "" && state != "" && parent != ""
    ensures var plan := PlanNewObject(s, w, Some(model), Some(title), Some(state), Some(parent));
      var build := BuildObject(StripModelPrefix(model), title, state, Some(parent));
      && plan.lookups == [GetObjectData(parent)]
      && (w.fault(GetObjectData(parent)).Some? ==> plan.verdict == Reject(Response(NotFound, Text("Error loading parent PID: " + parent))))
      && (w.fault(GetObjectData(parent)).None? ==>
            (plan.verdict.Proceed? <==> MayContain(w.catalog[model], Describe(s, parent).models)))
      && (plan.verdict.Proceed? ==> plan.verdict == Proceed([build], Text(w.created(build))))
  {
    assert !Missing(Some(model)) && !Missing(Some(title)) && !Missing(Some(state)) && !Missing(Some(parent));
    ParentErrorIffRules(w.catalog[model], parent, Describe(s, parent).models);
  }

  /** The factory is given the model name without its namespace. */
  lemma ModelPrefixStripped(name: string)
    ensures StripModelPrefix(ModelPrefix + name) == name
  {
    assert StartsWith(ModelPrefix + name, ModelPrefix);
  }

  /** A data object under a folder is refused for want of a list. */
  lemma DataNeedsList(child: set<string>, parentPid: string)
    requires DataModel in child
    ensures ParentError(child, parentPid, {FolderCollection, CollectionModel})
      == Some("DataModel objects must be contained by a ListCollection")
  {
  }

  // ---- Queries ----

  /** An object with no recorded title or parents reads back as a bare node. */
  lemma ParentsOfBareObject(s: Store, w: World, pid: string, shallow: bool)
    requires pid !in s.objects && pid !in s.parents && w.fault(GetHierarchy(pid, shallow)).None?
    ensures PlanParents(s, w, pid, shallow) == Plan([GetHierarchy(pid, shallow)], Proceed([], Tree(TreeNode(pid, "", []))))
  {
    assert pid !in Titles(s);
    assert ParentsOf(s.parents, pid) == [];
    assert AncestorTree(s.parents, Titles(s), pid) == TreeNode(pid, "", []);
    assert ShallowTree(s.parents, Titles(s), pid) == TreeNode(pid, "", []);
  }

  /** The counts body for five children and a hundred descendants. */
  lemma CountsJsonExample()
    ensures CountsJson(5, 100) == "{\"directChildren\":5,\"totalDescendants\":100}"
  {
    assert NatToString(100) == NatToString(10) + [DigitChar(0)];
    assert NatToString(10) == NatToString(1) + [DigitChar(0)];
  }

  /** Both counts are reported only when both queries answer 200. */
  lemma ChildCountsSucceedsIff(s: Store, w: World, pid: string)
    ensures PlanChildCounts(s, w, pid).verdict.Proceed? <==>
      && w.solr(SolrQuery(SolrCore, FieldQuery("fedora_parent_id_str_mv", pid), map["rows" := "0"])).statusCode == 200
      && w.solr(SolrQuery(SolrCore, FieldQuery("hierarchy_all_parents_str_mv", pid), map["rows" := "0"])).statusCode == 200
  {
  }

  /** The sort field names the parent with its colons made underscores. */
  lemma ChildSortExample()
    ensures ChildSort("foo:123") == "sequence_foo_123_str ASC,title_sort ASC"
  {
    assert ReplaceChar("foo:123", ':', '_') == "foo_123";
  }

  /** The sort field holds no colon from the pid. */
  lemma ChildSortHasNoColonFromPid(pid: string)
    ensures ':' !in ReplaceChar(pid, ':', '_')
  {
  }

  /** Without overrides the children route asks for 100000 rows from the
      start; a given start or row count is passed on as it is. */
  lemma ChildrenDefaults(pid: string, start: string, rows: string)
    ensures ChildrenQuery(pid, None, None).params["rows"] == "100000"
    ensures ChildrenQuery(pid, None, None).params["start"] == "0"
    ensures ChildrenQuery(pid, Some(start), Some(rows)).params["rows"] == rows
    ensures ChildrenQuery(pid, Some(start), Some(rows)).params["start"] == start
    ensures ChildrenQuery(pid, Some(start), None).params["rows"] == "100000"
    ensures ChildrenQuery(pid, None, Some(rows)).params["start"] == "0"
  {
  }
}
