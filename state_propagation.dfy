/** The editor's write operations: saving an object's state (optionally
    cascading it to every descendant, page by page) and changing parent
    links, each followed by the cache evictions its success calls for.
    The store and the search index are oracles; every status message,
    request and page query lands in a trace. */
module StatePropagation {
  import opened Wrappers
  import opened Strings
  import opened EditorCache

  /** What the store answers to one request: the response text, or a
      rejection carrying an error message (absent when the thrown value was
      not an Error). */
  datatype Reply = Text(text: string) | Thrown(message: Option<string>)

  /** What the search index answers to a page query: the PIDs of that
      page's documents, or a rejection. */
  datatype PageReply = Page(ids: seq<string>) | PageThrown(message: Option<string>)

  datatype Request =
    | PutState(pid: string, newState: string)
    | PutParent(pid: string, parentPid: string, position: string)
    | DeleteParent(pid: string, parentPid: string)
    | PostMoveToParent(pid: string, parentPid: string, position: string)

  /** `Saving(pid, remaining)` is the status message announcing a state
      write; its text is `SavingMessage(pid, remaining)`. */
  datatype Event =
    | Saving(pid: string, remaining: int)
    | Sent(request: Request)
    | PageQuery(pid: string, offset: nat, rows: nat)

  /** An exception on its way out of an operation. */
  datatype Exception = Exception(message: Option<string>)

  /** The snackbar message and severity `updateObjectState` returns. */
  datatype Snack = Snack(message: string, severity: string)

  /** The combined effect of a run of writes: final cache, events, and the
      exception that stopped it, if any. */
  datatype Run = Run(state: EditorState, events: seq<Event>, error: Option<Exception>)

  datatype Update = Update(state: EditorState, events: seq<Event>, result: Result<Snack, Exception>)

  /** Descendants are requested this many at a time. */
  const ChildPageSize: nat := 1000

  function SavingMessage(pid: string, remaining: int): string
  {
    "Saving status for " + pid + " (" + IntToString(remaining) + " more remaining)..."
  }

  function FailedMessage(result: string): string
  {
    "Status failed to save; \"" + result + "\""
  }

  /** The events of one `updateSingleObjectState` call. */
  function WriteEvents(pid: string, newState: string, remaining: int): seq<Event>
  {
    [Saving(pid, remaining), Sent(PutState(pid, newState))]
  }

  /** A successful write evicts the object's cached details. */
  function AfterWrite(st: EditorState, pid: string, reply: Reply): EditorState
  {
    if reply == Text("ok") then Reduce(st, RemoveFromObjectDetailsStorage(pid)) else st
  }

  /** `saveObjectStateForChildPage`: the writes of one page's documents in
      order, the `i`-th reporting `total - (found + i)` remaining, stopping at
      the first answer other than "ok". */
  function PageRun(store: Request -> Reply, st: EditorState, ids: seq<string>, newState: string, found: int, total: int): Run
    decreases |ids|
  {
    if |ids| == 0 then Run(st, [], None)
    else
      var before := PageRun(store, st, ids[..|ids| - 1], newState, found, total);
      PageStep(store, before, ids[|ids| - 1], newState, total - (found + |ids| - 1))
  }

  /** One write of the page loop after `before`, unless `before` already failed. */
  function PageStep(store: Request -> Reply, before: Run, pid: string, newState: string, remaining: int): Run
  {
    if before.error.Some? then before
    else
      var reply := store(PutState(pid, newState));
      var events := before.events + WriteEvents(pid, newState, remaining);
      var after := AfterWrite(before.state, pid, reply);
      match reply
      case Text(t) => Run(after, events, if t == "ok" then None else Some(Exception(Some(FailedMessage(t)))))
      case Thrown(m) => Run(after, events, Some(Exception(m)))
  }

  lemma PageRunNext(store: Request -> Reply, st: EditorState, ids: seq<string>, newState: string, found: int, total: int, i: nat)
    requires i < |ids|
    ensures PageRun(store, st, ids[..i + 1], newState, found, total)
         == PageStep(store, PageRun(store, st, ids[..i], newState, found, total), ids[i], newState, total - (found + i))
  {
    assert ids[..i + 1][..i] == ids[..i];
  }

  /** The descendant loop ends when started at offset `found`: the page it
      asks for next is rejected, or holds a document whose write fails, or
      holds at least one document and the loop ends from the offset past
      them. These are exactly the inputs on which `applyObjectStateToChildren`
      terminates; an empty page below `total` whose writes all succeed makes
      it query the same offset forever. */
  ghost predicate PagesAdvance(store: Request -> Reply, index: (string, nat, nat) -> PageReply,
                               pid: string, newState: string, found: nat, total: int)
    decreases total - found
  {
    found >= total ||
    match index(pid, found, ChildPageSize)
    case PageThrown(_) => true
    case Page(ids) =>
      !AllOk(store, ids, newState) || (|ids| > 0 && PagesAdvance(store, index, pid, newState, found + |ids|, total))
  }

  /** One round of `applyObjectStateToChildren`'s loop: query the page at
      `found`, write its documents, and the offset the next round starts at. */
  datatype Round = Round(run: Run, next: nat)

  function PageRound(store: Request -> Reply, page: PageReply, st: EditorState,
                     pid: string, newState: string, found: nat, total: int): Round
  {
    var query := [PageQuery(pid, found, ChildPageSize)];
    match page
    case PageThrown(m) => Round(Run(st, query, Some(Exception(m))), found)
    case Page(ids) =>
      var r := PageRun(store, st, ids, newState, found, total);
      Round(Run(r.state, query + r.events, r.error), found + |ids|)
  }

  /** `applyObjectStateToChildren` from offset `found` on: rounds until
      `found` reaches `total` or a round fails. */
  ghost function ChildrenRun(store: Request -> Reply, index: (string, nat, nat) -> PageReply, st: EditorState,
                             pid: string, newState: string, found: nat, total: int): Run
    requires PagesAdvance(store, index, pid, newState, found, total)
    decreases total - found
  {
    if found >= total then Run(st, [], None)
    else
      var round := PageRound(store, index(pid, found, ChildPageSize), st, pid, newState, found, total);
      if round.run.error.Some? then round.run
      else
        PageRunSucceedsIff(store, st, index(pid, found, ChildPageSize).ids, newState, found, total);
        Prepend(round.run.events, ChildrenRun(store, index, round.run.state, pid, newState, round.next, total))
  }

  /** `r` with `done` put before its events. */
  function Prepend(done: seq<Event>, r: Run): Run
  {
    Run(r.state, done + r.events, r.error)
  }

  function SnackFor(result: string): Snack
  {
    if result == "ok" then Snack("Status saved successfully.", "success")
    else Snack(FailedMessage(result), "error")
  }

  /** `updateObjectState`: descendants first when `expectedChildCount > 0`,
      then the target, whose answer becomes the snackbar pair. */
  ghost function UpdateRun(store: Request -> Reply, index: (string, nat, nat) -> PageReply, st: EditorState,
                           pid: string, newState: string, expectedChildCount: int): Update
    requires expectedChildCount > 0 ==> PagesAdvance(store, index, pid, newState, 0, expectedChildCount)
  {
    var children := if expectedChildCount > 0
      then ChildrenRun(store, index, st, pid, newState, 0, expectedChildCount)
      else Run(st, [], None);
    if children.error.Some? then Update(children.state, children.events, Err(children.error.value))
    else
      var reply := store(PutState(pid, newState));
      var after := AfterWrite(children.state, pid, reply);
      var events := children.events + WriteEvents(pid, newState, 0);
      match reply
      case Text(t) => Update(after, events, Ok(SnackFor(t)))
      case Thrown(m) => Update(after, events, Err(Exception(m)))
  }

  /** The status string of a parent-link request: the response text, or the
      rejection's message, or "Unexpected error" when it carries none. */
  function ResultText(reply: Reply): string
  {
    match reply
    case Text(t) => t
    case Thrown(Some(m)) => m
    case Thrown(None) => "Unexpected error"
  }

  /** The evictions after a successful attach or detach. */
  function AfterRelink(st: EditorState, pid: string, parentPid: string): EditorState
  {
    var s1 := Reduce(st, RemoveFromObjectDetailsStorage(pid));
    var s2 := Reduce(s1, RemoveFromParentDetailsStorage(pid));
    Reduce(s2, ClearPidFromChildListStorage(parentPid))
  }

  /** The evictions after a successful move. */
  function AfterMove(st: EditorState, pid: string): EditorState
  {
    var s1 := Reduce(st, RemoveFromObjectDetailsStorage(pid));
    var s2 := Reduce(s1, RemoveFromParentDetailsStorage(pid));
    Reduce(s2, ResetChildListStorage)
  }

  /** The editor context's operations over its cache. */
  class Editor {
    var state: EditorState
    var trace: seq<Event>
    const store: Request -> Reply
    const index: (string, nat, nat) -> PageReply

    constructor (store: Request -> Reply, index: (string, nat, nat) -> PageReply)
      ensures state == InitialState() && trace == []
      ensures this.store == store && this.index == index
    {
      state := InitialState();
      trace := [];
      this.store := store;
      this.index := index;
    }

    method UpdateSingleObjectState(pid: string, newState: string, remaining: int) returns (result: Result<string, Exception>)
      modifies this
      ensures trace == old(trace) + WriteEvents(pid, newState, remaining)
      ensures state == AfterWrite(old(state), pid, store(PutState(pid, newState)))
      ensures match store(PutState(pid, newState))
        case Text(t) => result == Ok(t)
        case Thrown(m) => result == Err(Exception(m))
    {
      trace := trace + [Saving(pid, remaining)];
      var reply := store(PutState(pid, newState));
      trace := trace + [Sent(PutState(pid, newState))];
      match reply {
        case Text(t) =>
          if t == "ok" {
            state := Reduce(state, RemoveFromObjectDetailsStorage(pid));
          }
          result := Ok(t);
        case Thrown(m) =>
          result := Err(Exception(m));
      }
    }

    method SaveObjectStateForChildPage(ids: seq<string>, newState: string, found: int, total: int) returns (error: Option<Exception>)
      modifies this
      ensures var r := PageRun(store, old(state), ids, newState, found, total);
        state == r.state && trace == old(trace) + r.events && error == r.error
    {
      var i := 0;
      error := None;
      while i < |ids|
        invariant 0 <= i <= |ids|
        invariant var r := PageRun(store, old(state), ids[..i], newState, found, total);
          r.error.None? && state == r.state && trace == old(trace) + r.events
      {
        PageRunNext(store, old(state), ids, newState, found, total, i);
        var result := UpdateSingleObjectState(ids[i], newState, total - (found + i));
        match result {
          case Ok(t) =>
            if t != "ok" {
              error := Some(Exception(Some(FailedMessage(t))));
              PageRunStopsAtFailure(store, old(state), ids, newState, found, total, i + 1);
              return;
            }
          case Err(e) =>
            error := Some(e);
            PageRunStopsAtFailure(store, old(state), ids, newState, found, total, i + 1);
            return;
        }
        i := i + 1;
      }
      assert ids[..i] == ids;
    }

    /** The body of `applyObjectStateToChildren`'s loop. */
    method ApplyChildPage(pid: string, newState: string, found: nat, total: int) returns (error: Option<Exception>, next: nat)
      modifies this
      ensures var round := PageRound(store, index(pid, found, ChildPageSize), old(state), pid, newState, found, total);
        && state == round.run.state && trace == old(trace) + round.run.events
        && error == round.run.error && next == round.next
    {
      var query := [PageQuery(pid, found, ChildPageSize)];
      trace := trace + query;
      var reply := index(pid, found, ChildPageSize);
      match reply {
        case PageThrown(m) =>
          error, next := Some(Exception(m)), found;
        case Page(ids) =>
          error := SaveObjectStateForChildPage(ids, newState, found, total);
          assert trace == old(trace) + (query + PageRun(store, old(state), ids, newState, found, total).events);
          next := found + |ids|;
      }
    }

    method ApplyObjectStateToChildren(pid: string, newState: string, expectedTotal: int) returns (result: Result<bool, Exception>)
      requires PagesAdvance(store, index, pid, newState, 0, expectedTotal)
      modifies this
      ensures var r := ChildrenRun(store, index, old(state), pid, newState, 0, expectedTotal);
        && state == r.state && trace == old(trace) + r.events
        && (r.error.None? ==> result == Ok(true))
        && (r.error.Some? ==> result == Err(r.error.value))
    {
      var found: nat := 0;
      ghost var whole := ChildrenRun(store, index, old(state), pid, newState, 0, expectedTotal);
      ghost var done: seq<Event> := [];
      assert done + whole.events == whole.events;
      while found < expectedTotal
        invariant trace == old(trace) + done
        invariant PagesAdvance(store, index, pid, newState, found, expectedTotal)
        invariant whole == Prepend(done, ChildrenRun(store, index, state, pid, newState, found, expectedTotal))
        decreases expectedTotal - found
      {
        ghost var st0 := state;
        ghost var round := PageRound(store, index(pid, found, ChildPageSize), st0, pid, newState, found, expectedTotal);
        var error, next := ApplyChildPage(pid, newState, found, expectedTotal);
        AppendTwo(old(trace), done, round.run.events);
        if error.Some? {
          result := Err(error.value);
          return;
        }
        PageRunSucceedsIff(store, st0, index(pid, found, ChildPageSize).ids, newState, found, expectedTotal);
        PrependTwice(done, round.run.events, ChildrenRun(store, index, state, pid, newState, next, expectedTotal));
        done := done + round.run.events;
        found := next;
      }
      result := Ok(true);
    }

    method UpdateObjectState(pid: string, newState: string, expectedChildCount: int) returns (result: Result<Snack, Exception>)
      requires expectedChildCount > 0 ==> PagesAdvance(store, index, pid, newState, 0, expectedChildCount)
      modifies this
      ensures var u := UpdateRun(store, index, old(state), pid, newState, expectedChildCount);
        state == u.state && trace == old(trace) + u.events && result == u.result
    {
      if expectedChildCount > 0 {
        var children := ApplyObjectStateToChildren(pid, newState, expectedChildCount);
        if children.Err? {
          result := Err(children.error);
          return;
        }
      }
      var single := UpdateSingleObjectState(pid, newState, 0);
      match single {
        case Ok(t) => result := Ok(SnackFor(t));
        case Err(e) => result := Err(e);
      }
    }

    method AttachObjectToParent(pid: string, parentPid: string, position: string) returns (result: string)
      modifies this
      ensures trace == old(trace) + [Sent(PutParent(pid, parentPid, position))]
      ensures result == ResultText(store(PutParent(pid, parentPid, position)))
      ensures state == if result == "ok" then AfterRelink(old(state), pid, parentPid) else old(state)
    {
      trace := trace + [Sent(PutParent(pid, parentPid, position))];
      result := ResultText(store(PutParent(pid, parentPid, position)));
      if result == "ok" {
        state := Reduce(state, RemoveFromObjectDetailsStorage(pid));
        state := Reduce(state, RemoveFromParentDetailsStorage(pid));
        state := Reduce(state, ClearPidFromChildListStorage(parentPid));
      }
    }

    method DetachObjectFromParent(pid: string, parentPid: string) returns (result: string)
      modifies this
      ensures trace == old(trace) + [Sent(DeleteParent(pid, parentPid))]
      ensures result == ResultText(store(DeleteParent(pid, parentPid)))
      ensures state == if result == "ok" then AfterRelink(old(state), pid, parentPid) else old(state)
    {
      trace := trace + [Sent(DeleteParent(pid, parentPid))];
      result := ResultText(store(DeleteParent(pid, parentPid)));
      if result == "ok" {
        state := Reduce(state, RemoveFromObjectDetailsStorage(pid));
        state := Reduce(state, RemoveFromParentDetailsStorage(pid));
        state := Reduce(state, ClearPidFromChildListStorage(parentPid));
      }
    }

    method MoveObjectToParent(pid: string, parentPid: string, position: string) returns (result: string)
      modifies this
      ensures trace == old(trace) + [Sent(PostMoveToParent(pid, parentPid, position))]
      ensures result == ResultText(store(PostMoveToParent(pid, parentPid, position)))
      ensures state == if result == "ok" then AfterMove(old(state), pid) else old(state)
    {
      trace := trace + [Sent(PostMoveToParent(pid, parentPid, position))];
      result := ResultText(store(PostMoveToParent(pid, parentPid, position)));
      if result == "ok" {
        state := Reduce(state, RemoveFromObjectDetailsStorage(pid));
        state := Reduce(state, RemoveFromParentDetailsStorage(pid));
        state := Reduce(state, ResetChildListStorage);
      }
    }
  }

  // ---- Properties of the propagation ----

  lemma AppendTwo(t: seq<Event>, a: seq<Event>, b: seq<Event>)
    ensures t + a + b == t + (a + b)
  {
  }

  lemma PrependTwice(a: seq<Event>, b: seq<Event>, r: Run)
    ensures Prepend(a, Prepend(b, r)) == Prepend(a + b, r)
  {
    assert a + (b + r.events) == (a + b) + r.events;
  }

  /** Once a page run has failed, writing further documents changes nothing. */
  lemma {:induction false} PageRunStopsAtFailure(store: Request -> Reply, st: EditorState, ids: seq<string>,
                                                newState: string, found: int, total: int, n: nat)
    requires n <= |ids|
    requires PageRun(store, st, ids[..n], newState, found, total).error.Some?
    ensures PageRun(store, st, ids, newState, found, total) == PageRun(store, st, ids[..n], newState, found, total)
    decreases |ids| - n
  {
    if n < |ids| {
      assert ids[..n + 1][..n] == ids[..n];
      PageRunStopsAtFailure(store, st, ids, newState, found, total, n + 1);
    } else {
      assert ids[..n] == ids;
    }
  }

  // ---- Reference definitions ----

  /** The events of writing every document of a page, first to last. */
  function PageWrites(ids: seq<string>, newState: string, found: int, total: int): seq<Event>
    decreases |ids|
  {
    if |ids| == 0 then []
    else WriteEvents(ids[0], newState, total - found) + PageWrites(ids[1..], newState, found + 1, total)
  }

  /** The cache with the details of every PID in `ids` evicted. */
  function EvictAll(st: EditorState, ids: seq<string>): EditorState
  {
    st.(objectDetailsStorage := map k | k in st.objectDetailsStorage && k !in ids :: st.objectDetailsStorage[k])
  }

  /** The exception a failed write raises. */
  function FailureOf(reply: Reply): Exception
  {
    match reply
    case Text(t) => Exception(Some(FailedMessage(t)))
    case Thrown(m) => Exception(m)
  }

  /** The PIDs whose state was written, in order. */
  function Writes(events: seq<Event>): seq<string>
  {
    if |events| == 0 then []
    else (match events[0] case Sent(PutState(pid, _)) => [pid] case _ => []) + Writes(events[1..])
  }

  predicate AllOk(store: Request -> Reply, ids: seq<string>, newState: string)
  {
    forall k :: 0 <= k < |ids| ==> store(PutState(ids[k], newState)) == Text("ok")
  }

  // ---- Lemmas about the reference definitions ----

  /** The `k`-th document's write announces `total - (found + k)` remaining, then sends the PUT. */
  lemma {:induction false} PageWritesAt(ids: seq<string>, newState: string, found: int, total: int, k: nat)
    requires k < |ids|
    ensures |PageWrites(ids, newState, found, total)| == 2 * |ids|
    ensures PageWrites(ids, newState, found, total)[2 * k] == Saving(ids[k], total - (found + k))
    ensures PageWrites(ids, newState, found, total)[2 * k + 1] == Sent(PutState(ids[k], newState))
    decreases |ids|
  {
    if |ids| == 1 {
    } else if k == 0 {
      PageWritesLength(ids[1..], newState, found + 1, total);
    } else {
      PageWritesAt(ids[1..], newState, found + 1, total, k - 1);
      var head := WriteEvents(ids[0], newState, total - found);
      var tail := PageWrites(ids[1..], newState, found + 1, total);
      assert PageWrites(ids, newState, found, total) == head + tail;
      assert (head + tail)[2 * k] == tail[2 * (k - 1)];
      assert (head + tail)[2 * k + 1] == tail[2 * (k - 1) + 1];
      assert ids[1..][k - 1] == ids[k];
      assert (found + 1) + (k - 1) == found + k;
    }
  }

  lemma {:induction false} PageWritesLength(ids: seq<string>, newState: string, found: int, total: int)
    ensures |PageWrites(ids, newState, found, total)| == 2 * |ids|
    decreases |ids|
  {
    if |ids| > 0 {
      PageWritesLength(ids[1..], newState, found + 1, total);
    }
  }

  lemma {:induction false} PageWritesSnoc(ids: seq<string>, x: string, newState: string, found: int, total: int)
    ensures PageWrites(ids + [x], newState, found, total)
         == PageWrites(ids, newState, found, total) + WriteEvents(x, newState, total - (found + |ids|))
    decreases |ids|
  {
    if |ids| == 0 {
      assert ids + [x] == [x];
      assert [x][1..] == [];
    } else {
      assert (ids + [x])[1..] == ids[1..] + [x];
      PageWritesSnoc(ids[1..], x, newState, found + 1, total);
    }
  }

  lemma {:induction false} WritesAppend(a: seq<Event>, b: seq<Event>)
    ensures Writes(a + b) == Writes(a) + Writes(b)
    decreases |a|
  {
    if |a| == 0 {
      assert a + b == b;
    } else {
      assert (a + b)[1..] == a[1..] + b;
      WritesAppend(a[1..], b);
    }
  }

  /** The PIDs a page's writes send are exactly the page's documents. */
  lemma {:induction false} WritesOfPage(ids: seq<string>, newState: string, found: int, total: int)
    ensures Writes(PageWrites(ids, newState, found, total)) == ids
    decreases |ids|
  {
    if |ids| > 0 {
      var w := WriteEvents(ids[0], newState, total - found);
      WritesAppend(w, PageWrites(ids[1..], newState, found + 1, total));
      assert w[1..][1..] == [];
      assert Writes(w) == [ids[0]];
      WritesOfPage(ids[1..], newState, found + 1, total);
    }
  }

  /** A page run succeeds exactly when every document's write answers "ok". */
  lemma {:induction false} PageRunSucceedsIff(store: Request -> Reply, st: EditorState, ids: seq<string>,
                                              newState: string, found: int, total: int)
    ensures PageRun(store, st, ids, newState, found, total).error.None? <==> AllOk(store, ids, newState)
    decreases |ids|
  {
    if |ids| > 0 {
      var init := ids[..|ids| - 1];
      PageRunSucceedsIff(store, st, init, newState, found, total);
      if AllOk(store, ids, newState) {
        assert AllOk(store, init, newState) by {
          forall k | 0 <= k < |init| ensures store(PutState(init[k], newState)) == Text("ok") {
            assert init[k] == ids[k];
          }
        }
      } else if AllOk(store, init, newState) {
        var k :| 0 <= k < |ids| && store(PutState(ids[k], newState)) != Text("ok");
      } else {
        var k :| 0 <= k < |init| && store(PutState(init[k], newState)) != Text("ok");
        assert init[k] == ids[k];
      }
    }
  }

  lemma EvictAllSnoc(st: EditorState, init: seq<string>, x: string)
    ensures Reduce(EvictAll(st, init), RemoveFromObjectDetailsStorage(x)) == EvictAll(st, init + [x])
  {
    var a := Reduce(EvictAll(st, init), RemoveFromObjectDetailsStorage(x)).objectDetailsStorage;
    var b := EvictAll(st, init + [x]).objectDetailsStorage;
    forall k ensures k in a <==> k in b {
      assert k in init + [x] <==> k in init || k == x;
    }
    assert a == b;
  }

  /** A successful page run holds every write, in order, and has evicted
      every document it wrote. */
  lemma {:induction false} PageRunSucceeds(store: Request -> Reply, st: EditorState, ids: seq<string>,
                                           newState: string, found: int, total: int)
    requires AllOk(store, ids, newState)
    ensures var r := PageRun(store, st, ids, newState, found, total);
      r.error.None? && r.events == PageWrites(ids, newState, found, total) && r.state == EvictAll(st, ids)
    decreases |ids|
  {
    if |ids| == 0 {
      assert EvictAll(st, ids) == st;
    } else {
      var init := ids[..|ids| - 1];
      var x := ids[|ids| - 1];
      assert ids == init + [x];
      assert AllOk(store, init, newState) by {
        forall k | 0 <= k < |init| ensures store(PutState(init[k], newState)) == Text("ok") {
          assert init[k] == ids[k];
        }
      }
      PageRunSucceeds(store, st, init, newState, found, total);
      PageWritesSnoc(init, x, newState, found, total);
      EvictAllSnoc(st, init, x);
    }
  }

  /** The page run over `ids` stopped at document `j`. */
  predicate FailsFirstAt(store: Request -> Reply, st: EditorState, ids: seq<string>,
                         newState: string, found: int, total: int, j: nat)
    requires j < |ids|
  {
    && AllOk(store, ids[..j], newState)
    && store(PutState(ids[j], newState)) != Text("ok")
    && PageRun(store, st, ids, newState, found, total)
       == Run(EvictAll(st, ids[..j]), PageWrites(ids[..j + 1], newState, found, total),
              Some(FailureOf(store(PutState(ids[j], newState)))))
  }

  /** A failed page run stopped at the first document whose write did not
      answer "ok": everything before it was written and evicted, it was
      written, nothing after it was, and its answer is the exception. */
  lemma {:induction false} PageRunFails(store: Request -> Reply, st: EditorState, ids: seq<string>,
                                        newState: string, found: int, total: int)
    requires PageRun(store, st, ids, newState, found, total).error.Some?
    ensures exists j :: 0 <= j < |ids| && FailsFirstAt(store, st, ids, newState, found, total, j)
    decreases |ids|
  {
    var init := ids[..|ids| - 1];
    var x := ids[|ids| - 1];
    assert ids == init + [x];
    var before := PageRun(store, st, init, newState, found, total);
    if before.error.Some? {
      PageRunFails(store, st, init, newState, found, total);
      var j :| 0 <= j < |init| && FailsFirstAt(store, st, init, newState, found, total, j);
      assert init[..j] == ids[..j] && init[..j + 1] == ids[..j + 1] && init[j] == ids[j];
      assert FailsFirstAt(store, st, ids, newState, found, total, j);
    } else {
      PageRunSucceedsIff(store, st, init, newState, found, total);
      PageRunSucceeds(store, st, init, newState, found, total);
      PageWritesSnoc(init, x, newState, found, total);
      assert ids[..|ids| - 1] == init && ids[..|ids|] == ids;
      assert FailsFirstAt(store, st, ids, newState, found, total, |ids| - 1);
    }
  }

  /** Every event of a page run is a status message or a state write. */
  lemma {:induction false} PageRunHasNoQueries(store: Request -> Reply, st: EditorState, ids: seq<string>,
                                               newState: string, found: int, total: int)
    ensures forall e :: e in PageRun(store, st, ids, newState, found, total).events ==> !e.PageQuery?
    decreases |ids|
  {
    if |ids| > 0 {
      PageRunHasNoQueries(store, st, ids[..|ids| - 1], newState, found, total);
    }
  }

  /** The descendant loop asks only for pages of `pid`, `ChildPageSize` at a
      time, at offsets from `found` up to below `total`, and each query's
      offset is `found` plus the number of states written before it. */
  lemma {:induction false} ChildrenRunQueries(store: Request -> Reply, index: (string, nat, nat) -> PageReply,
                                              st: EditorState, pid: string, newState: string, found: nat, total: int)
    requires PagesAdvance(store, index, pid, newState, found, total)
    ensures forall e :: e in ChildrenRun(store, index, st, pid, newState, found, total).events && e.PageQuery? ==>
      e.pid == pid && e.rows == ChildPageSize && found <= e.offset < total
    ensures var events := ChildrenRun(store, index, st, pid, newState, found, total).events;
      forall k :: 0 <= k < |events| && events[k].PageQuery? ==> events[k].offset == found + |Writes(events[..k])|
    decreases total - found
  {
    ChildrenRunPaced(store, index, st, pid, newState, found, total);
    if found < total {
      var page := index(pid, found, ChildPageSize);
      var round := PageRound(store, page, st, pid, newState, found, total);
      if page.Page? {
        PageRunHasNoQueries(store, st, page.ids, newState, found, total);
      }
      if round.run.error.None? {
        PageRunSucceedsIff(store, st, page.ids, newState, found, total);
        ChildrenRunQueries(store, index, round.run.state, pid, newState, round.next, total);
      }
    }
  }

  /** Every page query and every status message of `events` counts from
      `found` plus the states written before it: a query asks at that offset,
      and a message announces `total` minus that many as remaining. */
  ghost predicate Paced(events: seq<Event>, found: int, total: int)
  {
    forall k :: 0 <= k < |events| ==>
      && (events[k].PageQuery? ==> events[k].offset == found + |Writes(events[..k])|)
      && (events[k].Saving? ==> events[k].remaining == total - (found + |Writes(events[..k])|))
  }

  lemma PacedAppend(a: seq<Event>, b: seq<Event>, found: int, total: int)
    requires Paced(a, found, total) && Paced(b, found + |Writes(a)|, total)
    ensures Paced(a + b, found, total)
  {
    forall k | |a| <= k < |a| + |b|
      ensures |Writes((a + b)[..k])| == |Writes(a)| + |Writes(b[..k - |a|])|
    {
      assert (a + b)[..k] == a + b[..k - |a|];
      WritesAppend(a, b[..k - |a|]);
    }
    forall k | 0 <= k < |a| ensures (a + b)[..k] == a[..k] {
    }
    assert forall k :: |a| <= k < |a| + |b| ==> (a + b)[k] == b[k - |a|];
  }

  /** A page's writes announce, before each document, how many remain. */
  lemma {:induction false} PacedPageWrites(ids: seq<string>, newState: string, found: int, total: int)
    ensures Paced(PageWrites(ids, newState, found, total), found, total)
    decreases |ids|
  {
    if |ids| > 0 {
      var w := WriteEvents(ids[0], newState, total - found);
      assert Writes(w[..1]) == [] && Writes(w) == [ids[0]] by {
        assert w[..1][1..] == [] && w[1..][1..] == [];
      }
      assert Paced(w, found, total) by {
        assert w[..0] == [];
      }
      PacedPageWrites(ids[1..], newState, found + 1, total);
      PacedAppend(w, PageWrites(ids[1..], newState, found + 1, total), found, total);
    }
  }

  /** The events of one page round: its query, then the writes of a prefix of
      the page (the whole page when every write succeeds). */
  lemma RoundPaced(store: Request -> Reply, st: EditorState, pid: string, ids: seq<string>,
                   newState: string, found: nat, total: int)
    ensures var round := PageRound(store, Page(ids), st, pid, newState, found, total);
      && Paced(round.run.events, found, total)
      && (round.run.error.None? ==> |Writes(round.run.events)| == |ids|)
  {
    var query := [PageQuery(pid, found, ChildPageSize)];
    var run := PageRun(store, st, ids, newState, found, total);
    assert Writes(query) == [] by {
      assert query[1..] == [];
    }
    assert Paced(query, found, total) by {
      assert query[..0] == [];
    }
    if run.error.None? {
      PageRunSucceedsIff(store, st, ids, newState, found, total);
      PageRunSucceeds(store, st, ids, newState, found, total);
      PacedPageWrites(ids, newState, found, total);
      WritesOfPage(ids, newState, found, total);
      WritesAppend(query, run.events);
    } else {
      PageRunFails(store, st, ids, newState, found, total);
      var j :| 0 <= j < |ids| && FailsFirstAt(store, st, ids, newState, found, total, j);
      PacedPageWrites(ids[..j + 1], newState, found, total);
    }
    PacedAppend(query, run.events, found, total);
  }

  /** Across all pages the descendant loop keeps count: each page is asked
      for at the number of states already written, and each status message
      announces the expected total minus that number as remaining. */
  lemma {:induction false} ChildrenRunPaced(store: Request -> Reply, index: (string, nat, nat) -> PageReply,
                                            st: EditorState, pid: string, newState: string, found: nat, total: int)
    requires PagesAdvance(store, index, pid, newState, found, total)
    ensures Paced(ChildrenRun(store, index, st, pid, newState, found, total).events, found, total)
    decreases total - found
  {
    if found < total {
      var page := index(pid, found, ChildPageSize);
      var round := PageRound(store, page, st, pid, newState, found, total);
      match page {
        case PageThrown(_) =>
          assert round.run.events == [PageQuery(pid, found, ChildPageSize)];
          assert round.run.events[..0] == [];
        case Page(ids) =>
          RoundPaced(store, st, pid, ids, newState, found, total);
          if round.run.error.None? {
            PageRunSucceedsIff(store, st, ids, newState, found, total);
            var rest := ChildrenRun(store, index, round.run.state, pid, newState, round.next, total);
            ChildrenRunPaced(store, index, round.run.state, pid, newState, round.next, total);
            PacedAppend(round.run.events, rest.events, found, total);
          }
      }
    }
  }

  /** The documents of the successive pages the loop reads from `found` on. */
  ghost function PagedIds(store: Request -> Reply, index: (string, nat, nat) -> PageReply,
                          pid: string, newState: string, found: nat, total: int): seq<string>
    requires PagesAdvance(store, index, pid, newState, found, total)
    decreases total - found
  {
    if found >= total then []
    else
      match index(pid, found, ChildPageSize)
      case PageThrown(_) => []
      case Page(ids) =>
        if AllOk(store, ids, newState) then ids + PagedIds(store, index, pid, newState, found + |ids|, total)
        else ids
  }

  /** A successful descendant loop writes exactly the documents of the pages
      at offsets `found`, `found + |page 0|`, ..., in order: none is skipped
      and none is written twice. */
  lemma {:induction false} ChildrenRunWritesPages(store: Request -> Reply, index: (string, nat, nat) -> PageReply,
                                                  st: EditorState, pid: string, newState: string, found: nat, total: int)
    requires PagesAdvance(store, index, pid, newState, found, total)
    ensures var r := ChildrenRun(store, index, st, pid, newState, found, total);
      r.error.None? ==> Writes(r.events) == PagedIds(store, index, pid, newState, found, total)
    decreases total - found
  {
    var r := ChildrenRun(store, index, st, pid, newState, found, total);
    if found < total && r.error.None? {
      var page := index(pid, found, ChildPageSize);
      assert page.Page?;
      var ids := page.ids;
      var round := PageRound(store, page, st, pid, newState, found, total);
      PageRunSucceedsIff(store, st, ids, newState, found, total);
      var rest := ChildrenRun(store, index, round.run.state, pid, newState, found + |ids|, total);
      assert r.events == round.run.events + rest.events;
      assert PagedIds(store, index, pid, newState, found, total)
          == ids + PagedIds(store, index, pid, newState, found + |ids|, total);
      RoundWrites(store, st, pid, ids, newState, found, total);
      ChildrenRunWritesPages(store, index, round.run.state, pid, newState, found + |ids|, total);
      WritesAppend(round.run.events, rest.events);
    }
  }

  /** A round whose writes all succeed writes exactly the page's documents. */
  lemma RoundWrites(store: Request -> Reply, st: EditorState, pid: string, ids: seq<string>,
                    newState: string, found: nat, total: int)
    requires AllOk(store, ids, newState)
    ensures Writes(PageRound(store, Page(ids), st, pid, newState, found, total).run.events) == ids
  {
    var query := [PageQuery(pid, found, ChildPageSize)];
    var run := PageRun(store, st, ids, newState, found, total);
    PageRunSucceeds(store, st, ids, newState, found, total);
    WritesOfPage(ids, newState, found, total);
    WritesAppend(query, run.events);
    assert Writes(query) == [] by {
      assert query[1..] == [];
    }
  }

  /** When the descendant loop finishes without an exception it has written
      at least `total - found` states, one per document of every page. */
  lemma {:induction false} ChildrenRunCoversTotal(store: Request -> Reply, index: (string, nat, nat) -> PageReply,
                                                  st: EditorState, pid: string, newState: string, found: nat, total: int)
    requires PagesAdvance(store, index, pid, newState, found, total)
    ensures ChildrenRun(store, index, st, pid, newState, found, total).error.None? ==>
      |Writes(ChildrenRun(store, index, st, pid, newState, found, total).events)| >= total - found
    decreases total - found
  {
    var r := ChildrenRun(store, index, st, pid, newState, found, total);
    if found < total && r.error.None? {
      var page := index(pid, found, ChildPageSize);
      var run := PageRun(store, st, page.ids, newState, found, total);
      var query := [PageQuery(pid, found, ChildPageSize)];
      PageRunSucceedsIff(store, st, page.ids, newState, found, total);
      PageRunSucceeds(store, st, page.ids, newState, found, total);
      WritesOfPage(page.ids, newState, found, total);
      var rest := ChildrenRun(store, index, run.state, pid, newState, found + |page.ids|, total);
      ChildrenRunCoversTotal(store, index, run.state, pid, newState, found + |page.ids|, total);
      assert r.events == query + run.events + rest.events;
      WritesAppend(query + run.events, rest.events);
      WritesAppend(query, run.events);
    }
  }

  /** Without an expected child count only the target is written (with 0 remaining). */
  lemma UpdateWithoutChildren(store: Request -> Reply, index: (string, nat, nat) -> PageReply, st: EditorState,
                              pid: string, newState: string, expectedChildCount: int)
    requires expectedChildCount <= 0
    ensures UpdateRun(store, index, st, pid, newState, expectedChildCount).events == WriteEvents(pid, newState, 0)
  {
  }

  /** With children, the descendants go first; if one fails its exception is
      the result and the target is never written; otherwise the target is
      written last. */
  lemma UpdateChildrenFirst(store: Request -> Reply, index: (string, nat, nat) -> PageReply, st: EditorState,
                            pid: string, newState: string, expectedChildCount: int)
    requires expectedChildCount > 0 && PagesAdvance(store, index, pid, newState, 0, expectedChildCount)
    ensures var children := ChildrenRun(store, index, st, pid, newState, 0, expectedChildCount);
      var u := UpdateRun(store, index, st, pid, newState, expectedChildCount);
      && (children.error.Some? ==> u.result == Err(children.error.value) && u.events == children.events && u.state == children.state)
      && (children.error.None? ==> u.events == children.events + WriteEvents(pid, newState, 0))
  {
  }

  /** The target's answer decides the snackbar: "ok" and only "ok" is a
      success, and then the target's cached details are gone; other text is
      an error quoting it; a rejection propagates. */
  lemma UpdateReportsTarget(store: Request -> Reply, index: (string, nat, nat) -> PageReply, st: EditorState,
                            pid: string, newState: string, expectedChildCount: int)
    requires expectedChildCount > 0 ==> PagesAdvance(store, index, pid, newState, 0, expectedChildCount)
    requires expectedChildCount > 0 ==> ChildrenRun(store, index, st, pid, newState, 0, expectedChildCount).error.None?
    ensures var u := UpdateRun(store, index, st, pid, newState, expectedChildCount);
      var reply := store(PutState(pid, newState));
      && (u.result == Ok(Snack("Status saved successfully.", "success")) <==> reply == Text("ok"))
      && (reply == Text("ok") ==> pid !in u.state.objectDetailsStorage)
      && (reply.Text? && reply.text != "ok" ==> u.result == Ok(Snack(FailedMessage(reply.text), "error")))
      && (reply.Thrown? ==> u.result == Err(Exception(reply.message)))
  {
  }

  /** The status of a parent-link request is "ok" exactly when the store
      answered "ok", or rejected with the message "ok". */
  lemma ResultTextOk(reply: Reply)
    ensures ResultText(reply) == "ok" <==> reply == Text("ok") || reply == Thrown(Some("ok"))
    ensures reply == Thrown(None) ==> ResultText(reply) == "Unexpected error"
  {
  }

  /** After an accepted attach or detach: the child's details and parent
      trees are gone, only the parent's child-list pages are dropped, and
      child counts and settings are untouched. */
  lemma AfterRelinkEvicts(st: EditorState, pid: string, parentPid: string)
    ensures var r := AfterRelink(st, pid, parentPid);
      && r.objectDetailsStorage.Keys == st.objectDetailsStorage.Keys - {pid}
      && r.parentDetailsStorage.Keys == st.parentDetailsStorage.Keys - {pid}
      && (forall k :: k in r.childListStorage <==> k in st.childListStorage && !StartsWith(k, parentPid + "_"))
      && (forall k :: k in r.childListStorage ==> r.childListStorage[k] == st.childListStorage[k])
      && r.childCountsStorage == st.childCountsStorage && r.settings == st.settings
  {
  }

  /** After an accepted move every child list is dropped as well. */
  lemma AfterMoveResets(st: EditorState, pid: string)
    ensures var r := AfterMove(st, pid);
      && r.objectDetailsStorage.Keys == st.objectDetailsStorage.Keys - {pid}
      && r.parentDetailsStorage.Keys == st.parentDetailsStorage.Keys - {pid}
      && r.childListStorage == map[]
      && r.childCountsStorage == st.childCountsStorage && r.settings == st.settings
  {
  }

  /** A concrete page: of 100 expected descendants with 5 already done, the
      first document of the page reports 95 remaining. */
  lemma RemainingExample(newState: string)
    ensures PageWrites(["a:1", "a:2"], newState, 5, 100)[0] == Saving("a:1", 95)
    ensures PageWrites(["a:1", "a:2"], newState, 5, 100)[2] == Saving("a:2", 94)
  {
    PageWritesAt(["a:1", "a:2"], newState, 5, 100, 0);
    PageWritesAt(["a:1", "a:2"], newState, 5, 100, 1);
  }

  lemma SavingMessageExample()
    ensures SavingMessage("a:1", 95) == "Saving status for a:1 (95 more remaining)..."
  {
    assert IntToString(95) == "95";
  }
}
