/** The search of a PDF object graph for blocked content (extraction/security_gate.py). */
module SecurityGate {
  import opened Prelude

  type ObjId = nat

  datatype Entry = Entry(key: string, value: ObjId)

  /** A PDF object; dictionaries and arrays name their members, so the graph may share and cycle. */
  datatype PdfObject =
    | Indirect(target: ObjId)
    | Dictionary(entries: seq<Entry>)
    | Array(items: seq<ObjId>)
    | Scalar(text: string)

  type Graph = map<ObjId, PdfObject>

  datatype Reason = EmbeddedJavascriptBlocked | AttachmentBlocked | LaunchActionBlocked

  predicate WellFormed(g: Graph) {
    forall id :: id in g ==>
      match g[id]
      case Indirect(target) => target in g && !g[target].Indirect?
      case Dictionary(entries) => forall i :: 0 <= i < |entries| ==> entries[i].value in g
      case Array(items) => forall i :: 0 <= i < |items| ==> items[i] in g
      case Scalar(_) => true
  }

  /** obj.get_object() for an indirect reference, the object itself otherwise. */
  function Resolve(g: Graph, id: ObjId): (r: ObjId)
    requires WellFormed(g) && id in g
    ensures r in g && !g[r].Indirect?
  {
    if g[id].Indirect? then g[id].target else id
  }

  /** str(value): the text of a name or string; no other object prints as one of the texts compared with. */
  function TextOf(g: Graph, id: ObjId): string
    requires id in g
  {
    if g[id].Scalar? then g[id].text else ""
  }

  predicate HasKey(entries: seq<Entry>, key: string) {
    exists i :: 0 <= i < |entries| && entries[i].key == key
  }

  /** Why one entry of a dictionary is blocked, if it is. */
  function EntryReason(g: Graph, entries: seq<Entry>, e: Entry): Option<Reason>
    requires e.value in g
  {
    var text := TextOf(g, e.value);
    if e.key == "/JS" || e.key == "/JavaScript" then Some(EmbeddedJavascriptBlocked)
    else if e.key == "/EmbeddedFiles" then Some(AttachmentBlocked)
    else if e.key == "/Subtype" && text == "/FileAttachment" then Some(AttachmentBlocked)
    else if e.key == "/Type" && text == "/Filespec"
         && (HasKey(entries, "/EF") || HasKey(entries, "/F") || HasKey(entries, "/UF")) then Some(AttachmentBlocked)
    else if e.key == "/S" && text == "/JavaScript" then Some(EmbeddedJavascriptBlocked)
    else if e.key == "/S" && text == "/Launch" then Some(LaunchActionBlocked)
    else None
  }

  /** Object `id` is a dictionary with an entry blocked for `reason`. */
  predicate Justifies(g: Graph, id: ObjId, reason: Reason)
    requires WellFormed(g) && id in g
  {
    g[id].Dictionary? &&
    exists i :: 0 <= i < |g[id].entries| && EntryReason(g, g[id].entries, g[id].entries[i]) == Some(reason)
  }

  predicate Clean(g: Graph, id: ObjId)
    requires WellFormed(g) && id in g
  {
    g[id].Dictionary? ==>
      forall i :: 0 <= i < |g[id].entries| ==> EntryReason(g, g[id].entries, g[id].entries[i]) == None
  }

  /** The objects a dictionary or array leads to, through indirect references. */
  function Successors(g: Graph, id: ObjId): set<ObjId>
    requires WellFormed(g) && id in g
  {
    match g[id]
    case Dictionary(entries) => set i | 0 <= i < |entries| :: Resolve(g, entries[i].value)
    case Array(items) => set i | 0 <= i < |items| :: Resolve(g, items[i])
    case _ => {}
  }

  ghost predicate ReachableIn(g: Graph, a: ObjId, b: ObjId, steps: nat)
    requires WellFormed(g) && a in g
    decreases steps
  {
    if steps == 0 then a == b
    else exists m :: m in Successors(g, a) && m in g && ReachableIn(g, m, b, steps - 1)
  }

  ghost predicate Reachable(g: Graph, a: ObjId, b: ObjId)
    requires WellFormed(g) && a in g
  {
    exists steps: nat :: ReachableIn(g, a, b, steps)
  }

  /** `id` is clean and everything it leads to has been visited. */
  ghost predicate Explored(g: Graph, id: ObjId, visited: set<ObjId>)
    requires WellFormed(g)
  {
    id in g && Clean(g, id) && Successors(g, id) <= visited
  }

  lemma ReachStep(g: Graph, a: ObjId, m: ObjId, b: ObjId)
    requires WellFormed(g) && a in g && m in g && m in Successors(g, a) && Reachable(g, m, b)
    ensures Reachable(g, a, b)
  {
    var steps: nat :| ReachableIn(g, m, b, steps);
    assert ReachableIn(g, a, b, steps + 1);
  }

  /** Some dictionary reachable from `id` is blocked for `reason`. */
  ghost predicate HasCause(g: Graph, id: ObjId, reason: Reason)
    requires WellFormed(g) && id in g
  {
    exists n :: n in g && Reachable(g, id, n) && Justifies(g, n, reason)
  }

  lemma CauseThrough(g: Graph, a: ObjId, m: ObjId, reason: Reason)
    requires WellFormed(g) && a in g && m in g && m in Successors(g, a) && HasCause(g, m, reason)
    ensures HasCause(g, a, reason)
  {
    var n :| n in g && Reachable(g, m, n) && Justifies(g, n, reason);
    ReachStep(g, a, m, n);
  }

  lemma CauseHere(g: Graph, a: ObjId, reason: Reason)
    requires WellFormed(g) && a in g && Justifies(g, a, reason)
    ensures HasCause(g, a, reason)
  {
    assert ReachableIn(g, a, a, 0);
  }

  /** Everything visited since `before`, apart from `id` itself, is explored. */
  ghost predicate ExploredSince(g: Graph, before: set<ObjId>, id: ObjId, visited: set<ObjId>)
    requires WellFormed(g)
  {
    forall n :: n in visited && n !in before && n != id ==> Explored(g, n, visited)
  }

  class Walker {
    var visited: set<ObjId>

    constructor ()
      ensures visited == {}
    {
      visited := {};
    }

    /** _walk_pdf_object: None only after everything new has been explored; a reason only with a reachable cause. */
    method Walk(g: Graph, id: ObjId) returns (reason: Option<Reason>)
      requires WellFormed(g) && id in g && visited <= g.Keys
      modifies this
      ensures old(visited) <= visited <= g.Keys
      ensures reason.None? ==>
                && Resolve(g, id) in visited
                && forall n :: n in visited && n !in old(visited) ==> Explored(g, n, visited)
      ensures reason.Some? ==> HasCause(g, Resolve(g, id), reason.value)
      decreases |g.Keys - visited|, 1
    {
      var obj := Resolve(g, id);
      if obj in visited {
        return None;
      }
      ghost var before := visited;
      visited := visited + {obj};
      SmallerSet(g.Keys - visited, g.Keys - before);
      if g[obj].Dictionary? {
        reason := WalkEntries(g, obj);
        if reason.Some? {
          return;
        }
      }
      if g[obj].Array? {
        reason := WalkItems(g, obj);
        if reason.Some? {
          return;
        }
      }
      assert Explored(g, obj, visited);
      return None;
    }

    /** The loop over a dictionary's entries. */
    method WalkEntries(g: Graph, obj: ObjId) returns (reason: Option<Reason>)
      requires WellFormed(g) && obj in g && g[obj].Dictionary? && obj in visited && visited <= g.Keys
      modifies this
      ensures old(visited) <= visited <= g.Keys
      ensures reason.None? ==> Explored(g, obj, visited) && ExploredSince(g, old(visited), obj, visited)
      ensures reason.Some? ==> HasCause(g, obj, reason.value)
      decreases |g.Keys - visited|, 2
    {
      var entries := g[obj].entries;
      ghost var before := visited;
      var i := 0;
      while i < |entries|
        invariant 0 <= i <= |entries|
        invariant before <= visited <= g.Keys
        invariant ExploredSince(g, before, obj, visited)
        invariant forall k :: 0 <= k < i ==>
                    EntryReason(g, entries, entries[k]) == None && Resolve(g, entries[k].value) in visited
      {
        reason := EntryReason(g, entries, entries[i]);
        if reason.Some? {
          CauseHere(g, obj, reason.value);
          return;
        }
        SmallerSet(g.Keys - visited, g.Keys - before);
        reason := Walk(g, entries[i].value);
        if reason.Some? {
          CauseThrough(g, obj, Resolve(g, entries[i].value), reason.value);
          return;
        }
        i := i + 1;
      }
      return None;
    }

    /** The loop over an array's items. */
    method WalkItems(g: Graph, obj: ObjId) returns (reason: Option<Reason>)
      requires WellFormed(g) && obj in g && g[obj].Array? && obj in visited && visited <= g.Keys
      modifies this
      ensures old(visited) <= visited <= g.Keys
      ensures reason.None? ==> Explored(g, obj, visited) && ExploredSince(g, old(visited), obj, visited)
      ensures reason.Some? ==> HasCause(g, obj, reason.value)
      decreases |g.Keys - visited|, 2
    {
      var items := g[obj].items;
      ghost var before := visited;
      var i := 0;
      while i < |items|
        invariant 0 <= i <= |items|
        invariant before <= visited <= g.Keys
        invariant ExploredSince(g, before, obj, visited)
        invariant forall k :: 0 <= k < i ==> Resolve(g, items[k]) in visited
      {
        SmallerSet(g.Keys - visited, g.Keys - before);
        reason := Walk(g, items[i]);
        if reason.Some? {
          CauseThrough(g, obj, Resolve(g, items[i]), reason.value);
          return;
        }
        i := i + 1;
      }
      return None;
    }
  }

  lemma SmallerSet(a: set<ObjId>, b: set<ObjId>)
    requires a <= b
    ensures |a| <= |b| && (a < b ==> |a| < |b|)
  {
    assert b == a + (b - a);
    if a < b {
      assert b - a != {};
    }
  }

  /** Everything reachable from a visited object is visited and clean once the visited set is explored. */
  lemma {:induction false} ExploredCoversReachable(g: Graph, visited: set<ObjId>, a: ObjId, b: ObjId, steps: nat)
    requires WellFormed(g) && a in g && a in visited && ReachableIn(g, a, b, steps)
    requires forall n :: n in visited ==> Explored(g, n, visited)
    ensures b in visited && b in g && Clean(g, b)
    decreases steps
  {
    assert Explored(g, a, visited);
    if steps > 0 {
      var m :| m in Successors(g, a) && m in g && ReachableIn(g, m, b, steps - 1);
      ExploredCoversReachable(g, visited, m, b, steps - 1);
    }
  }

  lemma CleanMeansUnjustified(g: Graph, id: ObjId)
    requires WellFormed(g) && id in g
    ensures Clean(g, id) <==> forall r :: !Justifies(g, id, r)
  {
    if !Clean(g, id) {
      var i :| 0 <= i < |g[id].entries| && EntryReason(g, g[id].entries, g[id].entries[i]) != None;
      assert Justifies(g, id, EntryReason(g, g[id].entries, g[id].entries[i]).value);
    }
  }

  /** The document is accepted exactly when no dictionary reachable from the trailer has a blocked entry. */
  method FindBlockedPdfContent(g: Graph, trailer: ObjId) returns (reason: Option<Reason>)
    requires WellFormed(g) && trailer in g
    ensures reason.None? <==> forall n :: n in g && Reachable(g, Resolve(g, trailer), n) ==> Clean(g, n)
    ensures reason.Some? ==> HasCause(g, Resolve(g, trailer), reason.value)
  {
    var walker := new Walker();
    reason := walker.Walk(g, trailer);
    if reason.None? {
      forall n | n in g && Reachable(g, Resolve(g, trailer), n)
        ensures Clean(g, n)
      {
        var steps: nat :| ReachableIn(g, Resolve(g, trailer), n, steps);
        ExploredCoversReachable(g, walker.visited, Resolve(g, trailer), n, steps);
      }
    } else {
      ghost var n :| n in g && Reachable(g, Resolve(g, trailer), n) && Justifies(g, n, reason.value);
      CleanMeansUnjustified(g, n);
    }
  }
}
