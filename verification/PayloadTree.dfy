/** The payload validator (validation.py) on a graph of Python objects, which may share or cycle. */
module PayloadTree {
  import opened Json

  const MAX_JOB_PAYLOAD_DEPTH := 8

  /** A value a caller may pass; a dict or a list is a reference to an object with an identity. */
  datatype Value =
    | Null
    | Bool(b: bool)
    | Int(i: int)
    | Float(finite: bool)
    | Str(s: string)
    | Ref(id: nat)
    | Other

  datatype Key = StrKey(s: string) | OtherKey

  datatype Container = Dict(entries: seq<(Key, Value)>) | List(items: seq<Value>)

  type Heap = map<nat, Container>

  datatype Error = TooDeep | Repeated | BadKey | NotFinite | Unsupported

  /** `value.values()` or the list itself: what the loop pushes. */
  function Children(c: Container): seq<Value> {
    match c
    case Dict(entries) => seq(|entries|, i requires 0 <= i < |entries| => entries[i].1)
    case List(items) => items
  }

  predicate StringKeys(c: Container) {
    c.Dict? ==> forall i | 0 <= i < |c.entries| :: c.entries[i].0.StrKey?
  }

  predicate InHeap(heap: Heap, v: Value) {
    v.Ref? ==> v.id in heap
  }

  /** Every reference leads to an object. */
  ghost predicate Closed(heap: Heap, root: Value) {
    && InHeap(heap, root)
    && forall id, i: nat | ChildOf(heap, Ref(id), i).Some? :: InHeap(heap, ChildOf(heap, Ref(id), i).value)
  }

  // ----- what is to be decided, by paths from the root

  /** The root, or the `index`-th child of the container at the end of another path. */
  datatype Path = Root | Child(parent: Path, index: nat)

  function Depth(p: Path): nat {
    match p
    case Root => 1
    case Child(parent, _) => Depth(parent) + 1
  }

  /** The value of a dict's `i`-th entry, or a list's `i`-th item. */
  function ChildOf(heap: Heap, v: Value, i: nat): Option<Value> {
    if !v.Ref? || v.id !in heap then None
    else
      match heap[v.id]
      case Dict(entries) => if i < |entries| then Some(entries[i].1) else None
      case List(items) => if i < |items| then Some(items[i]) else None
  }

  lemma ChildrenAre(heap: Heap, id: nat, i: nat)
    requires id in heap
    ensures ChildOf(heap, Ref(id), i).Some? <==> i < |Children(heap[id])|
    ensures i < |Children(heap[id])| ==> ChildOf(heap, Ref(id), i).value == Children(heap[id])[i]
  {
  }

  /** The value at the end of a path, if the path exists. */
  function At(heap: Heap, root: Value, path: Path): Option<Value> {
    match path
    case Root => Some(root)
    case Child(parent, i) =>
      var v := At(heap, root, parent);
      if v.Some? then ChildOf(heap, v.value, i) else None
  }

  /** A value JSON can hold, its children aside. */
  predicate Supported(heap: Heap, v: Value) {
    match v
    case Ref(id) => id in heap && (heap[id].Dict? ==> forall i | 0 <= i < |heap[id].entries| :: heap[id].entries[i].0.StrKey?)
    case Float(finite) => finite
    case Other => false
    case _ => true
  }

  /** One path to each container, none deeper than the bound, and only supported values. */
  ghost predicate IsJsonTree(heap: Heap, root: Value) {
    && (forall p | At(heap, root, p).Some? :: Depth(p) <= 8 && Supported(heap, At(heap, root, p).value))
    && (forall p, q | At(heap, root, p).Some? && At(heap, root, p).value.Ref? && At(heap, root, q) == At(heap, root, p) :: p == q)
  }

  // ----- the traversal's invariant

  /** A stack entry: the value and its depth. */
  type Entry = (Value, nat)

  /** The path is the root or leads on from a visited one. */
  predicate ReachedFrom(p: Path, done: set<Path>) {
    p.Child? ==> p.parent in done
  }

  /** `paths` are the paths of the stack's entries. */
  ghost predicate StackReads(heap: Heap, root: Value, stack: seq<Entry>, paths: seq<Path>) {
    && |paths| == |stack|
    && (forall k | 0 <= k < |stack| :: At(heap, root, paths[k]) == Some(stack[k].0) && stack[k].1 == Depth(paths[k]))
  }

  /** The paths on the stack are all different, and not visited yet. */
  ghost predicate StackIsNew(paths: seq<Path>, done: set<Path>) {
    && (forall k | 0 <= k < |paths| :: paths[k] !in done)
    && (forall k, l | 0 <= k < l < |paths| :: paths[k] != paths[l])
  }

  ghost predicate StackIsReached(paths: seq<Path>, done: set<Path>) {
    forall k | 0 <= k < |paths| :: ReachedFrom(paths[k], done)
  }

  /** What has been visited is fine and leads only to what has been visited or is on the stack. */
  ghost predicate DoneOk(heap: Heap, root: Value, paths: seq<Path>, done: set<Path>) {
    && (Root in done || Root in paths)
    && (forall p | p in done :: At(heap, root, p).Some? && Depth(p) <= MAX_JOB_PAYLOAD_DEPTH && Supported(heap, At(heap, root, p).value))
    && (forall p, i: nat | Child(p, i) in done :: p in done)
    && (forall p, i: nat | p in done && ChildOf(heap, At(heap, root, p).value, i).Some? :: Child(p, i) in done || Child(p, i) in paths)
  }

  /** Each seen container was visited on exactly one path, its home. */
  ghost predicate HomeOk(heap: Heap, root: Value, seen: set<nat>, done: set<Path>, home: map<nat, Path>)
    requires forall p | p in done :: At(heap, root, p).Some?
  {
    && home.Keys == seen
    && (forall id | id in seen :: home[id] in done && At(heap, root, home[id]) == Some(Ref(id)))
    && (forall p | p in done && At(heap, root, p).value.Ref? ::
          At(heap, root, p).value.id in seen && home[At(heap, root, p).value.id] == p)
  }

  ghost predicate Consistent(heap: Heap, root: Value, stack: seq<Entry>, seen: set<nat>,
                             paths: seq<Path>, done: set<Path>, home: map<nat, Path>) {
    && StackReads(heap, root, stack, paths) && StackIsNew(paths, done) && StackIsReached(paths, done)
    && DoneOk(heap, root, paths, done) && HomeOk(heap, root, seen, done, home)
  }

  /** With nothing left to visit, every path has been visited. */
  lemma {:induction false} AllVisited(heap: Heap, root: Value, done: set<Path>, p: Path)
    requires DoneOk(heap, root, [], done) && At(heap, root, p).Some?
    ensures p in done
  {
    if p.Child? {
      AllVisited(heap, root, done, p.parent);
    }
  }

  lemma EmptyStackMeansTree(heap: Heap, root: Value, seen: set<nat>, done: set<Path>, home: map<nat, Path>)
    requires Consistent(heap, root, [], seen, [], done, home)
    ensures IsJsonTree(heap, root)
  {
    forall p | At(heap, root, p).Some? ensures p in done {
      AllVisited(heap, root, done, p);
    }
  }

  /** The top of the stack, visited. */
  lemma PopKeepsStack(heap: Heap, root: Value, stack: seq<Entry>, rest: seq<Path>, p: Path, done: set<Path>)
    requires |stack| == |rest| + 1
    requires StackReads(heap, root, stack, rest + [p]) && StackIsNew(rest + [p], done) && StackIsReached(rest + [p], done)
    ensures StackReads(heap, root, stack[..|rest|], rest) && StackIsNew(rest, done + {p}) && StackIsReached(rest, done + {p})
    ensures At(heap, root, p) == Some(stack[|rest|].0) && stack[|rest|].1 == Depth(p) && p !in done && ReachedFrom(p, done)
    ensures forall k | 0 <= k < |rest| :: rest[k] != p
  {
    var paths := rest + [p];
    assert paths[|rest|] == p;
    forall k | 0 <= k < |rest| ensures rest[k] == paths[k] && paths[k] != paths[|rest|] {
    }
  }

  lemma LeafKeepsDone(heap: Heap, root: Value, rest: seq<Path>, p: Path, done: set<Path>)
    requires DoneOk(heap, root, rest + [p], done) && ReachedFrom(p, done)
    requires At(heap, root, p).Some? && Depth(p) <= MAX_JOB_PAYLOAD_DEPTH
    requires !At(heap, root, p).value.Ref? && Supported(heap, At(heap, root, p).value)
    ensures DoneOk(heap, root, rest, done + {p})
  {
    assert forall q | q in rest + [p] :: q == p || q in rest;
    forall q, i: nat | Child(q, i) in done + {p} ensures q in done + {p} {
      assert Child(q, i) == p ==> q in done;
    }
    forall q, i: nat | q in done + {p} && ChildOf(heap, At(heap, root, q).value, i).Some?
      ensures Child(q, i) in done + {p} || Child(q, i) in rest
    {
      assert q != p;
    }
  }

  lemma LeafKeepsHome(heap: Heap, root: Value, seen: set<nat>, p: Path, done: set<Path>, home: map<nat, Path>)
    requires forall q | q in done :: At(heap, root, q).Some?
    requires HomeOk(heap, root, seen, done, home) && At(heap, root, p).Some? && !At(heap, root, p).value.Ref?
    ensures HomeOk(heap, root, seen, done + {p}, home)
  {
  }

  /** Visiting a supported leaf. */
  lemma LeafVisited(heap: Heap, root: Value, stack: seq<Entry>, seen: set<nat>, rest: seq<Path>, p: Path, done: set<Path>, home: map<nat, Path>)
    requires |stack| == |rest| + 1 && Consistent(heap, root, stack, seen, rest + [p], done, home)
    requires var (v, depth) := stack[|rest|];
             !v.Ref? && Supported(heap, v) && depth <= MAX_JOB_PAYLOAD_DEPTH
    ensures Consistent(heap, root, stack[..|rest|], seen, rest, done + {p}, home)
  {
    PopKeepsStack(heap, root, stack, rest, p, done);
    LeafKeepsDone(heap, root, rest, p, done);
    LeafKeepsHome(heap, root, seen, p, done, home);
  }

  /** The paths of a container's children. */
  ghost function ChildPaths(p: Path, n: nat): (r: seq<Path>)
    ensures |r| == n && forall i | 0 <= i < n :: r[i] == Child(p, i)
  {
    seq(n, i requires 0 <= i < n => Child(p, i))
  }

  function ChildEntries(c: Container, depth: nat): (r: seq<Entry>)
    ensures |r| == |Children(c)| && forall i | 0 <= i < |r| :: r[i] == (Children(c)[i], depth)
  {
    seq(|Children(c)|, i requires 0 <= i < |Children(c)| => (Children(c)[i], depth))
  }

  lemma AtChild(heap: Heap, root: Value, p: Path, id: nat, i: nat)
    requires id in heap && At(heap, root, p) == Some(Ref(id)) && i < |Children(heap[id])|
    ensures At(heap, root, Child(p, i)) == Some(Children(heap[id])[i])
  {
  }

  lemma StackReadsAppend(heap: Heap, root: Value, stack: seq<Entry>, paths: seq<Path>, more: seq<Entry>, added: seq<Path>)
    requires StackReads(heap, root, stack, paths) && StackReads(heap, root, more, added)
    ensures StackReads(heap, root, stack + more, paths + added)
  {
  }

  lemma ChildrenRead(heap: Heap, root: Value, p: Path, id: nat)
    requires id in heap && At(heap, root, p) == Some(Ref(id))
    ensures StackReads(heap, root, ChildEntries(heap[id], Depth(p) + 1), ChildPaths(p, |Children(heap[id])|))
  {
    forall i | 0 <= i < |Children(heap[id])| ensures At(heap, root, Child(p, i)) == Some(Children(heap[id])[i]) {
      AtChild(heap, root, p, id, i);
    }
  }

  /** The children of a path not visited before are new, and reached from it. */
  lemma ChildrenAreNew(rest: seq<Path>, p: Path, done: set<Path>, n: nat)
    requires p !in done && StackIsNew(rest, done + {p}) && StackIsReached(rest, done)
    requires forall q, i: nat | Child(q, i) in done :: q in done
    ensures StackIsNew(rest + ChildPaths(p, n), done + {p}) && StackIsReached(rest + ChildPaths(p, n), done + {p})
  {
    var added, paths := ChildPaths(p, n), rest + ChildPaths(p, n);
    forall k | 0 <= k < |paths| ensures paths[k] !in done + {p} && ReachedFrom(paths[k], done + {p}) {
      if k >= |rest| {
        assert paths[k] == Child(p, k - |rest|) && Depth(paths[k]) == Depth(p) + 1;
      }
    }
    forall k, l | 0 <= k < l < |paths| ensures paths[k] != paths[l] {
      if l >= |rest| {
        assert paths[l] == Child(p, l - |rest|);
        assert k < |rest| ==> ReachedFrom(rest[k], done);
      }
    }
  }

  lemma ChildrenReached(heap: Heap, root: Value, rest: seq<Path>, p: Path, done: set<Path>, id: nat)
    requires id in heap && At(heap, root, p) == Some(Ref(id)) && Supported(heap, Ref(id)) && Depth(p) <= MAX_JOB_PAYLOAD_DEPTH
    requires DoneOk(heap, root, rest + [p], done) && ReachedFrom(p, done)
    ensures DoneOk(heap, root, rest + ChildPaths(p, |Children(heap[id])|), done + {p})
  {
    var added := ChildPaths(p, |Children(heap[id])|);
    forall q, i: nat | q in done + {p} && ChildOf(heap, At(heap, root, q).value, i).Some?
      ensures Child(q, i) in done + {p} || Child(q, i) in rest + added
    {
      if q == p {
        assert added[i] == Child(q, i);
      } else {
        assert Child(q, i) in rest + [p] ==> Child(q, i) in rest || Child(q, i) == p;
      }
    }
  }

  lemma NewHome(heap: Heap, root: Value, seen: set<nat>, p: Path, done: set<Path>, home: map<nat, Path>, id: nat)
    requires forall q | q in done :: At(heap, root, q).Some?
    requires HomeOk(heap, root, seen, done, home) && At(heap, root, p) == Some(Ref(id)) && id !in seen
    ensures HomeOk(heap, root, seen + {id}, done + {p}, home[id := p])
  {
  }

  /** The top of the stack replaced by its children. */
  lemma ContainerStacked(heap: Heap, root: Value, stack: seq<Entry>, rest: seq<Path>, p: Path, done: set<Path>, id: nat)
    requires id in heap && At(heap, root, p) == Some(Ref(id)) && p !in done
    requires StackReads(heap, root, stack, rest) && StackIsNew(rest, done + {p}) && StackIsReached(rest, done)
    requires forall q, i: nat | Child(q, i) in done :: q in done
    ensures var paths := rest + ChildPaths(p, |Children(heap[id])|);
            && StackReads(heap, root, stack + ChildEntries(heap[id], Depth(p) + 1), paths)
            && StackIsNew(paths, done + {p}) && StackIsReached(paths, done + {p})
  {
    ChildrenRead(heap, root, p, id);
    StackReadsAppend(heap, root, stack, rest, ChildEntries(heap[id], Depth(p) + 1), ChildPaths(p, |Children(heap[id])|));
    ChildrenAreNew(rest, p, done, |Children(heap[id])|);
  }

  lemma RestIsReached(rest: seq<Path>, p: Path, done: set<Path>)
    requires StackIsReached(rest + [p], done)
    ensures StackIsReached(rest, done)
  {
    forall k | 0 <= k < |rest| ensures ReachedFrom(rest[k], done) {
      assert rest[k] == (rest + [p])[k];
    }
  }

  /** Visiting a container not seen before. */
  lemma ContainerVisited(heap: Heap, root: Value, stack: seq<Entry>, seen: set<nat>, rest: seq<Path>, p: Path,
                         done: set<Path>, home: map<nat, Path>, id: nat)
    requires |stack| == |rest| + 1 && Consistent(heap, root, stack, seen, rest + [p], done, home)
    requires stack[|rest|].0 == Ref(id) && Supported(heap, Ref(id)) && id !in seen
    requires stack[|rest|].1 == Depth(p) <= MAX_JOB_PAYLOAD_DEPTH
    ensures Consistent(heap, root, stack[..|rest|] + ChildEntries(heap[id], Depth(p) + 1), seen + {id},
                       rest + ChildPaths(p, |Children(heap[id])|), done + {p}, home[id := p])
  {
    PopKeepsStack(heap, root, stack, rest, p, done);
    RestIsReached(rest, p, done);
    ContainerStacked(heap, root, stack[..|rest|], rest, p, done, id);
    ChildrenReached(heap, root, rest, p, done, id);
    NewHome(heap, root, seen, p, done, home, id);
  }

  // ----- the loop

  ghost predicate StackInHeap(heap: Heap, stack: seq<Entry>) {
    forall k | 0 <= k < |stack| :: InHeap(heap, stack[k].0)
  }

  /** The ghost state that goes with the stack and the seen-set. */
  datatype Trail = Trail(paths: seq<Path>, done: set<Path>, home: map<nat, Path>)

  ghost predicate LoopInvariant(heap: Heap, root: Value, stack: seq<Entry>, seen: set<nat>, t: Trail) {
    Consistent(heap, root, stack, seen, t.paths, t.done, t.home) && StackInHeap(heap, stack) && seen <= heap.Keys
  }

  /** What the loop does with a value it does not reject. */
  ghost function Visited(heap: Heap, value: Value, t: Trail): Trail
    requires t.paths != [] && InHeap(heap, value)
  {
    var p, rest := t.paths[|t.paths| - 1], t.paths[..|t.paths| - 1];
    if value.Ref? then
      Trail(rest + ChildPaths(p, |Children(heap[value.id])|), t.done + {p}, t.home[value.id := p])
    else Trail(rest, t.done + {p}, t.home)
  }

  function Pushed(heap: Heap, stack: seq<Entry>, value: Value, depth: nat): seq<Entry>
    requires InHeap(heap, value)
  {
    if value.Ref? then stack + ChildEntries(heap[value.id], depth + 1) else stack
  }

  /** Why a popped value is refused, if it is. */
  function Refusal(heap: Heap, seen: set<nat>, value: Value, depth: nat): Option<Error>
    requires InHeap(heap, value)
  {
    if depth > MAX_JOB_PAYLOAD_DEPTH then Some(TooDeep)
    else
      match value
      case Ref(id) => if id in seen then Some(Repeated) else if !StringKeys(heap[id]) then Some(BadKey) else None
      case Float(finite) => if finite then None else Some(NotFinite)
      case Other => Some(Unsupported)
      case _ => None
  }

  lemma RefusedTopRefutes(heap: Heap, root: Value, stack: seq<Entry>, seen: set<nat>,
                          paths: seq<Path>, done: set<Path>, home: map<nat, Path>)
    requires stack != [] && StackReads(heap, root, stack, paths) && StackIsNew(paths, done)
    requires (forall p | p in done :: At(heap, root, p).Some?) && HomeOk(heap, root, seen, done, home)
    requires InHeap(heap, stack[|stack| - 1].0)
    requires Refusal(heap, seen, stack[|stack| - 1].0, stack[|stack| - 1].1).Some?
    ensures !IsJsonTree(heap, root)
  {
    var n := |paths| - 1;
    var p, v := paths[n], stack[n].0;
    assert At(heap, root, p) == Some(v) && p !in done;
    if v.Ref? && v.id in seen {
      assert At(heap, root, home[v.id]) == At(heap, root, p) && home[v.id] != p;
    }
  }

  /** A refused value refutes the tree: it is too deep, unsupported, or met on a second path. */
  lemma RefusalRefutes(heap: Heap, root: Value, stack: seq<Entry>, seen: set<nat>, t: Trail)
    requires stack != [] && LoopInvariant(heap, root, stack, seen, t)
    requires Refusal(heap, seen, stack[|stack| - 1].0, stack[|stack| - 1].1).Some?
    ensures !IsJsonTree(heap, root)
  {
    RefusedTopRefutes(heap, root, stack, seen, t.paths, t.done, t.home);
  }

  lemma PushedInHeap(heap: Heap, root: Value, stack: seq<Entry>, value: Value, depth: nat)
    requires Closed(heap, root) && StackInHeap(heap, stack) && InHeap(heap, value)
    ensures StackInHeap(heap, Pushed(heap, stack, value, depth))
  {
    if value.Ref? {
      var more := ChildEntries(heap[value.id], depth + 1);
      forall i | 0 <= i < |more| ensures InHeap(heap, more[i].0) {
        ChildrenAre(heap, value.id, i);
      }
    }
  }

  /** What the invariant says of the top of the stack. */
  lemma TopOfStack(heap: Heap, root: Value, stack: seq<Entry>, paths: seq<Path>)
    requires stack != [] && StackReads(heap, root, stack, paths)
    ensures paths != [] && paths == paths[..|stack| - 1] + [paths[|stack| - 1]]
    ensures At(heap, root, paths[|stack| - 1]) == Some(stack[|stack| - 1].0)
    ensures stack[|stack| - 1].1 == Depth(paths[|stack| - 1])
  {
  }

  lemma VisitContainer(heap: Heap, root: Value, stack: seq<Entry>, seen: set<nat>, t: Trail, id: nat)
    requires stack != [] && StackReads(heap, root, stack, t.paths) && Consistent(heap, root, stack, seen, t.paths, t.done, t.home)
    requires stack[|stack| - 1].0 == Ref(id) && id in heap && StringKeys(heap[id]) && id !in seen
    requires stack[|stack| - 1].1 <= MAX_JOB_PAYLOAD_DEPTH && t.paths != []
    ensures var after := Visited(heap, Ref(id), t);
            Consistent(heap, root, stack[..|stack| - 1] + ChildEntries(heap[id], stack[|stack| - 1].1 + 1), seen + {id},
                       after.paths, after.done, after.home)
  {
    var n := |stack| - 1;
    TopOfStack(heap, root, stack, t.paths);
    ContainerVisited(heap, root, stack, seen, t.paths[..n], t.paths[n], t.done, t.home, id);
  }

  lemma VisitLeaf(heap: Heap, root: Value, stack: seq<Entry>, seen: set<nat>, t: Trail)
    requires stack != [] && StackReads(heap, root, stack, t.paths) && Consistent(heap, root, stack, seen, t.paths, t.done, t.home)
    requires !stack[|stack| - 1].0.Ref? && Supported(heap, stack[|stack| - 1].0)
    requires stack[|stack| - 1].1 <= MAX_JOB_PAYLOAD_DEPTH && t.paths != []
    ensures var after := Visited(heap, stack[|stack| - 1].0, t);
            Consistent(heap, root, stack[..|stack| - 1], seen, after.paths, after.done, after.home)
  {
    var n := |stack| - 1;
    TopOfStack(heap, root, stack, t.paths);
    LeafVisited(heap, root, stack, seen, t.paths[..n], t.paths[n], t.done, t.home);
  }

  /** One turn of the loop that does not raise keeps the invariant. */
  lemma VisitKeepsInvariant(heap: Heap, root: Value, stack: seq<Entry>, seen: set<nat>, t: Trail)
    requires stack != [] && Closed(heap, root) && LoopInvariant(heap, root, stack, seen, t)
    requires Refusal(heap, seen, stack[|stack| - 1].0, stack[|stack| - 1].1).None?
    ensures t.paths != []
    ensures var (value, depth) := stack[|stack| - 1];
            LoopInvariant(heap, root, Pushed(heap, stack[..|stack| - 1], value, depth),
                          if value.Ref? then seen + {value.id} else seen, Visited(heap, value, t))
  {
    var n := |stack| - 1;
    var (value, depth) := stack[n];
    if value.Ref? {
      VisitContainer(heap, root, stack, seen, t, value.id);
    } else {
      VisitLeaf(heap, root, stack, seen, t);
    }
    PushedInHeap(heap, root, stack[..n], value, depth);
  }

  /** `_validate_json_tree`: an explicit stack and the set of containers seen so far. The answer does
   *  not depend on the order in which the stack is worked off. */
  method ValidateJsonTree(heap: Heap, root: Value) returns (error: Option<Error>)
    requires Closed(heap, root)
    ensures error.None? <==> IsJsonTree(heap, root)
  {
    var stack: seq<Entry> := [(root, 1)];
    var seen: set<nat> := {};
    ghost var trail := Trail([Root], {}, map[]);
    while stack != []
      invariant LoopInvariant(heap, root, stack, seen, trail)
      decreases heap.Keys - seen, |stack|
    {
      var (value, depth) := stack[|stack| - 1];
      error := Refusal(heap, seen, value, depth);
      if error.Some? {
        RefusalRefutes(heap, root, stack, seen, trail);
        return;
      }
      VisitKeepsInvariant(heap, root, stack, seen, trail);
      trail := Visited(heap, value, trail);
      stack := Pushed(heap, stack[..|stack| - 1], value, depth);
      if value.Ref? {
        seen := seen + {value.id};
      }
    }
    assert trail.paths == [];
    EmptyStackMeansTree(heap, root, seen, trail.done, trail.home);
    error := None;
  }
}
