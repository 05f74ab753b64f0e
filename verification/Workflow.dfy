/** The graph a job submits: an installed template with its slots bound or dropped (comfy.py). */
module Workflow {
  import opened Json
  import opened Templates

  const IMAGE_INPUT := "image"
  const AUDIO_INPUT := "audio"
  const PREFIX_INPUT := "filename_prefix"
  const PREFIX_ROOT := "ogwp/"

  // ----- links

  /** The node a value links to: a list whose first element is a node id. */
  function LinkTarget(v: Json): Option<string> {
    if v.JArr? && v.items != [] && v.items[0].JStr? then Some(v.items[0].s) else None
  }

  /** `_links_to` for some node of the set. */
  predicate LinksInto(v: Json, removed: set<string>) {
    LinkTarget(v).Some? && LinkTarget(v).value in removed
  }

  predicate AllHaveInputs(g: Graph) {
    forall id | id in g :: g[id].Node? && g[id].inputs.Some?
  }

  /** What the graph holds at one input of one node. */
  function Lookup(g: Graph, id: string, name: string): Option<Json> {
    if id in g && g[id].Node? && g[id].inputs.Some? && name in g[id].inputs.value
    then Some(g[id].inputs.value[name]) else None
  }

  /** `_links_to`: a list whose first item is the node's id. */
  predicate Points(v: Json, id: string) {
    v.JArr? && |v.items| > 0 && v.items[0] == JStr(id)
  }

  lemma TargetIsPointedAt(v: Json, id: string)
    ensures LinkTarget(v) == Some(id) <==> Points(v, id)
  {
  }

  /** The graph holds this value at this input. */
  predicate Holding(g: Graph, id: string, name: string, v: Json) {
    id in g && g[id].Node? && g[id].inputs.Some? && name in g[id].inputs.value && g[id].inputs.value[name] == v
  }

  /** Every link leads to a node of the graph. */
  ghost predicate NoDangling(g: Graph) {
    forall id, name, v, target | Holding(g, id, name, v) && Points(v, target) :: target in g
  }

  // ----- dropping slots

  /** The node ids a dropped slot takes with it. */
  function Removed(slot: Slot): set<string> {
    {slot.nodeId} + set d | d in slot.dependents
  }

  function Kept(inputs: map<string, Json>, removed: set<string>): map<string, Json> {
    map name | name in inputs && !LinksInto(inputs[name], removed) :: inputs[name]
  }

  function KeptNode(node: Node, removed: set<string>): Node {
    if node.Node? && node.inputs.Some? then node.(inputs := Some(Kept(node.inputs.value, removed))) else node
  }

  /** The graph without these nodes and without the links into them. */
  function Drop(g: Graph, removed: set<string>): Graph {
    map id | id in g && id !in removed :: KeptNode(g[id], removed)
  }

  /** Dropping a slot removes its nodes and exactly the inputs that point at them. */
  lemma DroppedByValue(g: Graph, slot: Slot)
    ensures var h := Drop(g, Removed(slot));
      && (AllHaveInputs(h) <==> forall id | id in g && id != slot.nodeId && id !in slot.dependents :: g[id].Node? && g[id].inputs.Some?)
      && (forall id :: id in h <==> id in g && id != slot.nodeId && id !in slot.dependents)
      && (forall id | id in h && g[id].Node? :: h[id].Node? && h[id].classType == g[id].classType)
      && (forall id, name, v :: Holding(h, id, name, v) <==>
            && id in h && Holding(g, id, name, v)
            && !Points(v, slot.nodeId) && forall d | d in slot.dependents :: !Points(v, d))
  {
    var h := Drop(g, Removed(slot));
    forall id ensures id in h <==> id in g && id != slot.nodeId && id !in slot.dependents {
    }
    if AllHaveInputs(h) {
      forall id | id in g && id != slot.nodeId && id !in slot.dependents ensures g[id].Node? && g[id].inputs.Some? {
        assert id in h && h[id] == KeptNode(g[id], Removed(slot));
      }
    }
    forall id, name, v
      ensures Holding(h, id, name, v) <==>
        && id in h && Holding(g, id, name, v)
        && !Points(v, slot.nodeId) && forall d | d in slot.dependents :: !Points(v, d)
    {
      PointsIntoRemoved(v, slot);
    }
  }

  lemma PointsIntoRemoved(v: Json, slot: Slot)
    ensures LinksInto(v, Removed(slot)) <==> Points(v, slot.nodeId) || exists d | d in slot.dependents :: Points(v, d)
  {
    if LinkTarget(v).Some? {
      TargetIsPointedAt(v, LinkTarget(v).value);
    }
  }

  /** Dropping one set of nodes and then another is dropping both, whatever the order. */
  lemma DropIsUnion(g: Graph, a: set<string>, b: set<string>)
    ensures Drop(Drop(g, a), b) == Drop(g, a + b)
  {
    forall id | id in g && id !in a + b ensures KeptNode(KeptNode(g[id], a), b) == KeptNode(g[id], a + b) {
      if g[id].Node? && g[id].inputs.Some? {
        assert Kept(Kept(g[id].inputs.value, a), b) == Kept(g[id].inputs.value, a + b);
      }
    }
  }

  // ----- building the graph

  /** One edit of the graph: an input set by name, or a dropped slot's nodes removed. */
  datatype Edit = SetInput(id: string, name: string, value: Json) | DropNodes(ids: set<string>)

  predicate HasInputs(g: Graph, id: string) {
    id in g && g[id].Node? && g[id].inputs.Some?
  }

  function Put(g: Graph, id: string, name: string, value: Json): Graph
    requires HasInputs(g, id)
  {
    g[id := g[id].(inputs := Some(g[id].inputs.value[name := value]))]
  }

  /** One edit; None is the KeyError or failed assertion of `_node_inputs`. */
  function Apply(g: Graph, edit: Edit): Option<Graph> {
    match edit
    case SetInput(id, name, value) => if HasInputs(g, id) then Some(Put(g, id, name, value)) else None
    case DropNodes(ids) => if AllHaveInputs(Drop(g, ids)) then Some(Drop(g, ids)) else None
  }

  function ApplyAll(g: Graph, edits: seq<Edit>): Option<Graph> {
    if edits == [] then Some(g)
    else
      var before := ApplyAll(g, edits[..|edits| - 1]);
      if before.None? then None else Apply(before.value, edits[|edits| - 1])
  }

  lemma {:induction false} ApplyAllSplits(g: Graph, a: seq<Edit>, b: seq<Edit>)
    ensures ApplyAll(g, a + b) == if ApplyAll(g, a).None? then None else ApplyAll(ApplyAll(g, a).value, b)
  {
    if b == [] {
      assert a + b == a;
    } else {
      assert (a + b)[..|a + b| - 1] == a + b[..|b| - 1];
      ApplyAllSplits(g, a, b[..|b| - 1]);
    }
  }

  /** The declared inputs the request carries, in order. */
  function FillEdits(entries: seq<TemplateInput>, inputs: map<string, Json>): seq<Edit> {
    if entries == [] then []
    else
      var e := entries[|entries| - 1];
      FillEdits(entries[..|entries| - 1], inputs)
      + if e.name in inputs then [SetInput(e.nodeId, e.inputName, inputs[e.name])] else []
  }

  /** What the runtime calls the file it stores for a slot, given the slot's name and its key. */
  type Uploads = (string, string) -> string

  predicate BoundIn(slot: Slot, keys: map<string, Json>) {
    Get(keys, slot.name).JStr?
  }

  /** A bound slot names the uploaded file in its media input; any other slot is dropped. */
  function SlotEdit(slot: Slot, media: string, keys: map<string, Json>, uploads: Uploads): Edit {
    if BoundIn(slot, keys)
    then SetInput(slot.nodeId, media, JStr(uploads(slot.name, keys[slot.name].s)))
    else DropNodes(Removed(slot))
  }

  function SlotEdits(slots: seq<Slot>, media: string, keys: map<string, Json>, uploads: Uploads): (r: seq<Edit>)
    ensures |r| == |slots| && forall i | 0 <= i < |r| :: r[i] == SlotEdit(slots[i], media, keys, uploads)
  {
    seq(|slots|, i requires 0 <= i < |slots| => SlotEdit(slots[i], media, keys, uploads))
  }

  /** The media map of the request; None is the failed assertion of `execute`. */
  function ImageKeys(inputs: map<string, Json>): Option<map<string, Json>> {
    if IMAGES in inputs && inputs[IMAGES].JObj? then Some(inputs[IMAGES].fields) else None
  }

  function AudioKeys(inputs: map<string, Json>): Option<map<string, Json>> {
    if AUDIOS !in inputs then Some(map[])
    else if inputs[AUDIOS].JObj? then Some(inputs[AUDIOS].fields) else None
  }

  function AllSlotEdits(t: Template, inputs: map<string, Json>, uploads: Uploads): seq<Edit>
    requires ImageKeys(inputs).Some? && AudioKeys(inputs).Some?
  {
    SlotEdits(t.imageSlots, IMAGE_INPUT, ImageKeys(inputs).value, uploads)
    + SlotEdits(t.audioSlots, AUDIO_INPUT, AudioKeys(inputs).value, uploads)
  }

  /** The output node's file name prefix is replaced where the node has one. */
  function Prefixed(g: Graph, id: string, jobId: string): Option<Graph> {
    if !HasInputs(g, id) then None
    else if PREFIX_INPUT in g[id].inputs.value then Some(Put(g, id, PREFIX_INPUT, JStr(PREFIX_ROOT + jobId)))
    else Some(g)
  }

  /** Every edit before the prefix, in the order they are made. */
  function Edits(t: Template, inputs: map<string, Json>, uploads: Uploads): seq<Edit>
    requires ImageKeys(inputs).Some? && AudioKeys(inputs).Some?
  {
    FillEdits(t.inputs, inputs) + AllSlotEdits(t, inputs, uploads)
  }

  /** The graph `execute` submits; None when building it raises. */
  function Built(t: Template, inputs: map<string, Json>, uploads: Uploads, jobId: string): Option<Graph> {
    if ImageKeys(inputs).None? || AudioKeys(inputs).None? then None
    else
      var edited := ApplyAll(t.graph, Edits(t, inputs, uploads));
      if edited.None? then None else Prefixed(edited.value, t.outputNodeId, jobId)
  }

  /** The inner loop of `_drop_slot`: collect the names, then delete them. */
  method WithoutLinks(all: map<string, Json>, removed: set<string>) returns (inputs: map<string, Json>)
    ensures inputs == Kept(all, removed)
  {
    inputs := all;
    var names := set name | name in all && LinksInto(all[name], removed);
    while names != {}
      invariant names <= all.Keys && inputs.Keys <= all.Keys
      invariant forall name | name in inputs :: inputs[name] == all[name]
      invariant forall name | name in all :: name in inputs <==> name in names || !LinksInto(all[name], removed)
      invariant forall name | name in names :: LinksInto(all[name], removed)
    {
      var name :| name in names;
      inputs := inputs - {name};
      names := names - {name};
    }
  }

  lemma PopThenDelete(g: Graph, removed: set<string>)
    ensures var popped := g - removed;
      && (AllHaveInputs(popped) <==> AllHaveInputs(Drop(g, removed)))
      && (map id | id in popped :: KeptNode(popped[id], removed)) == Drop(g, removed)
  {
    var popped := g - removed;
    forall id | id in popped ensures id in Drop(g, removed) && Drop(g, removed)[id] == KeptNode(popped[id], removed) {
    }
    if AllHaveInputs(Drop(g, removed)) {
      forall id | id in popped ensures popped[id].Node? && popped[id].inputs.Some? {
        assert id in Drop(g, removed);
      }
    }
  }

  /** The copy of a template's graph that `execute` rewrites in place. */
  class PromptGraph {
    var nodes: Graph

    constructor (graph: Graph)
      ensures nodes == graph
    {
      nodes := graph;
    }

    method Assign(id: string, name: string, value: Json) returns (ok: bool)
      modifies this
      ensures ok <==> HasInputs(old(nodes), id)
      ensures nodes == if ok then Put(old(nodes), id, name, value) else old(nodes)
    {
      if id !in nodes || !nodes[id].Node? || nodes[id].inputs.None? {
        return false;
      }
      nodes := nodes[id := nodes[id].(inputs := Some(nodes[id].inputs.value[name := value]))];
      ok := true;
    }

    /** `_drop_slot`: pop the slot's nodes, then delete every input that links into them. */
    method DropSlot(slot: Slot) returns (ok: bool)
      modifies this
      ensures ok <==> AllHaveInputs(Drop(old(nodes), Removed(slot)))
      ensures ok ==> nodes == Drop(old(nodes), Removed(slot))
      ensures ok <==> forall id | id in old(nodes) && id != slot.nodeId && id !in slot.dependents ::
                old(nodes)[id].Node? && old(nodes)[id].inputs.Some?
      ensures ok ==> forall id :: id in nodes <==> id in old(nodes) && id != slot.nodeId && id !in slot.dependents
      ensures ok ==> forall id | id in nodes :: nodes[id].Node? && nodes[id].classType == old(nodes)[id].classType
      ensures ok ==> forall id, name, v :: Holding(nodes, id, name, v) <==>
                && id in nodes && Holding(old(nodes), id, name, v)
                && !Points(v, slot.nodeId) && forall d | d in slot.dependents :: !Points(v, d)
    {
      ghost var before := nodes;
      DroppedByValue(before, slot);
      PopNodes(Removed(slot));
      ok := DeleteLinks(Removed(slot));
      PopThenDelete(before, Removed(slot));
    }

    method PopNodes(removed: set<string>)
      modifies this
      ensures nodes == old(nodes) - removed
    {
      var pending := removed;
      while pending != {}
        invariant pending <= removed && nodes == old(nodes) - (removed - pending)
      {
        var id :| id in pending;
        nodes := nodes - {id};
        pending := pending - {id};
      }
    }

    /** Delete every input that links into the removed nodes, node by node. */
    method DeleteLinks(removed: set<string>) returns (ok: bool)
      modifies this
      ensures ok <==> AllHaveInputs(old(nodes))
      ensures ok ==> nodes == map id | id in old(nodes) :: KeptNode(old(nodes)[id], removed)
    {
      ghost var popped := nodes;
      var todo := nodes.Keys;
      while todo != {}
        invariant todo <= popped.Keys && nodes.Keys == popped.Keys
        invariant forall id | id in popped && id !in todo ::
            popped[id].Node? && popped[id].inputs.Some? && nodes[id] == KeptNode(popped[id], removed)
        invariant forall id | id in todo :: nodes[id] == popped[id]
      {
        var id :| id in todo;
        if !nodes[id].Node? || nodes[id].inputs.None? {
          return false;
        }
        var inputs := WithoutLinks(nodes[id].inputs.value, removed);
        nodes := nodes[id := nodes[id].(inputs := Some(inputs))];
        todo := todo - {id};
      }
      ok := true;
    }

    /** One slot, bound or dropped. */
    method BindSlot(slot: Slot, media: string, keys: map<string, Json>, uploads: Uploads) returns (ok: bool)
      modifies this
      ensures ok <==> Apply(old(nodes), SlotEdit(slot, media, keys, uploads)).Some?
      ensures ok ==> Apply(old(nodes), SlotEdit(slot, media, keys, uploads)) == Some(nodes)
    {
      if BoundIn(slot, keys) {
        ok := Assign(slot.nodeId, media, JStr(uploads(slot.name, keys[slot.name].s)));
      } else {
        ok := DropSlot(slot);
      }
    }

    /** The slots of one kind of media, each bound or dropped. */
    method BindSlots(slots: seq<Slot>, media: string, keys: map<string, Json>, uploads: Uploads) returns (ok: bool)
      modifies this
      ensures ok <==> ApplyAll(old(nodes), SlotEdits(slots, media, keys, uploads)).Some?
      ensures ok ==> ApplyAll(old(nodes), SlotEdits(slots, media, keys, uploads)) == Some(nodes)
    {
      ghost var edits := SlotEdits(slots, media, keys, uploads);
      ghost var start := nodes;
      for n := 0 to |slots|
        invariant ApplyAll(start, edits[..n]) == Some(nodes)
      {
        OneMoreEdit(start, edits, n);
        ok := BindSlot(slots[n], media, keys, uploads);
        if !ok {
          StaysFailed(start, edits, n + 1);
          return;
        }
      }
      assert edits[..|slots|] == edits;
      ok := true;
    }

    /** The graph-building part of `execute`. */
    method Build(t: Template, inputs: map<string, Json>, uploads: Uploads, jobId: string) returns (ok: bool)
      requires nodes == t.graph
      modifies this
      ensures ok <==> Built(t, inputs, uploads, jobId).Some?
      ensures ok ==> Built(t, inputs, uploads, jobId) == Some(nodes)
    {
      ok := FillInputs(t.inputs, inputs);
      if ImageKeys(inputs).None? || AudioKeys(inputs).None? {
        return false;
      }
      ghost var fill := FillEdits(t.inputs, inputs);
      ghost var images := SlotEdits(t.imageSlots, IMAGE_INPUT, ImageKeys(inputs).value, uploads);
      ghost var audios := SlotEdits(t.audioSlots, AUDIO_INPUT, AudioKeys(inputs).value, uploads);
      ApplyAllSplits(t.graph, fill, images + audios);
      if !ok {
        return;
      }
      ApplyAllSplits(nodes, images, audios);
      ok := BindSlots(t.imageSlots, IMAGE_INPUT, ImageKeys(inputs).value, uploads);
      if !ok {
        return;
      }
      ok := BindSlots(t.audioSlots, AUDIO_INPUT, AudioKeys(inputs).value, uploads);
      if !ok || !HasInputs(nodes, t.outputNodeId) {
        return false;
      }
      if PREFIX_INPUT in nodes[t.outputNodeId].inputs.value {
        ok := Assign(t.outputNodeId, PREFIX_INPUT, JStr(PREFIX_ROOT + jobId));
      }
    }

    /** The declared inputs the request carries, set in order. */
    method FillInputs(entries: seq<TemplateInput>, inputs: map<string, Json>) returns (ok: bool)
      modifies this
      ensures ok <==> ApplyAll(old(nodes), FillEdits(entries, inputs)).Some?
      ensures ok ==> ApplyAll(old(nodes), FillEdits(entries, inputs)) == Some(nodes)
    {
      ghost var start := nodes;
      for n := 0 to |entries|
        invariant ApplyAll(start, FillEdits(entries[..n], inputs)) == Some(nodes)
      {
        var e := entries[n];
        assert entries[..n + 1][..n] == entries[..n];
        if e.name in inputs {
          ghost var before, edit := nodes, SetInput(e.nodeId, e.inputName, inputs[e.name]);
          ghost var done := FillEdits(entries[..n], inputs);
          assert FillEdits(entries[..n + 1], inputs) == done + [edit];
          assert (done + [edit])[..|done|] == done;
          ok := Assign(e.nodeId, e.inputName, inputs[e.name]);
          if !ok {
            FillStaysFailed(start, entries, inputs, n + 1);
            return;
          }
        } else {
          assert FillEdits(entries[..n + 1], inputs) == FillEdits(entries[..n], inputs);
        }
      }
      assert entries[..|entries|] == entries;
      ok := true;
    }
  }

  lemma OneMoreEdit(g: Graph, edits: seq<Edit>, n: nat)
    requires n < |edits| && ApplyAll(g, edits[..n]).Some?
    ensures ApplyAll(g, edits[..n + 1]) == Apply(ApplyAll(g, edits[..n]).value, edits[n])
  {
    assert edits[..n + 1][..n] == edits[..n];
  }

  /** Once an edit fails, so does the whole list. */
  lemma {:induction false} StaysFailed(g: Graph, edits: seq<Edit>, n: nat)
    requires n <= |edits| && ApplyAll(g, edits[..n]).None?
    ensures ApplyAll(g, edits).None?
    decreases |edits| - n
  {
    ApplyAllSplits(g, edits[..n], edits[n..]);
    assert edits[..n] + edits[n..] == edits;
  }

  lemma {:induction false} FillStaysFailed(g: Graph, entries: seq<TemplateInput>, inputs: map<string, Json>, n: nat)
    requires n <= |entries| && ApplyAll(g, FillEdits(entries[..n], inputs)).None?
    ensures ApplyAll(g, FillEdits(entries, inputs)).None?
    decreases |entries| - n
  {
    if n == |entries| {
      assert entries[..n] == entries;
    } else {
      assert entries[..n + 1][..n] == entries[..n];
      var done, more := FillEdits(entries[..n], inputs), FillEdits(entries[..n + 1], inputs);
      assert more == done + more[|done|..];
      ApplyAllSplits(g, done, more[|done|..]);
      FillStaysFailed(g, entries, inputs, n + 1);
    }
  }
}
