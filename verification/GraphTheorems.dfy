/** What the graph a job submits keeps of the installed template (comfy.py). */
module GraphTheorems {
  import opened Json
  import opened Templates
  import opened ComfyRequest
  import opened Workflow

  // ----- any sequence of edits

  /** Every node the edits remove. */
  function Dropped(edits: seq<Edit>): set<string> {
    set e, id | e in edits && e.DropNodes? && id in e.ids :: id
  }

  /** No edit sets an input of a node that an earlier edit removed. */
  predicate Safe(edits: seq<Edit>) {
    forall i, j | 0 <= i < j < |edits| && edits[i].DropNodes? && edits[j].SetInput? :: edits[j].id !in edits[i].ids
  }

  /** Every edit that sets an input to a link precedes the first removal. */
  predicate LinksFirst(edits: seq<Edit>) {
    forall i, j | 0 <= i < j < |edits| && edits[i].DropNodes? && edits[j].SetInput? :: LinkTarget(edits[j].value).None?
  }

  predicate SetsNodesOf(edits: seq<Edit>, g: Graph) {
    forall e | e in edits && e.SetInput? :: e.id in g
  }

  /** The inputs the edits set, with nothing removed. */
  function PutAll(g: Graph, edits: seq<Edit>): Graph {
    if edits == [] then g
    else
      var before, e := PutAll(g, edits[..|edits| - 1]), edits[|edits| - 1];
      if e.SetInput? && HasInputs(before, e.id) then Put(before, e.id, e.name, e.value) else before
  }

  /** The last value the edits set at one input. */
  function LastSet(edits: seq<Edit>, id: string, name: string): Option<Json> {
    if edits == [] then None
    else
      var e := edits[|edits| - 1];
      if e.SetInput? && e.id == id && e.name == name then Some(e.value)
      else LastSet(edits[..|edits| - 1], id, name)
  }

  lemma {:induction false} PutAllShape(g: Graph, edits: seq<Edit>)
    requires AllHaveInputs(g)
    ensures AllHaveInputs(PutAll(g, edits)) && PutAll(g, edits).Keys == g.Keys
    ensures forall id | id in g :: PutAll(g, edits)[id].classType == g[id].classType
  {
    if edits != [] {
      PutAllShape(g, edits[..|edits| - 1]);
    }
  }

  lemma {:induction false} PutAllLookup(g: Graph, edits: seq<Edit>, id: string, name: string)
    requires AllHaveInputs(g) && id in g
    ensures Lookup(PutAll(g, edits), id, name) ==
      if LastSet(edits, id, name).Some? then LastSet(edits, id, name) else Lookup(g, id, name)
  {
    if edits != [] {
      PutAllShape(g, edits[..|edits| - 1]);
      PutAllLookup(g, edits[..|edits| - 1], id, name);
    }
  }

  /** Setting an input and removing other nodes commute. */
  lemma PutDropCommute(g: Graph, removed: set<string>, id: string, name: string, value: Json)
    requires HasInputs(g, id) && id !in removed && !LinksInto(value, removed)
    ensures HasInputs(Drop(g, removed), id)
    ensures Put(Drop(g, removed), id, name, value) == Drop(Put(g, id, name, value), removed)
  {
    var inputs := g[id].inputs.value;
    assert Kept(inputs, removed)[name := value] == Kept(inputs[name := value], removed);
  }

  lemma DropNothing(g: Graph)
    ensures Drop(g, {}) == g
  {
    forall id | id in g ensures KeptNode(g[id], {}) == g[id] {
      if g[id].Node? && g[id].inputs.Some? {
        assert Kept(g[id].inputs.value, {}) == g[id].inputs.value;
      }
    }
  }

  /** The edits succeed exactly when none sets an input of a removed node, and then removing nodes
   *  one slot at a time comes to removing them all at once from the fully bound graph. */
  lemma {:induction false} EditsShape(g: Graph, edits: seq<Edit>)
    requires AllHaveInputs(g) && SetsNodesOf(edits, g) && LinksFirst(edits)
    ensures ApplyAll(g, edits) == if Safe(edits) then Some(Drop(PutAll(g, edits), Dropped(edits))) else None
  {
    if edits == [] {
      DropNothing(g);
      assert Dropped(edits) == {};
    } else {
      var n := |edits| - 1;
      var front, e := edits[..n], edits[n];
      assert edits == front + [e];
      EditsShape(g, front);
      PutAllShape(g, front);
      var h, removed := PutAll(g, front), Dropped(front);
      if e.DropNodes? {
        assert Safe(edits) <==> Safe(front);
        assert Dropped(edits) == removed + e.ids;
        DropIsUnion(h, removed, e.ids);
      } else {
        assert e in edits && e.id in g;
        assert Dropped(edits) == removed;
        SafeSplits(front, e);
        if Safe(edits) {
          NoLinkInto(front, e);
          PutDropCommute(h, removed, e.id, e.name, e.value);
        }
      }
    }
  }

  lemma SafeSplits(front: seq<Edit>, e: Edit)
    requires e.SetInput?
    ensures Safe(front + [e]) <==> Safe(front) && e.id !in Dropped(front)
  {
    var edits := front + [e];
    if Safe(edits) {
      assert forall i | 0 <= i < |front| :: edits[i] == front[i];
      assert forall i | 0 <= i < |front| && edits[i].DropNodes? :: edits[|front|].id !in edits[i].ids;
    }
    if Safe(front) && e.id !in Dropped(front) {
      forall i, j | 0 <= i < j < |edits| && edits[i].DropNodes? && edits[j].SetInput?
        ensures edits[j].id !in edits[i].ids
      {
        assert edits[i] == front[i] && front[i] in front;
      }
    }
  }

  lemma NoLinkInto(front: seq<Edit>, e: Edit)
    requires e.SetInput? && LinksFirst(front + [e])
    ensures !LinksInto(e.value, Dropped(front))
  {
    var edits := front + [e];
    if LinkTarget(e.value).Some? {
      forall d | d in front ensures !d.DropNodes? {
        var i :| 0 <= i < |front| && front[i] == d;
        assert edits[i] == d && edits[|front|] == e;
      }
    }
  }

  // ----- order does not matter

  predicate SameEdits(a: seq<Edit>, b: seq<Edit>) {
    && (forall e | e in a :: e in b)
    && (forall e | e in b :: e in a)
  }

  /** No two edits set one input differently, none sets an input of a node another removes, and
   *  none sets a link. */
  predicate Independent(edits: seq<Edit>) {
    forall d, e | d in edits && e in edits && e.SetInput? ::
      && LinkTarget(e.value).None?
      && (d.DropNodes? ==> e.id !in d.ids)
      && (d.SetInput? && d.id == e.id && d.name == e.name ==> d == e)
  }

  lemma {:induction false} LastSetIsMember(edits: seq<Edit>, id: string, name: string)
    requires Independent(edits)
    ensures LastSet(edits, id, name).Some? ==> SetInput(id, name, LastSet(edits, id, name).value) in edits
    ensures forall e | e in edits && e.SetInput? && e.id == id && e.name == name ::
      LastSet(edits, id, name) == Some(e.value)
  {
    if edits != [] {
      var n := |edits| - 1;
      assert edits == edits[..n] + [edits[n]];
      assert edits[n] in edits;
      LastSetIsMember(edits[..n], id, name);
    }
  }

  lemma SameLookupsSameGraph(g: Graph, a: seq<Edit>, b: seq<Edit>)
    requires AllHaveInputs(g)
    requires forall id, name :: LastSet(a, id, name) == LastSet(b, id, name)
    ensures PutAll(g, a) == PutAll(g, b)
  {
    PutAllShape(g, a);
    PutAllShape(g, b);
    var ga, gb := PutAll(g, a), PutAll(g, b);
    forall id | id in g ensures ga[id] == gb[id] {
      var x, y := ga[id].inputs.value, gb[id].inputs.value;
      forall name ensures name in x <==> name in y
                  ensures name in x ==> x[name] == y[name] {
        PutAllLookup(g, a, id, name);
        PutAllLookup(g, b, id, name);
        assert Lookup(ga, id, name) == Lookup(gb, id, name);
      }
      assert x == y;
    }
    assert ga.Keys == gb.Keys;
  }

  /** Independent edits give one graph in whatever order they are made. */
  lemma OrderIrrelevant(g: Graph, a: seq<Edit>, b: seq<Edit>)
    requires AllHaveInputs(g) && SetsNodesOf(a, g) && Independent(a) && SameEdits(a, b)
    ensures ApplyAll(g, a).Some? && ApplyAll(g, b) == ApplyAll(g, a)
  {
    assert Independent(b);
    forall id, name ensures LastSet(a, id, name) == LastSet(b, id, name) {
      LastSetIsMember(a, id, name);
      LastSetIsMember(b, id, name);
    }
    SameLookupsSameGraph(g, a, b);
    assert Dropped(a) == Dropped(b);
    assert Safe(a) && Safe(b) && LinksFirst(a) && LinksFirst(b);
    EditsShape(g, a);
    EditsShape(g, b);
  }

  // ----- the edits of one job

  predicate SlotBound(t: Template, i: nat, inputs: map<string, Json>)
    requires ImageKeys(inputs).Some? && AudioKeys(inputs).Some? && i < |t.Slots()|
  {
    BoundIn(t.Slots()[i], if i < |t.imageSlots| then ImageKeys(inputs).value else AudioKeys(inputs).value)
  }

  /** The nodes the unbound slots take with them. */
  function DroppedNodes(t: Template, inputs: map<string, Json>): set<string>
    requires ImageKeys(inputs).Some? && AudioKeys(inputs).Some?
  {
    set i, id | 0 <= i < |t.Slots()| && !SlotBound(t, i, inputs) && id in Removed(t.Slots()[i]) :: id
  }

  predicate DistinctSlotNodes(t: Template) {
    forall i, j | 0 <= i < j < |t.Slots()| :: t.Slots()[i].nodeId != t.Slots()[j].nodeId
  }

  lemma {:induction false} FillEditsAre(entries: seq<TemplateInput>, inputs: map<string, Json>)
    ensures forall x | x in FillEdits(entries, inputs) :: x.SetInput?
    ensures forall x | x in FillEdits(entries, inputs) ::
      exists e | e in entries :: e.name in inputs && x == SetInput(e.nodeId, e.inputName, inputs[e.name])
  {
    if entries != [] {
      FillEditsAre(entries[..|entries| - 1], inputs);
      assert entries[|entries| - 1] in entries;
    }
  }

  function MediaInput(t: Template, i: nat): string {
    if i < |t.imageSlots| then IMAGE_INPUT else AUDIO_INPUT
  }

  lemma SlotEditsAre(t: Template, inputs: map<string, Json>, uploads: Uploads)
    requires ImageKeys(inputs).Some? && AudioKeys(inputs).Some?
    ensures var es := AllSlotEdits(t, inputs, uploads);
      && |es| == |t.Slots()|
      && forall i | 0 <= i < |es| ::
        if SlotBound(t, i, inputs)
        then es[i].SetInput? && es[i].id == t.Slots()[i].nodeId && es[i].name == MediaInput(t, i) && es[i].value.JStr?
        else es[i] == DropNodes(Removed(t.Slots()[i]))
  {
  }

  lemma DroppedByEdits(t: Template, inputs: map<string, Json>, uploads: Uploads)
    requires ImageKeys(inputs).Some? && AudioKeys(inputs).Some?
    ensures Dropped(Edits(t, inputs, uploads)) == DroppedNodes(t, inputs)
    ensures Dropped(AllSlotEdits(t, inputs, uploads)) == DroppedNodes(t, inputs)
  {
    FillEditsAre(t.inputs, inputs);
    SlotEditsAre(t, inputs, uploads);
    var es := AllSlotEdits(t, inputs, uploads);
    forall id | id in DroppedNodes(t, inputs) ensures id in Dropped(es) {
      var i :| 0 <= i < |t.Slots()| && !SlotBound(t, i, inputs) && id in Removed(t.Slots()[i]);
      assert es[i] in es;
    }
    forall id | id in Dropped(es) ensures id in DroppedNodes(t, inputs) {
      var e :| e in es && e.DropNodes? && id in e.ids;
      var i :| 0 <= i < |es| && es[i] == e;
    }
    assert Dropped(Edits(t, inputs, uploads)) == Dropped(es);
  }

  lemma EditsSetNodes(t: Template, inputs: map<string, Json>, uploads: Uploads)
    requires ValidTemplate(t) && ImageKeys(inputs).Some? && AudioKeys(inputs).Some?
    ensures SetsNodesOf(Edits(t, inputs, uploads), t.graph)
    ensures LinksFirst(Edits(t, inputs, uploads))
  {
    FillEditsAre(t.inputs, inputs);
    SlotEditsAre(t, inputs, uploads);
    var fill, es := FillEdits(t.inputs, inputs), AllSlotEdits(t, inputs, uploads);
    var all := Edits(t, inputs, uploads);
    forall x | x in all && x.SetInput? ensures x.id in t.graph {
      if x in fill {
        var e :| e in t.inputs && e.name in inputs && x == SetInput(e.nodeId, e.inputName, inputs[e.name]);
        var i :| 0 <= i < |t.inputs| && t.inputs[i] == e;
        ValidInput(t, i);
      } else {
        var i :| 0 <= i < |es| && es[i] == x;
        ValidSlots(t, i);
      }
    }
    assert forall i | 0 <= i < |fill| :: fill[i] in fill && fill[i].SetInput?;
    assert forall i | 0 <= i < |fill| :: all[i] == fill[i];
    forall i, j | 0 <= i < j < |all| && all[i].DropNodes? && all[j].SetInput? ensures LinkTarget(all[j].value).None? {
      assert all[j] == es[j - |fill|];
    }
  }

  /** Slots on distinct nodes never disturb one another. */
  lemma DistinctSlotsAreIndependent(t: Template, inputs: map<string, Json>, uploads: Uploads)
    requires ValidTemplate(t) && DistinctSlotNodes(t) && ImageKeys(inputs).Some? && AudioKeys(inputs).Some?
    ensures Independent(AllSlotEdits(t, inputs, uploads))
    ensures forall i | 0 <= i < |t.Slots()| && SlotBound(t, i, inputs) :: t.Slots()[i].nodeId !in DroppedNodes(t, inputs)
  {
    SlotEditsAre(t, inputs, uploads);
    var es := AllSlotEdits(t, inputs, uploads);
    forall i, j | 0 <= i < |es| && 0 <= j < |es| && i != j
      ensures t.Slots()[i].nodeId !in Removed(t.Slots()[j])
    {
      ValidSlots(t, j);
      assert t.Slots()[i] in t.Slots();
      assert IsSlotNode(t, t.Slots()[i].nodeId);
    }
  }

  /** Slots on distinct nodes never undercut one another. */
  lemma DistinctSlotsAreNotUndercut(t: Template, inputs: map<string, Json>)
    requires ValidTemplate(t) && DistinctSlotNodes(t) && ImageKeys(inputs).Some? && AudioKeys(inputs).Some?
    ensures NoSlotUndercut(t, inputs)
  {
    forall i, j | 0 <= i < j < |t.Slots()| ensures t.Slots()[j].nodeId !in Removed(t.Slots()[i]) {
      ValidSlots(t, i);
      assert t.Slots()[j] in t.Slots();
      assert IsSlotNode(t, t.Slots()[j].nodeId);
    }
  }

  // ----- the graph of one job

  /** The value at one input once everything is bound and before anything is removed. */
  function Filled(t: Template, inputs: map<string, Json>, uploads: Uploads, id: string, name: string): Option<Json>
    requires ImageKeys(inputs).Some? && AudioKeys(inputs).Some?
  {
    var edits := Edits(t, inputs, uploads);
    if LastSet(edits, id, name).Some? then LastSet(edits, id, name) else Lookup(t.graph, id, name)
  }

  /** What the submitted graph holds at one input: the bound or template value, unless its node is
   *  removed or it links into a removed node; the output prefix is replaced where there is one. */
  function ExpectedAt(t: Template, inputs: map<string, Json>, uploads: Uploads, jobId: string, id: string, name: string): Option<Json>
    requires ImageKeys(inputs).Some? && AudioKeys(inputs).Some?
  {
    var removed := DroppedNodes(t, inputs);
    if id !in t.graph || id in removed then None
    else
      var v := Filled(t, inputs, uploads, id, name);
      if v.None? || LinksInto(v.value, removed) then None
      else if id == t.outputNodeId && name == PREFIX_INPUT then Some(JStr(PREFIX_ROOT + jobId))
      else v
  }

  /** What removal leaves at one input. */
  lemma DropLookup(g: Graph, removed: set<string>, id: string, name: string)
    ensures Lookup(Drop(g, removed), id, name) ==
      if id !in removed && Lookup(g, id, name).Some? && !LinksInto(Lookup(g, id, name).value, removed)
      then Lookup(g, id, name) else None
  {
  }

  lemma PrefixedShape(g: Graph, output: string, jobId: string)
    requires AllHaveInputs(g)
    ensures Prefixed(g, output, jobId).Some? <==> output in g
    ensures output in g ==> var h := Prefixed(g, output, jobId).value;
      && AllHaveInputs(h) && h.Keys == g.Keys
      && (forall id | id in g :: h[id].classType == g[id].classType)
  {
  }

  lemma PrefixedLookup(g: Graph, output: string, jobId: string, id: string, name: string)
    requires AllHaveInputs(g) && output in g
    ensures Prefixed(g, output, jobId).Some?
    ensures Lookup(Prefixed(g, output, jobId).value, id, name) ==
      if id == output && name == PREFIX_INPUT && Lookup(g, id, name).Some?
      then Some(JStr(PREFIX_ROOT + jobId)) else Lookup(g, id, name)
  {
  }

  /** Building is binding everything in the whole template, removing the dropped nodes at once and
   *  replacing the prefix. */
  lemma BuiltShape(t: Template, inputs: map<string, Json>, uploads: Uploads, jobId: string)
    requires ValidTemplate(t) && AllHaveInputs(t.graph) && ImageKeys(inputs).Some? && AudioKeys(inputs).Some?
    ensures AllHaveInputs(PutAll(t.graph, Edits(t, inputs, uploads)))
    ensures PutAll(t.graph, Edits(t, inputs, uploads)).Keys == t.graph.Keys
    ensures Built(t, inputs, uploads, jobId) ==
      if Safe(Edits(t, inputs, uploads))
      then Prefixed(Drop(PutAll(t.graph, Edits(t, inputs, uploads)), DroppedNodes(t, inputs)), t.outputNodeId, jobId)
      else None
  {
    var edits := Edits(t, inputs, uploads);
    EditsSetNodes(t, inputs, uploads);
    DroppedByEdits(t, inputs, uploads);
    EditsShape(t.graph, edits);
    PutAllShape(t.graph, edits);
  }

  /** No unbound slot takes with it the node of a bound slot declared after it. */
  predicate NoSlotUndercut(t: Template, inputs: map<string, Json>)
    requires ImageKeys(inputs).Some? && AudioKeys(inputs).Some?
  {
    forall i, j | 0 <= i < j < |t.Slots()| && !SlotBound(t, i, inputs) && SlotBound(t, j, inputs) ::
      t.Slots()[j].nodeId !in Removed(t.Slots()[i])
  }

  lemma SafeIfNotUndercut(t: Template, inputs: map<string, Json>, uploads: Uploads)
    requires ImageKeys(inputs).Some? && AudioKeys(inputs).Some? && NoSlotUndercut(t, inputs)
    ensures Safe(Edits(t, inputs, uploads))
  {
    FillEditsAre(t.inputs, inputs);
    SlotEditsAre(t, inputs, uploads);
    var fill, es, all := FillEdits(t.inputs, inputs), AllSlotEdits(t, inputs, uploads), Edits(t, inputs, uploads);
    assert forall i | 0 <= i < |fill| :: fill[i] in fill && fill[i].SetInput?;
    assert forall i | 0 <= i < |fill| :: all[i] == fill[i];
    forall i, j | 0 <= i < j < |all| && all[i].DropNodes? && all[j].SetInput? ensures all[j].id !in all[i].ids {
      assert all[i] == es[i - |fill|] && all[j] == es[j - |fill|];
    }
  }

  /** The edits are safe exactly when no slot is undercut. */
  lemma SafeBySlots(t: Template, inputs: map<string, Json>, uploads: Uploads)
    requires ImageKeys(inputs).Some? && AudioKeys(inputs).Some?
    ensures Safe(Edits(t, inputs, uploads)) <==> NoSlotUndercut(t, inputs)
  {
    if Safe(Edits(t, inputs, uploads)) {
      SlotEditsAre(t, inputs, uploads);
      var fill, es, all := FillEdits(t.inputs, inputs), AllSlotEdits(t, inputs, uploads), Edits(t, inputs, uploads);
      forall i, j | 0 <= i < j < |t.Slots()| && !SlotBound(t, i, inputs) && SlotBound(t, j, inputs)
        ensures t.Slots()[j].nodeId !in Removed(t.Slots()[i])
      {
        assert all[|fill| + i] == es[i] && all[|fill| + j] == es[j];
      }
    }
    if NoSlotUndercut(t, inputs) {
      SafeIfNotUndercut(t, inputs, uploads);
    }
  }

  /** Building succeeds exactly when the output node survives and no unbound slot takes the node of a
   *  later bound one. The graph then has exactly the surviving nodes, of their template class. */
  lemma BuiltExactly(t: Template, inputs: map<string, Json>, uploads: Uploads, jobId: string)
    requires ValidTemplate(t) && AllHaveInputs(t.graph) && ImageKeys(inputs).Some? && AudioKeys(inputs).Some?
    ensures Built(t, inputs, uploads, jobId).Some? <==>
      NoSlotUndercut(t, inputs) && t.outputNodeId !in DroppedNodes(t, inputs)
    ensures Built(t, inputs, uploads, jobId).Some? ==>
      var g := Built(t, inputs, uploads, jobId).value;
      && g.Keys == t.graph.Keys - DroppedNodes(t, inputs)
      && (forall id | id in g :: HasInputs(g, id) && g[id].classType == t.graph[id].classType)
  {
    BuiltShape(t, inputs, uploads, jobId);
    SafeBySlots(t, inputs, uploads);
    PutAllShape(t.graph, Edits(t, inputs, uploads));
    var dropped := Drop(PutAll(t.graph, Edits(t, inputs, uploads)), DroppedNodes(t, inputs));
    assert AllHaveInputs(dropped);
    PrefixedShape(dropped, t.outputNodeId, jobId);
  }

  // ----- exactly when a graph can be built, whatever the template

  predicate SurvivorsHaveInputs(g: Graph, removed: set<string>) {
    forall id | id in g && id !in removed :: HasInputs(g, id)
  }

  /** Every edit finds the inputs it needs: its own node's, or all survivors' when it removes nodes. */
  predicate Sound(g: Graph, edits: seq<Edit>) {
    && (forall i | 0 <= i < |edits| && edits[i].SetInput? :: HasInputs(g, edits[i].id))
    && (forall i | 0 <= i < |edits| && edits[i].DropNodes? :: SurvivorsHaveInputs(g, Dropped(edits[..i + 1])))
  }

  /** The same nodes have inputs, the removed ones aside. */
  predicate SameInputs(g: Graph, h: Graph, removed: set<string>) {
    h.Keys == g.Keys - removed && forall id | id in h :: HasInputs(h, id) <==> HasInputs(g, id)
  }

  lemma SoundSplits(g: Graph, front: seq<Edit>, e: Edit)
    ensures Sound(g, front + [e]) <==>
      && Sound(g, front)
      && (if e.SetInput? then HasInputs(g, e.id) else SurvivorsHaveInputs(g, Dropped(front + [e])))
  {
    var edits := front + [e];
    assert forall i | 0 <= i < |front| :: edits[i] == front[i] && edits[..i + 1] == front[..i + 1];
    assert edits[|front|] == e && edits[..|front| + 1] == edits;
  }

  lemma SafeWithDrop(front: seq<Edit>, e: Edit)
    requires e.DropNodes?
    ensures Safe(front + [e]) <==> Safe(front)
  {
    assert forall i | 0 <= i < |front| :: (front + [e])[i] == front[i];
  }

  lemma DropSucceeds(g: Graph, h: Graph, removed: set<string>, ids: set<string>)
    requires SameInputs(g, h, removed)
    ensures AllHaveInputs(Drop(h, ids)) <==> SurvivorsHaveInputs(g, removed + ids)
    ensures SameInputs(g, Drop(h, ids), removed + ids)
  {
    assert forall id | id in Drop(h, ids) :: HasInputs(Drop(h, ids), id) <==> HasInputs(h, id);
    if SurvivorsHaveInputs(g, removed + ids) {
      assert forall id | id in Drop(h, ids) :: HasInputs(g, id);
    }
    if AllHaveInputs(Drop(h, ids)) {
      forall id | id in g && id !in removed + ids ensures HasInputs(g, id) {
        assert id in Drop(h, ids);
      }
    }
  }

  /** A list of edits succeeds exactly when it is safe and sound. */
  lemma {:induction false} EditsSucceed(g: Graph, edits: seq<Edit>)
    ensures ApplyAll(g, edits).Some? <==> Safe(edits) && Sound(g, edits)
    ensures ApplyAll(g, edits).Some? ==> SameInputs(g, ApplyAll(g, edits).value, Dropped(edits))
  {
    if edits != [] {
      var front, e := edits[..|edits| - 1], edits[|edits| - 1];
      assert edits == front + [e];
      EditsSucceed(g, front);
      SoundSplits(g, front, e);
      if e.SetInput? {
        SafeSplits(front, e);
        assert Dropped(edits) == Dropped(front);
      } else {
        SafeWithDrop(front, e);
        assert Dropped(edits) == Dropped(front) + e.ids;
        if ApplyAll(g, front).Some? {
          DropSucceeds(g, ApplyAll(g, front).value, Dropped(front), e.ids);
        }
      }
    }
  }

  lemma {:induction false} FillEditsHave(entries: seq<TemplateInput>, inputs: map<string, Json>, e: TemplateInput)
    requires e in entries && e.name in inputs
    ensures SetInput(e.nodeId, e.inputName, inputs[e.name]) in FillEdits(entries, inputs)
  {
    var n := |entries| - 1;
    if e != entries[n] {
      assert e in entries[..n];
      FillEditsHave(entries[..n], inputs, e);
    }
  }

  /** The first slot in order that is not bound. */
  predicate FirstUnbound(t: Template, inputs: map<string, Json>, i: nat)
    requires ImageKeys(inputs).Some? && AudioKeys(inputs).Some?
  {
    i < |t.Slots()| && !SlotBound(t, i, inputs) && forall k | 0 <= k < i :: SlotBound(t, k, inputs)
  }

  /** Filled nodes and bound slots' nodes have inputs, and once a slot is dropped so have all nodes but
   *  those the first unbound slot takes with it. */
  predicate InputsPresent(t: Template, inputs: map<string, Json>)
    requires ImageKeys(inputs).Some? && AudioKeys(inputs).Some?
  {
    && (forall e | e in t.inputs && e.name in inputs :: HasInputs(t.graph, e.nodeId))
    && (forall i | 0 <= i < |t.Slots()| && SlotBound(t, i, inputs) :: HasInputs(t.graph, t.Slots()[i].nodeId))
    && (forall i | 0 <= i < |t.Slots()| && FirstUnbound(t, inputs, i) :: SurvivorsHaveInputs(t.graph, Removed(t.Slots()[i])))
  }

  lemma UnboundSlotDrops(t: Template, inputs: map<string, Json>, uploads: Uploads, i: nat)
    requires ImageKeys(inputs).Some? && AudioKeys(inputs).Some?
    requires i < |t.Slots()| && !SlotBound(t, i, inputs)
    ensures i < |AllSlotEdits(t, inputs, uploads)|
    ensures AllSlotEdits(t, inputs, uploads)[i] == DropNodes(Removed(t.Slots()[i]))
  {
    SlotEditsAre(t, inputs, uploads);
  }

  /** Where an unbound slot's removal stands among the edits. */
  lemma DropStands(t: Template, inputs: map<string, Json>, uploads: Uploads, i: nat)
    requires ImageKeys(inputs).Some? && AudioKeys(inputs).Some?
    requires i < |t.Slots()| && !SlotBound(t, i, inputs)
    ensures var n := |FillEdits(t.inputs, inputs)| + i;
      && n < |Edits(t, inputs, uploads)| && Edits(t, inputs, uploads)[n] == DropNodes(Removed(t.Slots()[i]))
      && Removed(t.Slots()[i]) <= Dropped(Edits(t, inputs, uploads)[..n + 1])
  {
    UnboundSlotDrops(t, inputs, uploads, i);
    var n, all := |FillEdits(t.inputs, inputs)| + i, Edits(t, inputs, uploads);
    assert all[n] == AllSlotEdits(t, inputs, uploads)[i];
    DropCounts(all, n);
  }

  lemma DropCounts(edits: seq<Edit>, n: nat)
    requires n < |edits| && edits[n].DropNodes?
    ensures edits[n].ids <= Dropped(edits[..n + 1])
  {
    assert edits[..n + 1][n] == edits[n];
  }

  lemma OnlyDrop(edits: seq<Edit>, n: nat, ids: set<string>)
    requires n < |edits| && edits[n] == DropNodes(ids) && forall k | 0 <= k < n :: edits[k].SetInput?
    ensures Dropped(edits[..n + 1]) == ids
  {
    var upto := edits[..n + 1];
    assert upto[n] == DropNodes(ids);
    forall e | e in upto && e.DropNodes? ensures e == DropNodes(ids) {
      var k :| 0 <= k < |upto| && upto[k] == e;
    }
  }

  lemma SetsBeforeFirstDrop(t: Template, inputs: map<string, Json>, uploads: Uploads, i: nat, k: nat)
    requires ImageKeys(inputs).Some? && AudioKeys(inputs).Some? && FirstUnbound(t, inputs, i)
    requires k < |FillEdits(t.inputs, inputs)| + i
    ensures k < |Edits(t, inputs, uploads)| && Edits(t, inputs, uploads)[k].SetInput?
  {
    var fill := FillEdits(t.inputs, inputs);
    if k < |fill| {
      FillEditsAre(t.inputs, inputs);
      assert Edits(t, inputs, uploads)[k] == fill[k] && fill[k] in fill;
    } else {
      SlotEditsAre(t, inputs, uploads);
      assert Edits(t, inputs, uploads)[k] == AllSlotEdits(t, inputs, uploads)[k - |fill|];
    }
  }

  lemma OnlySetsBefore(t: Template, inputs: map<string, Json>, uploads: Uploads, i: nat, n: nat)
    requires ImageKeys(inputs).Some? && AudioKeys(inputs).Some? && FirstUnbound(t, inputs, i)
    requires n == |FillEdits(t.inputs, inputs)| + i && n <= |Edits(t, inputs, uploads)|
    ensures forall k | 0 <= k < n :: Edits(t, inputs, uploads)[k].SetInput?
  {
    forall k | 0 <= k < n ensures Edits(t, inputs, uploads)[k].SetInput? {
      SetsBeforeFirstDrop(t, inputs, uploads, i, k);
    }
  }

  /** Up to the first unbound slot, only that slot's nodes are removed. */
  lemma FirstDrop(t: Template, inputs: map<string, Json>, uploads: Uploads, i: nat)
    requires ImageKeys(inputs).Some? && AudioKeys(inputs).Some? && FirstUnbound(t, inputs, i)
    ensures var n := |FillEdits(t.inputs, inputs)| + i;
      && n < |Edits(t, inputs, uploads)|
      && Dropped(Edits(t, inputs, uploads)[..n + 1]) == Removed(t.Slots()[i])
  {
    var n := |FillEdits(t.inputs, inputs)| + i;
    DropStands(t, inputs, uploads, i);
    OnlySetsBefore(t, inputs, uploads, i, n);
    OnlyDrop(Edits(t, inputs, uploads), n, Removed(t.Slots()[i]));
  }

  lemma LeastUnbound(t: Template, inputs: map<string, Json>, i: nat) returns (first: nat)
    requires ImageKeys(inputs).Some? && AudioKeys(inputs).Some?
    requires i < |t.Slots()| && !SlotBound(t, i, inputs)
    ensures first <= i && FirstUnbound(t, inputs, first)
  {
    first := 0;
    while SlotBound(t, first, inputs)
      invariant first <= i && forall k | 0 <= k < first :: SlotBound(t, k, inputs)
      decreases i - first
    {
      first := first + 1;
    }
  }

  lemma DroppedGrows(edits: seq<Edit>, m: nat, n: nat)
    requires m <= n <= |edits|
    ensures Dropped(edits[..m]) <= Dropped(edits[..n])
  {
    forall e | e in edits[..m] ensures e in edits[..n] {
      var k :| 0 <= k < m && edits[k] == e;
      assert edits[..n][k] == e;
    }
  }

  lemma SoundFills(t: Template, inputs: map<string, Json>, uploads: Uploads, e: TemplateInput)
    requires ImageKeys(inputs).Some? && AudioKeys(inputs).Some? && Sound(t.graph, Edits(t, inputs, uploads))
    requires e in t.inputs && e.name in inputs
    ensures HasInputs(t.graph, e.nodeId)
  {
    var fill := FillEdits(t.inputs, inputs);
    FillEditsHave(t.inputs, inputs, e);
    var k :| 0 <= k < |fill| && fill[k] == SetInput(e.nodeId, e.inputName, inputs[e.name]);
    assert Edits(t, inputs, uploads)[k] == fill[k];
  }

  lemma SoundBinds(t: Template, inputs: map<string, Json>, uploads: Uploads, i: nat)
    requires ImageKeys(inputs).Some? && AudioKeys(inputs).Some? && Sound(t.graph, Edits(t, inputs, uploads))
    requires i < |t.Slots()| && SlotBound(t, i, inputs)
    ensures HasInputs(t.graph, t.Slots()[i].nodeId)
  {
    SlotEditsAre(t, inputs, uploads);
    assert Edits(t, inputs, uploads)[|FillEdits(t.inputs, inputs)| + i] == AllSlotEdits(t, inputs, uploads)[i];
  }

  lemma SoundImpliesPresent(t: Template, inputs: map<string, Json>, uploads: Uploads)
    requires ImageKeys(inputs).Some? && AudioKeys(inputs).Some? && Sound(t.graph, Edits(t, inputs, uploads))
    ensures InputsPresent(t, inputs)
  {
    forall e | e in t.inputs && e.name in inputs ensures HasInputs(t.graph, e.nodeId) {
      SoundFills(t, inputs, uploads, e);
    }
    forall i | 0 <= i < |t.Slots()| && SlotBound(t, i, inputs) ensures HasInputs(t.graph, t.Slots()[i].nodeId) {
      SoundBinds(t, inputs, uploads, i);
    }
    forall i | 0 <= i < |t.Slots()| && FirstUnbound(t, inputs, i)
      ensures SurvivorsHaveInputs(t.graph, Removed(t.Slots()[i]))
    {
      DropStands(t, inputs, uploads, i);
      FirstDrop(t, inputs, uploads, i);
    }
  }

  lemma PresentSets(t: Template, inputs: map<string, Json>, uploads: Uploads, k: nat)
    requires ImageKeys(inputs).Some? && AudioKeys(inputs).Some? && InputsPresent(t, inputs)
    requires k < |Edits(t, inputs, uploads)| && Edits(t, inputs, uploads)[k].SetInput?
    ensures HasInputs(t.graph, Edits(t, inputs, uploads)[k].id)
  {
    var fill := FillEdits(t.inputs, inputs);
    if k < |fill| {
      FillEditsAre(t.inputs, inputs);
      assert Edits(t, inputs, uploads)[k] == fill[k] && fill[k] in fill;
    } else {
      SlotEditsAre(t, inputs, uploads);
      assert Edits(t, inputs, uploads)[k] == AllSlotEdits(t, inputs, uploads)[k - |fill|];
    }
  }

  /** A removal among the edits is an unbound slot's. */
  lemma DropIsUnbound(t: Template, inputs: map<string, Json>, uploads: Uploads, k: nat) returns (i: nat)
    requires ImageKeys(inputs).Some? && AudioKeys(inputs).Some?
    requires k < |Edits(t, inputs, uploads)| && Edits(t, inputs, uploads)[k].DropNodes?
    ensures i < |t.Slots()| && !SlotBound(t, i, inputs) && k == |FillEdits(t.inputs, inputs)| + i
  {
    var fill := FillEdits(t.inputs, inputs);
    FillEditsAre(t.inputs, inputs);
    SlotEditsAre(t, inputs, uploads);
    assert forall j | 0 <= j < |fill| :: fill[j] in fill && fill[j].SetInput?;
    assert forall j | 0 <= j < |fill| :: Edits(t, inputs, uploads)[j] == fill[j];
    i := k - |fill|;
    assert Edits(t, inputs, uploads)[k] == AllSlotEdits(t, inputs, uploads)[i];
  }

  lemma PresentDrops(t: Template, inputs: map<string, Json>, uploads: Uploads, k: nat)
    requires ImageKeys(inputs).Some? && AudioKeys(inputs).Some? && InputsPresent(t, inputs)
    requires k < |Edits(t, inputs, uploads)| && Edits(t, inputs, uploads)[k].DropNodes?
    ensures SurvivorsHaveInputs(t.graph, Dropped(Edits(t, inputs, uploads)[..k + 1]))
  {
    var i := DropIsUnbound(t, inputs, uploads, k);
    var first := LeastUnbound(t, inputs, i);
    DropStands(t, inputs, uploads, first);
    DroppedGrows(Edits(t, inputs, uploads), |FillEdits(t.inputs, inputs)| + first + 1, k + 1);
  }

  lemma PresentImpliesSound(t: Template, inputs: map<string, Json>, uploads: Uploads)
    requires ImageKeys(inputs).Some? && AudioKeys(inputs).Some? && InputsPresent(t, inputs)
    ensures Sound(t.graph, Edits(t, inputs, uploads))
  {
    var all := Edits(t, inputs, uploads);
    forall k | 0 <= k < |all| && all[k].SetInput? ensures HasInputs(t.graph, all[k].id) {
      PresentSets(t, inputs, uploads, k);
    }
    forall k | 0 <= k < |all| && all[k].DropNodes? ensures SurvivorsHaveInputs(t.graph, Dropped(all[..k + 1])) {
      PresentDrops(t, inputs, uploads, k);
    }
  }

  /** For every template and request, valid or not: the graph can be built exactly when the edited nodes
   *  and, once a slot is dropped, the survivors have inputs, no unbound slot takes a later bound one's
   *  node, and the output node survives and has inputs. */
  lemma BuildsExactly(t: Template, inputs: map<string, Json>, uploads: Uploads, jobId: string)
    requires ImageKeys(inputs).Some? && AudioKeys(inputs).Some?
    ensures Built(t, inputs, uploads, jobId).Some? <==>
      && InputsPresent(t, inputs) && NoSlotUndercut(t, inputs)
      && HasInputs(t.graph, t.outputNodeId) && t.outputNodeId !in DroppedNodes(t, inputs)
  {
    EditsSucceed(t.graph, Edits(t, inputs, uploads));
    SafeBySlots(t, inputs, uploads);
    DroppedByEdits(t, inputs, uploads);
    if Sound(t.graph, Edits(t, inputs, uploads)) {
      SoundImpliesPresent(t, inputs, uploads);
    }
    if InputsPresent(t, inputs) {
      PresentImpliesSound(t, inputs, uploads);
    }
  }

  /** The built graph is the expected one at every input. */
  lemma BuiltAt(t: Template, inputs: map<string, Json>, uploads: Uploads, jobId: string, id: string, name: string)
    requires ValidTemplate(t) && AllHaveInputs(t.graph) && ImageKeys(inputs).Some? && AudioKeys(inputs).Some?
    requires Built(t, inputs, uploads, jobId).Some?
    ensures Lookup(Built(t, inputs, uploads, jobId).value, id, name) == ExpectedAt(t, inputs, uploads, jobId, id, name)
  {
    BuiltExactly(t, inputs, uploads, jobId);
    BuiltShape(t, inputs, uploads, jobId);
    var edits, removed := Edits(t, inputs, uploads), DroppedNodes(t, inputs);
    var bound := PutAll(t.graph, edits);
    assert AllHaveInputs(Drop(bound, removed));
    PrefixedLookup(Drop(bound, removed), t.outputNodeId, jobId, id, name);
    DropLookup(bound, removed, id, name);
    if id in t.graph {
      PutAllLookup(t.graph, edits, id, name);
    }
  }

  /** A value a default puts into a node links, if anywhere, to a node the template declares. */
  ghost predicate DefaultsLinkInside(t: Template) {
    forall e, target | e in t.inputs && Points(e.default, target) :: target in t.graph
  }

  predicate IsDeclaredAt(t: Template, id: string, name: string) {
    exists e | e in t.inputs :: e.nodeId == id && e.inputName == name
  }

  predicate IsMediaAt(t: Template, id: string, name: string) {
    exists i | 0 <= i < |t.Slots()| :: t.Slots()[i].nodeId == id && MediaInput(t, i) == name
  }

  /** A template default the job did not override, at the input it fills. */
  ghost predicate IsDefaultAt(t: Template, payload: map<string, Json>, id: string, name: string, v: Json) {
    exists e | e in t.inputs :: e.nodeId == id && e.inputName == name && e.name !in payload && v == e.default
  }

  lemma RequestHasMedia(t: Template, payload: map<string, Json>, granted: seq<string>, inputs: map<string, Json>)
    requires Accepts(t, payload, granted) && IsRequest(t, payload, inputs)
    ensures ImageKeys(inputs) == Some(Requested(payload, IMAGES).fields)
    ensures AudioKeys(inputs) == Some(if t.audioSlots == [] then map[] else Requested(payload, AUDIOS).fields)
  {
  }

  lemma {:induction false} LastSetIsAnEdit(edits: seq<Edit>, id: string, name: string)
    ensures LastSet(edits, id, name).Some? ==> SetInput(id, name, LastSet(edits, id, name).value) in edits
  {
    if edits != [] {
      LastSetIsAnEdit(edits[..|edits| - 1], id, name);
    }
  }

  /** A filled input is a declared one, and a link only as the template's default. */
  lemma FillEditIsAllowed(t: Template, payload: map<string, Json>, granted: seq<string>, inputs: map<string, Json>, x: Edit)
    requires ValidTemplate(t) && Accepts(t, payload, granted) && IsRequest(t, payload, inputs)
    requires x in FillEdits(t.inputs, inputs)
    ensures x.SetInput? && IsDeclaredAt(t, x.id, x.name)
    ensures LinkTarget(x.value).Some? ==> IsDefaultAt(t, payload, x.id, x.name, x.value)
  {
    FillEditsAre(t.inputs, inputs);
    var e :| e in t.inputs && e.name in inputs && x == SetInput(e.nodeId, e.inputName, inputs[e.name]);
    var i :| 0 <= i < |t.inputs| && t.inputs[i] == e;
    ValidInput(t, i);
    assert Holds(e, payload, inputs - {IMAGES, AUDIOS});
    assert InputOk(e, payload);
  }

  /** What a job can change: declared inputs and slot nodes' media inputs, and to scalars only. */
  lemma EditsAreAllowed(t: Template, payload: map<string, Json>, granted: seq<string>, inputs: map<string, Json>, uploads: Uploads, x: Edit)
    requires ValidTemplate(t) && Accepts(t, payload, granted) && IsRequest(t, payload, inputs)
    requires ImageKeys(inputs).Some? && AudioKeys(inputs).Some?
    requires x.SetInput? && x in Edits(t, inputs, uploads)
    ensures IsDeclaredAt(t, x.id, x.name) || IsMediaAt(t, x.id, x.name)
    ensures LinkTarget(x.value).Some? ==> IsDefaultAt(t, payload, x.id, x.name, x.value)
  {
    if x in FillEdits(t.inputs, inputs) {
      FillEditIsAllowed(t, payload, granted, inputs, x);
    } else {
      SlotEditIsAllowed(t, inputs, uploads, x);
    }
  }

  lemma SlotEditIsAllowed(t: Template, inputs: map<string, Json>, uploads: Uploads, x: Edit)
    requires ImageKeys(inputs).Some? && AudioKeys(inputs).Some?
    requires x.SetInput? && x in AllSlotEdits(t, inputs, uploads)
    ensures IsMediaAt(t, x.id, x.name) && LinkTarget(x.value).None?
  {
    var es := AllSlotEdits(t, inputs, uploads);
    SlotEditsAre(t, inputs, uploads);
    var i :| 0 <= i < |es| && es[i] == x;
    assert t.Slots()[i].nodeId == x.id;
  }

  /** What the built graph holds where the job may not write, and whose its links are. */
  lemma FrameLookups(t: Template, payload: map<string, Json>, granted: seq<string>, inputs: map<string, Json>, uploads: Uploads, jobId: string)
    requires ValidTemplate(t) && AllHaveInputs(t.graph)
    requires Accepts(t, payload, granted) && IsRequest(t, payload, inputs)
    requires Built(t, inputs, uploads, jobId).Some?
    ensures var g := Built(t, inputs, uploads, jobId).value;
      && (forall id, name ::
            id in g && !IsDeclaredAt(t, id, name) && !IsMediaAt(t, id, name) && (id, name) != (t.outputNodeId, PREFIX_INPUT) ==>
            Lookup(g, id, name) ==
              if Lookup(t.graph, id, name).Some? && !LinksInto(Lookup(t.graph, id, name).value, t.graph.Keys - g.Keys)
              then Lookup(t.graph, id, name) else None)
      && (forall id, name :: Lookup(g, id, name).Some? && LinkTarget(Lookup(g, id, name).value).Some? ==>
            || Lookup(g, id, name) == Lookup(t.graph, id, name)
            || IsDefaultAt(t, payload, id, name, Lookup(g, id, name).value))
  {
    RequestHasMedia(t, payload, granted, inputs);
    BuiltExactly(t, inputs, uploads, jobId);
    var g, edits := Built(t, inputs, uploads, jobId).value, Edits(t, inputs, uploads);
    forall id, name | LastSet(edits, id, name).Some?
      ensures IsDeclaredAt(t, id, name) || IsMediaAt(t, id, name)
      ensures LinkTarget(LastSet(edits, id, name).value).Some? ==>
        IsDefaultAt(t, payload, id, name, LastSet(edits, id, name).value)
    {
      LastSetIsAnEdit(edits, id, name);
      EditsAreAllowed(t, payload, granted, inputs, uploads, SetInput(id, name, LastSet(edits, id, name).value));
    }
    DroppedAreDeclared(t, inputs);
    assert t.graph.Keys - g.Keys == DroppedNodes(t, inputs);
    forall id, name ensures Lookup(g, id, name) == ExpectedAt(t, inputs, uploads, jobId, id, name) {
      BuiltAt(t, inputs, uploads, jobId, id, name);
    }
  }

  lemma DroppedAreDeclared(t: Template, inputs: map<string, Json>)
    requires ValidTemplate(t) && ImageKeys(inputs).Some? && AudioKeys(inputs).Some?
    ensures DroppedNodes(t, inputs) <= t.graph.Keys
  {
    forall i, id | 0 <= i < |t.Slots()| && id in Removed(t.Slots()[i]) ensures id in t.graph {
      ValidSlots(t, i);
    }
  }

  lemma BuiltHoldsUpload(t: Template, i: nat, inputs: map<string, Json>, uploads: Uploads, jobId: string)
    requires ValidTemplate(t) && AllHaveInputs(t.graph) && DistinctSlotNodes(t)
    requires ImageKeys(inputs).Some? && AudioKeys(inputs).Some?
    requires i < |t.Slots()| && SlotBound(t, i, inputs) && Built(t, inputs, uploads, jobId).Some?
    ensures t.Slots()[i].nodeId in Built(t, inputs, uploads, jobId).value
    ensures HoldsUpload(t, i, inputs, uploads, Built(t, inputs, uploads, jobId).value)
  {
    BuiltExactly(t, inputs, uploads, jobId);
    UploadIsLastSet(t, i, inputs, uploads);
    BuiltAt(t, inputs, uploads, jobId, t.Slots()[i].nodeId, MediaInput(t, i));
    MediaIsNotPrefix();
  }

  lemma MediaIsNotPrefix()
    ensures IMAGE_INPUT != PREFIX_INPUT && AUDIO_INPUT != PREFIX_INPUT
  {
    assert |IMAGE_INPUT| < |PREFIX_INPUT| && |AUDIO_INPUT| < |PREFIX_INPUT|;
  }

  predicate HoldsUpload(t: Template, i: nat, inputs: map<string, Json>, uploads: Uploads, g: Graph)
    requires ImageKeys(inputs).Some? && AudioKeys(inputs).Some? && i < |t.Slots()| && SlotBound(t, i, inputs)
  {
    var slot, keys := t.Slots()[i], if i < |t.imageSlots| then ImageKeys(inputs).value else AudioKeys(inputs).value;
    Lookup(g, slot.nodeId, MediaInput(t, i)) == Some(JStr(uploads(slot.name, keys[slot.name].s)))
  }

  lemma {:induction false} LastSetSplits(a: seq<Edit>, b: seq<Edit>, id: string, name: string)
    ensures LastSet(a + b, id, name) == if LastSet(b, id, name).Some? then LastSet(b, id, name) else LastSet(a, id, name)
  {
    if b == [] {
      assert a + b == a;
    } else {
      assert (a + b)[..|a + b| - 1] == a + b[..|b| - 1];
      LastSetSplits(a, b[..|b| - 1], id, name);
    }
  }

  lemma UploadIsLastSet(t: Template, i: nat, inputs: map<string, Json>, uploads: Uploads)
    requires ValidTemplate(t) && DistinctSlotNodes(t) && ImageKeys(inputs).Some? && AudioKeys(inputs).Some?
    requires i < |t.Slots()| && SlotBound(t, i, inputs)
    ensures t.Slots()[i].nodeId in t.graph && t.Slots()[i].nodeId !in DroppedNodes(t, inputs)
    ensures var keys := if i < |t.imageSlots| then ImageKeys(inputs).value else AudioKeys(inputs).value;
      LastSet(Edits(t, inputs, uploads), t.Slots()[i].nodeId, MediaInput(t, i))
        == Some(JStr(uploads(t.Slots()[i].name, keys[t.Slots()[i].name].s)))
  {
    ValidSlots(t, i);
    DistinctSlotsAreIndependent(t, inputs, uploads);
    SlotEditsAre(t, inputs, uploads);
    var es := AllSlotEdits(t, inputs, uploads);
    var id, name := t.Slots()[i].nodeId, MediaInput(t, i);
    assert es[i] in es;
    LastSetIsMember(es, id, name);
    LastSetSplits(FillEdits(t.inputs, inputs), es, id, name);
  }

  /** Binding and dropping the slots in any order gives the same graph. */
  lemma SlotOrderIrrelevant(t: Template, inputs: map<string, Json>, uploads: Uploads, shuffled: seq<Edit>)
    requires ValidTemplate(t) && AllHaveInputs(t.graph) && DistinctSlotNodes(t)
    requires ImageKeys(inputs).Some? && AudioKeys(inputs).Some?
    requires SameEdits(AllSlotEdits(t, inputs, uploads), shuffled)
    ensures var filled := ApplyAll(t.graph, FillEdits(t.inputs, inputs));
      && filled.Some?
      && ApplyAll(filled.value, shuffled).Some?
      && ApplyAll(filled.value, shuffled) == ApplyAll(t.graph, Edits(t, inputs, uploads))
  {
    var fill, es := FillEdits(t.inputs, inputs), AllSlotEdits(t, inputs, uploads);
    EditsSetNodes(t, inputs, uploads);
    FillEditsAre(t.inputs, inputs);
    assert forall e | e in fill :: e in Edits(t, inputs, uploads);
    assert forall i | 0 <= i < |fill| :: fill[i] in fill;
    EditsShape(t.graph, fill);
    PutAllShape(t.graph, fill);
    DropNothing(PutAll(t.graph, fill));
    assert Dropped(fill) == {};
    DistinctSlotsAreIndependent(t, inputs, uploads);
    OrderIrrelevant(PutAll(t.graph, fill), es, shuffled);
    ApplyAllSplits(t.graph, fill, es);
  }

  // ----- accepted leases whose graph cannot be built

  const NO_UPLOADS: Uploads := (slot: string, key: string) => key

  function Loader(): Node {
    Node(JStr(LOAD_IMAGE), Some(map[]))
  }

  function ImageTemplate(slots: seq<Slot>): Template {
    Template("c.v1", 1, map["1" := Loader(), "2" := Node(JStr("SaveImage"), Some(map[]))], [], slots, [], "2")
  }

  /** Two image slots share the node "1". */
  const SHARED_SLOTS := [Slot("first", "1", false, []), Slot("second", "1", false, [])]

  /** The output node "2" depends on the only slot. */
  const OUTPUT_SLOTS := [Slot("first", "1", false, ["2"])]

  lemma SharedTemplateIsValid()
    ensures ValidTemplate(ImageTemplate(SHARED_SLOTS)) && AllHaveInputs(ImageTemplate(SHARED_SLOTS).graph)
  {
    assert Allowlist(ImageTemplate(SHARED_SLOTS)) == [("first", "1"), ("second", "1")];
    assert "first"[0] != "second"[0];
  }

  lemma OutputTemplateIsValid()
    ensures ValidTemplate(ImageTemplate(OUTPUT_SLOTS)) && AllHaveInputs(ImageTemplate(OUTPUT_SLOTS).graph)
  {
    assert Allowlist(ImageTemplate(OUTPUT_SLOTS)) == [("first", "1")];
  }

  /** A payload that binds only the second slot is accepted, and its graph cannot be built: dropping
   *  the first slot takes the node the second one needs. */
  lemma SharedNodeCannotBeBuilt(jobId: string)
    ensures var t, payload := ImageTemplate(SHARED_SLOTS), map[IMAGES := JObj(map["second" := JStr("k")])];
      && ValidTemplate(t) && Accepts(t, payload, ["k"]) && IsRequest(t, payload, payload)
      && Built(t, payload, NO_UPLOADS, jobId) == None
  {
    var t, payload := ImageTemplate(SHARED_SLOTS), map[IMAGES := JObj(map["second" := JStr("k")])];
    SharedTemplateIsValid();
    SharedIsAccepted();
    assert t.Slots() == SHARED_SLOTS;
    assert "first"[0] != "second"[0];
    assert !SlotBound(t, 0, payload) && SlotBound(t, 1, payload);
    assert !NoSlotUndercut(t, payload);
    BuiltExactly(t, payload, NO_UPLOADS, jobId);
  }

  lemma SharedIsAccepted()
    ensures var t, payload := ImageTemplate(SHARED_SLOTS), map[IMAGES := JObj(map["second" := JStr("k")])];
      Accepts(t, payload, ["k"]) && IsRequest(t, payload, payload)
  {
    var t, payload := ImageTemplate(SHARED_SLOTS), map[IMAGES := JObj(map["second" := JStr("k")])];
    var requested := Requested(payload, IMAGES);
    assert t.imageSlots[1].name == "second" && "second" in SlotNames(t.imageSlots);
    assert requested.fields["second"] == JStr("k");
    assert "k" in KeysBound(requested);
  }

  /** The empty payload is accepted, and its graph cannot be built: the output node goes with the slot. */
  lemma DroppedOutputCannotBeBuilt(jobId: string)
    ensures var t, payload: map<string, Json> := ImageTemplate(OUTPUT_SLOTS), map[];
      var inputs := map[IMAGES := JObj(map[])];
      && ValidTemplate(t) && Accepts(t, payload, []) && IsRequest(t, payload, inputs)
      && Built(t, inputs, NO_UPLOADS, jobId) == None
  {
    var t, payload: map<string, Json> := ImageTemplate(OUTPUT_SLOTS), map[];
    var inputs := map[IMAGES := JObj(map[])];
    OutputTemplateIsValid();
    assert t.Slots() == OUTPUT_SLOTS;
    assert !SlotBound(t, 0, inputs) && "2" in Removed(t.Slots()[0]);
    BuiltExactly(t, inputs, NO_UPLOADS, jobId);
  }

  /** The output node has no inputs object. */
  function BareOutputTemplate(): Template {
    ImageTemplate([]).(graph := map["1" := Loader(), "2" := Node(JStr("SaveImage"), None)])
  }

  /** The empty payload is accepted, and its graph cannot be built: the output node has no inputs. */
  lemma BareOutputCannotBeBuilt(jobId: string)
    ensures var t, payload: map<string, Json> := BareOutputTemplate(), map[];
      var inputs := map[IMAGES := JObj(map[])];
      && ValidTemplate(t) && Accepts(t, payload, []) && IsRequest(t, payload, inputs)
      && Built(t, inputs, NO_UPLOADS, jobId) == None
  {
    assert Allowlist(BareOutputTemplate()) == [];
    BuildsExactly(BareOutputTemplate(), map[IMAGES := JObj(map[])], NO_UPLOADS, jobId);
  }
}
