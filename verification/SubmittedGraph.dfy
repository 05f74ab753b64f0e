/** The graph that reaches the runtime, node by node and value by value (comfy.py). */
module SubmittedGraph {
  import opened Json
  import opened Templates
  import opened ComfyRequest
  import opened Workflow
  import opened GraphTheorems

  /** The payload gives the slot no key. */
  predicate Unasked(payload: map<string, Json>, media: string, s: Slot) {
    media !in payload || !payload[media].JObj? || s.name !in payload[media].fields
  }

  /** Dropping the slot takes the node with it. */
  predicate Takes(s: Slot, id: string) {
    id == s.nodeId || id in s.dependents
  }

  /** Some slot without a key takes the node with it. */
  predicate Lost(t: Template, payload: map<string, Json>, id: string) {
    || (exists s | s in t.imageSlots :: Takes(s, id) && Unasked(payload, "images", s))
    || (exists s | s in t.audioSlots :: Takes(s, id) && Unasked(payload, "audios", s))
  }

  /** A declared input fills this position. */
  predicate DeclaredAt(t: Template, id: string, name: string) {
    exists e | e in t.inputs :: e.nodeId == id && e.inputName == name
  }

  /** A slot's file goes into this position. */
  predicate FileAt(t: Template, id: string, name: string) {
    || (exists s | s in t.imageSlots :: s.nodeId == id && name == "image")
    || (exists s | s in t.audioSlots :: s.nodeId == id && name == "audio")
  }

  /** The template and the accepted request behind a submitted graph. */
  ghost predicate Submits(t: Template, payload: map<string, Json>, granted: seq<string>, inputs: map<string, Json>) {
    && ValidTemplate(t) && AllHaveInputs(t.graph)
    && Accepts(t, payload, granted) && IsRequest(t, payload, inputs)
  }

  // ----- lost nodes are the dropped ones

  lemma UnaskedIsUnbound(t: Template, payload: map<string, Json>, granted: seq<string>, inputs: map<string, Json>, i: nat)
    requires Submits(t, payload, granted, inputs) && i < |t.Slots()|
    ensures ImageKeys(inputs).Some? && AudioKeys(inputs).Some?
    ensures SlotBound(t, i, inputs) <==> !Unasked(payload, if i < |t.imageSlots| then "images" else "audios", t.Slots()[i])
  {
    RequestHasMedia(t, payload, granted, inputs);
    if i < |t.imageSlots| {
      assert SlotsOk(t.imageSlots, Requested(payload, IMAGES), granted);
    } else {
      assert SlotsOk(t.audioSlots, Requested(payload, AUDIOS), granted);
    }
  }

  lemma DroppedIsLost(t: Template, payload: map<string, Json>, granted: seq<string>, inputs: map<string, Json>, id: string)
    requires Submits(t, payload, granted, inputs)
    requires ImageKeys(inputs).Some? && AudioKeys(inputs).Some? && id in DroppedNodes(t, inputs)
    ensures Lost(t, payload, id)
  {
    var i :| 0 <= i < |t.Slots()| && !SlotBound(t, i, inputs) && id in Removed(t.Slots()[i]);
    UnaskedIsUnbound(t, payload, granted, inputs, i);
    assert Takes(t.Slots()[i], id);
    assert t.Slots()[i] in if i < |t.imageSlots| then t.imageSlots else t.audioSlots;
  }

  lemma LostIsDropped(t: Template, payload: map<string, Json>, granted: seq<string>, inputs: map<string, Json>, id: string)
    requires Submits(t, payload, granted, inputs)
    ensures ImageKeys(inputs).Some? && AudioKeys(inputs).Some?
    ensures id in DroppedNodes(t, inputs) <==> Lost(t, payload, id)
  {
    RequestHasMedia(t, payload, granted, inputs);
    if id in DroppedNodes(t, inputs) {
      DroppedIsLost(t, payload, granted, inputs, id);
    } else if s :| s in t.imageSlots && Takes(s, id) && Unasked(payload, "images", s) {
      var i :| 0 <= i < |t.imageSlots| && t.imageSlots[i] == s;
      UnboundTakes(t, payload, granted, inputs, i, id);
    } else if s :| s in t.audioSlots && Takes(s, id) && Unasked(payload, "audios", s) {
      var i :| 0 <= i < |t.audioSlots| && t.audioSlots[i] == s;
      UnboundTakes(t, payload, granted, inputs, |t.imageSlots| + i, id);
    }
  }

  lemma UnboundTakes(t: Template, payload: map<string, Json>, granted: seq<string>, inputs: map<string, Json>, i: nat, id: string)
    requires Submits(t, payload, granted, inputs) && i < |t.Slots()| && Takes(t.Slots()[i], id)
    requires Unasked(payload, if i < |t.imageSlots| then "images" else "audios", t.Slots()[i])
    ensures ImageKeys(inputs).Some? && AudioKeys(inputs).Some? && id in DroppedNodes(t, inputs)
  {
    UnaskedIsUnbound(t, payload, granted, inputs, i);
    assert id in Removed(t.Slots()[i]);
  }

  lemma LinksIntoLost(t: Template, payload: map<string, Json>, granted: seq<string>, inputs: map<string, Json>, v: Json)
    requires Submits(t, payload, granted, inputs)
    ensures ImageKeys(inputs).Some? && AudioKeys(inputs).Some?
    ensures LinksInto(v, DroppedNodes(t, inputs)) <==> exists target :: Points(v, target) && Lost(t, payload, target)
  {
    RequestHasMedia(t, payload, granted, inputs);
    if LinkTarget(v).Some? {
      TargetIsPointedAt(v, LinkTarget(v).value);
      LostIsDropped(t, payload, granted, inputs, LinkTarget(v).value);
    }
    forall target | Points(v, target) ensures LinkTarget(v) == Some(target) {
      TargetIsPointedAt(v, target);
    }
  }

  // ----- which nodes

  /** From a template with distinct slot nodes, an accepted lease yields a graph exactly when its output
   *  node is not lost; the graph has exactly the nodes that are not lost. */
  lemma NodesExactly(t: Template, payload: map<string, Json>, granted: seq<string>, inputs: map<string, Json>,
                     uploads: Uploads, jobId: string)
    requires Submits(t, payload, granted, inputs) && DistinctSlotNodes(t)
    ensures Built(t, inputs, uploads, jobId).Some? <==> !Lost(t, payload, t.outputNodeId)
    ensures Built(t, inputs, uploads, jobId).Some? ==> forall id ::
              id in Built(t, inputs, uploads, jobId).value <==> id in t.graph && !Lost(t, payload, id)
  {
    RequestHasMedia(t, payload, granted, inputs);
    DistinctSlotsAreNotUndercut(t, inputs);
    BuiltExactly(t, inputs, uploads, jobId);
    forall id ensures id in DroppedNodes(t, inputs) <==> Lost(t, payload, id) {
      LostIsDropped(t, payload, granted, inputs, id);
    }
  }

  // ----- what each position holds

  lemma SubmittedAt(t: Template, payload: map<string, Json>, granted: seq<string>, inputs: map<string, Json>,
                    uploads: Uploads, jobId: string, id: string, name: string, v: Json)
    requires Submits(t, payload, granted, inputs) && Built(t, inputs, uploads, jobId).Some?
    ensures ImageKeys(inputs).Some? && AudioKeys(inputs).Some?
    ensures Holding(Built(t, inputs, uploads, jobId).value, id, name, v) <==>
            ExpectedAt(t, inputs, uploads, jobId, id, name) == Some(v)
  {
    RequestHasMedia(t, payload, granted, inputs);
    BuiltAt(t, inputs, uploads, jobId, id, name);
  }

  lemma NotSet(t: Template, payload: map<string, Json>, granted: seq<string>, inputs: map<string, Json>,
               uploads: Uploads, id: string, name: string)
    requires Submits(t, payload, granted, inputs) && !DeclaredAt(t, id, name) && !FileAt(t, id, name)
    ensures ImageKeys(inputs).Some? && AudioKeys(inputs).Some?
    ensures LastSet(Edits(t, inputs, uploads), id, name).None?
  {
    RequestHasMedia(t, payload, granted, inputs);
    var edits := Edits(t, inputs, uploads);
    if LastSet(edits, id, name).Some? {
      LastSetIsAnEdit(edits, id, name);
      var x := SetInput(id, name, LastSet(edits, id, name).value);
      EditsAreAllowed(t, payload, granted, inputs, uploads, x);
      MediaIsFile(t, id, name);
      assert false;
    }
  }

  lemma MediaIsFile(t: Template, id: string, name: string)
    ensures IsMediaAt(t, id, name) ==> FileAt(t, id, name)
    ensures IsDeclaredAt(t, id, name) ==> DeclaredAt(t, id, name)
  {
    if IsMediaAt(t, id, name) {
      var i :| 0 <= i < |t.Slots()| && t.Slots()[i].nodeId == id && MediaInput(t, i) == name;
      assert t.Slots()[i] in if i < |t.imageSlots| then t.imageSlots else t.audioSlots;
    }
  }

  /** For every accepted lease: at every surviving position that no declared input, slot file or output
   *  prefix fills, the submitted graph holds exactly the template's values that do not point at a lost
   *  node. */
  lemma AllowlistFrame(t: Template, payload: map<string, Json>, granted: seq<string>, inputs: map<string, Json>,
                       uploads: Uploads, jobId: string, id: string, name: string, v: Json)
    requires Submits(t, payload, granted, inputs) && Built(t, inputs, uploads, jobId).Some?
    requires !DeclaredAt(t, id, name) && !FileAt(t, id, name) && !(id == t.outputNodeId && name == "filename_prefix")
    ensures Holding(Built(t, inputs, uploads, jobId).value, id, name, v) <==>
      && Holding(t.graph, id, name, v) && !Lost(t, payload, id)
      && forall target | Points(v, target) :: !Lost(t, payload, target)
  {
    SubmittedAt(t, payload, granted, inputs, uploads, jobId, id, name, v);
    NotSet(t, payload, granted, inputs, uploads, id, name);
    LostIsDropped(t, payload, granted, inputs, id);
    LinksIntoLost(t, payload, granted, inputs, v);
  }

  /** Every link in the submitted graph is the template's own or a template default the job did not
   *  override, never the job's, and none points at a lost node. */
  lemma LinksAreTheTemplates(t: Template, payload: map<string, Json>, granted: seq<string>, inputs: map<string, Json>,
                             uploads: Uploads, jobId: string, id: string, name: string, v: Json, target: string)
    requires Submits(t, payload, granted, inputs) && Built(t, inputs, uploads, jobId).Some?
    requires Holding(Built(t, inputs, uploads, jobId).value, id, name, v) && Points(v, target)
    ensures !Lost(t, payload, target)
    ensures || Holding(t.graph, id, name, v)
            || exists e | e in t.inputs :: e.nodeId == id && e.inputName == name && e.name !in payload && e.default == v
  {
    var g := Built(t, inputs, uploads, jobId).value;
    SubmittedAt(t, payload, granted, inputs, uploads, jobId, id, name, v);
    LinksIntoLost(t, payload, granted, inputs, v);
    FrameLookups(t, payload, granted, inputs, uploads, jobId);
    TargetIsPointedAt(v, target);
    assert Lookup(g, id, name) == Some(v) && LinkTarget(v).Some?;
  }

  lemma {:induction false} LastSetFinds(edits: seq<Edit>, x: Edit)
    requires x in edits && x.SetInput?
    ensures LastSet(edits, x.id, x.name).Some?
  {
    var n := |edits| - 1;
    if edits[n] != x {
      assert x in edits[..n];
      LastSetFinds(edits[..n], x);
    }
  }

  /** A position that only `e` fills is last set to the request's value for it. */
  lemma OnlyEntrySets(t: Template, payload: map<string, Json>, granted: seq<string>, inputs: map<string, Json>,
                      uploads: Uploads, e: TemplateInput)
    requires Submits(t, payload, granted, inputs) && e in t.inputs && e.name in inputs
    requires forall d | d in t.inputs && d.nodeId == e.nodeId && d.inputName == e.inputName :: d == e
    requires !FileAt(t, e.nodeId, e.inputName)
    ensures ImageKeys(inputs).Some? && AudioKeys(inputs).Some?
    ensures LastSet(Edits(t, inputs, uploads), e.nodeId, e.inputName) == Some(inputs[e.name])
  {
    RequestHasMedia(t, payload, granted, inputs);
    var edits, own := Edits(t, inputs, uploads), SetInput(e.nodeId, e.inputName, inputs[e.name]);
    FillEditsHave(t.inputs, inputs, e);
    assert own in edits;
    LastSetFinds(edits, own);
    LastSetIsAnEdit(edits, e.nodeId, e.inputName);
    var x := SetInput(e.nodeId, e.inputName, LastSet(edits, e.nodeId, e.inputName).value);
    if x in FillEdits(t.inputs, inputs) {
      FillEditsAre(t.inputs, inputs);
    } else {
      SlotEditIsAllowed(t, inputs, uploads, x);
      MediaIsFile(t, e.nodeId, e.inputName);
      assert false;
    }
  }

  lemma RequestCarries(t: Template, payload: map<string, Json>, granted: seq<string>, inputs: map<string, Json>, e: TemplateInput)
    requires Submits(t, payload, granted, inputs) && e in t.inputs
    ensures e.name in payload ==> e.name in inputs && inputs[e.name] == payload[e.name] && forall target :: !Points(payload[e.name], target)
    ensures e.name !in payload && e.default != JNull ==> e.name in inputs && inputs[e.name] == e.default
  {
    var i :| 0 <= i < |t.inputs| && t.inputs[i] == e;
    ValidInput(t, i);
    assert Holds(e, payload, inputs - {IMAGES, AUDIOS});
    assert InputOk(e, payload);
  }

  /** A declared input that alone fills its position is submitted with the job's value, or else with the
   *  template's default unless that points at a lost node. */
  lemma DeclaredInputIsSubmitted(t: Template, payload: map<string, Json>, granted: seq<string>, inputs: map<string, Json>,
                                 uploads: Uploads, jobId: string, e: TemplateInput)
    requires Submits(t, payload, granted, inputs) && Built(t, inputs, uploads, jobId).Some?
    requires e in t.inputs && forall d | d in t.inputs && d.nodeId == e.nodeId && d.inputName == e.inputName :: d == e
    requires !FileAt(t, e.nodeId, e.inputName) && !(e.nodeId == t.outputNodeId && e.inputName == "filename_prefix")
    requires !Lost(t, payload, e.nodeId)
    ensures e.name in payload ==>
      Holding(Built(t, inputs, uploads, jobId).value, e.nodeId, e.inputName, payload[e.name])
    ensures e.name !in payload && e.default != JNull ==>
      (Holding(Built(t, inputs, uploads, jobId).value, e.nodeId, e.inputName, e.default) <==>
         forall target | Points(e.default, target) :: !Lost(t, payload, target))
  {
    RequestCarries(t, payload, granted, inputs, e);
    if e.name in inputs {
      OnlyEntrySets(t, payload, granted, inputs, uploads, e);
      SubmittedAt(t, payload, granted, inputs, uploads, jobId, e.nodeId, e.inputName, inputs[e.name]);
      LostIsDropped(t, payload, granted, inputs, e.nodeId);
      LinksIntoLost(t, payload, granted, inputs, inputs[e.name]);
      EntryIsWellFormed(t, e);
    }
  }

  lemma FileOfSlot(t: Template, payload: map<string, Json>, granted: seq<string>, inputs: map<string, Json>,
                   uploads: Uploads, jobId: string, i: nat, media: string)
    requires Submits(t, payload, granted, inputs) && DistinctSlotNodes(t) && Built(t, inputs, uploads, jobId).Some?
    requires i < |t.Slots()| && media == (if i < |t.imageSlots| then "images" else "audios")
    requires !Unasked(payload, media, t.Slots()[i])
    ensures payload[media].fields[t.Slots()[i].name].JStr?
    ensures Holding(Built(t, inputs, uploads, jobId).value, t.Slots()[i].nodeId, MediaInput(t, i),
                    JStr(uploads(t.Slots()[i].name, payload[media].fields[t.Slots()[i].name].s)))
  {
    UnaskedIsUnbound(t, payload, granted, inputs, i);
    RequestHasMedia(t, payload, granted, inputs);
    BuiltHoldsUpload(t, i, inputs, uploads, jobId);
  }

  /** Every image slot with a key has its node in the graph, holding the name the runtime gave the file of
   *  that key. */
  lemma ImageIsSubmitted(t: Template, payload: map<string, Json>, granted: seq<string>, inputs: map<string, Json>,
                         uploads: Uploads, jobId: string, s: Slot)
    requires Submits(t, payload, granted, inputs) && DistinctSlotNodes(t) && Built(t, inputs, uploads, jobId).Some?
    requires s in t.imageSlots && !Unasked(payload, "images", s)
    ensures payload["images"].fields[s.name].JStr?
    ensures Holding(Built(t, inputs, uploads, jobId).value, s.nodeId, "image", JStr(uploads(s.name, payload["images"].fields[s.name].s)))
  {
    var i :| 0 <= i < |t.imageSlots| && t.imageSlots[i] == s;
    assert t.Slots()[i] == s;
    FileOfSlot(t, payload, granted, inputs, uploads, jobId, i, "images");
  }

  /** And so has every audio slot. */
  lemma AudioIsSubmitted(t: Template, payload: map<string, Json>, granted: seq<string>, inputs: map<string, Json>,
                         uploads: Uploads, jobId: string, s: Slot)
    requires Submits(t, payload, granted, inputs) && DistinctSlotNodes(t) && Built(t, inputs, uploads, jobId).Some?
    requires s in t.audioSlots && !Unasked(payload, "audios", s)
    ensures payload["audios"].fields[s.name].JStr?
    ensures Holding(Built(t, inputs, uploads, jobId).value, s.nodeId, "audio", JStr(uploads(s.name, payload["audios"].fields[s.name].s)))
  {
    var i :| 0 <= i < |t.audioSlots| && t.audioSlots[i] == s;
    var k := |t.imageSlots| + i;
    assert t.Slots()[k] == s;
    FileOfSlot(t, payload, granted, inputs, uploads, jobId, k, "audios");
  }

  /** A file name prefix on the output node is always the job's own; the template's is replaced, and none
   *  is added. */
  lemma PrefixIsTheJobs(t: Template, payload: map<string, Json>, granted: seq<string>, inputs: map<string, Json>,
                        uploads: Uploads, jobId: string, v: Json)
    requires Submits(t, payload, granted, inputs) && Built(t, inputs, uploads, jobId).Some?
    ensures Holding(Built(t, inputs, uploads, jobId).value, t.outputNodeId, "filename_prefix", v) ==> v == JStr("ogwp/" + jobId)
    ensures !DeclaredAt(t, t.outputNodeId, "filename_prefix") ==>
      (Holding(Built(t, inputs, uploads, jobId).value, t.outputNodeId, "filename_prefix", JStr("ogwp/" + jobId)) <==>
         exists w :: Holding(t.graph, t.outputNodeId, "filename_prefix", w)
                     && forall target | Points(w, target) :: !Lost(t, payload, target))
  {
    var id := t.outputNodeId;
    SubmittedAt(t, payload, granted, inputs, uploads, jobId, id, "filename_prefix", v);
    SubmittedAt(t, payload, granted, inputs, uploads, jobId, id, "filename_prefix", JStr("ogwp/" + jobId));
    if !DeclaredAt(t, id, "filename_prefix") {
      PrefixIsNoFile(t);
      NotSet(t, payload, granted, inputs, uploads, id, "filename_prefix");
      BuiltExactly(t, inputs, uploads, jobId);
      if Lookup(t.graph, id, "filename_prefix").Some? {
        LinksIntoLost(t, payload, granted, inputs, Lookup(t.graph, id, "filename_prefix").value);
        assert Holding(t.graph, id, "filename_prefix", Lookup(t.graph, id, "filename_prefix").value);
      }
    }
  }

  lemma PrefixIsNoFile(t: Template)
    ensures !FileAt(t, t.outputNodeId, "filename_prefix")
  {
    assert |"filename_prefix"| == 15 && |"image"| == 5 && |"audio"| == 5;
  }

  // ----- the whole graph

  /** Slot dropping preserves a well-formed graph: from a template without dangling links, with distinct
   *  slot nodes and with defaults that link inside it, no accepted lease yields a dangling link. */
  lemma JobGraphIsWellFormed(t: Template, payload: map<string, Json>, granted: seq<string>, inputs: map<string, Json>,
                             uploads: Uploads, jobId: string)
    requires Submits(t, payload, granted, inputs) && DistinctSlotNodes(t) && Built(t, inputs, uploads, jobId).Some?
    requires NoDangling(t.graph) && DefaultsLinkInside(t)
    ensures NoDangling(Built(t, inputs, uploads, jobId).value)
  {
    var g := Built(t, inputs, uploads, jobId).value;
    NodesExactly(t, payload, granted, inputs, uploads, jobId);
    forall id, name, v, target | Holding(g, id, name, v) && Points(v, target) ensures target in g {
      LinksAreTheTemplates(t, payload, granted, inputs, uploads, jobId, id, name, v, target);
    }
  }
}
