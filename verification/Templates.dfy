/** Workflow templates an operator installs, and the check they pass when loaded (comfy.py). */
module Templates {
  import opened Json

  const LOAD_IMAGE := "LoadImage"
  const LOAD_AUDIO := "LoadAudio"
  const IMAGES := "images"
  const AUDIOS := "audios"

  /** A graph entry: `inputs` is None when the node has no `inputs` object. */
  datatype Node = NotAnObject | Node(classType: Json, inputs: Option<map<string, Json>>)

  type Graph = map<string, Node>

  datatype Kind = StringKind | IntegerKind | NumberKind | BooleanKind | UnknownKind(name: string)

  datatype TemplateInput = TemplateInput(
    name: string,
    nodeId: string,
    inputName: string,
    kind: Kind,
    minimum: Option<real>,
    maximum: Option<real>,
    maxLength: Option<int>,
    default: Json,
    required: bool)

  datatype Slot = Slot(name: string, nodeId: string, required: bool, dependents: seq<string>)

  datatype Template = Template(
    capabilityId: string,
    contractVersion: int,
    graph: Graph,
    inputs: seq<TemplateInput>,
    imageSlots: seq<Slot>,
    audioSlots: seq<Slot>,
    outputNodeId: string)
  {
    function Slots(): seq<Slot> {
      imageSlots + audioSlots
    }
  }

  /** One name and the node it fills, for every entry of the allowlist in order. */
  function Allowlist(t: Template): (r: seq<(string, string)>)
    ensures |r| == |t.inputs| + |t.Slots()|
  {
    seq(|t.inputs|, i requires 0 <= i < |t.inputs| => (t.inputs[i].name, t.inputs[i].nodeId))
    + seq(|t.Slots()|, i requires 0 <= i < |t.Slots()| => (t.Slots()[i].name, t.Slots()[i].nodeId))
  }

  predicate Declares(t: Template, id: string) {
    id in t.graph && t.graph[id].Node?
  }

  predicate IsSlotNode(t: Template, id: string) {
    exists s | s in t.Slots() :: s.nodeId == id
  }

  predicate ValidSlot(t: Template, s: Slot, classType: string) {
    && Declares(t, s.nodeId)
    && t.graph[s.nodeId].classType == JStr(classType)
    && forall d | d in s.dependents :: Declares(t, d) && !IsSlotNode(t, d)
  }

  /** What `_validate_template` goes through, entry by entry. */
  predicate ValidTemplate(t: Template) {
    var all := Allowlist(t);
    && (forall i, j | 0 <= i < j < |all| :: all[i].0 != all[j].0)
    && (forall i | 0 <= i < |all| :: all[i].0 != IMAGES && all[i].0 != AUDIOS && Declares(t, all[i].1))
    && (forall e | e in t.inputs :: !e.kind.UnknownKind?)
    && (forall s | s in t.imageSlots :: ValidSlot(t, s, LOAD_IMAGE))
    && (forall s | s in t.audioSlots :: ValidSlot(t, s, LOAD_AUDIO))
    && Declares(t, t.outputNodeId)
  }

  /** What every installed template satisfies: names are distinct and not those of the media maps; inputs,
   *  slots, dependents and the output name nodes of the graph; kinds are known; slots are loaders of
   *  their medium; and no slot depends on a slot's node. */
  predicate WellFormedTemplate(t: Template) {
    var slots := t.imageSlots + t.audioSlots;
    && (forall i, j | 0 <= i < j < |t.inputs| :: t.inputs[i].name != t.inputs[j].name)
    && (forall i, j | 0 <= i < j < |slots| :: slots[i].name != slots[j].name)
    && (forall e, s | e in t.inputs && s in slots :: e.name != s.name)
    && (forall e | e in t.inputs ::
          && e.name != "images" && e.name != "audios" && e.kind in {StringKind, IntegerKind, NumberKind, BooleanKind}
          && e.nodeId in t.graph && t.graph[e.nodeId].Node?)
    && (forall s | s in slots ::
          && s.name != "images" && s.name != "audios" && s.nodeId in t.graph && t.graph[s.nodeId].Node?
          && forall d | d in s.dependents ::
               d in t.graph && t.graph[d].Node? && forall other | other in slots :: other.nodeId != d)
    && (forall s | s in t.imageSlots :: t.graph[s.nodeId].classType == JStr("LoadImage"))
    && (forall s | s in t.audioSlots :: t.graph[s.nodeId].classType == JStr("LoadAudio"))
    && t.outputNodeId in t.graph && t.graph[t.outputNodeId].Node?
  }

  lemma AllowlistNames(t: Template)
    ensures |Allowlist(t)| == |t.inputs| + |t.Slots()|
    ensures forall i | 0 <= i < |t.inputs| :: Allowlist(t)[i] == (t.inputs[i].name, t.inputs[i].nodeId)
    ensures forall i | 0 <= i < |t.Slots()| :: Allowlist(t)[|t.inputs| + i] == (t.Slots()[i].name, t.Slots()[i].nodeId)
  {
  }

  lemma NamesDiffer(t: Template)
    requires ValidTemplate(t)
    ensures forall i, j | 0 <= i < j < |t.inputs| :: t.inputs[i].name != t.inputs[j].name
    ensures forall i, j | 0 <= i < j < |t.Slots()| :: t.Slots()[i].name != t.Slots()[j].name
    ensures forall i, j | 0 <= i < |t.inputs| && 0 <= j < |t.Slots()| :: t.inputs[i].name != t.Slots()[j].name
  {
    var all, n := Allowlist(t), |t.inputs|;
    AllowlistNames(t);
    forall i, j | 0 <= i < n && 0 <= j < |t.Slots()| ensures t.inputs[i].name != t.Slots()[j].name {
      assert all[i].0 != all[n + j].0;
    }
    forall i, j | 0 <= i < j < |t.Slots()| ensures t.Slots()[i].name != t.Slots()[j].name {
      assert all[n + i].0 != all[n + j].0;
    }
    forall i, j | 0 <= i < j < n ensures t.inputs[i].name != t.inputs[j].name {
      assert all[i].0 != all[j].0;
    }
  }

  lemma EntryIsWellFormed(t: Template, e: TemplateInput)
    requires ValidTemplate(t) && e in t.inputs
    ensures e.name != "images" && e.name != "audios" && Declares(t, e.nodeId)
    ensures e.kind in {StringKind, IntegerKind, NumberKind, BooleanKind}
  {
    var i :| 0 <= i < |t.inputs| && t.inputs[i] == e;
    assert Allowlist(t)[i] == (e.name, e.nodeId);
  }

  lemma SlotIsWellFormed(t: Template, s: Slot)
    requires ValidTemplate(t) && s in t.imageSlots + t.audioSlots
    ensures s.name != "images" && s.name != "audios" && Declares(t, s.nodeId)
    ensures forall d | d in s.dependents :: Declares(t, d) && forall other | other in t.imageSlots + t.audioSlots :: other.nodeId != d
  {
    AllowlistNames(t);
    var slots := t.Slots();
    var i :| 0 <= i < |slots| && slots[i] == s;
    assert Allowlist(t)[|t.inputs| + i] == (s.name, s.nodeId);
    assert ValidSlot(t, s, if s in t.imageSlots then LOAD_IMAGE else LOAD_AUDIO);
  }

  lemma ValidIsWellFormed(t: Template)
    requires ValidTemplate(t)
    ensures WellFormedTemplate(t)
  {
    NamesDiffer(t);
    forall s | s in t.imageSlots + t.audioSlots
      ensures s.name != "images" && s.name != "audios" && Declares(t, s.nodeId)
      ensures forall d | d in s.dependents :: Declares(t, d) && forall other | other in t.imageSlots + t.audioSlots :: other.nodeId != d
    {
      SlotIsWellFormed(t, s);
    }
    forall e | e in t.inputs
      ensures e.name != "images" && e.name != "audios" && Declares(t, e.nodeId)
      ensures e.kind in {StringKind, IntegerKind, NumberKind, BooleanKind}
    {
      EntryIsWellFormed(t, e);
    }
    assert forall s | s in t.imageSlots :: ValidSlot(t, s, LOAD_IMAGE);
    assert forall s | s in t.audioSlots :: ValidSlot(t, s, LOAD_AUDIO);
  }

  lemma WellFormedIsValid(t: Template)
    requires WellFormedTemplate(t)
    ensures ValidTemplate(t)
  {
    AllowlistNames(t);
    var all, slots := Allowlist(t), t.Slots();
    forall i | 0 <= i < |t.inputs| ensures all[i] == (t.inputs[i].name, t.inputs[i].nodeId) && t.inputs[i] in t.inputs {
    }
    forall i | 0 <= i < |slots| ensures all[|t.inputs| + i] == (slots[i].name, slots[i].nodeId) && slots[i] in slots {
    }
    forall i, j | 0 <= i < j < |all| ensures all[i].0 != all[j].0 {
      if i >= |t.inputs| {
        assert all[i].0 == slots[i - |t.inputs|].name && all[j].0 == slots[j - |t.inputs|].name;
      } else if j >= |t.inputs| {
        assert all[j].0 == slots[j - |t.inputs|].name;
      }
    }
    forall i | 0 <= i < |all| ensures all[i].0 != IMAGES && all[i].0 != AUDIOS && Declares(t, all[i].1) {
      if i >= |t.inputs| {
        assert all[i].0 == slots[i - |t.inputs|].name;
      }
    }
    forall s | s in t.imageSlots ensures ValidSlot(t, s, LOAD_IMAGE) {
      assert s in slots;
    }
    forall s | s in t.audioSlots ensures ValidSlot(t, s, LOAD_AUDIO) {
      assert s in slots;
    }
  }

  /** `_validate_template`. */
  method ValidateTemplate(t: Template) returns (ok: bool)
    ensures ok <==> WellFormedTemplate(t)
    ensures ok <==> ValidTemplate(t)
  {
    ok := CheckTemplate(t);
    if ok {
      ValidIsWellFormed(t);
    } else if WellFormedTemplate(t) {
      WellFormedIsValid(t);
    }
  }

  /** The loops over the allowlist, the kinds and the slots. */
  method CheckTemplate(t: Template) returns (ok: bool)
    ensures ok <==> ValidTemplate(t)
  {
    ok := CheckNames(t, Allowlist(t));
    if !ok {
      return;
    }
    ok := CheckKinds(t);
    if !ok {
      return;
    }
    ok := CheckSlots(t, t.imageSlots, LOAD_IMAGE);
    if !ok {
      return;
    }
    ok := CheckSlots(t, t.audioSlots, LOAD_AUDIO);
    ok := ok && Declares(t, t.outputNodeId);
  }

  method CheckNames(t: Template, all: seq<(string, string)>) returns (ok: bool)
    ensures ok <==>
      && (forall i, j | 0 <= i < j < |all| :: all[i].0 != all[j].0)
      && (forall i | 0 <= i < |all| :: all[i].0 != IMAGES && all[i].0 != AUDIOS && Declares(t, all[i].1))
  {
    var names := {IMAGES, AUDIOS};
    for n := 0 to |all|
      invariant forall i, j | 0 <= i < j < n :: all[i].0 != all[j].0
      invariant forall i | 0 <= i < n :: all[i].0 != IMAGES && all[i].0 != AUDIOS && Declares(t, all[i].1)
      invariant names == {IMAGES, AUDIOS} + set i | 0 <= i < n :: all[i].0
    {
      if all[n].0 in names || !Declares(t, all[n].1) {
        return false;
      }
      names := names + {all[n].0};
    }
    ok := true;
  }

  method CheckKinds(t: Template) returns (ok: bool)
    ensures ok <==> forall e | e in t.inputs :: !e.kind.UnknownKind?
  {
    for n := 0 to |t.inputs|
      invariant forall i | 0 <= i < n :: !t.inputs[i].kind.UnknownKind?
    {
      if t.inputs[n].kind.UnknownKind? {
        assert t.inputs[n] in t.inputs;
        return false;
      }
    }
    ok := true;
  }

  method CheckSlots(t: Template, slots: seq<Slot>, classType: string) returns (ok: bool)
    ensures ok <==> forall s | s in slots :: ValidSlot(t, s, classType)
  {
    for n := 0 to |slots|
      invariant forall i | 0 <= i < n :: ValidSlot(t, slots[i], classType)
    {
      if !ValidSlot(t, slots[n], classType) {
        assert slots[n] in slots;
        return false;
      }
    }
    ok := true;
  }

  // ----- what the rest needs of a valid template

  lemma ValidInput(t: Template, i: nat)
    requires ValidTemplate(t) && i < |t.inputs|
    ensures var e := t.inputs[i];
            e.name != IMAGES && e.name != AUDIOS && Declares(t, e.nodeId) && !e.kind.UnknownKind?
    ensures forall j | 0 <= j < |t.inputs| && t.inputs[j].name == t.inputs[i].name :: j == i
  {
    assert Allowlist(t)[i] == (t.inputs[i].name, t.inputs[i].nodeId);
    assert forall j | 0 <= j < |t.inputs| :: Allowlist(t)[j].0 == t.inputs[j].name;
    assert t.inputs[i] in t.inputs;
  }

  lemma ValidSlots(t: Template, i: nat)
    requires ValidTemplate(t) && i < |t.Slots()|
    ensures var s := t.Slots()[i]; Declares(t, s.nodeId) && forall d | d in s.dependents :: Declares(t, d) && !IsSlotNode(t, d)
    ensures forall j | 0 <= j < |t.Slots()| && t.Slots()[j].name == t.Slots()[i].name :: j == i
  {
    var s := t.Slots()[i];
    assert s in t.imageSlots || s in t.audioSlots;
    assert forall j | 0 <= j < |t.Slots()| :: Allowlist(t)[|t.inputs| + j].0 == t.Slots()[j].name;
  }
}
