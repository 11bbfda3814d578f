/**
 Two owners in one namespace: labels, controller references, and why no pass touches the children
 of another owner.
 */
module Ownership {
  import opened Strings
  import opened Names

  const NAME_LABEL := "app.kubernetes.io/name"
  const PART_OF_LABEL := "app.kubernetes.io/part-of"
  const COMPONENT_LABEL := "app.kubernetes.io/component"
  const GENERATION_LABEL := "osrmcluster.itayankri/cluster-generation"
  const RESERVED := "app.kubernetes.io"

  datatype Owner = Owner(name: string, generation: nat, labels: map<string, string>)

  predicate Reserved(l: string) {
    RESERVED <= l
  }

  function OwnLabels(owner: Owner, component: string): map<string, string> {
    map[NAME_LABEL := owner.name, PART_OF_LABEL := "osrmcluster", COMPONENT_LABEL := component,
        GENERATION_LABEL := Itoa(owner.generation)]
  }

  function LabelsOf(owner: Owner, component: string): map<string, string> {
    OwnLabels(owner, component) + map l | l in owner.labels && !Reserved(l) :: owner.labels[l]
  }

  /** Go iterates over a map in no particular order; the result does not depend on it. */
  method GetLabels(owner: Owner, component: string) returns (labels: map<string, string>)
    ensures labels == LabelsOf(owner, component)
  {
    hide OwnLabels, Reserved;
    labels := OwnLabels(owner, component);
    var rest := owner.labels.Keys;
    while rest != {}
      invariant rest <= owner.labels.Keys
      invariant labels == OwnLabels(owner, component)
                          + map l | l in owner.labels && l !in rest && !Reserved(l) :: owner.labels[l]
      decreases |rest|
    {
      var l :| l in rest;
      if !Reserved(l) { labels := labels[l := owner.labels[l]]; }
      rest := rest - {l};
    }
  }

  /** No label of the owner's own overrides the name by which garbage collection selects; the
      generation label has no such protection. */
  lemma NameLabelIsSafe(owner: Owner, component: string)
    ensures NAME_LABEL in LabelsOf(owner, component) && LabelsOf(owner, component)[NAME_LABEL] == owner.name
    ensures GENERATION_LABEL in owner.labels ==>
      LabelsOf(owner, component)[GENERATION_LABEL] == owner.labels[GENERATION_LABEL]
  {
    assert NAME_LABEL[..|RESERVED|] == RESERVED;
    assert GENERATION_LABEL[0] != RESERVED[0];
    assert NAME_LABEL[18] != PART_OF_LABEL[18] && NAME_LABEL[18] != COMPONENT_LABEL[18]
        && NAME_LABEL[0] != GENERATION_LABEL[0];
  }

  lemma KeysDiffer()
    ensures "app.kubernetes.io" <= "app.kubernetes.io/name" && "app.kubernetes.io" <= "app.kubernetes.io/part-of"
    ensures "app.kubernetes.io" <= "app.kubernetes.io/component"
    ensures "app.kubernetes.io/name"[18] == 'n' && "app.kubernetes.io/part-of"[18] == 'p'
    ensures "app.kubernetes.io/component"[18] == 'c' && "osrmcluster.itayankri/cluster-generation"[0] == 'o'
  {
    assert "app.kubernetes.io/name"[..17] == "app.kubernetes.io";
    assert "app.kubernetes.io/part-of"[..17] == "app.kubernetes.io";
    assert "app.kubernetes.io/component"[..17] == "app.kubernetes.io";
  }

  /** Every label of a child: three that the owner cannot change, the generation unless the owner has a
      label of that name, and the owner's other labels outside app.kubernetes.io. */
  lemma LabelsAre(owner: Owner, component: string, l: string)
    ensures var labels := LabelsOf(owner, component);
      if l == "app.kubernetes.io/name" then l in labels && labels[l] == owner.name
      else if l == "app.kubernetes.io/part-of" then l in labels && labels[l] == "osrmcluster"
      else if l == "app.kubernetes.io/component" then l in labels && labels[l] == component
      else if l in owner.labels && !("app.kubernetes.io" <= l) then l in labels && labels[l] == owner.labels[l]
      else if l == "osrmcluster.itayankri/cluster-generation" then l in labels && labels[l] == Itoa(owner.generation)
      else l !in labels
  {
    hide Itoa;
    KeysDiffer();
  }

  // ---------- a namespace ----------

  datatype Id = Id(kind: string, name: string)

  datatype Object = Object(labels: map<string, string>, controller: Option<string>, spec: string)

  /** What a pass of an owner does to one object. */
  datatype Action =
    | CreateOrUpdate(owner: Owner, component: string, id: Id, spec: string)
    | Collect(owner: Owner, expected: set<Id>)

  /** Setting the controller reference fails on an object that another owner controls. */
  predicate Foreign(objects: map<Id, Object>, owner: Owner, id: Id) {
    id in objects && objects[id].controller.Some? && objects[id].controller.value != owner.name
  }

  predicate Selected(o: Object, owner: Owner) {
    NAME_LABEL in o.labels && o.labels[NAME_LABEL] == owner.name
  }

  function Do(objects: map<Id, Object>, a: Action): map<Id, Object> {
    match a
    case CreateOrUpdate(owner, component, id, spec) =>
      if Foreign(objects, owner, id) then objects
      else objects[id := Object(LabelsOf(owner, component), Some(owner.name), spec)]
    case Collect(owner, expected) =>
      map id | id in objects && (Selected(objects[id], owner) ==> id in expected) :: objects[id]
  }

  /** An object that nobody else controls is written as the owner's child; another's is left alone. */
  lemma WrittenAsOwn(objects: map<Id, Object>, owner: Owner, component: string, id: Id, spec: string, other: Id)
    ensures var after := Do(objects, CreateOrUpdate(owner, component, id, spec));
      && (other != id ==> (other in after <==> other in objects))
      && (other != id && other in objects ==> after[other] == objects[other])
      && (if id in objects && objects[id].controller.Some? && objects[id].controller.value != owner.name
          then id in after && after[id] == objects[id]
          else id in after && after[id] == Object(LabelsOf(owner, component), Some(owner.name), spec))
  {
    hide LabelsOf;
  }

  /** Garbage collection deletes exactly the unexpected objects that carry the owner's name as their name
      label, and changes none. */
  lemma CollectedByLabel(objects: map<Id, Object>, owner: Owner, expected: set<Id>, id: Id)
    ensures var after := Do(objects, Collect(owner, expected));
      && (id in after ==> id in objects && after[id] == objects[id])
      && (id in objects ==>
            var l := objects[id].labels;
            id in after <==>
              "app.kubernetes.io/name" !in l || l["app.kubernetes.io/name"] != owner.name || id in expected)
  {
  }

  function Run(objects: map<Id, Object>, actions: seq<Action>): map<Id, Object>
    decreases |actions|
  {
    if actions == [] then objects else Run(Do(objects, actions[0]), actions[1..])
  }

  /** Every controlled object carries its controller's name label. */
  predicate Labelled(objects: map<Id, Object>) {
    forall id :: id in objects && objects[id].controller.Some? ==>
      NAME_LABEL in objects[id].labels && objects[id].labels[NAME_LABEL] == objects[id].controller.value
  }

  predicate Controls(objects: map<Id, Object>, id: Id, owner: string) {
    id in objects && objects[id].controller == Some(owner)
  }

  lemma ActionSpares(objects: map<Id, Object>, a: Action, other: string)
    requires Labelled(objects)
    ensures Labelled(Do(objects, a))
    ensures a.owner.name != other ==> forall id :: Controls(objects, id, other) ==>
      id in Do(objects, a) && Do(objects, a)[id] == objects[id]
    ensures a.owner.name != other ==> forall id :: Controls(Do(objects, a), id, other) ==> Controls(objects, id, other)
  {
    hide LabelsOf;
    if a.CreateOrUpdate? { NameLabelIsSafe(a.owner, a.component); }
  }

  /** Whatever other owners do, and in whatever order, one owner's children stay exactly as they are. */
  lemma {:induction false} OthersAreSpared(objects: map<Id, Object>, actions: seq<Action>, owner: string)
    requires Labelled(objects) && forall a :: a in actions ==> a.owner.name != owner
    ensures Labelled(Run(objects, actions))
    ensures forall id :: Controls(objects, id, owner) <==> Controls(Run(objects, actions), id, owner)
    ensures forall id :: Controls(objects, id, owner) ==>
      id in Run(objects, actions) && Run(objects, actions)[id] == objects[id]
    decreases |actions|
  {
    hide Do, Labelled;
    if actions != [] {
      assert actions[0] in actions;
      ActionSpares(objects, actions[0], owner);
      OthersAreSpared(Do(objects, actions[0]), actions[1..], owner);
    }
  }

  /** The name label and the controller reference are both needed: children of different owners can
      have the same name. */
  lemma NamesCanMeet(owner: string, middle: string, last: string)
    requires Plain(last) && last != "" && middle != ""
    ensures WorkerName(owner, middle + "-" + last) == WorkerName(owner + "-" + middle, last)
  {
    var p := middle + "-" + last;
    assert p[|p| - 1] == last[|last| - 1];
    WorkerNameIs(owner, p);
    WorkerNameIs(owner + "-" + middle, last);
    assert owner + "-" + p == owner + "-" + middle + "-" + last;
  }
}
