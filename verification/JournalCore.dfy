/**
 The resource journal of an image qualification run: what the scope remembers and persists, what the Docker
 daemon holds under the scope's names, and when the one covers the other.
 */
module JournalCore {
  import opened Basics

  datatype Role = Ioc | Redis | Tools | Check

  /** A daemon resource.  `marked` says that it carries the scope's ownership marker. */
  datatype Item = Item(id: nat, marked: bool)

  /** What exists under the scope's own names; a builder is an instance file, a node container and a state volume. */
  datatype World = World(
    containers: map<Role, Item>, network: Option<Item>, image: Option<Item>,
    file: Option<Item>, node: Option<Item>, volume: Option<Item>, nextId: nat)

  datatype Plan = Plan(containers: set<Role>, network: bool, image: bool, builder: bool)

  /** The scope's dictionaries, as kept in memory and as written to the journal file. */
  datatype Ledger = Ledger(
    containers: map<Role, nat>, network: Option<nat>, image: bool, builder: bool, planned: Plan, closed: bool)

  const NoPlan := Plan({}, false, false, false)
  const NoLedger := Ledger(map[], None, false, false, NoPlan, false)

  predicate Marked(o: Option<Item>) {
    o.Some? && o.value.marked
  }

  predicate HasMarked(w: World, r: Role) {
    r in w.containers && w.containers[r].marked
  }

  /** Nothing of the scope is left. */
  predicate NoneMarked(w: World) {
    && (forall r :: !HasMarked(w, r))
    && !Marked(w.network) && !Marked(w.image)
    && !Marked(w.file) && !Marked(w.node) && !Marked(w.volume)
  }

  /** Every resource of the scope is planned in the ledger, and what the ledger lists is planned. */
  predicate Safe(l: Ledger, w: World) {
    && (forall r :: HasMarked(w, r) ==> r in l.planned.containers)
    && (Marked(w.network) ==> l.planned.network)
    && (Marked(w.image) ==> l.planned.image)
    && (Marked(w.file) || Marked(w.node) || Marked(w.volume) ==> l.planned.builder)
    && l.containers.Keys <= l.planned.containers
    && (l.network.Some? ==> l.planned.network)
    && (l.image ==> l.planned.image)
    && (l.builder ==> l.planned.builder)
    && (l.closed ==> l.planned == NoPlan)
  }

  predicate IdsOk(w: World) {
    && (forall r | r in w.containers :: w.containers[r].id <= w.nextId)
    && (w.network.Some? ==> w.network.value.id <= w.nextId)
  }

  // ---- without interference ----

  predicate OnlyMarked(o: Option<Item>) {
    o.Some? ==> o.value.marked
  }

  /** No foreign resource uses one of the scope's names. */
  predicate Clean(w: World) {
    && (forall r | r in w.containers :: w.containers[r].marked)
    && OnlyMarked(w.network) && OnlyMarked(w.image)
    && OnlyMarked(w.file) && OnlyMarked(w.node) && OnlyMarked(w.volume)
  }

  /** The identifiers in the ledger are still those of the resources that exist. */
  predicate Match(l: Ledger, w: World) {
    && (forall r | r in l.containers && r in w.containers :: l.containers[r] == w.containers[r].id)
    && (l.network.Some? && w.network.Some? ==> l.network.value == w.network.value.id)
  }

  /** Builder state that recovery refuses: the instance file is gone while its node or volume remains. */
  predicate Stuck(l: Ledger, w: World) {
    l.planned.builder && w.file.None? && (w.node.Some? || w.volume.Some?)
  }

  // ---- interference ----

  predicate SlotForeign(a: Option<Item>, b: Option<Item>, low: nat) {
    b.None? || b == a || (!b.value.marked && b.value.id > low)
  }

  /** Others may remove anything and create resources without the marker; identifiers are never reused. */
  ghost predicate Foreign(w: World, v: World) {
    && w.nextId <= v.nextId && IdsOk(v)
    && (forall r | r in v.containers ::
          (r in w.containers && v.containers[r] == w.containers[r]) || (!v.containers[r].marked && v.containers[r].id > w.nextId))
    && SlotForeign(w.network, v.network, w.nextId)
    && SlotForeign(w.image, v.image, w.nextId)
    && SlotForeign(w.file, v.file, w.nextId)
    && SlotForeign(w.node, v.node, w.nextId)
    && SlotForeign(w.volume, v.volume, w.nextId)
  }

  predicate SlotFewer(a: Option<Item>, b: Option<Item>) {
    Marked(b) ==> a == b
  }

  /** Resources of the scope can only have disappeared. */
  predicate Fewer(w: World, v: World) {
    && (forall r :: HasMarked(v, r) ==> r in w.containers && w.containers[r] == v.containers[r])
    && SlotFewer(w.network, v.network) && SlotFewer(w.image, v.image)
    && SlotFewer(w.file, v.file) && SlotFewer(w.node, v.node) && SlotFewer(w.volume, v.volume)
  }

  lemma ForeignFewer(w: World, v: World)
    requires Foreign(w, v)
    ensures Fewer(w, v) && IdsOk(v)
  {
  }

  lemma SafeStays(l: Ledger, w: World, v: World)
    requires Safe(l, w) && Fewer(w, v)
    ensures Safe(l, v)
  {
  }

  lemma FewerTrans(u: World, v: World, w: World)
    requires Fewer(u, v) && Fewer(v, w)
    ensures Fewer(u, w)
  {
  }

  // ---- recovery ----

  /** The ledger identifies every container of the scope among these roles. */
  predicate Covers(l: Ledger, w: World, roles: set<Role>) {
    forall r | r in roles :: HasMarked(w, r) ==> r in l.containers && l.containers[r] == w.containers[r].id
  }

  predicate ContainersFound(l: Ledger, w: World) {
    forall r :: HasMarked(w, r) ==> r in l.containers
  }

  predicate NetworkFound(l: Ledger, w: World) {
    Marked(w.network) ==> l.network == Some(w.network.value.id)
  }

  predicate ImageFound(l: Ledger, w: World) {
    Marked(w.image) ==> l.image
  }

  predicate BuilderFound(l: Ledger, w: World) {
    Marked(w.file) || Marked(w.node) || Marked(w.volume) ==> l.builder
  }

  /** The ledger lists everything of the scope that exists. */
  predicate Found(l: Ledger, w: World) {
    ContainersFound(l, w) && NetworkFound(l, w) && ImageFound(l, w) && BuilderFound(l, w)
  }

  // What recovery accepts: whatever it finds under a planned name carries the marker and the known identifier.

  predicate ContainerRecognised(l: Ledger, w: World, r: Role) {
    r in w.containers ==> w.containers[r].marked && (r in l.containers ==> l.containers[r] == w.containers[r].id)
  }

  predicate NetworkRecognised(l: Ledger, w: World) {
    l.planned.network && w.network.Some? ==>
      w.network.value.marked && (l.network.Some? ==> l.network.value == w.network.value.id)
  }

  predicate ImageRecognised(l: Ledger, w: World) {
    l.planned.image ==> OnlyMarked(w.image)
  }

  /** The volume's marker is never looked at. */
  predicate BuilderRecognised(l: Ledger, w: World) {
    l.planned.builder ==>
      if w.file.Some? then w.file.value.marked && OnlyMarked(w.node) else w.node.None? && w.volume.None?
  }

  predicate SharedRecognised(l: Ledger, w: World) {
    NetworkRecognised(l, w) && ImageRecognised(l, w) && BuilderRecognised(l, w)
  }

  predicate Recognised(l: Ledger, w: World) {
    && (forall r | r in l.planned.containers :: ContainerRecognised(l, w, r))
    && SharedRecognised(l, w)
  }

  /** If nothing foreign uses the scope's names, only a broken builder is not recognised. */
  lemma RecognisedIff(l: Ledger, w: World)
    requires Clean(w) && Match(l, w)
    ensures Recognised(l, w) <==> !Stuck(l, w)
  {
  }

  /** What was found stays found while resources only disappear. */
  lemma FoundStays(l: Ledger, w: World, k: Ledger, v: World)
    requires Fewer(w, v)
    ensures ContainersFound(l, w) && k.containers == l.containers ==> ContainersFound(k, v)
    ensures NetworkFound(l, w) && k.network == l.network ==> NetworkFound(k, v)
    ensures ImageFound(l, w) && k.image == l.image ==> ImageFound(k, v)
    ensures BuilderFound(l, w) && k.builder == l.builder ==> BuilderFound(k, v)
  {
  }

  /** Everything the ledger lists exists. */
  predicate Listed(l: Ledger, w: World) {
    l.containers.Keys <= w.containers.Keys && SharedListed(l, w)
  }

  predicate SharedListed(l: Ledger, w: World) {
    && (l.network.Some? ==> w.network.Some?)
    && (l.image ==> w.image.Some?)
    && (l.builder ==> w.file.Some?)
  }

  // ---- removal ----

  /** Only existing resources went, and nothing else changed. */
  predicate SlotLess(a: Option<Item>, b: Option<Item>) {
    b == a || b == None
  }

  predicate Less(w: World, v: World) {
    && v.containers.Keys <= w.containers.Keys
    && (forall r | r in v.containers :: v.containers[r] == w.containers[r])
    && SlotLess(w.network, v.network) && SlotLess(w.image, v.image)
    && SlotLess(w.file, v.file) && SlotLess(w.node, v.node) && SlotLess(w.volume, v.volume)
    && v.nextId == w.nextId
  }

  function ForgetContainer(l: Ledger, role: Role): Ledger {
    l.(containers := l.containers - {role}, planned := l.planned.(containers := l.planned.containers - {role}))
  }

  function ForgetNetwork(l: Ledger): Ledger {
    l.(network := None, planned := l.planned.(network := false))
  }

  function ForgetImage(l: Ledger): Ledger {
    l.(image := false, planned := l.planned.(image := false))
  }

  function ForgetBuilder(l: Ledger): Ledger {
    l.(builder := false, planned := l.planned.(builder := false))
  }

  predicate BuilderMarked(w: World) {
    Marked(w.file) || Marked(w.node) || Marked(w.volume)
  }

  lemma CoversStays(l: Ledger, w: World, v: World, roles: set<Role>)
    requires Covers(l, w, roles) && Fewer(w, v)
    ensures Covers(l, v, roles)
  {
  }

  datatype Part = File | Node | Volume

  /** Takes one part of a builder away. */
  function WithoutPart(w: World, part: Part): World {
    match part
    case File => w.(file := None)
    case Node => w.(node := None)
    case Volume => w.(volume := None)
  }

  function PartOf(w: World, part: Part): Option<Item> {
    match part
    case File => w.file
    case Node => w.node
    case Volume => w.volume
  }

  function WithoutParts(w: World, parts: seq<Part>): World {
    if parts == [] then w else WithoutPart(WithoutParts(w, parts[..|parts| - 1]), parts[|parts| - 1])
  }

  lemma {:induction false} WithoutPartsIs(w: World, parts: seq<Part>)
    ensures WithoutParts(w, parts)
            == w.(file := if File in parts then None else w.file,
                  node := if Node in parts then None else w.node,
                  volume := if Volume in parts then None else w.volume)
  {
    if parts != [] {
      WithoutPartsIs(w, parts[..|parts| - 1]);
      assert forall p :: p in parts <==> p in parts[..|parts| - 1] || p == parts[|parts| - 1];
    }
  }

  /** How a removal may leave recovery stuck: some of its effects happened, the file's among them, and not all. */
  lemma InterruptedRemovalStuckIff(l: Ledger, w: World, parts: seq<Part>, k: nat)
    requires l.planned.builder && w.file.Some? && k <= |parts|
    ensures Stuck(l, WithoutParts(w, parts[..k]))
            <==> File in parts[..k]
                 && ((w.node.Some? && Node !in parts[..k]) || (w.volume.Some? && Volume !in parts[..k]))
  {
    WithoutPartsIs(w, parts[..k]);
  }
}
