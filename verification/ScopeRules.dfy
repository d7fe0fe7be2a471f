/**
 What a crash may leave behind during a qualification run, and which single changes of memory, journal or daemon
 keep it recoverable.

 The environment is arbitrary: `fate` decides which commands fail and after how much of their effect, `foreign`
 what other processes do to the daemon before each command, `order` in which order a builder's parts go, and
 `attached` whether a network inspection reports attached containers.  `clean` says that nothing foreign used the
 scope's names when the run began, `restarts` that the run may start a scope that already records a network.
 */
module ScopeRules {
  import opened Basics
  import opened JournalCore

  /** What a crash leaves behind (journal and daemon), with the memory an interrupt would still have. */
  datatype Moment = Moment(state: Ledger, disk: Ledger, world: World)

  datatype Fate = Works | Fails(applied: nat)

  datatype Kind = Container | Network | Image | Builder

  datatype Removal = Removal(kind: Kind, marked: bool)

  datatype Environment = Environment(
    fate: nat -> Fate, foreign: (nat, World) -> World, order: nat -> seq<Part>, attached: (nat, World) -> bool,
    clean: bool, restarts: bool)

  ghost predicate Lawful(e: Environment) {
    && (forall n, w :: Foreign(w, e.foreign(n, w)) || !IdsOk(w))
    && (forall n :: |e.order(n)| == 3 && File in e.order(n) && Node in e.order(n) && Volume in e.order(n))
    && (Exclusive(e) ==> forall n, w: World :: w.containers == map[] ==> !e.attached(n, w))
  }

  /** Nobody else acts while this process does. */
  ghost predicate Quiet(e: Environment) {
    forall n, w :: e.foreign(n, w) == w
  }

  /** Nobody else uses the scope's names, before or during the run, and the scope is started once. */
  ghost predicate Exclusive(e: Environment) {
    e.clean && !e.restarts && Quiet(e)
  }

  ghost predicate Flawless(e: Environment) {
    forall n :: e.fate(n) == Works
  }

  ghost predicate Good(e: Environment, m: Moment) {
    && IdsOk(m.world) && Safe(m.state, m.world) && Safe(m.disk, m.world) && !m.state.closed
    && (Exclusive(e) ==> Clean(m.world) && Match(m.state, m.world) && Match(m.disk, m.world))
  }

  /** Containers and networks are only removed with the marker; tags and builders too if nobody interferes. */
  ghost predicate Rightful(e: Environment, x: Removal) {
    x.marked || (!Exclusive(e) && (x.kind == Image || x.kind == Builder))
  }

  // ---- failures ----

  /** How many of the commands issued in between fail. */
  ghost function Failures(e: Environment, first: nat, end: nat): nat {
    if first >= end then 0 else Failures(e, first, end - 1) + (if e.fate(end - 1).Fails? then 1 else 0)
  }

  lemma {:induction false} FailuresJoin(e: Environment, a: nat, b: nat, c: nat)
    requires a <= b <= c
    ensures Failures(e, a, c) == Failures(e, a, b) + Failures(e, b, c)
    decreases c
  {
    if b < c {
      FailuresJoin(e, a, b, c - 1);
    }
  }

  lemma {:induction false} FailureCounts(e: Environment, a: nat, n: nat, b: nat)
    requires a <= n < b && e.fate(n).Fails?
    ensures Failures(e, a, b) >= 1
    decreases b
  {
    if n < b - 1 {
      FailureCounts(e, a, n, b - 1);
    }
  }

  /** How much of what recovery found is still listed; a network is not held against a cleanup that left containers. */
  function Left(l: Ledger): nat {
    |l.containers| + (if l.network.Some? && l.containers == map[] then 1 else 0) + (if l.image then 1 else 0)
    + if l.builder then 1 else 0
  }

  // ---- what is removed ----

  /** A removal by name: when it was issued, what the daemon held then, and how it ended. */
  datatype Issue = Issue(at: nat, world: World, fate: Fate)

  /** The command was issued in this environment. */
  ghost predicate Issued(e: Environment, x: Issue) {
    x.fate == e.fate(x.at) && exists w :: x.world == e.foreign(x.at, w)
  }

  /** The tag goes, whoever put it there, if it exists when the command takes effect. */
  function TagRemovals(x: Issue): seq<Removal> {
    if x.world.image.Some? && x.fate != Fails(0) then [Removal(Image, x.world.image.value.marked)] else []
  }

  function Taken(fate: Fate, n: nat): nat {
    if fate.Works? || fate.applied > n then n else fate.applied
  }

  function PartRemovals(w: World, parts: seq<Part>): seq<Removal> {
    if parts == [] then []
    else
      var rest := parts[..|parts| - 1];
      var part := PartOf(WithoutParts(w, rest), parts[|parts| - 1]);
      PartRemovals(w, rest) + if part.Some? then [Removal(Builder, part.value.marked)] else []
  }

  /** The builder's parts go, whoever made them, in the daemon's order and as far as the command gets. */
  function BuilderRemovals(e: Environment, x: Issue): seq<Removal> {
    if x.world.file.None? then []
    else
      var parts := e.order(x.at + 1);
      PartRemovals(x.world, parts[..Taken(x.fate, |parts|)])
  }

  predicate AnyUnmarked(rs: seq<Removal>) {
    exists i | 0 <= i < |rs| :: !rs[i].marked
  }

  /** Only containers and networks, each with the marker. */
  predicate Owned(rs: seq<Removal>) {
    forall i | 0 <= i < |rs| :: rs[i].marked && (rs[i].kind.Container? || rs[i].kind.Network?)
  }

  predicate OwnedSince(before: seq<Removal>, after: seq<Removal>) {
    before <= after && Owned(after[|before|..])
  }

  lemma OwnedTrans(a: seq<Removal>, b: seq<Removal>, c: seq<Removal>)
    requires OwnedSince(a, b) && OwnedSince(b, c)
    ensures OwnedSince(a, c)
  {
    assert c[|a|..] == b[|a|..] + c[|b|..];
  }

  lemma OwnedOne(a: seq<Removal>, kind: Kind)
    requires kind.Container? || kind.Network?
    ensures OwnedSince(a, a + [Removal(kind, true)]) && OwnedSince(a, a)
  {
  }

  /** What a cleanup removed: containers and networks of its own, then a tag and a builder by their names. */
  datatype Trace = Trace(owned: seq<Removal>, tag: Option<Issue>, builder: Option<Issue>)

  function Removed(e: Environment, x: Trace): seq<Removal> {
    x.owned + (if x.tag.Some? then TagRemovals(x.tag.value) else [])
    + (if x.builder.Some? then BuilderRemovals(e, x.builder.value) else [])
  }

  ghost predicate Traced(e: Environment, x: Trace, from: nat) {
    && Owned(x.owned)
    && (x.tag.Some? ==> Issued(e, x.tag.value) && x.tag.value.at >= from)
    && (x.builder.Some? ==> Issued(e, x.builder.value) && x.builder.value.at >= from)
  }

  /** Both commands met what was there when the cleanup began. */
  predicate Met(l: Ledger, w: World, x: Trace) {
    && (x.tag.Some? ==> l.planned.image && x.tag.value.world.image == w.image)
    && (x.builder.Some? ==> l.planned.builder && w.file.Some? && x.builder.value.world.file == w.file
                            && x.builder.value.world.node == w.node && x.builder.value.world.volume == w.volume)
  }

  /** Whatever has the marker when it is recognised goes with it; only the volume can go without. */
  lemma UnmarkedIff(e: Environment, l: Ledger, w: World, x: Trace)
    requires Lawful(e) && Recognised(l, w) && Owned(x.owned) && Met(l, w, x)
    ensures AnyUnmarked(Removed(e, x)) ==> TakesForeignVolume(l, w)
    ensures TakesForeignVolume(l, w) && x.builder.Some? && x.builder.value.fate.Works? ==> AnyUnmarked(Removed(e, x))
  {
    hide Quiet, Foreign;
    var tag := if x.tag.Some? then TagRemovals(x.tag.value) else [];
    var rest := if x.builder.Some? then BuilderRemovals(e, x.builder.value) else [];
    UnmarkedConcat(x.owned, tag);
    UnmarkedConcat(x.owned + tag, rest);
    assert !AnyUnmarked(x.owned) && !AnyUnmarked(tag);
    if x.builder.Some? {
      var b := x.builder.value;
      var parts := e.order(b.at + 1);
      var k := Taken(b.fate, |parts|);
      UnmarkedParts(b.world, parts[..k]);
      assert parts[..|parts|] == parts;
      if AnyUnmarked(rest) {
        var p :| p in parts[..k] && PartOf(b.world, p).Some? && !PartOf(b.world, p).value.marked;
        assert p == Volume;
      }
      if TakesForeignVolume(l, w) && b.fate.Works? {
        assert Volume in parts && PartOf(b.world, Volume) == w.volume;
      }
    }
  }

  lemma OwnTrace(e: Environment, before: seq<Removal>, after: seq<Removal>, from: nat)
    requires OwnedSince(before, after)
    ensures |before| <= |after|
    ensures var x := Trace(after[|before|..], None, None); Traced(e, x, from) && after == before + Removed(e, x)
  {
  }

  lemma IssuedNow(e: Environment, n: nat, w: World)
    ensures Issued(e, Issue(n, e.foreign(n, w), e.fate(n)))
    ensures Quiet(e) ==> e.foreign(n, w) == w
  {
  }

  /** One more command by name. */
  lemma TraceMore(e: Environment, before: seq<Removal>, x: Trace, issue: Issue, from: nat)
    requires Traced(e, x, from) && Issued(e, issue) && issue.at >= from && x.builder.None?
    ensures var y := x.(builder := Some(issue));
            Traced(e, y, from) && before + Removed(e, x) + BuilderRemovals(e, issue) == before + Removed(e, y)
    ensures var y := x.(tag := Some(issue));
            x.tag.None? ==> Traced(e, y, from) && before + Removed(e, x) + TagRemovals(issue) == before + Removed(e, y)
  {
    hide Issued, TagRemovals, BuilderRemovals;
  }

  lemma JoinTrace(e: Environment, before: seq<Removal>, middle: seq<Removal>, x: Trace, from: nat, now: nat)
    requires OwnedSince(before, middle) && Traced(e, x, now) && from <= now
    ensures var y := x.(owned := middle[|before|..] + x.owned);
            Traced(e, y, from) && middle + Removed(e, x) == before + Removed(e, y)
  {
    hide Issued, TagRemovals, BuilderRemovals;
  }

  lemma LaterTrace(e: Environment, x: Trace, now: nat, from: nat)
    requires Traced(e, x, now) && from <= now
    ensures Traced(e, x, from) && (x.tag.Some? ==> x.tag.value.at >= now)
  {
    hide Issued;
  }

  lemma NothingRemoved(e: Environment, l: Ledger, w: World, from: nat)
    ensures var x := Trace([], None, None); Removed(e, x) == [] && Traced(e, x, from) && OnlyByName([])
    ensures !AnyUnmarked([])
    ensures TakesForeignVolume(l, w) ==> Recognised(l, w)
  {
  }

  /** Without the marker only tags and builders are removed. */
  predicate OnlyByName(rs: seq<Removal>) {
    forall i | 0 <= i < |rs| :: rs[i].marked || rs[i].kind.Image? || rs[i].kind.Builder?
  }

  lemma {:induction false} PartsAreBuilder(w: World, parts: seq<Part>)
    ensures forall i | 0 <= i < |PartRemovals(w, parts)| :: PartRemovals(w, parts)[i].kind.Builder?
  {
    if parts != [] {
      PartsAreBuilder(w, parts[..|parts| - 1]);
    }
  }

  lemma ByNameOnly(e: Environment, x: Trace)
    requires Traced(e, x, 0)
    ensures OnlyByName(Removed(e, x))
  {
    if x.builder.Some? && x.builder.value.world.file.Some? {
      var parts := e.order(x.builder.value.at + 1);
      PartsAreBuilder(x.builder.value.world, parts[..Taken(x.builder.value.fate, |parts|)]);
    }
  }

  /** Without anybody acting in between, `l` is the ledger recovery began with and `k` the one it made. */
  lemma TakenIff(e: Environment, l: Ledger, k: Ledger, w: World, x: Trace, from: nat)
    requires Lawful(e) && Recognised(l, w) && k.planned == l.planned && Traced(e, x, from) && Met(k, w, x)
    requires ByDaemon(k, w) && (x.builder.Some? <==> k.builder)
    ensures AnyUnmarked(Removed(e, x)) ==> TakesForeignVolume(l, w)
    ensures Flawless(e) && TakesForeignVolume(l, w) ==> AnyUnmarked(Removed(e, x))
  {
    hide Lawful, Recognised, Removed, AnyUnmarked;
    UnmarkedIff(e, l, w, x);
  }

  lemma ClosedTakesNothing(e: Environment, m: Moment)
    requires Good(e, m) && m.disk.closed
    ensures !TakesForeignVolume(m.disk, m.world) && !m.disk.planned.image
  {
    hide Quiet;
  }

  lemma CleanTakesNothing(e: Environment, m: Moment)
    requires Good(e, m) && Exclusive(e)
    ensures !TakesForeignVolume(m.disk, m.world)
  {
    hide Quiet;
  }

  /** Some part is removed without the marker exactly when one of the parts taken lacks it. */
  lemma {:induction false} UnmarkedParts(w: World, parts: seq<Part>)
    ensures AnyUnmarked(PartRemovals(w, parts)) <==> exists p | p in parts :: PartOf(w, p).Some? && !PartOf(w, p).value.marked
  {
    if parts != [] {
      var rest, last := parts[..|parts| - 1], parts[|parts| - 1];
      UnmarkedParts(w, rest);
      assert parts == rest + [last];
      var part := PartOf(WithoutParts(w, rest), last);
      WithoutPartsIs(w, rest);
      var more := if part.Some? then [Removal(Builder, part.value.marked)] else [];
      UnmarkedConcat(PartRemovals(w, rest), more);
      assert part == if last in rest then None else PartOf(w, last);
      assert AnyUnmarked(more) <==> part.Some? && !part.value.marked;
    }
  }

  lemma UnmarkedConcat(a: seq<Removal>, b: seq<Removal>)
    ensures AnyUnmarked(a + b) <==> AnyUnmarked(a) || AnyUnmarked(b)
  {
    if AnyUnmarked(a) {
      var i :| 0 <= i < |a| && !a[i].marked;
      assert !(a + b)[i].marked;
    }
    if AnyUnmarked(b) {
      var i :| 0 <= i < |b| && !b[i].marked;
      assert !(a + b)[|a| + i].marked;
    }
  }

  /** Recovery accepts everything, and the builder's volume is not the scope's. */
  predicate TakesForeignVolume(l: Ledger, w: World) {
    Recognised(l, w) && l.planned.builder && w.file.Some? && w.volume.Some? && !w.volume.value.marked
  }

  // ---- what a single change may do ----

  lemma GoodPlan(e: Environment, m: Moment, p: Plan)
    requires Good(e, m)
    requires m.state.planned.containers <= p.containers && (m.state.planned.network ==> p.network)
    requires (m.state.planned.image ==> p.image) && (m.state.planned.builder ==> p.builder)
    ensures Good(e, m.(state := m.state.(planned := p)))
  {
    hide Quiet;
  }

  lemma GoodNetwork(e: Environment, m: Moment)
    requires Good(e, m) && m.disk == m.state && m.state.planned.network && (m.state.network.None? || e.restarts)
    ensures var w := m.world.(network := Some(Item(m.world.nextId + 1, true)), nextId := m.world.nextId + 1);
            && Good(e, m.(world := w))
            && Good(e, m.(world := w, state := m.state.(network := Some(w.nextId))))
  {
    hide Quiet;
  }

  lemma GoodContainer(e: Environment, m: Moment, role: Role)
    requires Good(e, m) && m.disk == m.state && role in m.state.planned.containers && role !in m.state.containers
    ensures var id := m.world.nextId + 1;
            var w := m.world.(containers := m.world.containers[role := Item(id, true)], nextId := id);
            && Good(e, m.(world := w))
            && Good(e, m.(world := w, state := m.state.(containers := m.state.containers[role := id])))
  {
    hide Quiet;
  }

  lemma GoodImage(e: Environment, m: Moment)
    requires Good(e, m) && m.disk.planned.image && m.state.planned.image
    ensures var w := m.world.(image := Some(Item(m.world.nextId + 1, true)), nextId := m.world.nextId + 1);
            && Good(e, m.(world := w)) && Good(e, m.(world := w, state := m.state.(image := true)))
  {
    hide Quiet;
  }

  /** A part of the builder comes into being. */
  function Put(w: World, part: Part): World {
    var item := Some(Item(w.nextId + 1, true));
    match part
    case File => w.(file := item, nextId := w.nextId + 1)
    case Node => w.(node := item, nextId := w.nextId + 1)
    case Volume => w.(volume := item, nextId := w.nextId + 1)
  }

  lemma GoodPart(e: Environment, m: Moment, part: Part)
    requires Good(e, m) && m.disk.planned.builder && m.state.planned.builder
    ensures Good(e, m.(world := Put(m.world, part)))
  {
    hide Quiet;
  }

  lemma GoodBuilder(e: Environment, m: Moment)
    requires Good(e, m) && m.state.planned.builder
    ensures Good(e, m.(state := m.state.(builder := true)))
  {
    hide Quiet;
  }

  // ---- recovery ----

  /** Recovery records a container it sees with the marker and, if one is known, the known identifier. */
  lemma GoodSeen(e: Environment, m: Moment, role: Role)
    requires Good(e, m) && role in m.state.planned.containers && role in m.world.containers
    ensures Good(e, m.(state := m.state.(containers := m.state.containers[role := m.world.containers[role].id])))
  {
    hide Quiet;
  }

  lemma GoodGone(e: Environment, m: Moment, role: Role)
    requires Good(e, m)
    ensures Good(e, m.(state := m.state.(containers := m.state.containers - {role})))
  {
    hide Quiet;
  }

  lemma GoodNetworkRecord(e: Environment, m: Moment, network: Option<nat>)
    requires Good(e, m) && m.state.planned.network
    requires network.None? || (m.world.network.Some? && network.value == m.world.network.value.id)
    ensures Good(e, m.(state := m.state.(network := network)))
  {
    hide Quiet;
  }

  lemma GoodFlags(e: Environment, m: Moment, image: bool, builder: bool)
    requires Good(e, m) && (image ==> m.state.image || m.state.planned.image)
    requires builder ==> m.state.builder || m.state.planned.builder
    ensures Good(e, m.(state := m.state.(image := image, builder := builder)))
  {
    hide Quiet;
  }

  /** Without interference whatever exists under the scope's names is the scope's, with the recorded identifier. */
  lemma GoodNames(e: Environment, m: Moment)
    requires Good(e, m) && Exclusive(e)
    ensures Clean(m.world) && Match(m.state, m.world)
  {
    hide Quiet;
  }

  /** The containers listed among these roles exist. */
  predicate Present(l: Ledger, w: World, roles: set<Role>) {
    forall r | r in roles && r in l.containers :: r in w.containers
  }

  /** Recovery has not come to these roles yet. */
  predicate Recorded(l: Ledger, k: Ledger, roles: set<Role>) {
    forall r | r in roles ::
      (r in k.containers <==> r in l.containers) && (r in k.containers ==> k.containers[r] == l.containers[r])
  }

  predicate SameOthers(l: Ledger, k: Ledger, role: Role) {
    forall r | r != role ::
      (r in k.containers <==> r in l.containers) && (r in k.containers ==> k.containers[r] == l.containers[r])
  }

  lemma SameRefl(l: Ledger, role: Role)
    ensures SameOthers(l, l, role)
  {
  }

  lemma NothingDone(l: Ledger, w: World, roles: set<Role>)
    ensures Recorded(l, l, roles) && Covers(l, w, roles - roles) && Present(l, w, roles - roles)
  {
  }

  lemma RecordedStays(l: Ledger, j: Ledger, k: Ledger, roles: set<Role>, role: Role)
    requires Recorded(l, j, roles) && SameOthers(j, k, role)
    ensures Recorded(l, k, roles - {role})
  {
  }

  lemma RecognisedLater(l: Ledger, k: Ledger, w: World, roles: set<Role>, role: Role)
    requires Recorded(l, k, roles) && role in roles
    ensures ContainerRecognised(k, w, role) <==> ContainerRecognised(l, w, role)
  {
  }

  /** What recovery checks of the network, the tag and the builder does not depend on the rest of the ledger. */
  lemma RecognisedApart(l: Ledger, k: Ledger, w: World)
    requires k.planned == l.planned
    ensures k.network == l.network ==> (NetworkRecognised(k, w) <==> NetworkRecognised(l, w))
    ensures ImageRecognised(k, w) <==> ImageRecognised(l, w)
    ensures BuilderRecognised(k, w) <==> BuilderRecognised(l, w)
  {
  }

  lemma SharedApart(l: Ledger, k: Ledger, w: World)
    requires k == l.(containers := k.containers)
    ensures SharedRecognised(k, w) <==> SharedRecognised(l, w)
  {
  }

  lemma CoversSeen(l: Ledger, w: World, done: set<Role>, role: Role)
    requires Covers(l, w, done) && role in w.containers
    ensures var k := l.(containers := l.containers[role := w.containers[role].id]);
            Covers(k, w, done + {role}) && SameOthers(l, k, role) && (Present(l, w, done) ==> Present(k, w, done + {role}))
  {
  }

  lemma CoversGone(l: Ledger, w: World, done: set<Role>, role: Role)
    requires Covers(l, w, done) && role !in w.containers
    ensures var k := l.(containers := l.containers - {role});
            Covers(k, w, done + {role}) && SameOthers(l, k, role) && (Present(l, w, done) ==> Present(k, w, done + {role}))
  {
  }

  /** The ledger lists the tag and the builder exactly if they are planned and there. */
  predicate ByDaemon(l: Ledger, w: World) {
    && l.image == (l.planned.image && w.image.Some?)
    && l.builder == (l.planned.builder && w.file.Some?)
  }

  /** Nothing but a tag was ever planned. */
  predicate OnlyImage(l: Ledger) {
    l.planned == NoPlan.(image := true) && l.network.None?
  }

  lemma FewerRefl(w: World)
    ensures Fewer(w, w)
  {
  }

  lemma AllFound(e: Environment, m: Moment)
    requires Good(e, m) && Covers(m.state, m.world, m.state.planned.containers)
    ensures ContainersFound(m.state, m.world)
    ensures Present(m.state, m.world, m.state.planned.containers) ==> m.state.containers.Keys <= m.world.containers.Keys
  {
    hide Quiet;
  }

  lemma NothingUnplanned(e: Environment, m: Moment)
    requires Good(e, m)
    ensures !m.state.planned.network ==> !Marked(m.world.network) && m.state.network.None?
    ensures !m.state.planned.image ==> !Marked(m.world.image) && !m.state.image
    ensures !m.state.planned.builder ==> !BuilderMarked(m.world) && !m.state.builder
  {
    hide Quiet;
  }

  // ---- removal ----

  lemma GoodLess(e: Environment, m: Moment, v: World)
    requires Good(e, m) && Less(m.world, v)
    ensures Good(e, m.(world := v)) && Fewer(m.world, v)
  {
    hide Quiet;
  }

  lemma GoodForgetContainer(e: Environment, m: Moment, role: Role)
    requires Good(e, m) && !HasMarked(m.world, role)
    ensures Good(e, m.(state := ForgetContainer(m.state, role)))
  {
    hide Quiet;
  }

  lemma GoodForgetNetwork(e: Environment, m: Moment)
    requires Good(e, m) && !Marked(m.world.network)
    ensures Good(e, m.(state := ForgetNetwork(m.state)))
  {
    hide Quiet;
  }

  lemma GoodForgetImage(e: Environment, m: Moment)
    requires Good(e, m) && !Marked(m.world.image)
    ensures Good(e, m.(state := ForgetImage(m.state)))
  {
    hide Quiet;
  }

  lemma GoodForgetBuilder(e: Environment, m: Moment)
    requires Good(e, m) && !BuilderMarked(m.world)
    ensures Good(e, m.(state := ForgetBuilder(m.state)))
  {
    hide Quiet;
  }

  lemma GoodForgetAll(e: Environment, m: Moment)
    requires Good(e, m) && Found(m.state, m.world)
    requires m.state.containers == map[] && m.state.network.None? && !m.state.image && !m.state.builder
    ensures NoneMarked(m.world) && Good(e, m.(state := m.state.(planned := NoPlan)))
  {
    hide Quiet;
  }

  /** Identifiers are not reused: the container seen under a name is the one seen before if its identifier is. */
  lemma SameContainer(w: World, v: World, role: Role)
    requires IdsOk(w) && Foreign(w, v) && role in w.containers && role in v.containers
    requires v.containers[role].id == w.containers[role].id
    ensures v.containers[role] == w.containers[role]
  {
  }

  lemma StillOwned(e: Environment, m: Moment, v: World, role: Role)
    requires Good(e, m) && Foreign(m.world, v) && HasMarked(m.world, role)
    requires role in v.containers && v.containers[role].id == m.world.containers[role].id
    ensures HasMarked(v, role)
  {
    hide Quiet;
    SameContainer(m.world, v, role);
  }

  lemma SameNetworkIn(e: Environment, m: Moment, v: World)
    requires Good(e, m) && Foreign(m.world, v) && Marked(m.world.network) && v.network.Some?
    requires v.network.value.id == m.world.network.value.id
    ensures Marked(v.network)
  {
    hide Quiet;
  }

  function Without(w: World, role: Role): World {
    w.(containers := w.containers - {role})
  }

  lemma StillGone(w: World, v: World, role: Role)
    requires Fewer(w, v) && !HasMarked(w, role)
    ensures !HasMarked(v, role)
  {
  }

  lemma SlotsStillGone(w: World, v: World)
    requires Fewer(w, v)
    ensures !Marked(w.network) ==> !Marked(v.network)
    ensures !Marked(w.image) ==> !Marked(v.image)
    ensures !BuilderMarked(w) ==> !BuilderMarked(v)
  {
  }

  lemma Unattached(e: Environment, n: nat, w: World)
    requires Lawful(e)
    ensures Exclusive(e) && w.containers == map[] ==> !e.attached(n, w)
  {
    hide Quiet, Foreign;
  }

  lemma NodeStillGone(w: World, v: World)
    requires Fewer(w, v) && w.node.None? && v.file.None? && v.volume.None?
    ensures !BuilderMarked(v)
  {
  }

  lemma AllParts(e: Environment, n: nat, w: World)
    requires Lawful(e)
    ensures |e.order(n)| == 3
    ensures WithoutParts(w, e.order(n)[..|e.order(n)|]) == w.(file := None, node := None, volume := None)
  {
    hide Quiet, Foreign;
    assert e.order(n)[..|e.order(n)|] == e.order(n);
    WithoutPartsIs(w, e.order(n));
  }

  // ---- closing ----

  predicate SameButContainers(l: Ledger, k: Ledger) {
    k == l.(containers := k.containers, planned := l.planned.(containers := k.planned.containers))
  }

  /** Forgetting one thing that is gone keeps the ledger complete. */
  lemma FoundForget(l: Ledger, w: World, k: Ledger, v: World)
    requires Found(l, w) && Fewer(w, v)
    requires || k == l
             || (exists r :: k == ForgetContainer(l, r) && !HasMarked(v, r))
             || (k == ForgetNetwork(l) && !Marked(v.network))
             || (k == ForgetImage(l) && !Marked(v.image))
             || (k == ForgetBuilder(l) && !BuilderMarked(v))
    ensures Found(k, v)
  {
    FoundStays(l, w, l, v);
  }

  lemma NoContainers(e: Environment, m: Moment)
    requires Good(e, m) && Found(m.state, m.world) && m.state.containers == map[]
    ensures Exclusive(e) ==> m.world.containers == map[]
  {
    hide Quiet;
    if Exclusive(e) {
      assert forall r :: r in m.world.containers ==> HasMarked(m.world, r);
    }
  }

  lemma NoneMarkedStays(w: World, v: World)
    requires NoneMarked(w) && Fewer(w, v)
    ensures NoneMarked(v)
  {
    assert forall r :: HasMarked(v, r) ==> HasMarked(w, r);
  }

  lemma ClosedMeansGone(e: Environment, m: Moment)
    requires Good(e, m) && m.disk.closed
    ensures NoneMarked(m.world) && !Stuck(m.disk, m.world)
  {
    hide Quiet;
  }

  /** A crash forgets the memory of the process and keeps journal and daemon. */
  lemma GoodAfterCrash(e: Environment, later: Environment, m: Moment)
    requires Good(e, m) && (Exclusive(later) ==> Exclusive(e))
    ensures Good(later, Moment(m.disk.(closed := false), m.disk, m.world))
  {
    hide Quiet;
  }
}
