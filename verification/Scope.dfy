/**
 The scope object that creates, recovers and removes the private resources of a qualification run.  A crash can
 strike after any single change of memory, journal or daemon; `trail` lists the situation after each of them,
 and the object's invariant says of every one that cleanup can start from it.
 */
module Scopes {
  import opened Basics
  import opened JournalCore
  import opened ScopeRules

  class Scope {
    const env: Environment
    var state: Ledger
    var disk: Ledger
    var world: World
    var tick: nat
    var trail: seq<Moment>
    var removals: seq<Removal>

    ghost predicate Logged()
      reads this
    {
      && (forall i | 0 <= i < |trail| :: Good(env, trail[i]))
      && (forall i | 0 <= i < |removals| :: Rightful(env, removals[i]))
    }

    ghost predicate Valid()
      reads this
    {
      && Lawful(env) && Logged() && !state.closed
      && Good(env, Moment(state, disk, world))
      && trail != [] && trail[|trail| - 1] == Moment(state, disk, world)
    }

    /** A new scope: an empty plan is persisted before anything is created. */
    constructor (env: Environment, world: World)
      requires Lawful(env) && IdsOk(world) && NoneMarked(world) && (Exclusive(env) ==> Clean(world))
      ensures Valid() && state == disk == NoLedger && this.world == world && this.env == env
      ensures trail == [Moment(state, disk, world)] && removals == [] && tick == 0
    {
      this.env := env;
      this.world := world;
      state, disk, tick := NoLedger, NoLedger, 0;
      trail := [Moment(NoLedger, NoLedger, world)];
      removals := [];
    }

    /** A scope rebuilt from a journal after a crash. */
    constructor Resume(env: Environment, journal: Ledger, world: World)
      requires Lawful(env) && Good(env, Moment(journal.(closed := false), journal, world))
      ensures Valid() && state == journal.(closed := false) && disk == journal && this.world == world && this.env == env
      ensures trail == [Moment(state, disk, world)] && removals == [] && tick == 0
    {
      this.env := env;
      this.world := world;
      state, disk, tick := journal.(closed := false), journal, 0;
      trail := [Moment(journal.(closed := false), journal, world)];
      removals := [];
    }

    // ---- single changes ----

    method SetState(next: Ledger)
      requires Valid() && Good(env, Moment(next, disk, world)) && !next.closed
      modifies this`state, this`trail
      ensures Valid() && state == next && old(trail) <= trail
    {
      state := next;
      trail := trail + [Moment(state, disk, world)];
    }

    method SetWorld(next: World)
      requires Valid() && Good(env, Moment(state, disk, next))
      modifies this`world, this`trail
      ensures Valid() && world == next && old(trail) <= trail
    {
      world := next;
      trail := trail + [Moment(state, disk, world)];
    }

    /** Others act, then this process issues its next command. */
    method Next() returns (fate: Fate)
      requires Valid()
      modifies this`world, this`tick, this`trail
      ensures Valid() && Fewer(old(world), world) && old(trail) <= trail && tick == old(tick) + 1
      ensures world == env.foreign(old(tick), old(world)) && fate == env.fate(old(tick))
      ensures Foreign(old(world), world)
      ensures Quiet(env) ==> world == old(world)
      ensures Flawless(env) ==> fate == Works
    {
      fate := env.fate(tick);
      ForeignFewer(world, env.foreign(tick, world));
      SafeStays(state, world, env.foreign(tick, world));
      SafeStays(disk, world, env.foreign(tick, world));
      SetWorld(env.foreign(tick, world));
      tick := tick + 1;
    }

    /** Writes the journal: a new file replaces the old one in one step, or nothing happens. */
    method Persist(closed: bool) returns (ok: bool)
      requires Valid() && (closed ==> state.planned == NoPlan)
      modifies this`world, this`tick, this`trail, this`disk
      ensures Valid() && Fewer(old(world), world) && old(trail) <= trail && tick == old(tick) + 1
      ensures Quiet(env) ==> world == old(world)
      ensures ok ==> disk == state.(closed := closed)
      ensures !ok ==> disk == old(disk)
      ensures Flawless(env) ==> ok
    {
      var fate := Next();
      ok := fate.Works?;
      if ok {
        disk := state.(closed := closed);
        trail := trail + [Moment(state, disk, world)];
      }
    }

    /** One effect of a command on the daemon, which removes this resource. */
    method Drop(next: World, removal: Removal)
      requires Valid() && Good(env, Moment(state, disk, next)) && Rightful(env, removal)
      modifies this`world, this`trail, this`removals
      ensures Valid() && world == next && old(trail) <= trail && removals == old(removals) + [removal]
    {
      world := next;
      trail := trail + [Moment(state, disk, world)];
      removals := removals + [removal];
    }

    // ---- creation ----

    /** A longer plan goes to the journal before anything in it is created. */
    method Intend(plan: Plan) returns (ok: bool)
      requires Valid()
      requires state.planned.containers <= plan.containers && (state.planned.network ==> plan.network)
      requires (state.planned.image ==> plan.image) && (state.planned.builder ==> plan.builder)
      modifies this`state, this`world, this`tick, this`trail, this`disk
      ensures Valid() && Fewer(old(world), world) && old(trail) <= trail
      ensures state == old(state).(planned := plan)
      ensures ok ==> disk == state
      ensures (Quiet(env) ==> world == old(world)) && (Flawless(env) ==> ok)
    {
      hide Logged, Lawful, Good, Quiet, Flawless, Foreign, Fewer;
      GoodPlan(env, Moment(state, disk, world), plan);
      SetState(state.(planned := plan));
      ok := Persist(false);
    }

    /** Plans the network, then creates it; undisturbed it succeeds iff the name was free, and the network then exists. */
    method Start() returns (ok: bool)
      requires Valid() && (state.network.Some? ==> env.restarts)
      modifies this
      ensures Valid() && old(trail) <= trail && removals == old(removals)
      ensures ok ==> state.network.Some? && disk == state
      ensures ok ==> exists i | |old(trail)| <= i < |trail| :: trail[i].world.network == Some(Item(state.network.value, true))
      ensures ok && Quiet(env) ==> world == old(world).(network := Some(Item(state.network.value, true)), nextId := world.nextId)
      ensures Quiet(env) && Flawless(env) ==> (ok <==> old(world).network.None?)
    {
      hide Logged, Lawful, Good, Quiet, Flawless, Foreign, Fewer;
      var fate := Next();
      if fate.Fails? || world.network.Some? {
        return false;
      }
      ok := Intend(state.planned.(network := true));
      if !ok {
        return;
      }
      fate := Next();
      if world.network.Some? || fate == Fails(0) {
        return false;
      }
      var id := world.nextId + 1;
      GoodNetwork(env, Moment(state, disk, world));
      SetWorld(world.(network := Some(Item(id, true)), nextId := id));
      assert trail[|trail| - 1].world.network == Some(Item(id, true));
      ghost var made := |trail| - 1;
      if fate.Fails? {
        return false;
      }
      SetState(state.(network := Some(id)));
      ok := Persist(false);
      assert trail[made].world.network == Some(Item(id, true));
    }

    /** The recorded container still exists under its name with the marker. */
    method Own(role: Role) returns (ok: bool)
      requires Valid() && role in state.containers
      modifies this`world, this`tick, this`trail
      ensures Valid() && Fewer(old(world), world) && old(trail) <= trail && tick == old(tick) + 1
      ensures Quiet(env) ==> world == old(world)
      ensures ok ==> role in world.containers && world.containers[role] == Item(state.containers[role], true)
      ensures env.fate(old(tick)).Works? ==>
                (ok <==> role in world.containers && world.containers[role] == Item(state.containers[role], true))
      ensures Exclusive(env) && role in world.containers && env.fate(old(tick)).Works? ==> ok
      ensures Flawless(env) ==> env.fate(old(tick)).Works?
    {
      hide Logged, Lawful, Quiet, Flawless, Foreign, Fewer, Safe, IdsOk;
      var fate := Next();
      ok := fate.Works? && role in world.containers && world.containers[role].id == state.containers[role]
        && world.containers[role].marked;
    }

    /**
     Plans a container, creates it and records its identifier; undisturbed it succeeds iff there is a network and the role
     is free, and the container then exists under its role.
     */
    method Create(role: Role) returns (ok: bool)
      requires Valid()
      modifies this
      ensures Valid() && old(trail) <= trail && removals == old(removals)
      ensures ok ==> role in state.containers && disk == state
      ensures ok ==> exists i | |old(trail)| <= i < |trail| ::
                       role in trail[i].world.containers && trail[i].world.containers[role] == Item(state.containers[role], true)
      ensures ok && Quiet(env) ==>
                world == old(world).(containers := old(world).containers[role := Item(state.containers[role], true)],
                                     nextId := world.nextId)
      ensures Quiet(env) && Flawless(env) ==>
                (ok <==> role !in old(state).containers && old(state).network.Some? && role !in old(world).containers)
    {
      hide Logged, Lawful, Good, Quiet, Flawless, Foreign, Fewer;
      if role in state.containers || state.network.None? {
        return false;
      }
      var fate := Next();
      if fate.Fails? || role in world.containers {
        return false;
      }
      ok := Intend(state.planned.(containers := state.planned.containers + {role}));
      if ok {
        ok := MakeContainer(role);
      }
    }

    /** The container command itself, once the plan is in the journal. */
    method MakeContainer(role: Role) returns (ok: bool)
      requires Valid() && disk == state && role in state.planned.containers && role !in state.containers
      modifies this`state, this`disk, this`world, this`tick, this`trail
      ensures Valid() && old(trail) <= trail
      ensures ok ==> role in state.containers && disk == state
      ensures ok ==> exists i | |old(trail)| <= i < |trail| ::
                       role in trail[i].world.containers && trail[i].world.containers[role] == Item(state.containers[role], true)
      ensures ok && Quiet(env) ==>
                world == old(world).(containers := old(world).containers[role := Item(state.containers[role], true)],
                                     nextId := world.nextId)
      ensures Quiet(env) && Flawless(env) ==> (ok <==> role !in old(world).containers)
    {
      hide Logged, Lawful, Good, Quiet, Flawless, Foreign, Fewer;
      var fate := Next();
      if role in world.containers || fate == Fails(0) {
        return false;
      }
      var id := world.nextId + 1;
      GoodContainer(env, Moment(state, disk, world), role);
      SetWorld(world.(containers := world.containers[role := Item(id, true)], nextId := id));
      assert trail[|trail| - 1].world.containers[role] == Item(id, true);
      ghost var made := |trail| - 1;
      if fate.Fails? {
        return false;
      }
      SetState(state.(containers := state.containers[role := id]));
      ok := Persist(false);
      if ok {
        ok := Launch(role);
      }
      assert trail[made].world.containers[role] == Item(id, true);
    }

    /** A container is started once it is seen to be the scope's. */
    method Launch(role: Role) returns (ok: bool)
      requires Valid() && role in state.containers
      modifies this`world, this`tick, this`trail
      ensures Valid() && old(trail) <= trail
      ensures Quiet(env) ==> world == old(world)
      ensures Quiet(env) && Flawless(env) && role in world.containers && world.containers[role] == Item(state.containers[role], true) ==> ok
    {
      hide Logged, Lawful, Good, Quiet, Flawless, Foreign, Fewer;
      ok := Own(role);
      if ok {
        var fate := Next();
        ok := fate.Works?;
      }
    }

    /** Plans the builder, then creates its instance file. */
    method CreateBuilder() returns (ok: bool)
      requires Valid()
      modifies this
      ensures Valid() && old(trail) <= trail && removals == old(removals)
      ensures ok ==> state.builder && disk == state
      ensures ok ==> exists i | |old(trail)| <= i < |trail| :: Marked(trail[i].world.file)
      ensures ok && Quiet(env) ==> world == Put(old(world), Part.File)
      ensures Quiet(env) && Flawless(env) ==>
                (ok <==> old(world).file.None? && old(world).node.None? && old(world).volume.None?)
    {
      hide Logged, Lawful, Good, Quiet, Flawless, Foreign, Fewer;
      if world.file.Some? {
        return false;
      }
      var fate := Next();
      if fate.Fails? || world.node.Some? {
        return false;
      }
      fate := Next();
      if fate.Fails? || world.volume.Some? {
        return false;
      }
      ok := Intend(state.planned.(builder := true));
      if ok {
        ok := MakeBuilder();
      }
    }

    method MakeBuilder() returns (ok: bool)
      requires Valid() && disk == state && state.planned.builder
      modifies this`state, this`disk, this`world, this`tick, this`trail
      ensures Valid() && old(trail) <= trail
      ensures ok ==> state.builder && disk == state
      ensures ok ==> exists i | |old(trail)| <= i < |trail| :: Marked(trail[i].world.file)
      ensures ok && Quiet(env) ==> world == Put(old(world), Part.File)
      ensures Quiet(env) && Flawless(env) ==> (ok <==> old(world).file.None?)
    {
      hide Logged, Lawful, Good, Quiet, Flawless, Foreign, Fewer;
      var fate := Next();
      if world.file.Some? || fate == Fails(0) {
        return false;
      }
      GoodPart(env, Moment(state, disk, world), Part.File);
      SetWorld(Put(world, Part.File));
      assert Marked(trail[|trail| - 1].world.file);
      ghost var made := |trail| - 1;
      if fate.Fails? {
        return false;
      }
      GoodBuilder(env, Moment(state, disk, world));
      SetState(state.(builder := true));
      ok := Persist(false);
      assert Marked(trail[made].world.file);
    }

    method PlanImage() returns (ok: bool)
      requires Valid()
      modifies this
      ensures Valid() && old(trail) <= trail && removals == old(removals)
      ensures ok ==> state.planned.image && disk == state
      ensures Quiet(env) ==> world == old(world)
      ensures Quiet(env) && Flawless(env) ==> (ok <==> old(world).image.None?)
    {
      hide Logged, Lawful, Good, Quiet, Flawless, Foreign, Fewer;
      var fate := Next();
      if fate.Fails? || world.image.Some? {
        return false;
      }
      ok := Intend(state.planned.(image := true));
    }

    method Provide(part: Part)
      requires Valid() && disk.planned.builder && state.planned.builder
      modifies this`world, this`trail
      ensures Valid() && old(trail) <= trail && PartOf(world, part).Some?
      ensures old(PartOf(world, part)).Some? ==> world == old(world)
      ensures old(PartOf(world, part)).None? ==> world == Put(old(world), part)
    {
      hide Logged, Lawful, Good, Quiet;
      if PartOf(world, part).None? {
        GoodPart(env, Moment(state, disk, world), part);
        SetWorld(Put(world, part));
      }
    }

    /** Builds the planned image: the builder's node and volume come into being on the way. */
    method Build() returns (ok: bool)
      requires Valid() && state.planned.image && state.planned.builder && disk.planned == state.planned
      modifies this
      ensures Valid() && old(trail) <= trail && removals == old(removals)
      ensures ok ==> state.image && disk == state
      ensures ok ==> exists i | |old(trail)| <= i < |trail| ::
                       Marked(trail[i].world.image) && trail[i].world.node.Some? && trail[i].world.volume.Some?
      ensures ok && Quiet(env) ==> Marked(world.image) && world.node.Some? && world.volume.Some? && world.file == old(world).file
                                   && world.containers == old(world).containers && world.network == old(world).network
      ensures Quiet(env) && Flawless(env) ==> (ok <==> old(world).file.Some?)
    {
      hide Logged, Lawful, Good, Quiet, Flawless, Foreign, Fewer;
      var fate := Next();
      if world.file.None? || fate == Fails(0) {
        return false;
      }
      Provide(Part.Node);
      if fate == Fails(1) {
        return false;
      }
      Provide(Part.Volume);
      if fate == Fails(2) {
        return false;
      }
      ok := Load(fate);
    }

    /** The built image gets the tag. */
    method Load(fate: Fate) returns (ok: bool)
      requires Valid() && state.planned.image && disk.planned == state.planned && world.node.Some? && world.volume.Some?
      modifies this`state, this`disk, this`world, this`tick, this`trail
      ensures Valid() && old(trail) <= trail
      ensures ok ==> state.image && disk == state && fate.Works?
      ensures ok ==> exists i | |old(trail)| <= i < |trail| ::
                       Marked(trail[i].world.image) && trail[i].world.node.Some? && trail[i].world.volume.Some?
      ensures ok && Quiet(env) ==> Marked(world.image) && world == old(world).(image := world.image, nextId := world.nextId)
      ensures Flawless(env) && fate.Works? ==> ok
    {
      hide Logged, Lawful, Good, Quiet, Flawless, Foreign, Fewer;
      GoodImage(env, Moment(state, disk, world));
      SetWorld(world.(image := Some(Item(world.nextId + 1, true)), nextId := world.nextId + 1));
      assert Marked(trail[|trail| - 1].world.image);
      ghost var made := |trail| - 1;
      if fate.Fails? {
        return false;
      }
      SetState(state.(image := true));
      ok := Persist(false);
      assert Marked(trail[made].world.image);
    }

    // ---- recovery ----

    /** Looks every planned container up by name. */
    method RecoverContainers() returns (ok: bool)
      requires Valid()
      modifies this`state, this`world, this`tick, this`trail
      ensures Valid() && Fewer(old(world), world) && old(trail) <= trail
      ensures state == old(state).(containers := state.containers)
      ensures Quiet(env) ==> world == old(world)
      ensures tick >= old(tick)
      ensures ok ==> ContainersFound(state, world)
      ensures ok && Exclusive(env) ==> state.containers.Keys <= world.containers.Keys
      ensures ok && Quiet(env) ==> forall r | r in state.planned.containers :: ContainerRecognised(old(state), old(world), r)
      ensures Quiet(env) && Flawless(env) && (forall r | r in state.planned.containers :: ContainerRecognised(old(state), old(world), r))
              ==> ok
      ensures state.planned.containers == {} ==> ok && state == old(state) && world == old(world) && tick == old(tick)
    {
      hide Logged, Lawful, Good, Quiet, Flawless, Foreign, Fewer, Covers, Present, SameOthers, Recorded, ContainerRecognised;
      var rest := state.planned.containers;
      FewerRefl(world);
      NothingDone(state, world, rest);
      while rest != {}
        invariant Valid() && Fewer(old(world), world) && old(trail) <= trail
        invariant state == old(state).(containers := state.containers) && rest <= state.planned.containers
        invariant Quiet(env) ==> world == old(world)
        invariant tick >= old(tick) && Recorded(old(state), state, rest)
        invariant Quiet(env) ==> forall r | r in state.planned.containers - rest :: ContainerRecognised(old(state), old(world), r)
        invariant state.planned.containers == {} ==> state == old(state) && world == old(world) && tick == old(tick)
        invariant Covers(state, world, state.planned.containers - rest)
        invariant Exclusive(env) ==> Present(state, world, state.planned.containers - rest)
      {
        var role :| role in rest;
        ghost var before, known := world, state;
        ok := RecoverContainer(role, state.planned.containers - rest);
        FewerTrans(old(world), before, world);
        RecordedStays(old(state), known, state, rest, role);
        RecognisedLater(old(state), known, old(world), rest, role);
        if !ok {
          return;
        }
        assert state.planned.containers - (rest - {role}) == state.planned.containers - rest + {role};
        rest := rest - {role};
      }
      ok := true;
      assert state.planned.containers - rest == state.planned.containers;
      AllFound(env, Moment(state, disk, world));
    }

    method RecoverContainer(role: Role, ghost done: set<Role>) returns (ok: bool)
      requires Valid() && role in state.planned.containers && done <= state.planned.containers && role !in done
      requires Covers(state, world, done) && (Exclusive(env) ==> Present(state, world, done))
      modifies this`state, this`world, this`tick, this`trail
      ensures Valid() && Fewer(old(world), world) && old(trail) <= trail
      ensures state == old(state).(containers := state.containers)
      ensures Quiet(env) ==> world == old(world)
      ensures tick > old(tick) && SameOthers(old(state), state, role)
      ensures ok ==> Covers(state, world, done + {role}) && (Exclusive(env) ==> Present(state, world, done + {role}))
      ensures ok && Quiet(env) ==> ContainerRecognised(old(state), old(world), role)
      ensures Quiet(env) && Flawless(env) && ContainerRecognised(old(state), old(world), role) ==> ok
    {
      hide Logged, Lawful, Good, Quiet, Flawless, Foreign, Fewer, Covers, Present, SameOthers, ContainerRecognised;
      var fate := Next();
      CoversStays(state, old(world), world, done);
      SameRefl(state, role);
      if fate.Fails? {
        return false;
      }
      ok := NoteContainer(role, done);
    }

    /** Takes over what the daemon says about a container, if it can be the scope's. */
    method NoteContainer(role: Role, ghost done: set<Role>) returns (ok: bool)
      requires Valid() && role in state.planned.containers && Covers(state, world, done)
      modifies this`state, this`trail
      ensures Valid() && old(trail) <= trail
      ensures state == old(state).(containers := state.containers) && SameOthers(old(state), state, role)
      ensures ok <==> ContainerRecognised(old(state), world, role)
      ensures ok ==> Covers(state, world, done + {role})
      ensures ok && Present(old(state), world, done) ==> Present(state, world, done + {role})
    {
      hide Logged, Lawful, Good, Covers, Present, SameOthers;
      SameRefl(state, role);
      if role in world.containers {
        var item := world.containers[role];
        if !item.marked || (role in state.containers && state.containers[role] != item.id) {
          return false;
        }
        CoversSeen(state, world, done, role);
        GoodSeen(env, Moment(state, disk, world), role);
        SetState(state.(containers := state.containers[role := item.id]));
      } else {
        CoversGone(state, world, done, role);
        GoodGone(env, Moment(state, disk, world), role);
        SetState(state.(containers := state.containers - {role}));
      }
      ok := true;
    }

    method RecoverNetwork() returns (ok: bool)
      requires Valid()
      modifies this`state, this`world, this`tick, this`trail
      ensures Valid() && Fewer(old(world), world) && old(trail) <= trail
      ensures state == old(state).(network := state.network)
      ensures Quiet(env) ==> world == old(world)
      ensures ok ==> NetworkFound(state, world)
      ensures tick >= old(tick)
      ensures ok && Exclusive(env) ==> (state.network.Some? ==> world.network.Some?)
      ensures ok && Quiet(env) ==> NetworkRecognised(old(state), old(world))
      ensures Quiet(env) && Flawless(env) && NetworkRecognised(old(state), old(world)) ==> ok
      ensures !state.planned.network ==> ok && state == old(state) && world == old(world) && tick == old(tick)
    {
      hide Logged, Lawful, Good, Quiet, Flawless, Foreign, Fewer;
      FewerRefl(world);
      if !state.planned.network {
        NothingUnplanned(env, Moment(state, disk, world));
        return true;
      }
      var fate := Next();
      if fate.Fails? {
        return false;
      }
      if world.network.Some? {
        var item := world.network.value;
        if !item.marked || (state.network.Some? && state.network.value != item.id) {
          return false;
        }
        GoodNetworkRecord(env, Moment(state, disk, world), Some(item.id));
        SetState(state.(network := Some(item.id)));
      } else {
        GoodNetworkRecord(env, Moment(state, disk, world), None);
        SetState(state.(network := None));
      }
      ok := true;
    }

    method RecoverImage() returns (ok: bool)
      requires Valid()
      modifies this`state, this`world, this`tick, this`trail
      ensures Valid() && Fewer(old(world), world) && old(trail) <= trail
      ensures state == old(state).(image := state.image)
      ensures Quiet(env) ==> world == old(world)
      ensures ok ==> ImageFound(state, world)
      ensures ok ==> state.image == (state.planned.image && world.image.Some?)
      ensures ok && Quiet(env) ==> ImageRecognised(old(state), old(world))
      ensures Quiet(env) && Flawless(env) && ImageRecognised(old(state), old(world)) ==> ok
      ensures if state.planned.image
              then tick == old(tick) + 1 && world == env.foreign(old(tick), old(world))
                   && (Flawless(env) && Marked(world.image) ==> ok)
              else ok && state == old(state) && world == old(world) && tick == old(tick)
    {
      hide Logged, Lawful, Good, Quiet, Flawless, Foreign, Fewer;
      FewerRefl(world);
      if !state.planned.image {
        NothingUnplanned(env, Moment(state, disk, world));
        return true;
      }
      var fate := Next();
      if fate.Fails? || (world.image.Some? && !world.image.value.marked) {
        return false;
      }
      GoodFlags(env, Moment(state, disk, world), world.image.Some?, state.builder);
      SetState(state.(image := world.image.Some?));
      ok := true;
    }

    /** Without the instance file, a node or a volume under the builder's names is refused. */
    method RecoverBuilder() returns (ok: bool)
      requires Valid()
      modifies this`state, this`world, this`tick, this`trail
      ensures Valid() && Fewer(old(world), world) && old(trail) <= trail
      ensures state == old(state).(builder := state.builder)
      ensures Quiet(env) ==> world == old(world)
      ensures ok ==> BuilderFound(state, world)
      ensures tick >= old(tick)
      ensures ok ==> state.builder == (state.planned.builder && world.file.Some?)
      ensures ok && Quiet(env) ==> BuilderRecognised(old(state), old(world))
      ensures Quiet(env) && Flawless(env) && BuilderRecognised(old(state), old(world)) ==> ok
      ensures !state.planned.builder ==> ok && state == old(state) && world == old(world) && tick == old(tick)
    {
      hide Logged, Lawful, Good, Quiet, Flawless, Foreign;
      if !state.planned.builder {
        NothingUnplanned(env, Moment(state, disk, world));
        return true;
      }
      var fate := Next();
      var node := world.node;
      if fate.Fails? {
        return false;
      }
      fate := Next();
      var volume := world.volume;
      if fate.Fails? {
        return false;
      }
      if world.file.Some? {
        if !world.file.value.marked || (node.Some? && !node.value.marked) {
          return false;
        }
      } else if node.Some? || volume.Some? {
        return false;
      }
      GoodFlags(env, Moment(state, disk, world), state.image, world.file.Some?);
      SetState(state.(builder := world.file.Some?));
      ok := true;
    }

    /** The network, the tag and the builder. */
    method RecoverShared() returns (ok: bool)
      requires Valid()
      modifies this`state, this`world, this`tick, this`trail
      ensures Valid() && Fewer(old(world), world) && old(trail) <= trail && tick >= old(tick)
      ensures state.planned == old(state).planned && state.containers == old(state).containers
      ensures Quiet(env) ==> world == old(world)
      ensures ok ==> NetworkFound(state, world) && ImageFound(state, world) && BuilderFound(state, world)
      ensures ok && Quiet(env) ==> SharedRecognised(old(state), old(world)) && ByDaemon(state, world)
      ensures Quiet(env) && Flawless(env) && SharedRecognised(old(state), old(world)) ==> ok
      ensures ok && Exclusive(env) ==> (state.network.Some? ==> world.network.Some?)
      ensures OnlyImage(old(state)) && Flawless(env) && Marked(env.foreign(old(tick), old(world)).image)
              ==> ok && state.image && tick > old(tick)
    {
      hide Logged, Lawful, Good, Quiet, Flawless, Foreign, Fewer, NetworkFound, ImageFound, BuilderFound,
           NetworkRecognised, ImageRecognised, BuilderRecognised;
      ok := RecoverNetwork();
      if !ok {
        return;
      }
      ghost var l, w := state, world;
      RecognisedApart(old(state), l, w);
      ok := RecoverImage();
      FewerTrans(old(world), w, world);
      FoundStays(l, w, state, world);
      if !ok {
        return;
      }
      l, w := state, world;
      RecognisedApart(old(state), l, w);
      ok := RecoverBuilder();
      FewerTrans(old(world), w, world);
      FoundStays(l, w, state, world);
    }

    /** Rediscovers by name everything planned; refuses whatever it cannot recognise as the scope's. */
    method Recover() returns (ok: bool)
      requires Valid()
      modifies this`state, this`world, this`tick, this`trail, this`disk
      ensures Valid() && Fewer(old(world), world) && old(trail) <= trail && tick >= old(tick)
      ensures state.planned == old(state).planned
      ensures Quiet(env) ==> world == old(world)
      ensures ok ==> Found(state, world) && disk == state
      ensures ok && Quiet(env) ==> Recognised(old(state), old(world)) && ByDaemon(state, world)
      ensures Quiet(env) && Flawless(env) && Recognised(old(state), old(world)) ==> ok
      ensures ok && Exclusive(env) ==> Listed(state, world) && !Stuck(old(state), old(world))
      ensures Exclusive(env) && Flawless(env) && !Stuck(old(state), old(world)) ==> ok
      ensures OnlyImage(old(state)) && Flawless(env) && Marked(env.foreign(old(tick), old(world)).image)
              ==> ok && state.image && tick > old(tick)
    {
      hide Logged, Lawful, Good, Quiet, Flawless, Foreign, Fewer, ContainersFound, NetworkFound, ImageFound, BuilderFound,
           ContainerRecognised, SharedRecognised, Stuck, Match, Clean;
      if Exclusive(env) {
        GoodNames(env, Moment(state, disk, world));
        RecognisedIff(state, world);
      }
      ok := RecoverContainers();
      if !ok {
        return;
      }
      ghost var l, w := state, world;
      SharedApart(old(state), l, w);
      ok := RecoverShared();
      FewerTrans(old(world), w, world);
      FoundStays(l, w, state, world);
      if !ok {
        return;
      }
      l, w := state, world;
      ok := Persist(false);
      FewerTrans(old(world), w, world);
      FoundStays(l, w, state, world);
    }

    // ---- removal ----

    /** Removes a recorded container by its identifier, after checking that it is the scope's. */
    method Remove(role: Role) returns (ok: bool)
      requires Valid() && role in state.containers
      modifies this
      ensures Valid() && Fewer(old(world), world) && old(trail) <= trail && tick > old(tick)
      ensures OwnedSince(old(removals), removals)
      ensures state == old(state) || (state == ForgetContainer(old(state), role) && !HasMarked(world, role))
      ensures ok ==> state != old(state) && disk == state
      ensures Exclusive(env) && role in old(world).containers && state == old(state) ==> Failures(env, old(tick), tick) >= 1
      ensures Quiet(env) ==> world == old(world) || world == Without(old(world), role)
      ensures Exclusive(env) && Flawless(env) && role in old(world).containers ==> ok && world == Without(old(world), role)
    {
      hide Logged, Lawful, Good, Quiet, Flawless, Foreign, Fewer, OwnedSince, Failures;
      OwnedOne(removals, Container);
      ok := Own(role);
      if !ok {
        if env.fate(old(tick)).Fails? {
          FailureCounts(env, old(tick), old(tick), tick);
        }
        return;
      }
      ghost var owned := world;
      var fate := Next();
      FewerTrans(old(world), owned, world);
      if fate.Fails? {
        FailureCounts(env, old(tick), tick - 1, tick);
      }
      if role !in world.containers || world.containers[role].id != state.containers[role] || fate == Fails(0) {
        return false;
      }
      StillOwned(env, Moment(state, disk, owned), world, role);
      ghost var before, now := world, tick;
      ok := RemoveOwned(role, fate);
      FewerTrans(old(world), before, world);
      FailuresJoin(env, old(tick), now, tick);
    }

    /** The removal itself; a lost reply leaves the ledger as it was. */
    method RemoveOwned(role: Role, fate: Fate) returns (ok: bool)
      requires Valid() && HasMarked(world, role)
      modifies this
      ensures Valid() && Fewer(old(world), world) && old(trail) <= trail && tick >= old(tick)
      ensures removals == old(removals) + [Removal(Container, true)]
      ensures state == old(state) || (state == ForgetContainer(old(state), role) && !HasMarked(world, role))
      ensures ok ==> fate.Works? && state == ForgetContainer(old(state), role) && disk == state
      ensures fate.Works? ==> state == ForgetContainer(old(state), role)
      ensures Quiet(env) ==> world == Without(old(world), role)
      ensures Flawless(env) && fate.Works? ==> ok
    {
      hide Logged, Lawful, Good, Quiet, Flawless, Foreign, Fewer;
      GoodLess(env, Moment(state, disk, world), Without(world, role));
      Drop(Without(world, role), Removal(Container, true));
      if fate.Fails? {
        return false;
      }
      GoodForgetContainer(env, Moment(state, disk, world), role);
      SetState(ForgetContainer(state, role));
      ghost var gone := world;
      ok := Persist(false);
      FewerTrans(old(world), gone, world);
      StillGone(gone, world, role);
    }

    /** The recorded network still exists with the marker, and nothing is attached to it. */
    method OwnNetwork() returns (ok: bool)
      requires Valid() && state.network.Some?
      modifies this`world, this`tick, this`trail
      ensures Valid() && Fewer(old(world), world) && old(trail) <= trail && tick == old(tick) + 1
      ensures Quiet(env) ==> world == old(world)
      ensures ok ==> world.network == Some(Item(state.network.value, true))
      ensures Exclusive(env) && world.network.Some? && world.containers == map[] && env.fate(old(tick)).Works? ==> ok
      ensures Flawless(env) ==> env.fate(old(tick)).Works?
    {
      hide Logged, Lawful, Good, Quiet, Flawless, Foreign, Fewer;
      var fate := Next();
      Unattached(env, tick, world);
      if Exclusive(env) {
        GoodNames(env, Moment(state, disk, world));
      }
      ok := fate.Works? && world.network == Some(Item(state.network.value, true)) && !env.attached(tick, world);
    }

    /** Removes the recorded network by its identifier, after checking that it is the scope's and not in use. */
    method RemoveNetwork() returns (ok: bool)
      requires Valid() && state.network.Some?
      modifies this
      ensures Valid() && Fewer(old(world), world) && old(trail) <= trail && tick > old(tick)
      ensures OwnedSince(old(removals), removals)
      ensures state == old(state) || (state == ForgetNetwork(old(state)) && !Marked(world.network))
      ensures ok ==> state != old(state) && disk == state
      ensures Exclusive(env) && old(world).network.Some? && old(world).containers == map[] && state == old(state)
              ==> Failures(env, old(tick), tick) >= 1
      ensures Quiet(env) ==> world == old(world) || world == old(world).(network := None)
      ensures Exclusive(env) && Flawless(env) && old(world).network.Some? && old(world).containers == map[]
              ==> ok && world == old(world).(network := None)
    {
      hide Logged, Lawful, Good, Quiet, Flawless, Foreign, Fewer, OwnedSince, Failures;
      OwnedOne(removals, Network);
      ok := OwnNetwork();
      if !ok {
        if env.fate(old(tick)).Fails? {
          FailureCounts(env, old(tick), old(tick), tick);
        }
        return;
      }
      ghost var seen := world;
      var fate := Next();
      FewerTrans(old(world), seen, world);
      if fate.Fails? {
        FailureCounts(env, old(tick), tick - 1, tick);
      }
      if world.network.None? || world.network.value.id != state.network.value || fate == Fails(0) {
        return false;
      }
      SameNetworkIn(env, Moment(state, disk, seen), world);
      ghost var before, now := world, tick;
      ok := RemoveOwnNetwork(fate);
      FewerTrans(old(world), before, world);
      FailuresJoin(env, old(tick), now, tick);
    }

    method RemoveOwnNetwork(fate: Fate) returns (ok: bool)
      requires Valid() && Marked(world.network)
      modifies this
      ensures Valid() && Fewer(old(world), world) && old(trail) <= trail && tick >= old(tick)
      ensures removals == old(removals) + [Removal(Network, true)]
      ensures state == old(state) || (state == ForgetNetwork(old(state)) && !Marked(world.network))
      ensures ok ==> fate.Works? && state == ForgetNetwork(old(state)) && disk == state
      ensures fate.Works? ==> state == ForgetNetwork(old(state))
      ensures Quiet(env) ==> world == old(world).(network := None)
      ensures Flawless(env) && fate.Works? ==> ok
    {
      hide Logged, Lawful, Good, Quiet, Flawless, Foreign, Fewer;
      GoodLess(env, Moment(state, disk, world), world.(network := None));
      Drop(world.(network := None), Removal(Network, true));
      if fate.Fails? {
        return false;
      }
      GoodForgetNetwork(env, Moment(state, disk, world));
      SetState(ForgetNetwork(state));
      ghost var gone := world;
      ok := Persist(false);
      FewerTrans(old(world), gone, world);
      SlotsStillGone(gone, world);
    }

    /** The tag is removed by name: whatever stands under it then goes, with or without the marker. */
    method RemoveImage() returns (ok: bool)
      requires Valid() && state.image
      modifies this
      ensures Valid() && Fewer(old(world), world) && old(trail) <= trail && tick > old(tick)
      ensures removals == old(removals) + TagRemovals(Issue(old(tick), env.foreign(old(tick), old(world)), env.fate(old(tick))))
      ensures state == old(state) || (state == ForgetImage(old(state)) && !Marked(world.image))
      ensures ok ==> state != old(state) && disk == state
      ensures Quiet(env) && old(world).image.Some? && state == old(state) ==> Failures(env, old(tick), tick) >= 1
      ensures Quiet(env) ==> world == old(world) || world == old(world).(image := None)
      ensures Exclusive(env) && Flawless(env) && old(world).image.Some? ==> ok && world == old(world).(image := None)
    {
      hide Logged, Lawful, Good, Quiet, Flawless, Foreign, Fewer, Failures;
      var fate := Next();
      if fate.Fails? {
        FailureCounts(env, old(tick), old(tick), tick);
      }
      if world.image.None? || fate == Fails(0) {
        return false;
      }
      if Exclusive(env) {
        GoodNames(env, Moment(state, disk, world));
      }
      GoodLess(env, Moment(state, disk, world), world.(image := None));
      FewerTrans(old(world), world, world.(image := None));
      Drop(world.(image := None), Removal(Image, world.image.value.marked));
      if fate.Fails? {
        return false;
      }
      GoodForgetImage(env, Moment(state, disk, world));
      SetState(ForgetImage(state));
      ghost var gone := world;
      ok := Persist(false);
      FewerTrans(old(world), gone, world);
      SlotsStillGone(gone, world);
    }

    method DropPart(part: Part)
      requires Valid()
      modifies this`world, this`trail, this`removals
      ensures Valid() && old(trail) <= trail
      ensures removals == old(removals) + if PartOf(old(world), part).Some?
                                          then [Removal(Builder, PartOf(old(world), part).value.marked)] else []
      ensures world == WithoutPart(old(world), part) && Fewer(old(world), world)
    {
      hide Logged, Lawful, Good, Quiet, Flawless, Foreign, Fewer;
      FewerRefl(world);
      if PartOf(world, part).Some? {
        if Exclusive(env) {
          GoodNames(env, Moment(state, disk, world));
        }
        GoodLess(env, Moment(state, disk, world), WithoutPart(world, part));
        Drop(WithoutPart(world, part), Removal(Builder, PartOf(world, part).value.marked));
      }
    }

    /** The parts of a builder go one by one; a failing command stops somewhere on the way. */
    method TakeApart(parts: seq<Part>, fate: Fate) returns (ok: bool)
      requires Valid()
      modifies this`world, this`trail, this`removals
      ensures Valid() && old(trail) <= trail && Fewer(old(world), world)
      ensures world == WithoutParts(old(world), parts[..Taken(fate, |parts|)])
      ensures removals == old(removals) + PartRemovals(old(world), parts[..Taken(fate, |parts|)])
      ensures ok <==> fate.Works?
    {
      hide Logged, Lawful, Good, Quiet, Flawless, Foreign, Fewer;
      FewerRefl(world);
      var i := 0;
      while i < |parts|
        invariant 0 <= i <= Taken(fate, |parts|)
        invariant Valid() && old(trail) <= trail
        invariant world == WithoutParts(old(world), parts[..i]) && Fewer(old(world), world)
        invariant removals == old(removals) + PartRemovals(old(world), parts[..i])
      {
        if fate.Fails? && fate.applied <= i {
          return false;
        }
        assert parts[..i + 1][..i] == parts[..i];
        ghost var before := world;
        DropPart(parts[i]);
        FewerTrans(old(world), before, world);
        i := i + 1;
      }
      ok := fate.Works?;
    }

    /** Removes the builder by name, whoever made its parts, then requires that none of them is left. */
    method RemoveBuilder() returns (ok: bool)
      requires Valid() && state.builder
      modifies this
      ensures Valid() && Fewer(old(world), world) && old(trail) <= trail && tick > old(tick)
      ensures removals == old(removals) + BuilderRemovals(env, Issue(old(tick), env.foreign(old(tick), old(world)), env.fate(old(tick))))
      ensures state == old(state) || (state == ForgetBuilder(old(state)) && !BuilderMarked(world))
      ensures ok ==> state != old(state) && disk == state
      ensures Quiet(env) && old(world).file.Some? && state == old(state) ==> Failures(env, old(tick), tick) >= 1
      ensures env.fate(old(tick)).Fails? && env.foreign(old(tick), old(world)).file.Some? ==>
                !ok && state == old(state) && disk == old(disk)
                && world == WithoutParts(env.foreign(old(tick), old(world)), env.order(old(tick) + 1)[..Taken(env.fate(old(tick)), 3)])
      ensures Exclusive(env) && Flawless(env) && old(world).file.Some? ==>
                ok && world == old(world).(file := None, node := None, volume := None)
    {
      hide Logged, Lawful, Good, Quiet, Flawless, Foreign, Fewer, Failures;
      var fate := Next();
      if world.file.None? {
        return false;
      }
      if fate.Fails? {
        FailureCounts(env, old(tick), old(tick), tick);
      }
      ghost var start, now := world, tick;
      AllParts(env, tick, start);
      ok := TakeApart(env.order(tick), fate);
      FewerTrans(old(world), start, world);
      if !ok {
        return;
      }
      ghost var taken := world;
      ok := ForgetTakenBuilder();
      FewerTrans(old(world), taken, world);
      FailuresJoin(env, old(tick), now, tick);
    }

    /** After a removal nothing of the builder may be left. */
    method ForgetTakenBuilder() returns (ok: bool)
      requires Valid() && world.file.None? && world.node.None? && world.volume.None?
      modifies this`state, this`world, this`tick, this`trail, this`disk
      ensures Valid() && Fewer(old(world), world) && old(trail) <= trail && tick > old(tick)
      ensures state == old(state) || (state == ForgetBuilder(old(state)) && !BuilderMarked(world))
      ensures ok ==> state == ForgetBuilder(old(state)) && disk == state
      ensures Quiet(env) ==> world == old(world)
      ensures Quiet(env) && Flawless(env) ==> ok
      ensures Quiet(env) && state != ForgetBuilder(old(state)) ==> Failures(env, old(tick), tick) >= 1
    {
      hide Logged, Lawful, Good, Quiet, Flawless, Foreign, Fewer, Failures;
      var fate := Next();
      if fate.Fails? {
        FailureCounts(env, old(tick), old(tick), tick);
      }
      if fate.Fails? || world.node.Some? {
        return false;
      }
      ghost var w := world;
      fate := Next();
      FewerTrans(old(world), w, world);
      if fate.Fails? {
        FailureCounts(env, old(tick), tick - 1, tick);
      }
      if fate.Fails? || world.volume.Some? || world.file.Some? {
        return false;
      }
      NodeStillGone(w, world);
      GoodForgetBuilder(env, Moment(state, disk, world));
      SetState(ForgetBuilder(state));
      w := world;
      ok := Persist(false);
      FewerTrans(old(world), w, world);
      SlotsStillGone(w, world);
    }

    // ---- closing ----

    /** Removes every container the ledger lists, going on after failures. */
    method CloseContainers() returns (failed: bool)
      requires Valid() && Found(state, world)
      modifies this
      ensures Valid() && Found(state, world) && old(trail) <= trail && tick >= old(tick)
      ensures OwnedSince(old(removals), removals) && SameButContainers(old(state), state)
      ensures !failed ==> state.containers == map[]
      ensures Quiet(env) ==> world == old(world).(containers := world.containers)
      ensures Exclusive(env) && Flawless(env) && old(Listed(state, world)) ==> !failed
      ensures Exclusive(env) && old(Listed(state, world)) ==> |state.containers| <= Failures(env, old(tick), tick)
    {
      hide Logged, Lawful, Good, Quiet, Flawless, Foreign, Fewer, Found, OwnedSince, Failures;
      failed := false;
      OwnedOne(removals, Container);
      var rest := state.containers.Keys;
      while rest != {}
        invariant Valid() && Found(state, world) && old(trail) <= trail && tick >= old(tick)
        invariant OwnedSince(old(removals), removals) && SameButContainers(old(state), state)
        invariant rest <= state.containers.Keys && (!failed ==> state.containers.Keys == rest)
        invariant Quiet(env) ==> world == old(world).(containers := world.containers)
        invariant Exclusive(env) && Flawless(env) && old(Listed(state, world)) ==> !failed
        invariant Exclusive(env) && old(Listed(state, world)) ==>
                    && rest <= world.containers.Keys
                    && |state.containers| <= |rest| + Failures(env, old(tick), tick)
      {
        var role :| role in rest;
        ghost var l, w, rs, now := state, world, removals, tick;
        var removed := Remove(role);
        FailuresJoin(env, old(tick), now, tick);
        FoundForget(l, w, state, world);
        OwnedTrans(old(removals), rs, removals);
        if !removed {
          failed := true;
        }
        rest := rest - {role};
      }
    }

    method CloseTag() returns (failed: bool, ghost tag: Option<Issue>)
      requires Valid() && Found(state, world)
      modifies this
      ensures Valid() && Found(state, world) && old(trail) <= trail && tick >= old(tick)
      ensures removals == old(removals) + if tag.Some? then TagRemovals(tag.value) else []
      ensures if old(state).image
              then tag.Some? && Issued(env, tag.value) && tag.value.at == old(tick) && (Quiet(env) ==> tag.value.world == old(world))
              else tag.None?
      ensures state == old(state) || state == ForgetImage(old(state))
      ensures Quiet(env) ==> world == old(world) || world == old(world).(image := None)
      ensures !failed ==> !state.image
      ensures Exclusive(env) && Flawless(env) && (old(state).image ==> old(world).image.Some?) ==> !failed
      ensures Exclusive(env) && (old(state).image ==> old(world).image.Some?) ==>
                (if state.image then 1 else 0) <= Failures(env, old(tick), tick)
    {
      hide Logged, Lawful, Good, Quiet, Flawless, Foreign, Fewer, Found, Issued, TagRemovals, Failures;
      failed, tag := false, None;
      if state.image {
        ghost var l, w := state, world;
        tag := Some(Issue(tick, env.foreign(tick, world), env.fate(tick)));
        IssuedNow(env, tick, world);
        var removed := RemoveImage();
        FoundForget(l, w, state, world);
        failed := !removed;
      }
    }

    method CloseBuilder() returns (failed: bool, ghost builder: Option<Issue>)
      requires Valid() && Found(state, world)
      modifies this
      ensures Valid() && Found(state, world) && old(trail) <= trail && tick >= old(tick)
      ensures removals == old(removals) + if builder.Some? then BuilderRemovals(env, builder.value) else []
      ensures if old(state).builder
              then builder.Some? && Issued(env, builder.value) && builder.value.at == old(tick)
                   && (Quiet(env) ==> builder.value.world == old(world))
              else builder.None?
      ensures state == old(state) || state == ForgetBuilder(old(state))
      ensures !failed ==> !state.builder
      ensures Exclusive(env) && Flawless(env) && (old(state).builder ==> old(world).file.Some?) ==> !failed
      ensures Exclusive(env) && (old(state).builder ==> old(world).file.Some?) ==>
                (if state.builder then 1 else 0) <= Failures(env, old(tick), tick)
    {
      hide Logged, Lawful, Good, Quiet, Flawless, Foreign, Fewer, Found, Issued, BuilderRemovals, Failures;
      failed, builder := false, None;
      if state.builder {
        ghost var l, w := state, world;
        builder := Some(Issue(tick, env.foreign(tick, world), env.fate(tick)));
        IssuedNow(env, tick, world);
        var removed := RemoveBuilder();
        FoundForget(l, w, state, world);
        failed := !removed;
      }
    }

    method CloseNetwork() returns (failed: bool)
      requires Valid() && Found(state, world)
      modifies this
      ensures Valid() && Found(state, world) && old(trail) <= trail && tick >= old(tick)
      ensures OwnedSince(old(removals), removals)
      ensures state == old(state) || state == ForgetNetwork(old(state))
      ensures Quiet(env) ==> world == old(world) || world == old(world).(network := None)
      ensures !failed ==> state.network.None?
      ensures Exclusive(env) && Flawless(env) && (old(state).network.Some? ==> old(world).network.Some?) && old(world).containers == map[]
              ==> !failed
      ensures Exclusive(env) && (old(state).network.Some? ==> old(world).network.Some?) && old(world).containers == map[] ==>
                (if state.network.Some? then 1 else 0) <= Failures(env, old(tick), tick)
    {
      hide Logged, Lawful, Good, Quiet, Flawless, Foreign, Fewer, Found, OwnedSince, Failures;
      failed := false;
      OwnedOne(removals, Network);
      if state.network.Some? {
        ghost var l, w := state, world;
        var removed := RemoveNetwork();
        FoundForget(l, w, state, world);
        failed := !removed;
      }
    }

    /** The network follows, then the tag and the builder, each step going on after failures. */
    method CloseRest() returns (failed: bool, ghost trace: Trace)
      requires Valid() && Found(state, world)
      modifies this
      ensures Valid() && Found(state, world) && old(trail) <= trail && tick >= old(tick)
      ensures state.containers == old(state.containers)
      ensures removals == old(removals) + Removed(env, trace) && Traced(env, trace, old(tick))
      ensures (trace.tag.Some? <==> old(state).image) && (trace.builder.Some? <==> old(state).builder)
      ensures Quiet(env) && ByDaemon(old(state), old(world)) ==> Met(old(state), old(world), trace)
      ensures !failed ==> state.network.None? && !state.image && !state.builder
      ensures Exclusive(env) && Flawless(env) && old(SharedListed(state, world)) && old(world.containers) == map[] ==> !failed
      ensures Exclusive(env) && old(SharedListed(state, world)) ==>
                (if state.network.Some? && old(world.containers) == map[] then 1 else 0) + (if state.image then 1 else 0)
                + (if state.builder then 1 else 0) <= Failures(env, old(tick), tick)
    {
      hide Logged, Lawful, Good, Quiet, Flawless, Foreign, Fewer, Found, OwnedSince, Issued, TagRemovals, BuilderRemovals,
           Removed, Traced, Failures;
      failed := CloseNetwork();
      OwnTrace(env, old(removals), removals, old(tick));
      trace := Trace(removals[|old(removals)|..], None, None);
      var stayed;
      ghost var tag, builder;
      ghost var t0 := tick;
      stayed, tag := CloseTag();
      ghost var t1 := tick;
      FailuresJoin(env, old(tick), t0, t1);
      failed := failed || stayed;
      if tag.Some? {
        TraceMore(env, old(removals), trace, tag.value, old(tick));
        trace := trace.(tag := tag);
      }
      stayed, builder := CloseBuilder();
      FailuresJoin(env, old(tick), t1, tick);
      failed := failed || stayed;
      if builder.Some? {
        TraceMore(env, old(removals), trace, builder.value, old(tick));
        trace := trace.(builder := builder);
      }
    }

    /** Removes everything the ledger lists; undisturbed, what is left are at most as many resources as commands failed. */
    method RemoveAll() returns (failed: bool, ghost trace: Trace)
      requires Valid() && Found(state, world)
      modifies this
      ensures Valid() && Found(state, world) && old(trail) <= trail && tick >= old(tick)
      ensures removals == old(removals) + Removed(env, trace) && Traced(env, trace, old(tick))
      ensures (trace.tag.Some? <==> old(state).image) && (trace.builder.Some? <==> old(state).builder)
      ensures Quiet(env) && ByDaemon(old(state), old(world)) ==> Met(old(state), old(world), trace)
      ensures !failed ==> state.containers == map[] && state.network.None? && !state.image && !state.builder
      ensures Exclusive(env) && Flawless(env) && old(Listed(state, world)) ==> !failed
      ensures Exclusive(env) && old(Listed(state, world)) ==> Left(state) <= Failures(env, old(tick), tick)
    {
      hide Logged, Lawful, Good, Quiet, Flawless, Foreign, Fewer, Found, OwnedSince, Removed, Traced, Failures;
      failed := CloseContainers();
      if state.containers == map[] {
        NoContainers(env, Moment(state, disk, world));
      }
      ghost var rs, now := removals, tick;
      OwnTrace(env, old(removals), rs, now);
      var more;
      ghost var rest;
      more, rest := CloseRest();
      FailuresJoin(env, old(tick), now, tick);
      failed := failed || more;
      JoinTrace(env, old(removals), rs, rest, old(tick), now);
      trace := rest.(owned := rs[|old(removals)|..] + rest.owned);
    }

    /**
     Recovers, removes everything and closes the journal; any failure leaves the journal open.  If nobody acts meanwhile,
     the only thing removed without the marker is a builder's volume.
     */
    method Close() returns (ok: bool, ghost trace: Trace)
      requires Valid()
      modifies this
      ensures Valid() && old(trail) <= trail
      ensures removals == old(removals) + Removed(env, trace) && Traced(env, trace, old(tick))
      ensures ok ==> disk.closed && NoneMarked(world)
      ensures Quiet(env) && AnyUnmarked(Removed(env, trace)) ==> TakesForeignVolume(old(state), old(world))
      ensures Quiet(env) && Flawless(env) && TakesForeignVolume(old(state), old(world)) ==> AnyUnmarked(Removed(env, trace))
      ensures Exclusive(env) && Flawless(env) ==> (ok <==> !old(Stuck(state, world)))
      ensures Exclusive(env) && old(Stuck(state, world)) ==> !ok && world == old(world) && removals == old(removals)
      ensures OnlyImage(old(state)) && Flawless(env) && Marked(env.foreign(old(tick), old(world)).image)
              ==> trace.tag.Some? && trace.tag.value.at > old(tick)
    {
      hide Logged, Lawful, Good, Quiet, Flawless, Foreign, Fewer, Found, Stuck, Recognised, Removed, Traced, Met, Listed,
           TakesForeignVolume, NoneMarked, AnyUnmarked;
      trace := Trace([], None, None);
      NothingRemoved(env, old(state), old(world), tick);
      ok := Recover();
      if !ok {
        return;
      }
      ghost var l, now := state, tick;
      var failed;
      failed, trace := RemoveAll();
      LaterTrace(env, trace, now, old(tick));
      if Quiet(env) {
        TakenIff(env, old(state), l, old(world), trace, now);
      }
      if failed {
        return false, trace;
      }
      GoodForgetAll(env, Moment(state, disk, world));
      SetState(state.(planned := NoPlan));
      ghost var w := world;
      ok := Persist(true);
      NoneMarkedStays(w, world);
    }
  }

  /** The cleanup command of a later process, started from the journal and the daemon a crash left behind. */
  method Cleanup(env: Environment, journal: Ledger, world: World)
    returns (ok: bool, final: World, removals: seq<Removal>, ghost trace: Trace)
    requires Lawful(env) && Good(env, Moment(journal.(closed := false), journal, world))
    ensures ok ==> NoneMarked(final)
    ensures journal.closed ==> ok && final == world
    ensures Exclusive(env) && Flawless(env) ==> (ok <==> !Stuck(journal, world))
    ensures Exclusive(env) && Stuck(journal, world) ==> final == world
    ensures removals == Removed(env, trace) && Traced(env, trace, 0) && OnlyByName(removals)
    ensures Quiet(env) && AnyUnmarked(removals) ==> TakesForeignVolume(journal, world)
    ensures Quiet(env) && Flawless(env) ==> (AnyUnmarked(removals) <==> TakesForeignVolume(journal, world))
    ensures OnlyImage(journal) && !journal.closed && Flawless(env) && Marked(env.foreign(0, world).image)
            ==> trace.tag.Some? && trace.tag.value.at > 0
  {
    hide Lawful, Good, Quiet, Flawless, Foreign, Removed, Traced, AnyUnmarked, NoneMarked;
    var m := Moment(journal.(closed := false), journal, world);
    if journal.closed {
      ClosedMeansGone(env, m);
      ClosedTakesNothing(env, m);
      NothingRemoved(env, journal, world, 0);
      return true, world, [], Trace([], None, None);
    }
    assert journal == journal.(closed := false);
    var scope := new Scope.Resume(env, journal, world);
    ok, trace := scope.Close();
    final, removals := scope.world, scope.removals;
    assert [] + Removed(env, trace) == Removed(env, trace);
    ByNameOnly(env, trace);
  }

  /**
   A run may stop after any of its steps.  Whatever it leaves behind, a cleanup that reports success has removed
   everything the run created; and if nobody interferes and no command fails, cleanup succeeds unless the builder's
   instance file is gone while its node or volume remains.  No container and no network without the marker is removed,
   and if nobody acts during the cleanup nothing else is, except a builder's volume in the one case stated.
   */
  method CrashThenCleanup(run: Scope, k: nat, later: Environment)
    returns (ok: bool, final: World, removals: seq<Removal>, ghost trace: Trace)
    requires run.Valid() && k < |run.trail| && Lawful(later) && (Exclusive(later) ==> Exclusive(run.env))
    ensures ok ==> NoneMarked(final)
    ensures Exclusive(later) && Flawless(later) ==> (ok <==> !Stuck(run.trail[k].disk, run.trail[k].world))
    ensures removals == Removed(later, trace) && Traced(later, trace, 0) && OnlyByName(removals)
    ensures Quiet(later) && AnyUnmarked(removals) ==> TakesForeignVolume(run.trail[k].disk, run.trail[k].world)
    ensures Quiet(later) && Flawless(later) ==>
              (AnyUnmarked(removals) <==> TakesForeignVolume(run.trail[k].disk, run.trail[k].world))
    ensures Exclusive(later) ==> !AnyUnmarked(removals)
  {
    hide Good, Lawful, Quiet, Flawless, Foreign, Removed, Traced, AnyUnmarked, NoneMarked, OnlyByName;
    GoodAfterCrash(run.env, later, run.trail[k]);
    ok, final, removals, trace := Cleanup(later, run.trail[k].disk, run.trail[k].world);
    if Exclusive(later) {
      CleanTakesNothing(later, Moment(run.trail[k].disk.(closed := false), run.trail[k].disk, run.trail[k].world));
    }
  }

  // ---- what does not hold ----

  const Peaceful := Environment(n => Works, (n, w) => w, n => [File, Node, Volume], (n, w) => false, false, false)

  /** A volume that somebody else made under the builder's name is removed with the builder. */
  method ForeignVolumeIsRemoved() returns (journal: Ledger, world: World, ok: bool, removals: seq<Removal>)
    ensures Quiet(Peaceful) && Flawless(Peaceful) && Good(Peaceful, Moment(journal, journal, world)) && Recognised(journal, world)
    ensures world.volume.Some? && !world.volume.value.marked && AnyUnmarked(removals)
  {
    journal := NoLedger.(builder := true, planned := NoPlan.(builder := true));
    world := World(map[], None, None, Some(Item(1, true)), None, Some(Item(2, false)), 2);
    var final;
    ghost var trace;
    ok, final, removals, trace := Cleanup(Peaceful, journal, world);
  }

  const Retagging := Environment(
    n => Works, (n, w: World) => if n == 0 then w else w.(image := Some(Item(w.nextId + 1, false)), nextId := w.nextId + 1),
    n => [File, Node, Volume], (n, w) => false, true, false)

  /** A tag that somebody else takes over after recovery has looked at it is removed. */
  method RetaggedImageIsRemoved() returns (journal: Ledger, world: World, ok: bool, removals: seq<Removal>)
    ensures Flawless(Retagging) && Good(Retagging, Moment(journal, journal, world)) && Clean(world) && Recognised(journal, world)
    ensures Removal(Image, false) in removals
  {
    journal := NoLedger.(image := true, planned := NoPlan.(image := true));
    world := World(map[], None, Some(Item(1, true)), None, None, None, 1);
    RetaggingIsLawful();
    var final;
    ghost var trace;
    ok, final, removals, trace := Cleanup(Retagging, journal, world);
    var x := trace.tag.value;
    assert TagRemovals(x) == [Removal(Image, false)];
    assert removals[|trace.owned|] == Removal(Image, false);
  }

  lemma RetaggingIsLawful()
    ensures Lawful(Retagging) && !Quiet(Retagging)
  {
    var w := World(map[], None, None, None, None, None, 0);
    assert Retagging.foreign(1, w) != w;
  }

  const FailsEarly := Environment(n => Fails(1), (n, w) => w, n => [File, Node, Volume], (n, w) => false, true, false)

  const Undisturbed := Peaceful.(clean := true)

  /** A removal that takes the instance file first and then fails leaves what cleanup refuses. */
  method StuckHappens() returns (run: Scope, ok: bool)
    ensures fresh(run) && run.Valid() && Exclusive(run.env)
    ensures Stuck(run.trail[|run.trail| - 1].disk, run.trail[|run.trail| - 1].world) && !ok
  {
    var journal := NoLedger.(builder := true, planned := NoPlan.(builder := true));
    var world := World(map[], None, None, Some(Item(1, true)), Some(Item(2, true)), Some(Item(3, true)), 3);
    FailsEarlyStarts(journal, world);
    hide Good, Lawful, Quiet, Flawless, Foreign, Fewer;
    run := new Scope.Resume(FailsEarly, journal, world);
    var removed := run.RemoveBuilder();
    assert [File, Node, Volume][..1] == [File];
    WithoutPartsIs(world, [File]);
    var final, removals;
    ghost var trace;
    ok, final, removals, trace := CrashThenCleanup(run, |run.trail| - 1, Undisturbed);
  }

  lemma FailsEarlyStarts(journal: Ledger, world: World)
    requires journal == NoLedger.(builder := true, planned := NoPlan.(builder := true))
    requires world == World(map[], None, None, Some(Item(1, true)), Some(Item(2, true)), Some(Item(3, true)), 3)
    ensures Lawful(FailsEarly) && Exclusive(FailsEarly) && Good(FailsEarly, Moment(journal, journal, world))
    ensures Lawful(Undisturbed) && Exclusive(Undisturbed) && Flawless(Undisturbed)
  {
  }
}
