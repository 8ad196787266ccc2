/** What the guild migration guarantees, proved about the step functions of
    ServerMigration (and so, through the methods' postconditions, about
    `ServerMigrator`). */
module ServerProperties {
  import opened Common
  import opened Ordering
  import opened ServerMigration
  import Logger

  // ---------------------------------------------------------------------------
  // Scripted outcomes.

  /** How many of the first `n` scripted outcomes are successes. */
  function Successes<T>(outcomes: seq<Option<T>>, n: nat): nat
    decreases n
  {
    if n == 0 then 0 else (if Reply(outcomes, 0).Some? then 1 else 0) + Successes(Drop(outcomes, 1), n - 1)
  }

  lemma DropDrop<T>(s: seq<T>, a: nat, b: nat)
    ensures Drop(Drop(s, a), b) == Drop(s, a + b)
  {
    if a + b <= |s| {
      assert Drop(s, a)[b..] == s[a + b..];
    }
  }

  // ---------------------------------------------------------------------------
  // Facts about `Run` for any step.

  /** `after` extends `before`'s request record with requests that satisfy `allowed`. */
  ghost predicate IssuesOnly(before: World, after: World, allowed: Request -> bool) {
    |before.requests| <= |after.requests|
    && after.requests[..|before.requests|] == before.requests
    && forall j :: |before.requests| <= j < |after.requests| ==> allowed(after.requests[j])
  }

  lemma IssuesOnlyTrans(a: World, b: World, c: World, allowed: Request -> bool)
    requires IssuesOnly(a, b, allowed) && IssuesOnly(b, c, allowed)
    ensures IssuesOnly(a, c, allowed)
  {
    assert c.requests[..|a.requests|] == c.requests[..|b.requests|][..|a.requests|];
    forall j | |a.requests| <= j < |c.requests| ensures allowed(c.requests[j]) {
      if j < |b.requests| {
        assert c.requests[j] == c.requests[..|b.requests|][j] == b.requests[j];
      }
    }
  }

  /** When every step only issues requests of one kind, so does the run. */
  lemma {:induction false} RunIssuesOnly<T>(w: World, items: seq<T>, step: (World, T) -> Outcome, allowed: Request -> bool)
    requires forall v: World, x: T :: IssuesOnly(v, step(v, x).world, allowed)
    ensures IssuesOnly(w, Run(w, items, step).world, allowed)
    decreases |items|
  {
    if items != [] {
      var first := step(w, items[0]);
      if !first.raised {
        RunIssuesOnly(first.world, items[1..], step, allowed);
        IssuesOnlyTrans(w, first.world, Run(first.world, items[1..], step).world, allowed);
      }
    }
  }

  /** When the step on each listed item only issues requests of one kind, so
      does the run. */
  lemma {:induction false} RunIssuesOnlyFor<T>(w: World, items: seq<T>, step: (World, T) -> Outcome, allowed: Request -> bool)
    requires forall v, i :: 0 <= i < |items| ==> IssuesOnly(v, step(v, items[i]).world, allowed)
    ensures IssuesOnly(w, Run(w, items, step).world, allowed)
    decreases |items|
  {
    if items != [] {
      var first := step(w, items[0]);
      if !first.raised {
        forall v, i | 0 <= i < |items[1..]| ensures IssuesOnly(v, step(v, items[1..][i]).world, allowed) {
          assert items[1..][i] == items[i + 1];
        }
        RunIssuesOnlyFor(first.world, items[1..], step, allowed);
        IssuesOnlyTrans(w, first.world, Run(first.world, items[1..], step).world, allowed);
      }
    }
  }

  /** When the step on each listed item only adds role-table entries for ids
      in `ids`, so does the run. */
  lemma {:induction false} RunRoleKeysWithin<T>(w: World, items: seq<T>, step: (World, T) -> Outcome, ids: set<Id>)
    requires forall v, i :: 0 <= i < |items| ==> step(v, items[i]).world.roleMap.Keys <= v.roleMap.Keys + ids
    ensures Run(w, items, step).world.roleMap.Keys <= w.roleMap.Keys + ids
    decreases |items|
  {
    if items != [] {
      var first := step(w, items[0]);
      if !first.raised {
        forall v, i | 0 <= i < |items[1..]| ensures step(v, items[1..][i]).world.roleMap.Keys <= v.roleMap.Keys + ids {
          assert items[1..][i] == items[i + 1];
        }
        RunRoleKeysWithin(first.world, items[1..], step, ids);
      }
    }
  }

  /** When no step changes the part of the state `f` observes, neither does the run. */
  lemma {:induction false} RunKeeps<T, X>(w: World, items: seq<T>, step: (World, T) -> Outcome, f: World -> X)
    requires forall v: World, x: T :: f(step(v, x).world) == f(v)
    ensures f(Run(w, items, step).world) == f(w)
    decreases |items|
  {
    if items != [] {
      var first := step(w, items[0]);
      if !first.raised {
        RunKeeps(first.world, items[1..], step, f);
      }
    }
  }

  /** A run raises exactly when some item's step, reached in order, raises;
      in particular a run whose steps never raise does not raise. */
  lemma {:induction false} RunWithoutRaising<T>(w: World, items: seq<T>, step: (World, T) -> Outcome)
    requires forall v: World, x: T :: !step(v, x).raised
    ensures !Run(w, items, step).raised
    decreases |items|
  {
    if items != [] {
      RunWithoutRaising(step(w, items[0]).world, items[1..], step);
    }
  }

  /** From a state satisfying `inv`, `step` on `x` raises exactly when
      `bad(x)`, and leaves a state satisfying `inv`. */
  ghost predicate RaisesIff<T>(step: (World, T) -> Outcome, inv: World -> bool, v: World, x: T, bad: T -> bool) {
    inv(v) ==> (step(v, x).raised <==> bad(x)) && inv(step(v, x).world)
  }

  /** Such a run raises exactly when one of its items is bad. */
  lemma {:induction false} RunRaisesIff<T>(w: World, items: seq<T>, step: (World, T) -> Outcome, inv: World -> bool, bad: T -> bool)
    requires inv(w)
    requires forall v, x :: RaisesIff(step, inv, v, x, bad)
    ensures Run(w, items, step).raised <==> exists i :: 0 <= i < |items| && bad(items[i])
    decreases |items|
  {
    if items != [] {
      assert RaisesIff(step, inv, w, items[0], bad);
      var first := step(w, items[0]);
      if !first.raised {
        RunRaisesIff(first.world, items[1..], step, inv, bad);
        if exists i :: 0 <= i < |items| && bad(items[i]) {
          var i :| 0 <= i < |items| && bad(items[i]);
          assert i > 0 && items[1..][i - 1] == items[i];
        }
        if exists i :: 0 <= i < |items[1..]| && bad(items[1..][i]) {
          var i :| 0 <= i < |items[1..]| && bad(items[1..][i]);
          assert items[i + 1] == items[1..][i];
        }
      }
    }
  }

  /** `step` on `x` from `v` issues `req`, uses one scripted outcome, counts
      it when it is a success and does not raise. */
  ghost predicate SendsOnce<T>(step: (World, T) -> Outcome, v: World, x: T, req: Request) {
    var o := step(v, x);
    && !o.raised
    && o.world.requests == v.requests + [req]
    && o.world.replies == Drop(v.replies, 1)
    && o.done == (if Reply(v.replies, 0).Some? then 1 else 0)
  }

  /** A run of steps that each issue one request: the requests in order, one
      scripted outcome per item, the successes counted, nothing raised. */
  lemma {:induction false} RunSendsEach<T>(w: World, items: seq<T>, step: (World, T) -> Outcome, reqs: seq<Request>)
    requires |reqs| == |items|
    requires forall v, i :: 0 <= i < |items| ==> SendsOnce(step, v, items[i], reqs[i])
    ensures var o := Run(w, items, step);
      && !o.raised
      && o.world.requests == w.requests + reqs
      && o.world.replies == Drop(w.replies, |items|)
      && o.done == Successes(w.replies, |items|)
    decreases |items|
  {
    if items != [] {
      assert SendsOnce(step, w, items[0], reqs[0]);
      var first := step(w, items[0]);
      forall v, i | 0 <= i < |items[1..]| ensures SendsOnce(step, v, items[1..][i], reqs[1..][i]) {
        assert SendsOnce(step, v, items[i + 1], reqs[i + 1]);
      }
      assert first.world.replies == Drop(w.replies, 1);
      assert first.done == (if Reply(w.replies, 0).Some? then 1 else 0);
      RunSendsEach(first.world, items[1..], step, reqs[1..]);
      var rest := Run(first.world, items[1..], step);
      assert Run(w, items, step).done == first.done + rest.done;
      assert Successes(w.replies, |items|) == first.done + Successes(Drop(w.replies, 1), |items| - 1);
      assert reqs == [reqs[0]] + reqs[1..];
      DropDrop(w.replies, 1, |items| - 1);
    }
  }

  /** The requests of items that each issue `emit(x)`, in order. */
  function Emitted<T>(items: seq<T>, emit: T -> seq<Request>): seq<Request>
    decreases |items|
  {
    if items == [] then [] else emit(items[0]) + Emitted(items[1..], emit)
  }

  /** From a state `v` with role table `roleMap`, `step` on `x` issues
      `emit(x)`, uses one scripted outcome per request issued, keeps the role
      table and does not raise. */
  ghost predicate Emits<T>(step: (World, T) -> Outcome, roleMap: map<Id, Id>, v: World, x: T, emit: T -> seq<Request>) {
    var o := step(v, x);
    v.roleMap == roleMap ==>
      && !o.raised
      && o.world.requests == v.requests + emit(x)
      && o.world.replies == Drop(v.replies, |emit(x)|)
      && o.world.roleMap == roleMap
  }

  /** A run of such steps over a fixed role table issues what its items emit,
      in order, and uses one scripted outcome per request. */
  lemma {:induction false} RunEmits<T>(w: World, items: seq<T>, step: (World, T) -> Outcome, emit: T -> seq<Request>)
    requires forall v, i :: 0 <= i < |items| ==> Emits(step, w.roleMap, v, items[i], emit)
    ensures var o := Run(w, items, step);
      && !o.raised
      && o.world.requests == w.requests + Emitted(items, emit)
      && o.world.replies == Drop(w.replies, |Emitted(items, emit)|)
    decreases |items|
  {
    if items != [] {
      assert Emits(step, w.roleMap, w, items[0], emit);
      var first := step(w, items[0]);
      forall v, i | 0 <= i < |items[1..]| ensures Emits(step, first.world.roleMap, v, items[1..][i], emit) {
        assert Emits(step, w.roleMap, v, items[i + 1], emit);
      }
      assert first.world.requests == w.requests + emit(items[0]);
      assert first.world.replies == Drop(w.replies, |emit(items[0])|);
      RunEmits(first.world, items[1..], step, emit);
      var rest := Emitted(items[1..], emit);
      assert Emitted(items, emit) == emit(items[0]) + rest;
      assert w.requests + emit(items[0]) + rest == w.requests + (emit(items[0]) + rest);
      DropDrop(w.replies, |emit(items[0])|, |rest|);
    }
  }

  /** `step` on `x` from `v` downloads once, then uses one scripted outcome
      exactly when the image is non-empty, counting it when it is a success,
      and does not raise. */
  ghost predicate DownloadsOnce<T>(step: (World, T) -> Outcome, v: World, x: T) {
    var o := step(v, x);
    var image := Reply(v.images, 0);
    && !o.raised
    && o.world.images == Drop(v.images, 1)
    && if image.Some? && image.value != [] then
         o.world.replies == Drop(v.replies, 1) && o.done == (if Reply(v.replies, 0).Some? then 1 else 0)
       else
         o.world.replies == v.replies && o.done == 0
  }

  /** How many of the first `n` scripted downloads give a non-empty image. */
  function Images(images: seq<Option<Bytes>>, n: nat): (k: nat)
    ensures k <= n
    decreases n
  {
    if n == 0 then 0
    else (if Reply(images, 0).Some? && Reply(images, 0).value != [] then 1 else 0) + Images(Drop(images, 1), n - 1)
  }

  /** A run of downloading steps: one scripted image per item, one scripted
      outcome per non-empty image, the successes counted, nothing raised. */
  lemma {:induction false} RunDownloadsEach<T>(w: World, items: seq<T>, step: (World, T) -> Outcome)
    requires forall v, x :: DownloadsOnce(step, v, x)
    ensures var o := Run(w, items, step);
      var uploads := Images(w.images, |items|);
      && !o.raised
      && o.world.images == Drop(w.images, |items|)
      && o.world.replies == Drop(w.replies, uploads)
      && o.done == Successes(w.replies, uploads)
    decreases |items|
  {
    if items != [] {
      assert DownloadsOnce(step, w, items[0]);
      var first := step(w, items[0]);
      RunDownloadsEach(first.world, items[1..], step);
      DropDrop(w.images, 1, |items| - 1);
      var rest := Images(Drop(w.images, 1), |items| - 1);
      var image := Reply(w.images, 0);
      assert Run(w, items, step).done == first.done + Run(first.world, items[1..], step).done;
      if image.Some? && image.value != [] {
        assert Images(w.images, |items|) == 1 + rest;
        assert Successes(w.replies, 1 + rest) == first.done + Successes(Drop(w.replies, 1), rest);
        DropDrop(w.replies, 1, rest);
      } else {
        assert Images(w.images, |items|) == rest;
      }
    }
  }

  // ---------------------------------------------------------------------------
  // Roles.

  /** The create calls for a list of readable roles, one per role, in order. */
  function RoleRequests(guild: Id, roles: seq<Role>): (reqs: seq<Request>)
    requires forall i :: 0 <= i < |roles| ==> Readable(roles[i])
    ensures |reqs| == |roles|
  {
    seq(|roles|, i requires 0 <= i < |roles| && Readable(roles[i]) => RoleRequest(guild, roles[i].name.value, IntField(roles[i].permissions).value, roles[i]))
  }

  /** Readable roles: exactly one create call per role, in the given order,
      one scripted outcome used per role, nothing raised, the number of
      successes counted, and nothing but the role table changed. */
  lemma RolesRunEffect(w: World, guild: Id, roles: seq<Role>)
    requires forall i :: 0 <= i < |roles| ==> Readable(roles[i])
    ensures var o := Run(w, roles, RoleStepOf(guild));
      && !o.raised
      && o.world.requests == w.requests + RoleRequests(guild, roles)
      && o.world.replies == Drop(w.replies, |roles|)
      && o.done == Successes(w.replies, |roles|)
      && o.world == w.(requests := o.world.requests, replies := o.world.replies, roleMap := o.world.roleMap)
  {
    var reqs := RoleRequests(guild, roles);
    forall v, i | 0 <= i < |roles| ensures SendsOnce(RoleStepOf(guild), v, roles[i], reqs[i]) {
      assert RoleStepOf(guild)(v, roles[i]) == RoleStep(v, guild, roles[i]);
    }
    RunSendsEach(w, roles, RoleStepOf(guild), reqs);
    forall v: World, r: Role ensures RoleFrame(RoleStepOf(guild)(v, r).world) == RoleFrame(v) {
      assert RoleStepOf(guild)(v, r) == RoleStep(v, guild, r);
    }
    RunKeeps(w, roles, RoleStepOf(guild), RoleFrame);
  }

  /** The part of the state the role loop leaves alone. */
  function RoleFrame(v: World): World {
    v.(requests := [], replies := [], roleMap := map[])
  }

  /** The source ids of the roles whose create call gets a success. */
  function SucceededIds(roles: seq<Role>, replies: seq<Option<Id>>): set<Id> {
    set i | 0 <= i < |roles| && Reply(replies, i).Some? :: roles[i].id
  }

  lemma SucceededIdsSplit(roles: seq<Role>, replies: seq<Option<Id>>)
    requires roles != []
    ensures SucceededIds(roles, replies)
         == (if Reply(replies, 0).Some? then {roles[0].id} else {}) + SucceededIds(roles[1..], Drop(replies, 1))
  {
    var rest := roles[1..];
    forall k | k in SucceededIds(roles, replies)
      ensures k in (if Reply(replies, 0).Some? then {roles[0].id} else {}) + SucceededIds(rest, Drop(replies, 1))
    {
      var i :| 0 <= i < |roles| && Reply(replies, i).Some? && roles[i].id == k;
      if i > 0 {
        assert rest[i - 1] == roles[i] && Reply(Drop(replies, 1), i - 1) == Reply(replies, i);
      }
    }
    forall k | k in SucceededIds(rest, Drop(replies, 1)) ensures k in SucceededIds(roles, replies) {
      var i :| 0 <= i < |rest| && Reply(Drop(replies, 1), i).Some? && rest[i].id == k;
      assert roles[i + 1] == rest[i] && Reply(replies, i + 1) == Reply(Drop(replies, 1), i);
    }
  }

  /** The role table afterwards: a source id is mapped exactly when it was
      mapped before or the create call of a role with that id succeeded. */
  lemma {:induction false} RoleMapGrowsOnSuccess(w: World, guild: Id, roles: seq<Role>)
    requires forall i :: 0 <= i < |roles| ==> Readable(roles[i])
    ensures Run(w, roles, RoleStepOf(guild)).world.roleMap.Keys == w.roleMap.Keys + SucceededIds(roles, w.replies)
    decreases |roles|
  {
    if roles != [] {
      var first := RoleStep(w, guild, roles[0]);
      RoleMapGrowsOnSuccess(first.world, guild, roles[1..]);
      SucceededIdsSplit(roles, w.replies);
    }
  }

  /** With distinct source ids, each role whose creation succeeded is mapped
      to the id the destination returned for it. */
  lemma {:induction false} RoleMapValues(w: World, guild: Id, roles: seq<Role>)
    requires forall i :: 0 <= i < |roles| ==> Readable(roles[i])
    requires forall i, j :: 0 <= i < j < |roles| ==> roles[i].id != roles[j].id
    ensures var o := Run(w, roles, RoleStepOf(guild));
      forall i :: 0 <= i < |roles| && Reply(w.replies, i).Some? ==>
        roles[i].id in o.world.roleMap && o.world.roleMap[roles[i].id] == Reply(w.replies, i).value
    decreases |roles|
  {
    if roles != [] {
      var first := RoleStep(w, guild, roles[0]);
      var rest := roles[1..];
      RoleMapValues(first.world, guild, rest);
      RoleMapGrowsOnSuccess(first.world, guild, rest);
      var o := Run(w, roles, RoleStepOf(guild));
      forall i | 0 <= i < |roles| && Reply(w.replies, i).Some?
        ensures roles[i].id in o.world.roleMap && o.world.roleMap[roles[i].id] == Reply(w.replies, i).value
      {
        if i > 0 {
          assert rest[i - 1] == roles[i] && Reply(first.world.replies, i - 1) == Reply(w.replies, i);
        } else {
          RoleMapUntouched(first.world, guild, rest, roles[0].id);
        }
      }
    }
  }

  /** A source id that no role in the list carries keeps its entry. */
  lemma {:induction false} RoleMapUntouched(w: World, guild: Id, roles: seq<Role>, k: Id)
    requires forall i :: 0 <= i < |roles| ==> roles[i].id != k
    ensures var o := Run(w, roles, RoleStepOf(guild));
      (k in o.world.roleMap <==> k in w.roleMap) && (k in w.roleMap ==> o.world.roleMap[k] == w.roleMap[k])
    decreases |roles|
  {
    if roles != [] {
      RoleMapUntouched(RoleStep(w, guild, roles[0]).world, guild, roles[1..], k);
    }
  }

  /** The role loop stops with an error exactly when some role lacks a name or
      has permissions that do not parse. */
  lemma RolesRaiseIffUnreadable(w: World, guild: Id, roles: seq<Role>)
    ensures Run(w, roles, RoleStepOf(guild)).raised <==> exists i :: 0 <= i < |roles| && !Readable(roles[i])
  {
    var bad := (r: Role) => !Readable(r);
    var always := (v: World) => true;
    forall v, r ensures RaisesIff(RoleStepOf(guild), always, v, r, bad) {
      assert RoleStepOf(guild)(v, r) == RoleStep(v, guild, r);
    }
    RunRaisesIff(w, roles, RoleStepOf(guild), always, bad);
  }

  predicate IsRoleCreate(req: Request) {
    req.CreateRole?
  }

  /** Every request of the role loop is a role creation whose name is that of
      one of the roles, and every id it adds to the role table is one of
      theirs. */
  lemma RolesStayInScope(w: World, guild: Id, roles: seq<Role>)
    ensures var o := Run(w, roles, RoleStepOf(guild));
      && IssuesOnly(w, o.world, IsRoleCreate)
      && (forall j :: |w.requests| <= j < |o.world.requests| ==>
            exists i :: 0 <= i < |roles| && roles[i].name == Some(o.world.requests[j].name))
      && (forall k :: k in o.world.roleMap ==> k in w.roleMap || exists i :: 0 <= i < |roles| && roles[i].id == k)
  {
    var step := RoleStepOf(guild);
    var named := (req: Request) => req.CreateRole? && exists i :: 0 <= i < |roles| && roles[i].name == Some(req.name);
    forall v, i | 0 <= i < |roles| ensures IssuesOnly(v, step(v, roles[i]).world, named) {
      assert step(v, roles[i]) == RoleStep(v, guild, roles[i]);
    }
    RunIssuesOnlyFor(w, roles, step, named);
    var ids := set i | 0 <= i < |roles| :: roles[i].id;
    forall v, i | 0 <= i < |roles| ensures step(v, roles[i]).world.roleMap.Keys <= v.roleMap.Keys + ids {
      assert step(v, roles[i]) == RoleStep(v, guild, roles[i]);
    }
    RunRoleKeysWithin(w, roles, step, ids);
    var o := Run(w, roles, step);
    forall k | k in o.world.roleMap ensures k in w.roleMap || exists i :: 0 <= i < |roles| && roles[i].id == k {
      assert k in w.roleMap.Keys + ids;
    }
    forall j | |w.requests| <= j < |o.world.requests| ensures IsRoleCreate(o.world.requests[j]) {
      assert named(o.world.requests[j]);
    }
  }

  /** The roles are attempted by ascending position, equal positions in their
      listed order, and the attempted roles are exactly the listed ones other
      than `@everyone`, each once. */
  lemma RoleOrder(roles: seq<Role>)
    ensures Ascending(RolesToCreate(roles), RolePosition)
    ensures multiset(RolesToCreate(roles)) == multiset(Keep(roles, NotEveryone))
    ensures forall p :: WithKey(RolesToCreate(roles), RolePosition, p) == WithKey(Keep(roles, NotEveryone), RolePosition, p)
  {
    SortByAscending(Keep(roles, NotEveryone), RolePosition);
    SortByPermutation(Keep(roles, NotEveryone), RolePosition);
    forall p ensures WithKey(RolesToCreate(roles), RolePosition, p) == WithKey(Keep(roles, NotEveryone), RolePosition, p) {
      SortByStable(Keep(roles, NotEveryone), RolePosition, p);
    }
  }

  /** `@everyone` is never created and never entered in the role table:
      every request of the role stage creates a role with another name, and
      every id it maps belongs to a listed role that is not `@everyone`. */
  lemma EveryoneNeverCreated(w: World, guild: Id, roles: seq<Role>)
    ensures var o := Run(w, RolesToCreate(roles), RoleStepOf(guild));
      && IssuesOnly(w, o.world, IsRoleCreate)
      && (forall j :: |w.requests| <= j < |o.world.requests| ==> o.world.requests[j].name != "@everyone")
      && (forall k :: k in o.world.roleMap && k !in w.roleMap ==>
            exists r :: r in roles && NotEveryone(r) && r.id == k)
  {
    var order := RolesToCreate(roles);
    var kept := Keep(roles, NotEveryone);
    RolesStayInScope(w, guild, order);
    SortByPermutation(kept, RolePosition);
    var o := Run(w, order, RoleStepOf(guild));
    forall i | 0 <= i < |order| ensures order[i] in roles && NotEveryone(order[i]) {
      assert order[i] in multiset(order);
      assert order[i] in kept;
      var m :| 0 <= m < |kept| && kept[m] == order[i];
    }
    forall j | |w.requests| <= j < |o.world.requests| ensures o.world.requests[j].name != "@everyone" {
      var i :| 0 <= i < |order| && order[i].name == Some(o.world.requests[j].name);
    }
    forall k | k in o.world.roleMap && k !in w.roleMap ensures exists r :: r in roles && NotEveryone(r) && r.id == k {
      var i :| 0 <= i < |order| && order[i].id == k;
    }
  }

  // ---------------------------------------------------------------------------
  // Categories (first pass).

  /** The create calls for a list of named categories, one per category. */
  function CategoryRequests(guild: Id, categories: seq<Channel>): (reqs: seq<Request>)
    requires forall i :: 0 <= i < |categories| ==> categories[i].name.Some?
    ensures |reqs| == |categories|
  {
    seq(|categories|, i requires 0 <= i < |categories| && categories[i].name.Some? =>
      CreateChannel(guild, categories[i].name.value, CategorySpec(ChannelPosition(categories[i]))))
  }

  /** Named categories: one type-4 create call each, carrying the source
      position, no overwrite ever applied, nothing raised, the successes
      counted, and nothing but the category table changed. */
  lemma CategoriesRunEffect(w: World, guild: Id, categories: seq<Channel>)
    requires forall i :: 0 <= i < |categories| ==> categories[i].name.Some?
    ensures var o := Run(w, categories, CategoryStepOf(guild));
      && !o.raised
      && o.world.requests == w.requests + CategoryRequests(guild, categories)
      && o.world.replies == Drop(w.replies, |categories|)
      && o.done == Successes(w.replies, |categories|)
      && o.world == w.(requests := o.world.requests, replies := o.world.replies, categoryMap := o.world.categoryMap)
  {
    var reqs := CategoryRequests(guild, categories);
    forall v, i | 0 <= i < |categories| ensures SendsOnce(CategoryStepOf(guild), v, categories[i], reqs[i]) {
      assert CategoryStepOf(guild)(v, categories[i]) == CategoryStep(v, guild, categories[i]);
    }
    RunSendsEach(w, categories, CategoryStepOf(guild), reqs);
    forall v: World, c: Channel ensures CategoryFrame(CategoryStepOf(guild)(v, c).world) == CategoryFrame(v) {
      assert CategoryStepOf(guild)(v, c) == CategoryStep(v, guild, c);
    }
    RunKeeps(w, categories, CategoryStepOf(guild), CategoryFrame);
  }

  /** The part of the state the first pass leaves alone. */
  function CategoryFrame(v: World): World {
    v.(requests := [], replies := [], categoryMap := map[])
  }

  /** The first pass stops with an error exactly when some category lacks a name. */
  lemma CategoriesRaiseIffUnnamed(w: World, guild: Id, categories: seq<Channel>)
    ensures Run(w, categories, CategoryStepOf(guild)).raised <==> exists i :: 0 <= i < |categories| && categories[i].name.None?
  {
    var bad := (c: Channel) => c.name.None?;
    var always := (v: World) => true;
    forall v, c ensures RaisesIff(CategoryStepOf(guild), always, v, c, bad) {
      assert CategoryStepOf(guild)(v, c) == CategoryStep(v, guild, c);
    }
    RunRaisesIff(w, categories, CategoryStepOf(guild), always, bad);
  }

  /** The first pass handles exactly the type-4 channels, each once, by
      ascending position. */
  lemma CategoryOrder(channels: seq<Channel>)
    ensures Ascending(CategoriesToCreate(channels), ChannelPosition)
    ensures multiset(CategoriesToCreate(channels)) == multiset(Keep(channels, IsCategory))
    ensures forall i :: 0 <= i < |CategoriesToCreate(channels)| ==> IsCategory(CategoriesToCreate(channels)[i])
  {
    var kept := Keep(channels, IsCategory);
    SortByAscending(kept, ChannelPosition);
    SortByPermutation(kept, ChannelPosition);
    forall i | 0 <= i < |CategoriesToCreate(channels)| ensures IsCategory(CategoriesToCreate(channels)[i]) {
      assert CategoriesToCreate(channels)[i] in multiset(kept);
      var m :| 0 <= m < |kept| && kept[m] == CategoriesToCreate(channels)[i];
    }
  }

  // ---------------------------------------------------------------------------
  // Permission overwrites.

  /** An overwrite the loop gets past: skipped, or with both bit sets parsing. */
  predicate Parses(roleMap: map<Id, Id>, ow: Overwrite) {
    OverwriteTarget(roleMap, ow).None? || (IntField(ow.allow).Some? && IntField(ow.deny).Some?)
  }

  /** The edit call an overwrite leads to: none unless it targets a mapped
      role; otherwise one carrying the mapped role and the parsed bit sets
      (whenever the bit sets do not parse, the step raises instead). */
  function EditOf(roleMap: map<Id, Id>, channel: Id): Overwrite -> seq<Request> {
    ow => match OverwriteTarget(roleMap, ow)
          case None => []
          case Some(t) => [EditPermissions(channel, t, IntField(ow.allow).GetOr(0), IntField(ow.deny).GetOr(0), 0)]
  }

  /** `[edit(ow) for ow in overwrites if it targets a mapped role]`. */
  function Edits(roleMap: map<Id, Id>, channel: Id, overwrites: seq<Overwrite>): seq<Request> {
    Emitted(overwrites, EditOf(roleMap, channel))
  }

  /** The edit call for one overwrite of a channel, when it is made. */
  ghost predicate IsRoleEdit(roleMap: map<Id, Id>, channel: Id, req: Request) {
    req.EditPermissions? && req.channel == channel && req.targetKind == 0
    && req.target != "" && exists k :: k in roleMap && roleMap[k] == req.target
  }

  /** Overwrites that all parse: exactly one edit call per role overwrite
      whose role is mapped to a non-empty id, in order, with the source bit
      sets; nothing raised; nothing but the request record and the script
      changed. */
  lemma OverwritesEffect(w: World, channel: Id, overwrites: seq<Overwrite>)
    requires forall i :: 0 <= i < |overwrites| ==> Parses(w.roleMap, overwrites[i])
    ensures var o := Run(w, overwrites, OverwriteStepOf(channel));
      && !o.raised
      && o.world.requests == w.requests + Edits(w.roleMap, channel, overwrites)
      && o.world.replies == Drop(w.replies, |Edits(w.roleMap, channel, overwrites)|)
      && o.world == w.(requests := o.world.requests, replies := o.world.replies)
  {
    var step := OverwriteStepOf(channel);
    var emit := EditOf(w.roleMap, channel);
    forall v, i | 0 <= i < |overwrites| ensures Emits(step, w.roleMap, v, overwrites[i], emit) {
      assert step(v, overwrites[i]) == OverwriteStep(v, channel, overwrites[i]);
    }
    RunEmits(w, overwrites, step, emit);
    forall v: World, ow: Overwrite ensures OverwriteFrame(step(v, ow).world) == OverwriteFrame(v) {
      assert step(v, ow) == OverwriteStep(v, channel, ow);
    }
    RunKeeps(w, overwrites, step, OverwriteFrame);
  }

  /** The part of the state applying overwrites leaves alone. */
  function OverwriteFrame(v: World): World {
    v.(requests := [], replies := [])
  }

  /** Applying overwrites raises exactly when a role overwrite whose role is
      mapped has a bit set that does not parse. */
  lemma OverwritesRaiseIff(w: World, channel: Id, overwrites: seq<Overwrite>)
    ensures Run(w, overwrites, OverwriteStepOf(channel)).raised
        <==> exists i :: 0 <= i < |overwrites| && !Parses(w.roleMap, overwrites[i])
  {
    var bad := (ow: Overwrite) => !Parses(w.roleMap, ow);
    var inv := (v: World) => v.roleMap == w.roleMap;
    forall v, ow ensures RaisesIff(OverwriteStepOf(channel), inv, v, ow, bad) {
      assert OverwriteStepOf(channel)(v, ow) == OverwriteStep(v, channel, ow);
    }
    RunRaisesIff(w, overwrites, OverwriteStepOf(channel), inv, bad);
  }

  /** Whatever the overwrites, only role edits of this channel, to mapped
      non-empty role ids, are issued, and no table or notice changes. Member
      overwrites are never applied. */
  lemma {:induction false} OverwritesOnlyEditMappedRoles(w: World, channel: Id, overwrites: seq<Overwrite>)
    ensures var o := Run(w, overwrites, OverwriteStepOf(channel));
      && IssuesOnly(w, o.world, req => IsRoleEdit(w.roleMap, channel, req))
      && o.world == w.(requests := o.world.requests, replies := o.world.replies)
    decreases |overwrites|
  {
    if overwrites != [] {
      var first := OverwriteStep(w, channel, overwrites[0]);
      if !first.raised {
        OverwritesOnlyEditMappedRoles(first.world, channel, overwrites[1..]);
        if OverwriteTarget(w.roleMap, overwrites[0]).Some? {
          var k := overwrites[0].target.value;
          assert IsRoleEdit(w.roleMap, channel, first.world.requests[|w.requests|]);
        }
        IssuesOnlyTrans(w, first.world, Run(first.world, overwrites[1..], OverwriteStepOf(channel)).world,
                        req => IsRoleEdit(w.roleMap, channel, req));
      }
    }
  }

  // ---------------------------------------------------------------------------
  // Channels (second pass).

  /** Categories and unsupported types in the second pass: a category is left
      alone; a stage, thread or unknown type issues nothing and adds one
      notice naming it. */
  lemma LeafSkipped(w: World, guild: Id, permissions: bool, c: Channel)
    requires !IsCreatedKind(c.kind.GetOr(0))
    ensures var kind := c.kind.GetOr(0);
      var o := LeafStep(w, guild, permissions, c);
      && (kind == 4 ==> o == Outcome(w, false, 0))
      && (kind != 4 ==> o == Outcome(Notify(w, SkippedFeature(kind), "Skipped '" + c.name.GetOr("unnamed") + "'"), false, 0))
  {
  }

  /** Text, announcement, voice and forum channels: the first call creates it
      under its mapped parent with the type's arguments; the channel table
      records it exactly when that call succeeds; the only other calls are
      role edits of the new channel, and only when permissions are enabled;
      only a forum adds a notice; and it is counted exactly when created
      with all its overwrites readable. */
  lemma LeafCreated(w: World, guild: Id, permissions: bool, c: Channel)
    requires IsCreatedKind(c.kind.GetOr(0))
    ensures var kind := c.kind.GetOr(0);
      var name := c.name.GetOr("unnamed");
      var o := LeafStep(w, guild, permissions, c);
      var reply := Reply(w.replies, 0);
      && !o.raised
      && |w.requests| < |o.world.requests|
      && o.world.requests[..|w.requests| + 1] == w.requests + [CreateChannel(guild, name, LeafSpec(c, kind, ParentFor(w.categoryMap, c)))]
      && (reply.None? || !permissions ==> |o.world.requests| == |w.requests| + 1)
      && (reply.Some? ==> forall j :: |w.requests| < j < |o.world.requests| ==> IsRoleEdit(w.roleMap, reply.value, o.world.requests[j]))
      && o.world.channelMap == (if reply.Some? then w.channelMap[c.id := reply.value] else w.channelMap)
      && o.world.notices == w.notices + (if kind == 15 then [Logger.UnsupportedMessage("Forum channel", "Converting '" + name + "' to text channel")] else [])
      && o.world.roleMap == w.roleMap && o.world.categoryMap == w.categoryMap && o.world.guildMap == w.guildMap
      && (o.done == 1 <==> reply.Some? && (permissions ==> forall i :: 0 <= i < |c.overwrites| ==> Parses(w.roleMap, c.overwrites[i])))
  {
    LeafCreatedRequests(w, guild, permissions, c);
    LeafCreatedState(w, guild, permissions, c);
  }

  /** The requests of a created channel: its creation, then role edits of the
      new channel only. */
  lemma LeafCreatedRequests(w: World, guild: Id, permissions: bool, c: Channel)
    requires IsCreatedKind(c.kind.GetOr(0))
    ensures var o := LeafStep(w, guild, permissions, c);
      var reply := Reply(w.replies, 0);
      && !o.raised
      && |w.requests| < |o.world.requests|
      && o.world.requests[..|w.requests| + 1] == w.requests + [CreateChannel(guild, c.name.GetOr("unnamed"), LeafSpec(c, c.kind.GetOr(0), ParentFor(w.categoryMap, c)))]
      && (reply.None? || !permissions ==> |o.world.requests| == |w.requests| + 1)
      && (reply.Some? ==> forall j :: |w.requests| < j < |o.world.requests| ==> IsRoleEdit(w.roleMap, reply.value, o.world.requests[j]))
  {
    var kind := c.kind.GetOr(0);
    var name := c.name.GetOr("unnamed");
    var start := if kind == 15 then Notify(w, "Forum channel", "Converting '" + name + "' to text channel") else w;
    var sent := Send(start, CreateChannel(guild, name, LeafSpec(c, kind, ParentFor(w.categoryMap, c))));
    if sent.reply.Some? && permissions {
      var recorded := sent.world.(channelMap := sent.world.channelMap[c.id := sent.reply.value]);
      OverwritesOnlyEditMappedRoles(recorded, sent.reply.value, c.overwrites);
      var o := Run(recorded, c.overwrites, OverwriteStepOf(sent.reply.value));
      assert o.world.requests[..|w.requests| + 1] == o.world.requests[..|recorded.requests|] == recorded.requests;
    }
  }

  /** The tables and notices after a created channel. */
  lemma LeafCreatedState(w: World, guild: Id, permissions: bool, c: Channel)
    requires IsCreatedKind(c.kind.GetOr(0))
    ensures var kind := c.kind.GetOr(0);
      var name := c.name.GetOr("unnamed");
      var o := LeafStep(w, guild, permissions, c);
      var reply := Reply(w.replies, 0);
      && o.world.channelMap == (if reply.Some? then w.channelMap[c.id := reply.value] else w.channelMap)
      && o.world.notices == w.notices + (if kind == 15 then [Logger.UnsupportedMessage("Forum channel", "Converting '" + name + "' to text channel")] else [])
      && o.world.roleMap == w.roleMap && o.world.categoryMap == w.categoryMap && o.world.guildMap == w.guildMap
      && (o.done == 1 <==> reply.Some? && (permissions ==> forall i :: 0 <= i < |c.overwrites| ==> Parses(w.roleMap, c.overwrites[i])))
  {
    var kind := c.kind.GetOr(0);
    var name := c.name.GetOr("unnamed");
    var start := if kind == 15 then Notify(w, "Forum channel", "Converting '" + name + "' to text channel") else w;
    var sent := Send(start, CreateChannel(guild, name, LeafSpec(c, kind, ParentFor(w.categoryMap, c))));
    assert LeafStep(w, guild, permissions, c) == CreateLeaf(start, guild, permissions, c, name, LeafSpec(c, kind, ParentFor(w.categoryMap, c)));
    CreateLeafEffect(start, guild, permissions, c, name, LeafSpec(c, kind, ParentFor(w.categoryMap, c)));
  }

  /** Creating one channel: the channel table records it on success, the
      overwrites change no other table, and it is counted exactly when
      created with all its overwrites readable. */
  lemma CreateLeafEffect(w: World, guild: Id, permissions: bool, c: Channel, name: string, spec: ChannelSpec)
    ensures var o := CreateLeaf(w, guild, permissions, c, name, spec);
      var reply := Reply(w.replies, 0);
      && o.world.channelMap == (if reply.Some? then w.channelMap[c.id := reply.value] else w.channelMap)
      && o.world.notices == w.notices
      && o.world.roleMap == w.roleMap && o.world.categoryMap == w.categoryMap && o.world.guildMap == w.guildMap
      && (o.done == 1 <==> reply.Some? && (permissions ==> forall i :: 0 <= i < |c.overwrites| ==> Parses(w.roleMap, c.overwrites[i])))
  {
    var sent := Send(w, CreateChannel(guild, name, spec));
    if sent.reply.Some? && permissions {
      var recorded := sent.world.(channelMap := sent.world.channelMap[c.id := sent.reply.value]);
      OverwritesOnlyEditMappedRoles(recorded, sent.reply.value, c.overwrites);
      OverwritesRaiseIff(recorded, sent.reply.value, c.overwrites);
    }
  }

  // ---------------------------------------------------------------------------
  // Emoji.

  /** The emoji loop: one download per emoji; one upload per non-empty image,
      so one scripted outcome used per upload; the count is the number of
      uploads that succeeded; nothing raised; no table or notice changed. */
  lemma EmojisRunEffect(w: World, guild: Id, emojis: seq<Emoji>)
    ensures var o := Run(w, emojis, EmojiStepOf(guild));
      var uploads := Images(w.images, |emojis|);
      && !o.raised
      && o.world.images == Drop(w.images, |emojis|)
      && o.world.replies == Drop(w.replies, uploads)
      && o.done == Successes(w.replies, uploads)
      && o.world == w.(requests := o.world.requests, replies := o.world.replies, images := o.world.images)
  {
    forall v, e ensures DownloadsOnce(EmojiStepOf(guild), v, e) {
      assert EmojiStepOf(guild)(v, e) == EmojiStep(v, guild, e);
    }
    RunDownloadsEach(w, emojis, EmojiStepOf(guild));
    forall v: World, e: Emoji ensures EmojiFrame(EmojiStepOf(guild)(v, e).world) == EmojiFrame(v) {
      assert EmojiStepOf(guild)(v, e) == EmojiStep(v, guild, e);
    }
    RunKeeps(w, emojis, EmojiStepOf(guild), EmojiFrame);
  }

  /** The part of the state the emoji loop leaves alone. */
  function EmojiFrame(v: World): World {
    v.(requests := [], replies := [], images := [])
  }

  /** Each emoji is downloaded from the CDN under its id, as a GIF exactly
      when it is animated, and uploaded under its name (or "unnamed") only
      when the download gave a non-empty image. */
  lemma EmojiStepRequests(w: World, guild: Id, e: Emoji)
    ensures var o := EmojiStep(w, guild, e);
      var image := Reply(w.images, 0);
      && StartsWith(EmojiUrl(e), "https://cdn.discordapp.com/emojis/" + e.id + ".")
      && (EmojiUrl(e)[|"https://cdn.discordapp.com/emojis/" + e.id + "."|..] == "gif?size=128" <==> e.animated == Some(true))
      && o.world.requests == w.requests + [DownloadImage(EmojiUrl(e))]
           + (if image.Some? && image.value != [] then [CreateEmoji(guild, e.name.GetOr("unnamed"), image.value)] else [])
  {
    var prefix := "https://cdn.discordapp.com/emojis/" + e.id + ".";
    var ext := EmojiExtension(e.animated.GetOr(false));
    assert EmojiUrl(e) == prefix + (ext + "?size=128");
    assert EmojiUrl(e)[..|prefix|] == prefix;
    assert EmojiUrl(e)[|prefix|..] == ext + "?size=128";
    if ext == "png" {
      assert (ext + "?size=128")[0] != "gif?size=128"[0];
    }
  }

  // ---------------------------------------------------------------------------
  // Stage order.

  /** Which stage issues a request: 1 roles, 2 channels and overwrites, 3 emoji;
      0 for the guild creation and the Discord reads. */
  function StageOf(req: Request): nat {
    match req
    case CreateRole(_, _, _, _, _, _) => 1
    case CreateChannel(_, _, _) => 2
    case EditPermissions(_, _, _, _, _) => 2
    case DownloadImage(_) => 3
    case CreateEmoji(_, _, _) => 3
    case _ => 0
  }

  function InStage(k: nat): Request -> bool {
    req => StageOf(req) == k
  }

  lemma RolesInStage(w: World, guild: Id, roles: seq<Role>)
    ensures IssuesOnly(w, Run(w, roles, RoleStepOf(guild)).world, InStage(1))
  {
    forall v: World, r: Role ensures IssuesOnly(v, RoleStepOf(guild)(v, r).world, InStage(1)) {
      assert RoleStepOf(guild)(v, r) == RoleStep(v, guild, r);
    }
    RunIssuesOnly(w, roles, RoleStepOf(guild), InStage(1));
  }

  lemma LeafInStage(v: World, guild: Id, permissions: bool, c: Channel)
    ensures IssuesOnly(v, LeafStep(v, guild, permissions, c).world, InStage(2))
  {
    if IsCreatedKind(c.kind.GetOr(0)) {
      LeafCreatedRequests(v, guild, permissions, c);
      var after := LeafStep(v, guild, permissions, c).world;
      var reply := Reply(v.replies, 0);
      forall j | |v.requests| < j < |after.requests| ensures after.requests[j].EditPermissions? {
        assert IsRoleEdit(v.roleMap, reply.value, after.requests[j]);
      }
      CreationThenEdits(v, after);
    } else {
      LeafSkipped(v, guild, permissions, c);
    }
  }

  /** A channel creation followed by permission edits stays in stage 2. */
  lemma CreationThenEdits(before: World, after: World)
    requires |before.requests| < |after.requests|
    requires after.requests[..|before.requests| + 1] == before.requests + [after.requests[|before.requests|]]
    requires after.requests[|before.requests|].CreateChannel?
    requires forall j :: |before.requests| < j < |after.requests| ==> after.requests[j].EditPermissions?
    ensures IssuesOnly(before, after, InStage(2))
  {
    assert after.requests[..|before.requests|] == after.requests[..|before.requests| + 1][..|before.requests|];
  }

  lemma ChannelsInStage(w: World, guild: Id, permissions: bool, channels: seq<Channel>)
    ensures IssuesOnly(w, ChannelsRun(w, guild, permissions, channels).world, InStage(2))
  {
    forall v: World, c: Channel ensures IssuesOnly(v, CategoryStepOf(guild)(v, c).world, InStage(2)) {
      assert CategoryStepOf(guild)(v, c) == CategoryStep(v, guild, c);
    }
    RunIssuesOnly(w, CategoriesToCreate(channels), CategoryStepOf(guild), InStage(2));
    var categories := Run(w, CategoriesToCreate(channels), CategoryStepOf(guild));
    if !categories.raised {
      forall v: World, c: Channel ensures IssuesOnly(v, LeafStepOf(guild, permissions)(v, c).world, InStage(2)) {
        LeafInStage(v, guild, permissions, c);
      }
      var ordered := SortBy(channels, ChannelPosition);
      RunIssuesOnly(categories.world, ordered, LeafStepOf(guild, permissions), InStage(2));
      IssuesOnlyTrans(w, categories.world, Run(categories.world, ordered, LeafStepOf(guild, permissions)).world, InStage(2));
    }
  }

  lemma EmojisInStage(w: World, guild: Id, emojis: seq<Emoji>)
    ensures IssuesOnly(w, EmojisRun(w, guild, emojis).world, InStage(3))
  {
    forall v: World, e: Emoji ensures IssuesOnly(v, EmojiStepOf(guild)(v, e).world, InStage(3)) {
      assert EmojiStepOf(guild)(v, e) == EmojiStep(v, guild, e);
    }
    RunIssuesOnly(w, emojis, EmojiStepOf(guild), InStage(3));
  }

  /** Roles, then channels, then emoji: once the destination guild is known,
      every request issued belongs to a stage, and no request of a later
      stage comes before one of an earlier stage. */
  lemma StagesInOrder(w: World, target: Id, lists: SourceLists, options: Option<map<string, bool>>)
    ensures var r := StagesRun(w, target, lists, options);
      && |w.requests| <= |r.world.requests| && r.world.requests[..|w.requests|] == w.requests
      && (forall i :: |w.requests| <= i < |r.world.requests| ==> 1 <= StageOf(r.world.requests[i]))
      && forall i, j :: |w.requests| <= i < j < |r.world.requests| ==>
           StageOf(r.world.requests[i]) <= StageOf(r.world.requests[j])
  {
    var w1, w2 := StagePhases(w, target, lists, options);
    PhasesOrdered(w, w1, w2, StagesRun(w, target, lists, options).world);
  }

  /** The states between the stages: roles issue only stage-1 requests,
      channels only stage-2 ones, emoji only stage-3 ones. */
  lemma StagePhases(w: World, target: Id, lists: SourceLists, options: Option<map<string, bool>>) returns (w1: World, w2: World)
    ensures IssuesOnly(w, w1, InStage(1)) && IssuesOnly(w1, w2, InStage(2))
    ensures IssuesOnly(w2, StagesRun(w, target, lists, options).world, InStage(3))
  {
    var roles := if Enabled(options, "roles") then Run(w, RolesToCreate(lists.roles), RoleStepOf(target)) else Outcome(w, false, 0);
    w1 := roles.world;
    if Enabled(options, "roles") {
      RolesInStage(w, target, RolesToCreate(lists.roles));
    }
    var channels := if Enabled(options, "channels") then ChannelsRun(w1, target, Enabled(options, "permissions"), lists.channels) else Outcome(w1, false, 0);
    w2 := if roles.raised then w1 else channels.world;
    if !roles.raised && Enabled(options, "channels") {
      ChannelsInStage(w1, target, Enabled(options, "permissions"), lists.channels);
    }
    if !roles.raised && !channels.raised && Enabled(options, "emojis") {
      EmojisInStage(w2, target, lists.emojis);
    }
  }

  /** Requests issued in three consecutive phases come in stage order. */
  lemma PhasesOrdered(w: World, w1: World, w2: World, w3: World)
    requires IssuesOnly(w, w1, InStage(1)) && IssuesOnly(w1, w2, InStage(2)) && IssuesOnly(w2, w3, InStage(3))
    ensures |w.requests| <= |w3.requests| && w3.requests[..|w.requests|] == w.requests
    ensures forall i :: |w.requests| <= i < |w3.requests| ==> 1 <= StageOf(w3.requests[i])
    ensures forall i, j :: |w.requests| <= i < j < |w3.requests| ==> StageOf(w3.requests[i]) <= StageOf(w3.requests[j])
  {
    var a, b, c, d := |w.requests|, |w1.requests|, |w2.requests|, |w3.requests|;
    IssuesOnlyTrans(w, w1, w2, req => true);
    IssuesOnlyTrans(w, w2, w3, req => true);
    forall i | a <= i < d ensures StageOf(w3.requests[i]) == (if i < b then 1 else if i < c then 2 else 3) {
      if i < c {
        assert w3.requests[i] == w3.requests[..c][i] == w2.requests[i];
        if i < b {
          assert w2.requests[i] == w2.requests[..b][i] == w1.requests[i];
        }
      }
    }
  }

  // ---------------------------------------------------------------------------
  // One guild.

  lemma RolesKeepGuildMap(w: World, guild: Id, roles: seq<Role>)
    ensures Run(w, roles, RoleStepOf(guild)).world.guildMap == w.guildMap
  {
    forall v: World, r: Role ensures RoleStepOf(guild)(v, r).world.guildMap == v.guildMap {
      assert RoleStepOf(guild)(v, r) == RoleStep(v, guild, r);
    }
    RunKeeps(w, roles, RoleStepOf(guild), (v: World) => v.guildMap);
  }

  lemma ChannelsKeepGuildMap(w: World, guild: Id, permissions: bool, channels: seq<Channel>)
    ensures ChannelsRun(w, guild, permissions, channels).world.guildMap == w.guildMap
  {
    forall v: World, c: Channel ensures CategoryStepOf(guild)(v, c).world.guildMap == v.guildMap {
      assert CategoryStepOf(guild)(v, c) == CategoryStep(v, guild, c);
    }
    forall v: World, c: Channel ensures LeafStepOf(guild, permissions)(v, c).world.guildMap == v.guildMap {
      if IsCreatedKind(c.kind.GetOr(0)) {
        LeafCreated(v, guild, permissions, c);
      } else {
        LeafSkipped(v, guild, permissions, c);
      }
    }
    RunKeeps(w, CategoriesToCreate(channels), CategoryStepOf(guild), (v: World) => v.guildMap);
    var categories := Run(w, CategoriesToCreate(channels), CategoryStepOf(guild));
    RunKeeps(categories.world, SortBy(channels, ChannelPosition), LeafStepOf(guild, permissions), (v: World) => v.guildMap);
  }

  lemma EmojisKeepGuildMap(w: World, guild: Id, emojis: seq<Emoji>)
    ensures EmojisRun(w, guild, emojis).world.guildMap == w.guildMap
  {
    forall v: World, e: Emoji ensures EmojiStepOf(guild)(v, e).world.guildMap == v.guildMap {
      assert EmojiStepOf(guild)(v, e) == EmojiStep(v, guild, e);
    }
    RunKeeps(w, emojis, EmojiStepOf(guild), (v: World) => v.guildMap);
  }

  /** The stages never change the guild table. */
  lemma StagesKeepGuildMap(w: World, target: Id, lists: SourceLists, options: Option<map<string, bool>>)
    ensures StagesRun(w, target, lists, options).world.guildMap == w.guildMap
  {
    var roles := if Enabled(options, "roles") then Run(w, RolesToCreate(lists.roles), RoleStepOf(target)) else Outcome(w, false, 0);
    RolesKeepGuildMap(w, target, RolesToCreate(lists.roles));
    assert roles.world.guildMap == w.guildMap;
    if !roles.raised {
      var w1 := roles.world;
      var channels := if Enabled(options, "channels") then ChannelsRun(w1, target, Enabled(options, "permissions"), lists.channels) else Outcome(w1, false, 0);
      ChannelsKeepGuildMap(w1, target, Enabled(options, "permissions"), lists.channels);
      assert channels.world.guildMap == w.guildMap;
      if !channels.raised {
        EmojisKeepGuildMap(channels.world, target, lists.emojis);
      }
    }
  }

  /** Resolving the destination guild: the existing id is used as it is, with
      no call; otherwise one creation call, whose outcome is the id. */
  lemma ResolveGuildEffect(w: World, guild: Guild, existing: Option<Id>)
    ensures var resolved := ResolveGuild(w, guild, existing);
      && resolved.reply == (if Truthy(existing) then existing else Reply(w.replies, 0))
      && resolved.world.guildMap == w.guildMap
  {
  }

  /** The destination id of the guild: the existing one, or the id returned by
      the creation call. */
  function GuildTarget(w: World, existing: Option<Id>): Id {
    if Truthy(existing) then existing.value else Reply(w.replies, 0).GetOr("")
  }

  /** `migrate_server` without both clients does nothing and fails; a failed
      guild creation fails with the guild table unchanged; otherwise the
      source guild id is mapped to the destination guild, whatever the
      stages then do, and success needs a destination guild. */
  lemma ServerRunGuild(w: World, src: SourceData, ready: bool, guild: Guild, existing: Option<Id>, options: Option<map<string, bool>>)
    ensures var r := ServerRun(w, src, ready, guild, existing, options);
      && (!ready ==> r == Result(w, false))
      && (ready && !Truthy(existing) && Reply(w.replies, 0).None? ==> !r.success && r.world.guildMap == w.guildMap)
      && (ready && (Truthy(existing) || Reply(w.replies, 0).Some?) ==>
            r.world.guildMap == w.guildMap[guild.id := GuildTarget(w, existing)])
      && (r.success ==> ready && (Truthy(existing) || Reply(w.replies, 0).Some?))
  {
    if ready {
      var resolved := ResolveGuild(w, guild, existing);
      ResolveGuildEffect(w, guild, existing);
      if resolved.reply.Some? {
        var target := resolved.reply.value;
        assert target == GuildTarget(w, existing);
        var mapped := resolved.world.(guildMap := resolved.world.guildMap[guild.id := target]);
        var fetched := FetchSource(mapped, src, guild.id, options);
        FetchSourceEffect(mapped, src, guild.id, options);
        assert fetched.world.guildMap == mapped.guildMap;
        if fetched.lists.Some? {
          StagesKeepGuildMap(fetched.world, target, fetched.lists.value, options);
        }
      }
    }
  }

  predicate IsRead(req: Request) {
    req.FetchRoles? || req.FetchChannels? || req.FetchEmojis?
  }

  /** The Discord reads: roles when roles are enabled, channels when channels
      or permissions are, emoji when emoji are, in that order; the lists are
      available exactly when every read made found the guild, and a kind not
      read is an empty list. */
  lemma FetchSourceEffect(w: World, src: SourceData, guild: Id, options: Option<map<string, bool>>)
    ensures var f := FetchSource(w, src, guild, options);
      && IssuesOnly(w, f.world, IsRead)
      && f.world == w.(requests := f.world.requests)
      && (f.lists.Some? <==>
            (Enabled(options, "roles") ==> guild in src.roles)
            && (FetchesChannels(options) ==> guild in src.channels)
            && (Enabled(options, "emojis") ==> guild in src.emojis))
      && (f.lists.Some? ==>
            && f.world.requests == w.requests + (if Enabled(options, "roles") then [FetchRoles(guild)] else [])
                 + (if FetchesChannels(options) then [FetchChannels(guild)] else [])
                 + (if Enabled(options, "emojis") then [FetchEmojis(guild)] else [])
            && (!Enabled(options, "roles") ==> f.lists.value.roles == [])
            && (!FetchesChannels(options) ==> f.lists.value.channels == [])
            && (!Enabled(options, "emojis") ==> f.lists.value.emojis == []))
  {
    FetchSourceReads(w, src, guild, options);
    FetchSourceLists(w, src, guild, options);
  }

  /** The reads are the only change, and only reads are issued. */
  lemma FetchSourceReads(w: World, src: SourceData, guild: Id, options: Option<map<string, bool>>)
    ensures var f := FetchSource(w, src, guild, options);
      && IssuesOnly(w, f.world, IsRead)
      && f.world == w.(requests := f.world.requests)
  {
    var w1 := if Enabled(options, "roles") then w.(requests := w.requests + [FetchRoles(guild)]) else w;
    var w2 := if FetchesChannels(options) then w1.(requests := w1.requests + [FetchChannels(guild)]) else w1;
    var w3 := if Enabled(options, "emojis") then w2.(requests := w2.requests + [FetchEmojis(guild)]) else w2;
    ReadIssued(w, w1);
    ReadIssued(w1, w2);
    ReadIssued(w2, w3);
    IssuesOnlyTrans(w, w1, w2, IsRead);
    IssuesOnlyTrans(w, w2, w3, IsRead);
  }

  /** Issuing at most one read. */
  lemma ReadIssued(w: World, after: World)
    requires after == w || exists req :: IsRead(req) && after == w.(requests := w.requests + [req])
    ensures IssuesOnly(w, after, IsRead) && after == w.(requests := after.requests)
  {
    if after != w {
      var req :| IsRead(req) && after == w.(requests := w.requests + [req]);
      assert after.requests[..|w.requests|] == w.requests;
    }
  }

  lemma FetchSourceLists(w: World, src: SourceData, guild: Id, options: Option<map<string, bool>>)
    ensures var f := FetchSource(w, src, guild, options);
      && (f.lists.Some? <==>
            (Enabled(options, "roles") ==> guild in src.roles)
            && (FetchesChannels(options) ==> guild in src.channels)
            && (Enabled(options, "emojis") ==> guild in src.emojis))
      && (f.lists.Some? ==>
            && f.world.requests == w.requests + (if Enabled(options, "roles") then [FetchRoles(guild)] else [])
                 + (if FetchesChannels(options) then [FetchChannels(guild)] else [])
                 + (if Enabled(options, "emojis") then [FetchEmojis(guild)] else [])
            && (!Enabled(options, "roles") ==> f.lists.value.roles == [])
            && (!FetchesChannels(options) ==> f.lists.value.channels == [])
            && (!Enabled(options, "emojis") ==> f.lists.value.emojis == []))
  {
  }

  predicate NotGuildCreation(req: Request) {
    !req.CreateGuild?
  }

  /** Everything after the guild is resolved: no guild is ever created. */
  lemma AfterResolution(mapped: World, src: SourceData, guild: Guild, target: Id, options: Option<map<string, bool>>)
    ensures var fetched := FetchSource(mapped, src, guild.id, options);
      var final := if fetched.lists.Some? then StagesRun(fetched.world, target, fetched.lists.value, options).world else fetched.world;
      IssuesOnly(mapped, final, NotGuildCreation)
  {
    var fetched := FetchSource(mapped, src, guild.id, options);
    FetchSourceEffect(mapped, src, guild.id, options);
    assert IssuesOnly(mapped, fetched.world, NotGuildCreation);
    if fetched.lists.Some? {
      var r := StagesRun(fetched.world, target, fetched.lists.value, options);
      StagesInOrder(fetched.world, target, fetched.lists.value, options);
      assert IssuesOnly(fetched.world, r.world, NotGuildCreation) by {
        forall j | |fetched.world.requests| <= j < |r.world.requests| ensures NotGuildCreation(r.world.requests[j]) {
          assert 1 <= StageOf(r.world.requests[j]);
        }
      }
      IssuesOnlyTrans(mapped, fetched.world, r.world, NotGuildCreation);
    }
  }

  /** With an existing destination guild, no guild is created; without one,
      the icon is downloaded when the source guild has one, and the guild is
      then created under the source name with that image. */
  lemma ServerRunGuildCreation(w: World, src: SourceData, guild: Guild, existing: Option<Id>, options: Option<map<string, bool>>)
    ensures var r := ServerRun(w, src, true, guild, existing, options);
      var icon := if Truthy(guild.icon) then Reply(w.images, 0) else None;
      var creation := (if Truthy(guild.icon) then [DownloadImage(IconUrl(guild.id, guild.icon.value))] else [])
                      + [CreateGuild(guild.name, icon)];
      && (Truthy(existing) ==> IssuesOnly(w, r.world, NotGuildCreation))
      && (!Truthy(existing) ==>
            |w.requests| + |creation| <= |r.world.requests|
            && r.world.requests[..|w.requests| + |creation|] == w.requests + creation)
  {
    var resolved := ResolveGuild(w, guild, existing);
    var r := ServerRun(w, src, true, guild, existing, options);
    ResolveGuildRequests(w, guild, existing);
    ServerRunAfterResolution(w, src, guild, existing, options);
    assert r.world.requests[..|resolved.world.requests|] == resolved.world.requests;
  }

  /** Resolving the guild issues nothing for an existing guild, and otherwise
      the icon download, when there is an icon, and the creation call. */
  lemma ResolveGuildRequests(w: World, guild: Guild, existing: Option<Id>)
    ensures var resolved := ResolveGuild(w, guild, existing);
      var icon := if Truthy(guild.icon) then Reply(w.images, 0) else None;
      && (Truthy(existing) ==> resolved.world == w)
      && (!Truthy(existing) ==>
            resolved.world.requests == w.requests + (if Truthy(guild.icon) then [DownloadImage(IconUrl(guild.id, guild.icon.value))] else [])
                                       + [CreateGuild(guild.name, icon)])
  {
  }

  /** After the guild is resolved, `migrate_server` creates no guild. */
  lemma ServerRunAfterResolution(w: World, src: SourceData, guild: Guild, existing: Option<Id>, options: Option<map<string, bool>>)
    ensures IssuesOnly(ResolveGuild(w, guild, existing).world, ServerRun(w, src, true, guild, existing, options).world, NotGuildCreation)
  {
    var resolved := ResolveGuild(w, guild, existing);
    if resolved.reply.Some? {
      var mapped := resolved.world.(guildMap := resolved.world.guildMap[guild.id := resolved.reply.value]);
      AfterResolution(mapped, src, guild, resolved.reply.value, options);
    } else {
      assert resolved.world.requests[..|resolved.world.requests|] == resolved.world.requests;
    }
  }

  // ---------------------------------------------------------------------------
  // The forum topic.

  /** A topic text that does not end in whitespace follows the marker unchanged. */
  lemma MarkerThenText(s: string)
    requires s != [] && s[|s| - 1] !in Whitespace
    ensures Strip(ForumMarker + s, Whitespace) == ForumMarker + s
  {
    var t := ForumMarker + s;
    assert t[0] == 'C';
    assert t[|t| - 1] == s[|s| - 1];
    StripKeeps(t, Whitespace);
  }

  /** As written, a forum whose topic is JSON null gets the text "None" after
      the marker. */
  lemma ForumTopicNullAsWritten(t: JsonText)
    requires t.Null?
    ensures ForumTopicAsWritten(t) == ForumMarker + "None"
  {
    MarkerThenText("None");
  }

  /** The channel that a forum with a JSON null topic is converted to, as
      written, carries the topic "Converted from forum. None". */
  lemma ForumLeafNullTopic(c: Channel, parent: Option<Id>)
    requires c.topic.Null?
    ensures LeafSpec(c, 15, parent).topic == Some(ForumMarker + "None")
  {
    var topic := ForumTopicAsWritten(c.topic);
    assert LeafSpec(c, 15, parent).topic == Some(topic);
    ForumTopicNullAsWritten(c.topic);
  }

  /** The corrected topic of a null-topic forum is that of a forum without a
      topic: no longer than the bare marker, so it differs from the topic as
      written. */
  lemma ForumTopicNullCorrected(t: JsonText, missing: JsonText)
    requires t.Null? && missing.Absent?
    ensures ForumTopic(t) == ForumTopic(missing)
    ensures |ForumTopic(t)| <= |ForumMarker|
    ensures ForumTopic(t) != ForumTopicAsWritten(t)
  {
    ForumTopicNullAsWritten(t);
    LongerThanPrefix(ForumMarker, "None");
  }

  lemma LongerThanPrefix(m: string, s: string)
    requires s != []
    ensures |m + s| > |m|
  {
  }

  /** A present topic follows the marker unchanged, as written and corrected,
      when it does not end in whitespace. */
  lemma ForumTopicOfText(s: string)
    requires s != [] && s[|s| - 1] !in Whitespace
    ensures ForumTopic(Text(s)) == ForumTopicAsWritten(Text(s)) == ForumMarker + s
  {
    assert ForumTopic(Text(s)) == Strip(ForumMarker + s, Whitespace);
    assert ForumTopicAsWritten(Text(s)) == Strip(ForumMarker + s, Whitespace);
    MarkerThenText(s);
  }
}
