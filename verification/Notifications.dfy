/** The notification stream as a replicated view (storage/interceptors/notifications_interceptor.go, pkg/util/slice). */
module Notifications {

  /** A stored object, labels aside. */
  datatype Object = Object(id: string, ready: bool, body: string)

  /** Which platforms an object is for; the empty id stands for all of them. */
  type Recipients = Object -> seq<string>

  datatype Notification =
    | Created(platform: string, current: Object)
    | Modified(platform: string, current: Object, former: Object)
    | Deleted(platform: string, former: Object)

  type Store = map<string, Object>

  // ----- pkg/util/slice -----

  function Common(a: seq<string>, b: seq<string>): seq<string> {
    if b == [] then []
    else Common(a, b[..|b| - 1]) + if b[|b| - 1] in a then [b[|b| - 1]] else []
  }

  function Missing(a: seq<string>, b: seq<string>): seq<string> {
    if a == [] then []
    else Missing(a[..|a| - 1], b) + if a[|a| - 1] in b then [] else [a[|a| - 1]]
  }

  /** StringsDistinct: what is only in a, and the end of b when b is the longer one. */
  function Distinct(a: seq<string>, b: seq<string>): seq<string> {
    Missing(a, b) + if |b| > |a| then b[|a|..] else []
  }

  lemma {:induction false} CommonMembers(a: seq<string>, b: seq<string>)
    ensures forall s :: s in Common(a, b) <==> s in a && s in b
    ensures |Common(a, b)| <= |b|
  {
    if b != [] {
      CommonMembers(a, b[..|b| - 1]);
      assert b == b[..|b| - 1] + [b[|b| - 1]];
    }
  }

  lemma {:induction false} MissingMembers(a: seq<string>, b: seq<string>)
    ensures forall s :: s in Missing(a, b) <==> s in a && s !in b
  {
    if a != [] {
      MissingMembers(a[..|a| - 1], b);
      assert a == a[..|a| - 1] + [a[|a| - 1]];
    }
  }

  method StringsIntersection(a: seq<string>, b: seq<string>) returns (r: seq<string>)
    ensures r == Common(a, b)
  {
    var strings := {};
    for i := 0 to |a|
      invariant forall s :: s in strings <==> s in a[..i]
    {
      strings := strings + {a[i]};
    }
    assert a[..|a|] == a;
    r := [];
    for i := 0 to |b|
      invariant r == Common(a, b[..i])
    {
      assert b[..i + 1][..i] == b[..i];
      if b[i] in strings {
        r := r + [b[i]];
      }
    }
    assert b[..|b|] == b;
  }

  method StringsDistinct(a: seq<string>, b: seq<string>) returns (r: seq<string>)
    ensures r == Distinct(a, b)
  {
    r := [];
    for i := 0 to |a|
      invariant r == Missing(a[..i], b)
    {
      assert a[..i + 1][..i] == a[..i];
      if a[i] !in b {
        r := r + [a[i]];
      }
    }
    assert a[..|a|] == a;
    if |b| > |a| {
      r := r + b[|a|..];
    }
  }

  /** determinePlatformIDs, as sets: those that stay, those that are new, and those that are gone. A recipient named more
      than once can also turn up among the removed ones, but then it is one that stays. */
  lemma PlatformsDetermined(before: seq<string>, after: seq<string>)
    ensures var pre := Common(before, after);
            && (forall s :: s in pre + Distinct(after, pre) <==> s in after)
            && (forall s :: s in Distinct(after, pre) ==> s in after)
            && (forall s :: s in before && s !in after ==> s in Distinct(before, pre))
            && (forall s :: s in Distinct(before, pre) ==> s in before || s in after)
  {
    var pre := Common(before, after);
    CommonMembers(before, after);
    MissingMembers(after, pre);
    MissingMembers(before, pre);
  }

  // ----- what the interceptor writes -----

  function CreatedFor(platforms: seq<string>, o: Object): seq<Notification> {
    seq(|platforms|, i requires 0 <= i < |platforms| => Created(platforms[i], o))
  }

  function ModifiedFor(platforms: seq<string>, o: Object, former: Object): seq<Notification> {
    seq(|platforms|, i requires 0 <= i < |platforms| => Modified(platforms[i], o, former))
  }

  function DeletedFor(platforms: seq<string>, former: Object): seq<Notification> {
    seq(|platforms|, i requires 0 <= i < |platforms| => Deleted(platforms[i], former))
  }

  function OnCreate(to: Recipients, o: Object): seq<Notification> {
    if o.ready then CreatedFor(to(o), o) else []
  }

  function OnUpdate(to: Recipients, former: Object, o: Object): seq<Notification> {
    if !o.ready then []
    else if !former.ready then CreatedFor(to(o), o)
    else
      var pre := Common(to(former), to(o));
      var added := Distinct(to(o), pre);
      CreatedFor(added, o) + DeletedFor(Distinct(to(former), pre), former) + ModifiedFor(pre + added, o, former)
  }

  function OnDelete(to: Recipients, objects: seq<Object>): seq<Notification> {
    if objects == [] then []
    else
      var last := objects[|objects| - 1];
      OnDelete(to, objects[..|objects| - 1]) + DeletedFor(to(last), last)
  }

  class NotificationsInterceptor {
    const to: Recipients
    var log: seq<Notification>

    constructor (to: Recipients)
      ensures this.to == to && log == []
    {
      this.to, log := to, [];
    }

    /** The loops over platforms, one notification for each. */
    method NotifyCreated(platforms: seq<string>, o: Object)
      modifies this
      ensures log == old(log) + CreatedFor(platforms, o)
    {
      for i := 0 to |platforms|
        invariant log == old(log) + CreatedFor(platforms, o)[..i]
      {
        log := log + [Created(platforms[i], o)];
      }
    }

    method NotifyModified(platforms: seq<string>, o: Object, former: Object)
      modifies this
      ensures log == old(log) + ModifiedFor(platforms, o, former)
    {
      for i := 0 to |platforms|
        invariant log == old(log) + ModifiedFor(platforms, o, former)[..i]
      {
        log := log + [Modified(platforms[i], o, former)];
      }
    }

    method NotifyDeleted(platforms: seq<string>, former: Object)
      modifies this
      ensures log == old(log) + DeletedFor(platforms, former)
    {
      for i := 0 to |platforms|
        invariant log == old(log) + DeletedFor(platforms, former)[..i]
      {
        log := log + [Deleted(platforms[i], former)];
      }
    }

    method OnTxCreate(o: Object)
      modifies this
      ensures log == old(log) + OnCreate(to, o)
    {
      var platforms := to(o);
      if !o.ready {
        return;
      }
      NotifyCreated(platforms, o);
    }

    method OnTxUpdate(former: Object, o: Object)
      modifies this
      ensures log == old(log) + OnUpdate(to, former, o)
    {
      var oldPlatforms := to(former);
      if !o.ready {
        return;
      }
      var platforms := to(o);
      if !former.ready {
        NotifyCreated(platforms, o);
        return;
      }
      var pre := StringsIntersection(oldPlatforms, platforms);
      var added := StringsDistinct(platforms, pre);
      var removed := StringsDistinct(oldPlatforms, pre);
      NotifyCreated(added, o);
      NotifyDeleted(removed, former);
      NotifyModified(pre + added, o, former);
    }

    method OnTxDelete(objects: seq<Object>)
      modifies this
      ensures log == old(log) + OnDelete(to, objects)
    {
      for i := 0 to |objects|
        invariant log == old(log) + OnDelete(to, objects[..i])
      {
        NotifyDeleted(to(objects[i]), objects[i]);
        assert objects[..i + 1][..i] == objects[..i];
      }
      assert objects[..|objects|] == objects;
    }
  }

  // ----- a platform replays what it is sent -----

  predicate For(n: Notification, platform: string) {
    n.platform == platform || n.platform == ""
  }

  /** What a platform makes of one notification. A strict platform changes on MODIFIED only what it holds; any other takes
      the object over. */
  function Receive(strict: bool, view: Store, n: Notification, platform: string): Store {
    if !For(n, platform) then view
    else match n
         case Created(_, o) => view[o.id := o]
         case Modified(_, o, _) => if strict && o.id !in view then view else view[o.id := o]
         case Deleted(_, former) => view - {former.id}
  }

  function Replay(strict: bool, view: Store, log: seq<Notification>, platform: string): Store {
    if log == [] then view
    else Receive(strict, Replay(strict, view, log[..|log| - 1], platform), log[|log| - 1], platform)
  }

  /** The platform is among these recipients. */
  predicate Sees(platform: string, platforms: seq<string>) {
    platform in platforms || "" in platforms
  }

  lemma {:induction false} ReplayAppend(strict: bool, view: Store, a: seq<Notification>, b: seq<Notification>, platform: string)
    ensures Replay(strict, view, a + b, platform) == Replay(strict, Replay(strict, view, a, platform), b, platform)
    decreases |b|
  {
    if b == [] {
      assert a + b == a;
    } else {
      ReplayAppend(strict, view, a, b[..|b| - 1], platform);
      assert (a + b)[..|a + b| - 1] == a + b[..|b| - 1];
    }
  }

  lemma {:induction false} ReplayCreated(strict: bool, view: Store, o: Object, platforms: seq<string>, platform: string)
    ensures Replay(strict, view, CreatedFor(platforms, o), platform)
         == if Sees(platform, platforms) then view[o.id := o] else view
  {
    if platforms != [] {
      var n := |platforms| - 1;
      ReplayCreated(strict, view, o, platforms[..n], platform);
      assert CreatedFor(platforms, o)[..n] == CreatedFor(platforms[..n], o);
      assert platforms == platforms[..n] + [platforms[n]];
    }
  }

  lemma {:induction false} ReplayModified(strict: bool, view: Store, o: Object, former: Object, platforms: seq<string>, platform: string)
    ensures Replay(strict, view, ModifiedFor(platforms, o, former), platform)
         == if Sees(platform, platforms) && !(strict && o.id !in view) then view[o.id := o] else view
  {
    if platforms != [] {
      var n := |platforms| - 1;
      ReplayModified(strict, view, o, former, platforms[..n], platform);
      assert ModifiedFor(platforms, o, former)[..n] == ModifiedFor(platforms[..n], o, former);
      assert platforms == platforms[..n] + [platforms[n]];
    }
  }

  lemma {:induction false} ReplayDrops(strict: bool, view: Store, former: Object, platforms: seq<string>, platform: string)
    ensures Replay(strict, view, DeletedFor(platforms, former), platform)
         == if Sees(platform, platforms) then view - {former.id} else view
  {
    if platforms != [] {
      var n := |platforms| - 1;
      ReplayDrops(strict, view, former, platforms[..n], platform);
      assert DeletedFor(platforms, former)[..n] == DeletedFor(platforms[..n], former);
      assert platforms == platforms[..n] + [platforms[n]];
    }
  }

  // ----- runs -----

  datatype State = State(db: Store, log: seq<Notification>)

  datatype Event = Create(o: Object) | Update(o: Object) | Delete(objects: seq<Object>)

  /** The transaction can take place: the id is new, or is there, or the objects are exactly stored ones. */
  ghost predicate Enabled(s: State, e: Event) {
    match e
    case Create(o) => o.id !in s.db
    case Update(o) => o.id in s.db
    case Delete(objects) =>
      && (forall i | 0 <= i < |objects| :: objects[i].id in s.db && s.db[objects[i].id] == objects[i])
  }

  function Ids(objects: seq<Object>): set<string> {
    set o | o in objects :: o.id
  }

  ghost function Next(to: Recipients, s: State, e: Event): State
    requires Enabled(s, e)
  {
    match e
    case Create(o) => State(s.db[o.id := o], s.log + OnCreate(to, o))
    case Update(o) => State(s.db[o.id := o], s.log + OnUpdate(to, s.db[o.id], o))
    case Delete(objects) => State(s.db - Ids(objects), s.log + OnDelete(to, objects))
  }

  ghost predicate IsRun(to: Recipients, states: seq<State>, events: seq<Event>) {
    && |states| == |events| + 1 && states[0] == State(map[], [])
    && forall i | 0 <= i < |events| :: Enabled(states[i], events[i]) && states[i + 1] == Next(to, states[i], events[i])
  }

  predicate Stored(db: Store) {
    forall id | id in db :: db[id].id == id
  }

  /** What the platform should hold: the stored objects that are ready and for it. */
  function Target(to: Recipients, db: Store, platform: string): Store {
    map id | id in db && db[id].ready && Sees(platform, to(db[id])) :: db[id]
  }

  ghost predicate Right(strict: bool, to: Recipients, s: State, platform: string) {
    Replay(strict, map[], s.log, platform) == Target(to, s.db, platform)
  }

  /** Of two lists of recipients: the platform is to keep the object, and is sent DELETED between CREATED and MODIFIED. */
  predicate DroppedBetween(before: seq<string>, after: seq<string>, platform: string) {
    Sees(platform, after) && Sees(platform, Distinct(before, Common(before, after)))
  }

  /** The steps that leave a platform behind: an object of its own stops being ready, or, where MODIFIED does not bring it
      back, is dropped between. */
  predicate Spoils(strict: bool, to: Recipients, s: State, e: Event, platform: string) {
    && e.Update? && e.o.id in s.db && s.db[e.o.id].ready
    && if e.o.ready then strict && DroppedBetween(to(s.db[e.o.id]), to(e.o), platform)
       else Sees(platform, to(s.db[e.o.id]))
  }

  /** CREATED for some, DELETED for some, MODIFIED for some. */
  lemma ReplayThree(strict: bool, view: Store, added: seq<string>, removed: seq<string>, kept: seq<string>, former: Object,
                    o: Object, platform: string)
    ensures var v1 := if Sees(platform, added) then view[o.id := o] else view;
            var v2 := if Sees(platform, removed) then v1 - {former.id} else v1;
            Replay(strict, view, CreatedFor(added, o) + DeletedFor(removed, former) + ModifiedFor(kept, o, former), platform)
            == if Sees(platform, kept) && !(strict && o.id !in v2) then v2[o.id := o] else v2
  {
    var created, deleted, modified := CreatedFor(added, o), DeletedFor(removed, former), ModifiedFor(kept, o, former);
    ReplayAppend(strict, view, created + deleted, modified, platform);
    ReplayAppend(strict, view, created, deleted, platform);
    ReplayCreated(strict, view, o, added, platform);
    var v1 := Replay(strict, view, created, platform);
    ReplayDrops(strict, v1, former, removed, platform);
    ReplayModified(strict, Replay(strict, v1, deleted, platform), o, former, kept, platform);
  }

  lemma SeesDetermined(before: seq<string>, after: seq<string>, platform: string)
    ensures var pre := Common(before, after); var added := Distinct(after, pre);
            && (Sees(platform, pre + added) <==> Sees(platform, after))
            && (Sees(platform, added) ==> Sees(platform, after))
            && (Sees(platform, after) && !Sees(platform, added) ==> Sees(platform, before))
            && (Sees(platform, before) && !Sees(platform, after) ==> Sees(platform, Distinct(before, pre)))
  {
    PlatformsDetermined(before, after);
    CommonMembers(before, after);
  }

  lemma PutLast(view: Store, id: string, o: Object)
    ensures (view - {id})[id := o] == view[id := o]
    ensures (view[id := o] - {id})[id := o] == view[id := o]
    ensures id !in view ==> view - {id} == view
    ensures view[id := o] - {id} == view - {id}
  {
  }

  lemma ReplayUpdate(strict: bool, to: Recipients, view: Store, former: Object, o: Object, platform: string)
    requires former.ready && o.ready && former.id == o.id
    requires former.id in view <==> Sees(platform, to(former))
    ensures Replay(strict, view, OnUpdate(to, former, o), platform)
         == if Sees(platform, to(o)) && !(strict && DroppedBetween(to(former), to(o), platform)) then view[o.id := o]
            else view - {o.id}
  {
    var pre := Common(to(former), to(o));
    var added, removed := Distinct(to(o), pre), Distinct(to(former), pre);
    SeesDetermined(to(former), to(o), platform);
    ReplayThree(strict, view, added, removed, pre + added, former, o, platform);
    PutLast(view, o.id, o);
  }

  lemma DropMore(view: Store, init: seq<Object>, last: Object)
    ensures view - Ids(init) - {last.id} == view - Ids(init + [last])
    ensures last.id !in view - Ids(init) ==> view - Ids(init) == view - Ids(init + [last])
  {
    assert Ids(init + [last]) == Ids(init) + {last.id};
  }

  lemma {:induction false} ReplayDelete(strict: bool, to: Recipients, view: Store, objects: seq<Object>, platform: string)
    requires forall o | o in objects && o.id in view :: Sees(platform, to(o))
    ensures Replay(strict, view, OnDelete(to, objects), platform) == view - Ids(objects)
  {
    if objects == [] {
      assert view - Ids([]) == view;
    } else {
      var n := |objects| - 1;
      var init, last := objects[..n], objects[n];
      ReplayDelete(strict, to, view, init, platform);
      ReplayAppend(strict, view, OnDelete(to, init), DeletedFor(to(last), last), platform);
      ReplayDrops(strict, view - Ids(init), last, to(last), platform);
      DropMore(view, init, last);
      assert objects == init + [last];
    }
  }

  /** What the platform holds after some more notifications. */
  lemma RightAfter(strict: bool, to: Recipients, s: State, s': State, more: seq<Notification>, platform: string)
    requires Right(strict, to, s, platform) && s'.log == s.log + more
    ensures Right(strict, to, s', platform) <==>
              Replay(strict, Target(to, s.db, platform), more, platform) == Target(to, s'.db, platform)
  {
    ReplayAppend(strict, map[], s.log, more, platform);
  }

  lemma TargetAfterPut(to: Recipients, db: Store, o: Object, platform: string)
    ensures Target(to, db[o.id := o], platform)
         == if o.ready && Sees(platform, to(o)) then Target(to, db, platform)[o.id := o]
            else Target(to, db, platform) - {o.id}
  {
  }

  lemma CreateKeepsRight(strict: bool, to: Recipients, s: State, o: Object, platform: string)
    requires o.id !in s.db && Right(strict, to, s, platform)
    ensures Right(strict, to, Next(to, s, Create(o)), platform)
  {
    var view := Target(to, s.db, platform);
    RightAfter(strict, to, s, Next(to, s, Create(o)), OnCreate(to, o), platform);
    TargetAfterPut(to, s.db, o, platform);
    assert view - {o.id} == view;
    if o.ready {
      ReplayCreated(strict, view, o, to(o), platform);
    }
  }

  lemma DeleteKeepsRight(strict: bool, to: Recipients, s: State, objects: seq<Object>, platform: string)
    requires Enabled(s, Delete(objects)) && Right(strict, to, s, platform)
    ensures Right(strict, to, Next(to, s, Delete(objects)), platform)
  {
    var view := Target(to, s.db, platform);
    RightAfter(strict, to, s, Next(to, s, Delete(objects)), OnDelete(to, objects), platform);
    ReplayDelete(strict, to, view, objects, platform);
    assert Target(to, s.db - Ids(objects), platform) == view - Ids(objects);
  }

  lemma UpdateKeepsRightIff(strict: bool, to: Recipients, s: State, o: Object, platform: string)
    requires Stored(s.db) && o.id in s.db && Right(strict, to, s, platform)
    ensures Right(strict, to, Next(to, s, Update(o)), platform) <==> !Spoils(strict, to, s, Update(o), platform)
  {
    var view, former := Target(to, s.db, platform), s.db[o.id];
    RightAfter(strict, to, s, Next(to, s, Update(o)), OnUpdate(to, former, o), platform);
    TargetAfterPut(to, s.db, o, platform);
    assert o.id in view <==> former.ready && Sees(platform, to(former));
    if !o.ready {
      assert view - {o.id} == view <==> o.id !in view;
    } else if !former.ready {
      assert view - {o.id} == view;
      ReplayCreated(strict, view, o, to(o), platform);
    } else {
      ReplayUpdate(strict, to, view, former, o, platform);
    }
  }

  /** One step keeps the view right exactly when it does not take an object of the platform from ready to not ready, nor,
      for a strict platform, drops it between. */
  lemma StepKeepsRightIff(strict: bool, to: Recipients, s: State, e: Event, platform: string)
    requires Stored(s.db) && Enabled(s, e) && Right(strict, to, s, platform)
    ensures Right(strict, to, Next(to, s, e), platform) <==> !Spoils(strict, to, s, e, platform)
  {
    match e
    case Create(o) => CreateKeepsRight(strict, to, s, o, platform);
    case Update(o) => UpdateKeepsRightIff(strict, to, s, o, platform);
    case Delete(objects) => DeleteKeepsRight(strict, to, s, objects, platform);
  }

  lemma {:induction false} RunIsStored(to: Recipients, states: seq<State>, events: seq<Event>, i: nat)
    requires IsRun(to, states, events) && i < |states|
    ensures Stored(states[i].db)
  {
    if i > 0 {
      RunIsStored(to, states, events, i - 1);
      assert states[i - 1 + 1] == Next(to, states[i - 1], events[i - 1]);
    }
  }

  /** Replaying its notifications gives a platform, at every point of a run up to n, exactly the ready objects that are
      for it, if and only if no step up to there took one of its objects from ready to not ready, nor, for a strict
      platform, moved an object so that it was dropped between CREATED and MODIFIED. */
  lemma {:induction false} ReplayIsRightIff(strict: bool, to: Recipients, states: seq<State>, events: seq<Event>, platform: string, n: nat)
    requires IsRun(to, states, events) && n < |states|
    ensures (forall i | 0 <= i <= n :: Right(strict, to, states[i], platform))
       <==> (forall i | 0 <= i < n :: !Spoils(strict, to, states[i], events[i], platform))
  {
    if n == 0 {
      assert Right(strict, to, states[0], platform) by {
        assert Target(to, map[], platform) == map[];
      }
    } else {
      ReplayIsRightIff(strict, to, states, events, platform, n - 1);
      RunIsStored(to, states, events, n - 1);
      assert Enabled(states[n - 1], events[n - 1]) && states[n - 1 + 1] == Next(to, states[n - 1], events[n - 1]);
      if Right(strict, to, states[n - 1], platform) {
        StepKeepsRightIff(strict, to, states[n - 1], events[n - 1], platform);
      }
    }
  }

  /** An object for all platforms that is then for one of them only, as a visibility can be: a strict platform ends without
      it, any other holds it. */
  lemma FromAllToOne(to: Recipients, everyone: Object, one: Object)
    requires everyone.ready && one.ready && one.id == everyone.id
    requires to(everyone) == [""] && to(one) == ["p"]
    ensures var created := Next(to, State(map[], []), Create(everyone)); var moved := Next(to, created, Update(one));
            && IsRun(to, [State(map[], []), created, moved], [Create(everyone), Update(one)])
            && !Right(true, to, moved, "p") && Right(false, to, moved, "p")
  {
    var start := State(map[], []);
    var created := Next(to, start, Create(everyone));
    assert Target(to, map[], "p") == map[];
    assert Common([""], ["p"]) == Common([""], []) + [];
    assert Missing([""], []) == Missing([], []) + [""];
    assert DroppedBetween([""], ["p"], "p");
    assert created.db[one.id] == everyone;
    forall strict ensures Right(strict, to, Next(to, created, Update(one)), "p") <==> !strict {
      assert Right(strict, to, start, "p");
      StepKeepsRightIff(strict, to, start, Create(everyone), "p");
      StepKeepsRightIff(strict, to, created, Update(one), "p");
    }
  }
}
