/** The repository that OnTx interceptors call back into, and its guard against endless nesting
    (storage/interceptable_repository.go). */
module InterceptorGuard {

  datatype Verb = Create | Update | Delete

  type ObjectType = string

  datatype Form = CreateForm | UpdateForm | UpdateLabelsForm | DeleteForm | DeleteReturningForm {
    function Verb(): Verb {
      match this
      case CreateForm => Create
      case UpdateForm | UpdateLabelsForm => Update
      case DeleteForm | DeleteReturningForm => Delete
    }
  }

  datatype Call = Call(form: Form, typ: ObjectType)

  datatype Answer = Failed | Ok(value: nat)

  /** The body of an interceptor: a finite program that returns, calls the handler it wraps, or calls the repository, and
      goes on with a branch for each answer it tells apart; with no branch left it returns the answer. */
  datatype Program =
    | Return(answer: Answer)
    | CallNext(branches: seq<Program>)
    | Invoke(call: Call, branches: seq<Program>)

  type Chain = seq<Program>

  datatype Chains = Chains(create: map<ObjectType, Chain>, update: map<ObjectType, Chain>, delete: map<ObjectType, Chain>) {
    function Of(v: Verb): map<ObjectType, Chain> {
      match v
      case Create => create
      case Update => update
      case Delete => delete
    }
  }

  type Key = (Verb, ObjectType)

  function Branch(branches: seq<Program>, a: Answer): Program
    requires branches != []
  {
    var k := if a.Failed? then 0 else a.value + 1;
    branches[if k < |branches| then k else |branches| - 1]
  }

  // ----- the storage below: whatever it answers -----

  datatype Request = Read(call: Call) | Write(call: Call)

  type Storage = (nat, Request) -> Answer

  /** What happened: chains entered, with the stack of active ones, and requests to the storage. */
  datatype Event = Enter(stack: seq<Key>) | Leave(key: Key) | Asked(request: Request)

  datatype World = World(asked: nat, log: seq<Event>)

  datatype Outcome = Outcome(answer: Answer, world: World)

  function Ask(db: Storage, request: Request, w: World): Outcome {
    Outcome(db(w.asked, request), World(w.asked + 1, w.log + [Asked(request)]))
  }

  // ----- the reference: a chain runs unless it is already active -----

  function Active(stack: seq<Key>, v: Verb): set<ObjectType> {
    set k | k in stack && k.0 == v :: k.1
  }

  /** The chains that are not active. */
  function Free(chains: Chains, stack: seq<Key>): set<Key> {
    (set t | t in chains.create && (Create, t) !in stack :: (Create, t))
    + (set t | t in chains.update && (Update, t) !in stack :: (Update, t))
    + (set t | t in chains.delete && (Delete, t) !in stack :: (Delete, t))
  }

  lemma FreeShrinks(chains: Chains, stack: seq<Key>, key: Key)
    requires key.1 in chains.Of(key.0) && key !in stack
    ensures Free(chains, stack + [key]) < Free(chains, stack)
  {
    assert key in Free(chains, stack) && key !in Free(chains, stack + [key]);
  }

  /** An update reads the object first, and so does a delete that runs interceptors. */
  ghost function FirstRead(db: Storage, call: Call, runs: bool, w: World): Outcome {
    var v := call.form.Verb();
    if v.Update? || (v.Delete? && runs) then Ask(db, Read(call), w) else Outcome(Ok(0), w)
  }

  ghost function RunCall(chains: Chains, db: Storage, stack: seq<Key>, call: Call, w: World): Outcome
    decreases Free(chains, stack), 0, 1
  {
    var v := call.form.Verb();
    var runs := call.typ in chains.Of(v) && (v, call.typ) !in stack;
    var first := FirstRead(db, call, runs, w);
    if first.answer.Failed? then first
    else if runs then RunChain(chains, db, stack, call, first.world)
    else Ask(db, Write(call), first.world)
  }

  ghost function RunChain(chains: Chains, db: Storage, stack: seq<Key>, call: Call, w: World): Outcome
    requires var v := call.form.Verb(); call.typ in chains.Of(v) && (v, call.typ) !in stack
    decreases Free(chains, stack), 0, 0
  {
    var key := (call.form.Verb(), call.typ);
    FreeShrinks(chains, stack, key);
    var w' := w.(log := w.log + [Enter(stack + [key])]);
    var r := RunHandler(chains, db, stack + [key], chains.Of(key.0)[key.1], 0, call, w');
    Outcome(r.answer, r.world.(log := r.world.log + [Leave(key)]))
  }

  /** The chain from its i-th interceptor on, around the storage operation. */
  ghost function RunHandler(chains: Chains, db: Storage, stack: seq<Key>, chain: Chain, i: nat, call: Call, w: World): Outcome
    requires i <= |chain|
    decreases Free(chains, stack), 1 + |chain| - i
  {
    if i == |chain| then Ask(db, Write(call), w)
    else RunProgram(chains, db, stack, chain, i, chain[i], call, w)
  }

  ghost function RunProgram(chains: Chains, db: Storage, stack: seq<Key>, chain: Chain, i: nat, p: Program, call: Call, w: World): Outcome
    requires i < |chain|
    decreases Free(chains, stack), 1 + |chain| - i, p
  {
    match p
    case Return(answer) => Outcome(answer, w)
    case CallNext(branches) =>
      var r := RunHandler(chains, db, stack, chain, i + 1, call, w);
      if branches == [] then r
      else RunProgram(chains, db, stack, chain, i, Branch(branches, r.answer), call, r.world)
    case Invoke(other, branches) =>
      var r := RunCall(chains, db, stack, other, w);
      if branches == [] then r
      else RunProgram(chains, db, stack, chain, i, Branch(branches, r.answer), call, r.world)
  }

  // ----- the guard: chains are taken out of the maps and put back -----

  class ScopedRepository {
    ghost const chains: Chains
    const db: Storage
    var createOnTx: map<ObjectType, Chain>
    var updateOnTx: map<ObjectType, Chain>
    var deleteOnTx: map<ObjectType, Chain>
    var asked: nat
    ghost var stack: seq<Key>
    ghost var log: seq<Event>

    ghost function Here(): World
      reads this
    {
      World(asked, log)
    }

    /** The maps hold exactly the chains that are not active. */
    ghost predicate Guarded()
      reads this
    {
      && createOnTx == chains.create - Active(stack, Create)
      && updateOnTx == chains.update - Active(stack, Update)
      && deleteOnTx == chains.delete - Active(stack, Delete)
    }

    constructor (chains: Chains, db: Storage)
      ensures Guarded() && this.chains == chains && this.db == db && stack == [] && asked == 0 && log == []
    {
      this.chains, this.db := chains, db;
      createOnTx, updateOnTx, deleteOnTx := chains.create, chains.update, chains.delete;
      asked, stack, log := 0, [], [];
      new;
      assert Active(stack, Create) == {} && Active(stack, Update) == {} && Active(stack, Delete) == {};
    }

    method AskStorage(request: Request) returns (answer: Answer)
      modifies `asked, `log
      ensures Outcome(answer, Here()) == Ask(db, request, old(Here()))
    {
      answer := db(asked, request);
      asked := asked + 1;
      log := log + [Asked(request)];
    }

    /** Create, Update, UpdateLabels, Delete and DeleteReturning: they end, leave the three maps as they were on success
        and on error, and run a chain exactly when it is not active already. */
    method Perform(call: Call) returns (answer: Answer)
      requires Guarded()
      modifies this
      ensures Guarded() && stack == old(stack)
      ensures createOnTx == old(createOnTx) && updateOnTx == old(updateOnTx) && deleteOnTx == old(deleteOnTx)
      ensures Outcome(answer, Here()) == RunCall(chains, db, stack, call, old(Here()))
      decreases Free(chains, stack), 0, 1
    {
      match call.form.Verb() {
        case Create => answer := CreateOnTx(call);
        case Update => answer := UpdateOnTx(call);
        case Delete => answer := DeleteOnTx(call);
      }
    }

    method CreateOnTx(call: Call) returns (answer: Answer)
      requires Guarded() && call.form.Verb().Create?
      modifies this
      ensures Guarded() && stack == old(stack)
      ensures createOnTx == old(createOnTx) && updateOnTx == old(updateOnTx) && deleteOnTx == old(deleteOnTx)
      ensures Outcome(answer, Here()) == RunCall(chains, db, stack, call, old(Here()))
      decreases Free(chains, stack), 0, 0
    {
      var t := call.typ;
      InstalledIff(chains.create, stack, Create, t);
      if t in createOnTx {
        var chain := createOnTx[t];
        ghost var before := stack;
        FreeShrinks(chains, stack, (Create, t));
        Pushed(chains, stack, (Create, t));
        createOnTx := createOnTx - {t};
        stack := stack + [(Create, t)];
        log := log + [Enter(stack)];
        answer := Handle(chain, 0, call);
        createOnTx := createOnTx[t := chain];
        stack := before;
        log := log + [Leave((Create, t))];
      } else {
        answer := AskStorage(Write(call));
      }
    }

    method UpdateOnTx(call: Call) returns (answer: Answer)
      requires Guarded() && call.form.Verb().Update?
      modifies this
      ensures Guarded() && stack == old(stack)
      ensures createOnTx == old(createOnTx) && updateOnTx == old(updateOnTx) && deleteOnTx == old(deleteOnTx)
      ensures Outcome(answer, Here()) == RunCall(chains, db, stack, call, old(Here()))
      decreases Free(chains, stack), 0, 0
    {
      var t := call.typ;
      answer := AskStorage(Read(call));
      if answer.Failed? {
        return;
      }
      InstalledIff(chains.update, stack, Update, t);
      if t in updateOnTx {
        var chain := updateOnTx[t];
        ghost var before := stack;
        FreeShrinks(chains, stack, (Update, t));
        Pushed(chains, stack, (Update, t));
        updateOnTx := updateOnTx - {t};
        stack := stack + [(Update, t)];
        log := log + [Enter(stack)];
        answer := Handle(chain, 0, call);
        updateOnTx := updateOnTx[t := chain];
        stack := before;
        log := log + [Leave((Update, t))];
      } else {
        answer := AskStorage(Write(call));
      }
    }

    method DeleteOnTx(call: Call) returns (answer: Answer)
      requires Guarded() && call.form.Verb().Delete?
      modifies this
      ensures Guarded() && stack == old(stack)
      ensures createOnTx == old(createOnTx) && updateOnTx == old(updateOnTx) && deleteOnTx == old(deleteOnTx)
      ensures Outcome(answer, Here()) == RunCall(chains, db, stack, call, old(Here()))
      decreases Free(chains, stack), 0, 0
    {
      var t := call.typ;
      InstalledIff(chains.delete, stack, Delete, t);
      if t in deleteOnTx {
        answer := AskStorage(Read(call));
        if answer.Failed? {
          return;
        }
        var chain := deleteOnTx[t];
        ghost var before := stack;
        FreeShrinks(chains, stack, (Delete, t));
        Pushed(chains, stack, (Delete, t));
        deleteOnTx := deleteOnTx - {t};
        stack := stack + [(Delete, t)];
        log := log + [Enter(stack)];
        answer := Handle(chain, 0, call);
        deleteOnTx := deleteOnTx[t := chain];
        stack := before;
        log := log + [Leave((Delete, t))];
      } else {
        answer := AskStorage(Write(call));
      }
    }

    /** A handler: the chain from its i-th interceptor on. */
    method Handle(chain: Chain, i: nat, call: Call) returns (answer: Answer)
      requires Guarded() && i <= |chain|
      modifies this
      ensures Guarded() && stack == old(stack)
      ensures createOnTx == old(createOnTx) && updateOnTx == old(updateOnTx) && deleteOnTx == old(deleteOnTx)
      ensures Outcome(answer, Here()) == RunHandler(chains, db, stack, chain, i, call, old(Here()))
      decreases Free(chains, stack), 1 + |chain| - i
    {
      if i == |chain| {
        answer := AskStorage(Write(call));
      } else {
        answer := Execute(chain, i, chain[i], call);
      }
    }

    method Execute(chain: Chain, i: nat, p: Program, call: Call) returns (answer: Answer)
      requires Guarded() && i < |chain|
      modifies this
      ensures Guarded() && stack == old(stack)
      ensures createOnTx == old(createOnTx) && updateOnTx == old(updateOnTx) && deleteOnTx == old(deleteOnTx)
      ensures Outcome(answer, Here()) == RunProgram(chains, db, stack, chain, i, p, call, old(Here()))
      decreases Free(chains, stack), 1 + |chain| - i, p
    {
      match p
      case Return(a) => answer := a;
      case CallNext(branches) =>
        answer := Handle(chain, i + 1, call);
        if branches != [] {
          answer := Execute(chain, i, Branch(branches, answer), call);
        }
      case Invoke(other, branches) =>
        answer := Perform(other);
        if branches != [] {
          answer := Execute(chain, i, Branch(branches, answer), call);
        }
    }
  }

  lemma InstalledIff(chains: map<ObjectType, Chain>, stack: seq<Key>, v: Verb, t: ObjectType)
    ensures t in chains - Active(stack, v) <==> t in chains && (v, t) !in stack
  {
    assert t in Active(stack, v) <==> (v, t) in stack;
  }

  /** Taking a chain out is making it active, and putting it back is making it inactive; the other verbs see nothing. */
  lemma Pushed(chains: Chains, stack: seq<Key>, key: Key)
    requires key !in stack && key.1 in chains.Of(key.0)
    ensures var m, on, off := chains.Of(key.0), Active(stack, key.0), Active(stack + [key], key.0);
            m - off == (m - on) - {key.1} && (m - off)[key.1 := m[key.1]] == m - on
    ensures forall v | v != key.0 :: Active(stack + [key], v) == Active(stack, v)
  {
    forall v ensures Active(stack + [key], v) == Active(stack, v) + if key.0 == v then {key.1} else {} {
      forall t ensures t in Active(stack + [key], v) <==> t in Active(stack, v) || (v, t) == key {
        assert t in Active(stack + [key], v) <==> (v, t) in stack + [key];
        assert t in Active(stack, v) <==> (v, t) in stack;
      }
    }
    assert key.1 !in Active(stack, key.0);
  }

  // ----- what any run shows -----

  /** The stack after an event; None when the event enters a chain that is active, or leaves another than the last. */
  function Step(stack: Stack, e: Event): Stack {
    match (stack, e)
    case (Broken, _) => Broken
    case (Nested(keys), Asked(_)) => stack
    case (Nested(keys), Enter(now)) =>
      if now != [] && now[..|now| - 1] == keys && now[|now| - 1] !in keys then Nested(now) else Broken
    case (Nested(keys), Leave(key)) =>
      if keys != [] && keys[|keys| - 1] == key then Nested(keys[..|keys| - 1]) else Broken
  }

  datatype Stack = Broken | Nested(keys: seq<Key>)

  /** The stack that the events build up. */
  function Replay(log: seq<Event>): Stack {
    if log == [] then Nested([]) else Step(Replay(log[..|log| - 1]), log[|log| - 1])
  }

  lemma ReplayOne(log: seq<Event>, e: Event)
    ensures Replay(log + [e]) == Step(Replay(log), e)
  {
    assert (log + [e])[..|log|] == log;
  }

  lemma {:induction false} AskReplays(db: Storage, request: Request, w: World, stack: seq<Key>)
    requires Replay(w.log) == Nested(stack)
    ensures Replay(Ask(db, request, w).world.log) == Nested(stack)
  {
    ReplayOne(w.log, Asked(request));
  }

  lemma {:induction false} FirstReplays(db: Storage, call: Call, runs: bool, w: World, stack: seq<Key>)
    requires Replay(w.log) == Nested(stack)
    ensures Replay(FirstRead(db, call, runs, w).world.log) == Nested(stack)
  {
    AskReplays(db, Read(call), w, stack);
  }

  lemma {:induction false} CallReplays(chains: Chains, db: Storage, stack: seq<Key>, call: Call, w: World)
    requires Replay(w.log) == Nested(stack)
    ensures Replay(RunCall(chains, db, stack, call, w).world.log) == Nested(stack)
    decreases Free(chains, stack), 0, 1
  {
    var v := call.form.Verb();
    var runs := call.typ in chains.Of(v) && (v, call.typ) !in stack;
    var first := FirstRead(db, call, runs, w);
    FirstReplays(db, call, runs, w, stack);
    if runs {
      ChainReplays(chains, db, stack, call, first.world);
    } else {
      AskReplays(db, Write(call), first.world, stack);
    }
  }

  lemma {:induction false} ChainReplays(chains: Chains, db: Storage, stack: seq<Key>, call: Call, w: World)
    requires var v := call.form.Verb(); call.typ in chains.Of(v) && (v, call.typ) !in stack
    requires Replay(w.log) == Nested(stack)
    ensures Replay(RunChain(chains, db, stack, call, w).world.log) == Nested(stack)
    decreases Free(chains, stack), 0, 0
  {
    var key := (call.form.Verb(), call.typ);
    FreeShrinks(chains, stack, key);
    var w' := w.(log := w.log + [Enter(stack + [key])]);
    ReplayOne(w.log, Enter(stack + [key]));
    assert (stack + [key])[..|stack|] == stack;
    HandlerReplays(chains, db, stack + [key], chains.Of(key.0)[key.1], 0, call, w');
    var r := RunHandler(chains, db, stack + [key], chains.Of(key.0)[key.1], 0, call, w');
    ReplayOne(r.world.log, Leave(key));
  }

  lemma {:induction false} HandlerReplays(chains: Chains, db: Storage, stack: seq<Key>, chain: Chain, i: nat, call: Call, w: World)
    requires i <= |chain| && Replay(w.log) == Nested(stack)
    ensures Replay(RunHandler(chains, db, stack, chain, i, call, w).world.log) == Nested(stack)
    decreases Free(chains, stack), 1 + |chain| - i
  {
    if i == |chain| {
      AskReplays(db, Write(call), w, stack);
    } else {
      ProgramReplays(chains, db, stack, chain, i, chain[i], call, w);
    }
  }

  lemma {:induction false} ProgramReplays(chains: Chains, db: Storage, stack: seq<Key>, chain: Chain, i: nat, p: Program,
                                          call: Call, w: World)
    requires i < |chain| && Replay(w.log) == Nested(stack)
    ensures Replay(RunProgram(chains, db, stack, chain, i, p, call, w).world.log) == Nested(stack)
    decreases Free(chains, stack), 1 + |chain| - i, p
  {
    match p
    case Return(answer) =>
    case CallNext(branches) =>
      var r := RunHandler(chains, db, stack, chain, i + 1, call, w);
      assert Replay(r.world.log) == Nested(stack) by {
        HandlerReplays(chains, db, stack, chain, i + 1, call, w);
      }
      if branches != [] {
        ProgramReplays(chains, db, stack, chain, i, Branch(branches, r.answer), call, r.world);
      }
    case Invoke(other, branches) =>
      var r := RunCall(chains, db, stack, other, w);
      assert Replay(r.world.log) == Nested(stack) by {
        CallReplays(chains, db, stack, other, w);
      }
      if branches != [] {
        ProgramReplays(chains, db, stack, chain, i, Branch(branches, r.answer), call, r.world);
      }
  }

  ghost predicate NoneTwice(keys: seq<Key>) {
    forall i, j | 0 <= i < j < |keys| :: keys[i] != keys[j]
  }

  lemma {:induction false} ReplayNoneTwice(log: seq<Event>)
    requires Replay(log).Nested?
    ensures NoneTwice(Replay(log).keys)
    ensures forall n | 0 <= n <= |log| :: Replay(log[..n]).Nested? && NoneTwice(Replay(log[..n]).keys)
  {
    assert log[..|log|] == log;
    if log != [] {
      var init := log[..|log| - 1];
      ReplayNoneTwice(init);
      forall n | 0 <= n <= |log| ensures Replay(log[..n]).Nested? && NoneTwice(Replay(log[..n]).keys) {
        if n < |log| {
          assert init[..n] == log[..n];
        }
      }
    }
  }

  /** Whatever finite bodies the interceptors have and whatever the storage answers: at every moment of a call no chain is
      active twice, chains are left in the reverse order they were entered, and at the end none is active. */
  lemma NoChainActiveTwice(chains: Chains, db: Storage, call: Call, n: nat)
    requires n <= |RunCall(chains, db, [], call, World(0, [])).world.log|
    ensures var log := RunCall(chains, db, [], call, World(0, [])).world.log;
            Replay(log) == Nested([]) && Replay(log[..n]).Nested? && NoneTwice(Replay(log[..n]).keys)
  {
    var log := RunCall(chains, db, [], call, World(0, [])).world.log;
    CallReplays(chains, db, [], call, World(0, []));
    ReplayNoneTwice(log);
    assert Replay(log[..n]).Nested?;
  }
}
