/** Registration order of interceptors and the chains composed from it (storage/interceptable_repository.go,
    storage/interceptors_create.go, storage/interceptors_update.go, storage/interceptors_delete.go). */
module InterceptorOrder {
  import opened Wrappers

  datatype Position = Last | Before(name: string) | After(name: string)

  datatype Kind = AroundTx | OnTx | Both

  datatype Registration = Registration(kind: Kind, name: string, aroundTx: Position, onTx: Position)

  /** What is registered for one verb and one object type: the ordered names of both phases, and the names of the three
      kinds of providers. */
  datatype Registry = Registry(aroundNames: seq<string>, onTxNames: seq<string>,
                               aroundTx: set<string>, onTx: set<string>, both: set<string>)

  const EMPTY := Registry([], [], {}, {}, {})

  // ----- inserting a name -----

  function Find(names: seq<string>, name: string): (i: int)
    ensures -1 <= i < |names|
    ensures if i == -1 then name !in names else names[i] == name && name !in names[..i]
  {
    if names == [] then -1
    else if names[0] == name then 0
    else
      var i := Find(names[1..], name);
      assert names == [names[0]] + names[1..];
      if i == -1 then -1 else assert names[..i + 1] == [names[0]] + names[1..][..i]; i + 1
  }

  /** Where a new name goes; None when the name it is ordered by is missing. */
  function Slot(names: seq<string>, position: Position): Option<nat> {
    match position
    case Last => Some(|names|)
    case Before(name) => if name in names then Some(Find(names, name)) else None
    case After(name) => if name in names then Some(Find(names, name) + 1) else None
  }

  function InsertAt(names: seq<string>, k: nat, name: string): seq<string>
    requires k <= |names|
  {
    names[..k] + [name] + names[k..]
  }

  /** insertName; None is the panic. */
  function Insert(names: seq<string>, position: Position, name: string): Option<seq<string>> {
    match Slot(names, position)
    case None => None
    case Some(k) => Some(InsertAt(names, k, name))
  }

  method FindName(names: seq<string>, name: string) returns (i: int)
    ensures i == Find(names, name)
  {
    for k := 0 to |names|
      invariant name !in names[..k]
    {
      if names[k] == name {
        return k;
      }
    }
    i := -1;
  }

  method InsertName(names: seq<string>, position: Position, name: string) returns (r: Option<seq<string>>)
    ensures r == Insert(names, position, name)
  {
    if position.Last? {
      assert names + [name] == InsertAt(names, |names|, name);
      return Some(names + [name]);
    }
    var pos := FindName(names, position.name);
    if pos == -1 {
      return None;
    }
    var grown := names + [""];
    if position.After? {
      pos := pos + 1;
    }
    grown := grown[..pos + 1] + grown[pos..|grown| - 1];
    grown := grown[pos := name];
    assert grown == InsertAt(names, pos, name);
    r := Some(grown);
  }

  // ----- registering -----

  predicate Known(r: Registry, name: string) {
    name in r.aroundTx || name in r.onTx || name in r.both
  }

  predicate Refers(r: Registry, position: Position) {
    position.Last? || Known(r, position.name)
  }

  /** The Add...Provider methods: check the name and both positions against all providers, then insert; None is a panic. */
  function Register(r: Registry, x: Registration): Option<Registry> {
    if Known(r, x.name) || !Refers(r, x.aroundTx) || !Refers(r, x.onTx) then None
    else match x.kind
         case AroundTx =>
           (match Insert(r.aroundNames, x.aroundTx, x.name)
            case None => None
            case Some(names) => Some(r.(aroundNames := names, aroundTx := r.aroundTx + {x.name})))
         case OnTx =>
           (match Insert(r.onTxNames, x.onTx, x.name)
            case None => None
            case Some(names) => Some(r.(onTxNames := names, onTx := r.onTx + {x.name})))
         case Both =>
           match (Insert(r.aroundNames, x.aroundTx, x.name), Insert(r.onTxNames, x.onTx, x.name))
           case (Some(around), Some(onTx)) => Some(r.(aroundNames := around, onTxNames := onTx, both := r.both + {x.name}))
           case _ => None
  }

  class InterceptorRegistry {
    var aroundNames: seq<string>
    var onTxNames: seq<string>
    var aroundTx: set<string>
    var onTx: set<string>
    var both: set<string>

    ghost function State(): Registry
      reads this
    {
      Registry(aroundNames, onTxNames, aroundTx, onTx, both)
    }

    constructor ()
      ensures State() == EMPTY
    {
      aroundNames, onTxNames, aroundTx, onTx, both := [], [], {}, {}, {};
    }

    /** validateProviderOrder. */
    method Validate(x: Registration) returns (ok: bool)
      ensures ok <==> !Known(State(), x.name) && Refers(State(), x.aroundTx) && Refers(State(), x.onTx)
    {
      var existing := aroundTx + onTx + both;
      ok := x.name !in existing && (x.aroundTx.Last? || x.aroundTx.name in existing) && (x.onTx.Last? || x.onTx.name in existing);
    }

    method Add(x: Registration) returns (panicked: bool)
      modifies this
      ensures panicked <==> Register(old(State()), x).None?
      ensures !panicked ==> State() == Register(old(State()), x).value
    {
      var ok := Validate(x);
      if !ok {
        return true;
      }
      if x.kind != OnTx {
        var names := InsertName(aroundNames, x.aroundTx, x.name);
        if names.None? {
          return true;
        }
        aroundNames := names.value;
      }
      if x.kind != AroundTx {
        var names := InsertName(onTxNames, x.onTx, x.name);
        if names.None? {
          return true;
        }
        onTxNames := names.value;
      }
      match x.kind {
        case AroundTx => aroundTx := aroundTx + {x.name};
        case OnTx => onTx := onTx + {x.name};
        case Both => both := both + {x.name};
      }
      panicked := false;
    }
  }

  // ----- what every registration keeps -----

  ghost predicate NoDuplicates(names: seq<string>) {
    forall i, j | 0 <= i < j < |names| :: names[i] != names[j]
  }

  /** a stands before b. */
  ghost predicate Precedes(names: seq<string>, a: string, b: string) {
    exists i, j :: 0 <= i < j < |names| && names[i] == a && names[j] == b
  }

  /** The lists hold the names of the providers that take part in their phase, each once. */
  ghost predicate Sound(r: Registry) {
    && NoDuplicates(r.aroundNames) && NoDuplicates(r.onTxNames)
    && (forall n :: n in r.aroundNames <==> n in r.aroundTx || n in r.both)
    && (forall n :: n in r.onTxNames <==> n in r.onTx || n in r.both)
  }

  lemma InsertMembers(names: seq<string>, k: nat, name: string)
    requires k <= |names| && NoDuplicates(names) && name !in names
    ensures NoDuplicates(InsertAt(names, k, name))
    ensures forall n :: n in InsertAt(names, k, name) <==> n in names || n == name
  {
    assert names == names[..k] + names[k..];
  }

  /** Inserting reorders nothing that was there. */
  lemma InsertKeepsOrder(names: seq<string>, k: nat, name: string, a: string, b: string)
    requires k <= |names| && Precedes(names, a, b)
    ensures Precedes(InsertAt(names, k, name), a, b)
  {
    var i, j :| 0 <= i < j < |names| && names[i] == a && names[j] == b;
    var grown := InsertAt(names, k, name);
    var i', j' := if i < k then i else i + 1, if j < k then j else j + 1;
    assert grown[i'] == a && grown[j'] == b;
  }

  /** The place asked for. */
  ghost predicate Placed(names: seq<string>, position: Position, name: string) {
    match position
    case Last => true
    case Before(x) => Precedes(names, name, x)
    case After(x) => Precedes(names, x, name)
  }

  lemma InsertPlaces(names: seq<string>, position: Position, name: string)
    requires Insert(names, position, name).Some?
    ensures Placed(Insert(names, position, name).value, position, name)
  {
    if !position.Last? {
      var i, grown := Find(names, position.name), Insert(names, position, name).value;
      if position.Before? {
        assert grown[i] == name && grown[i + 1] == position.name;
      } else {
        assert grown[i] == position.name && grown[i + 1] == name;
      }
    }
  }

  /** When a registration goes through: the name is new, a name it is ordered by is registered for the phase it is
      inserted into, and a position it does not use names a registered provider. */
  lemma RegisterSucceedsIff(r: Registry, x: Registration)
    requires Sound(r)
    ensures Register(r, x).Some? <==>
              && x.name !in r.aroundNames && x.name !in r.onTxNames
              && (x.aroundTx.Last? || x.aroundTx.name in r.aroundNames
                  || (x.kind.OnTx? && x.aroundTx.name in r.onTxNames))
              && (x.onTx.Last? || x.onTx.name in r.onTxNames
                  || (x.kind.AroundTx? && x.onTx.name in r.aroundNames))
  {
  }

  /** What a registration does to one list: nothing, or an insertion at the place asked for. */
  ghost predicate Grown(names: seq<string>, names': seq<string>, name: string) {
    exists k :: 0 <= k <= |names| && names' == InsertAt(names, k, name)
  }

  lemma RegisterGrows(r: Registry, x: Registration)
    requires Sound(r) && Register(r, x).Some?
    ensures var r' := Register(r, x).value;
            && Sound(r')
            && (if x.kind.OnTx? then r'.aroundNames == r.aroundNames
                else Grown(r.aroundNames, r'.aroundNames, x.name) && Placed(r'.aroundNames, x.aroundTx, x.name))
            && (if x.kind.AroundTx? then r'.onTxNames == r.onTxNames
                else Grown(r.onTxNames, r'.onTxNames, x.name) && Placed(r'.onTxNames, x.onTx, x.name))
  {
    if !x.kind.OnTx? {
      var k := Slot(r.aroundNames, x.aroundTx).value;
      InsertMembers(r.aroundNames, k, x.name);
      InsertPlaces(r.aroundNames, x.aroundTx, x.name);
    }
    if !x.kind.AroundTx? {
      var k := Slot(r.onTxNames, x.onTx).value;
      InsertMembers(r.onTxNames, k, x.name);
      InsertPlaces(r.onTxNames, x.onTx, x.name);
    }
  }

  // ----- whole runs -----

  /** States of a repository while it is set up: no registration panics. */
  ghost predicate IsSetup(states: seq<Registry>, xs: seq<Registration>) {
    && |states| == |xs| + 1 && states[0] == EMPTY
    && forall i | 0 <= i < |xs| :: Register(states[i], xs[i]) == Some(states[i + 1])
  }

  lemma {:induction false} SetupIsSound(states: seq<Registry>, xs: seq<Registration>, i: nat)
    requires IsSetup(states, xs) && i < |states|
    ensures Sound(states[i])
  {
    if i > 0 {
      SetupIsSound(states, xs, i - 1);
      assert Register(states[i - 1], xs[i - 1]) == Some(states[i - 1 + 1]);
      RegisterGrows(states[i - 1], xs[i - 1]);
    }
  }

  lemma GrownKeeps(names: seq<string>, names': seq<string>, name: string, a: string, b: string)
    requires names' == names || Grown(names, names', name)
    ensures Precedes(names, a, b) ==> Precedes(names', a, b)
  {
    if names' != names && Precedes(names, a, b) {
      var k :| 0 <= k <= |names| && names' == InsertAt(names, k, name);
      InsertKeepsOrder(names, k, name, a, b);
    }
  }

  /** Names once in order stay in that order, in both phases. */
  lemma {:induction false} NeverReordered(states: seq<Registry>, xs: seq<Registration>, i: nat, j: nat, a: string, b: string)
    requires IsSetup(states, xs) && i <= j < |states|
    ensures Precedes(states[i].aroundNames, a, b) ==> Precedes(states[j].aroundNames, a, b)
    ensures Precedes(states[i].onTxNames, a, b) ==> Precedes(states[j].onTxNames, a, b)
    decreases j - i
  {
    if i < j {
      NeverReordered(states, xs, i, j - 1, a, b);
      SetupIsSound(states, xs, j - 1);
      assert Register(states[j - 1], xs[j - 1]) == Some(states[j - 1 + 1]);
      RegisterGrows(states[j - 1], xs[j - 1]);
      GrownKeeps(states[j - 1].aroundNames, states[j].aroundNames, xs[j - 1].name, a, b);
      GrownKeeps(states[j - 1].onTxNames, states[j].onTxNames, xs[j - 1].name, a, b);
    }
  }

  /** Every Before and After request that was used holds ever after. */
  lemma RequestsHoldForever(states: seq<Registry>, xs: seq<Registration>, i: nat, j: nat)
    requires IsSetup(states, xs) && i < j < |states|
    ensures !xs[i].kind.OnTx? ==> Placed(states[j].aroundNames, xs[i].aroundTx, xs[i].name)
    ensures !xs[i].kind.AroundTx? ==> Placed(states[j].onTxNames, xs[i].onTx, xs[i].name)
  {
    SetupIsSound(states, xs, i);
    assert Register(states[i], xs[i]) == Some(states[i + 1]);
    RegisterGrows(states[i], xs[i]);
    if !xs[i].aroundTx.Last? {
      NeverReordered(states, xs, i + 1, j, xs[i].name, xs[i].aroundTx.name);
      NeverReordered(states, xs, i + 1, j, xs[i].aroundTx.name, xs[i].name);
    }
    if !xs[i].onTx.Last? {
      NeverReordered(states, xs, i + 1, j, xs[i].name, xs[i].onTx.name);
      NeverReordered(states, xs, i + 1, j, xs[i].onTx.name, xs[i].name);
    }
  }

  // ----- composing a chain -----

  /** A handler is the storage operation or an interceptor's wrapper around a handler. */
  datatype Handler = Operation | Wrapped(interceptor: string, inner: Handler)

  /** The interceptors a call passes through on its way in. */
  function Entered(h: Handler): seq<string> {
    match h
    case Operation => []
    case Wrapped(n, inner) => [n] + Entered(inner)
  }

  /** The names that have an interceptor, in list order. */
  function Present(names: seq<string>, funcs: set<string>): seq<string> {
    if names == [] then []
    else (if names[0] in funcs then [names[0]] else []) + Present(names[1..], funcs)
  }

  /** AroundTxCreate, OnTxCreate and their update and delete twins: rewrap from the last name to the first, so that the
      call runs through the present interceptors in list order. */
  method Compose(names: seq<string>, funcs: set<string>, f: Handler) returns (h: Handler)
    ensures Entered(h) == Present(names, funcs) + Entered(f)
  {
    h := f;
    for i := 0 to |names|
      invariant Entered(h) == Present(names[|names| - i..], funcs) + Entered(f)
    {
      var name := names[|names| - 1 - i];
      PresentOneMore(names, funcs, |names| - 1 - i, Entered(f));
      if name in funcs {
        h := Wrapped(name, h);
      }
    }
  }

  lemma PresentOneMore(names: seq<string>, funcs: set<string>, k: nat, e: seq<string>)
    requires k < |names|
    ensures Present(names[k..], funcs) + e
         == (if names[k] in funcs then [names[k]] else []) + (Present(names[k + 1..], funcs) + e)
  {
    assert names[k..][1..] == names[k + 1..];
  }

  lemma {:induction false} PresentOrder(names: seq<string>, funcs: set<string>, a: string, b: string)
    requires NoDuplicates(names)
    ensures Precedes(Present(names, funcs), a, b) <==> Precedes(names, a, b) && a in funcs && b in funcs
    ensures forall n :: n in Present(names, funcs) <==> n in names && n in funcs
    ensures NoDuplicates(Present(names, funcs))
  {
    if names != [] {
      var rest, kept := names[1..], Present(names[1..], funcs);
      PresentOrder(rest, funcs, a, b);
      assert names == [names[0]] + rest;
      assert names[0] !in rest;
      PrecedesHead(names[0], rest, a, b);
      PrecedesHead(names[0], kept, a, b);
      assert Present(names, funcs) == if names[0] in funcs then [names[0]] + kept else kept;
    }
  }

  lemma PrecedesHead(head: string, rest: seq<string>, a: string, b: string)
    ensures Precedes([head] + rest, a, b) <==> (head == a && b in rest) || Precedes(rest, a, b)
  {
    var names := [head] + rest;
    if Precedes(names, a, b) {
      var i, j :| 0 <= i < j < |names| && names[i] == a && names[j] == b;
      assert rest[j - 1] == b;
      if i > 0 {
        assert rest[i - 1] == a;
      }
    }
    if Precedes(rest, a, b) {
      var i, j :| 0 <= i < j < |rest| && rest[i] == a && rest[j] == b;
      assert names[i + 1] == a && names[j + 1] == b;
    }
    if head == a && b in rest {
      var j :| 0 <= j < |rest| && rest[j] == b;
      assert names[0] == a && names[j + 1] == b;
    }
  }

  /** In the chain of any later state a present interceptor runs outside one it was registered before, and inside one it
      was registered after; each runs once. */
  lemma ChainHonoursRequests(states: seq<Registry>, xs: seq<Registration>, i: nat, j: nat, funcs: set<string>)
    requires IsSetup(states, xs) && i < j < |states| && xs[i].name in funcs
    ensures NoDuplicates(Present(states[j].aroundNames, funcs)) && NoDuplicates(Present(states[j].onTxNames, funcs))
    ensures !xs[i].kind.OnTx? && !xs[i].aroundTx.Last? && xs[i].aroundTx.name in funcs ==>
              Placed(Present(states[j].aroundNames, funcs), xs[i].aroundTx, xs[i].name)
    ensures !xs[i].kind.AroundTx? && !xs[i].onTx.Last? && xs[i].onTx.name in funcs ==>
              Placed(Present(states[j].onTxNames, funcs), xs[i].onTx, xs[i].name)
  {
    var x, r := xs[i], states[j];
    SetupIsSound(states, xs, j);
    RequestsHoldForever(states, xs, i, j);
    var around := if x.aroundTx.Last? then x.name else x.aroundTx.name;
    var onTx := if x.onTx.Last? then x.name else x.onTx.name;
    PresentOrder(r.aroundNames, funcs, x.name, around);
    PresentOrder(r.aroundNames, funcs, around, x.name);
    PresentOrder(r.onTxNames, funcs, x.name, onTx);
    PresentOrder(r.onTxNames, funcs, onTx, x.name);
  }
}
