/** Applying label changes to labels, in place on shared slices (pkg/query/update.go). */
module Labels {

  type LabelMap = map<string, seq<string>>

  datatype Change = Add(key: string, values: seq<string>) | Remove(key: string, values: seq<string>)

  // ----- one value list -----

  /** The list after one pass of the removal loop that did not go out of bounds: the element that moves into the place
      of a removed one is never looked at. */
  function RemoveSkipping(s: seq<string>, v: string): seq<string> {
    if s == [] then []
    else if s[0] != v then [s[0]] + RemoveSkipping(s[1..], v)
    else if |s| == 1 then []
    else [s[1]] + RemoveSkipping(s[2..], v)
  }

  /** When the removal loop slices beyond the shortened list: the last value is to be removed, and so is one before. */
  predicate OutOfBounds(s: seq<string>, v: string) {
    |s| > 0 && s[|s| - 1] == v && v in s[..|s| - 1]
  }

  /** What the loop is for: the list without v. */
  function Without(s: seq<string>, v: string): seq<string> {
    if s == [] then [] else if s[0] == v then Without(s[1..], v) else [s[0]] + Without(s[1..], v)
  }

  ghost predicate Distinct(s: seq<string>) {
    forall i, j | 0 <= i < j < |s| :: s[i] != s[j]
  }

  /** Two neighbours both to be removed. */
  ghost predicate Adjacent(s: seq<string>, v: string) {
    exists i | 0 < i < |s| :: s[i - 1] == v && s[i] == v
  }

  lemma {:induction false} WithoutMembers(s: seq<string>, v: string)
    ensures forall x :: x in Without(s, v) <==> x in s && x != v
    ensures Distinct(s) ==> Distinct(Without(s, v))
    ensures v !in s ==> Without(s, v) == s
    ensures |Without(s, v)| <= |s|
  {
    if s != [] {
      WithoutMembers(s[1..], v);
      assert s == [s[0]] + s[1..];
      if Distinct(s) {
        assert s[0] !in s[1..];
        assert s[0] !in Without(s[1..], v);
      }
    }
  }

  lemma {:induction false} SkippingShorter(s: seq<string>, v: string)
    ensures |RemoveSkipping(s, v)| <= |s|
    ensures v in s <==> |RemoveSkipping(s, v)| < |s|
    ensures |s| > 1 ==> RemoveSkipping(s, v) != []
    decreases |s|
  {
    if s != [] {
      if s[0] != v {
        SkippingShorter(s[1..], v);
        assert s == [s[0]] + s[1..];
      } else if |s| > 1 {
        SkippingShorter(s[2..], v);
      }
    }
  }

  lemma AdjacentTail(s: seq<string>, v: string)
    requires s != []
    ensures Adjacent(s, v) <==> (|s| > 1 && s[0] == v && s[1] == v) || Adjacent(s[1..], v)
  {
    if Adjacent(s[1..], v) {
      var i :| 0 < i < |s[1..]| && s[1..][i - 1] == v && s[1..][i] == v;
      assert s[(i + 1) - 1] == v && s[i + 1] == v;
    }
    if Adjacent(s, v) {
      var i :| 0 < i < |s| && s[i - 1] == v && s[i] == v;
      if i > 1 {
        assert s[1..][(i - 1) - 1] == v && s[1..][i - 1] == v;
      }
    }
    if |s| > 1 && s[0] == v && s[1] == v {
      assert s[1 - 1] == v;
    }
  }

  /** The loop removes every occurrence exactly when no two of them are neighbours. */
  lemma {:induction false} SkippingRemovesAllIff(s: seq<string>, v: string)
    ensures RemoveSkipping(s, v) == Without(s, v) <==> !Adjacent(s, v)
    decreases |s|
  {
    if s != [] {
      AdjacentTail(s, v);
      if s[0] != v {
        SkippingRemovesAllIff(s[1..], v);
        assert RemoveSkipping(s, v)[1..] == RemoveSkipping(s[1..], v);
        assert Without(s, v)[1..] == Without(s[1..], v);
      } else if |s| > 1 {
        AdjacentTail(s[1..], v);
        assert s[1..][1..] == s[2..];
        if s[1] == v {
          WithoutMembers(s, v);
          assert RemoveSkipping(s, v)[0] == v;
        } else {
          SkippingRemovesAllIff(s[2..], v);
          assert Without(s, v) == [s[1]] + Without(s[2..], v);
          assert RemoveSkipping(s, v)[1..] == RemoveSkipping(s[2..], v);
          assert Without(s, v)[1..] == Without(s[2..], v);
        }
      }
    }
  }

  lemma DistinctNeverAdjacent(s: seq<string>, v: string)
    requires Distinct(s)
    ensures !Adjacent(s, v) && !OutOfBounds(s, v)
  {
  }

  // ----- slices: a prefix of a backing array -----

  datatype Slice = Slice(cells: array<string>, len: nat) {
    predicate Valid() {
      len <= cells.Length
    }

    function Values(): seq<string>
      requires Valid()
      reads cells
    {
      cells[..len]
    }
  }

  /** The cells after the elements behind position i of a list of length m moved down by one. */
  function Shifted(c: seq<string>, i: nat, m: nat): seq<string>
    requires i < m <= |c|
  {
    c[..i] + c[i + 1..m] + c[m - 1..]
  }

  lemma ShiftedAt(c: seq<string>, i: nat, m: nat, k: nat)
    requires i < m <= |c| && k < |c|
    ensures |Shifted(c, i, m)| == |c| && Shifted(c, i, m)[k] == if i <= k < m - 1 then c[k + 1] else c[k]
  {
  }

  /** Where the removal loop stands before position i, r values removed from s: the list is what is finished and what is
      still to come, and the cells behind its end all repeat the last value of s. */
  ghost predicate MidRemoval(s: seq<string>, v: string, c: seq<string>, i: nat, r: nat) {
    var n := |s|;
    && r <= i <= n == |c|
    && (r > 0 <==> v in s[..i])
    && (forall j | n - r <= j < n :: c[j] == s[n - 1])
    && (i == n > 0 && s[n - 1] == v ==> v !in s[..n - 1])
    && if i + r <= n
       then c[i..n - r] == s[i + r..] && c[..i] + RemoveSkipping(s[i + r..], v) == RemoveSkipping(s, v)
       else c[..n - r] == RemoveSkipping(s, v)
  }

  lemma KeepStepList(s: seq<string>, v: string, c: seq<string>, i: nat, r: nat)
    requires MidRemoval(s, v, c, i, r) && i + r < |s| && c[i] != v
    ensures c[i] == s[i + r] && c[i + 1..|s| - r] == s[i + 1 + r..]
    ensures c[..i + 1] + RemoveSkipping(s[i + 1 + r..], v) == RemoveSkipping(s, v)
  {
    var m, rest := |s| - r, s[i + r..];
    assert c[i] == c[i..m][0] == rest[0];
    assert rest[1..] == s[i + 1 + r..];
    assert c[i + 1..m] == c[i..m][1..];
    assert c[..i] + ([c[i]] + RemoveSkipping(rest[1..], v)) == c[..i + 1] + RemoveSkipping(rest[1..], v);
  }

  lemma KeepStep(s: seq<string>, v: string, c: seq<string>, i: nat, r: nat)
    requires MidRemoval(s, v, c, i, r) && i < |s| && c[i] != v
    ensures MidRemoval(s, v, c, i + 1, r)
  {
    assert s[..i + 1] == s[..i] + [s[i]];
    if i + r < |s| {
      KeepStepList(s, v, c, i, r);
    } else if i + r == |s| {
      assert c[..|s| - r] == c[..i];
    }
  }

  lemma RemoveStepList(s: seq<string>, v: string, c: seq<string>, i: nat, r: nat)
    requires MidRemoval(s, v, c, i, r) && i < |s| - r && c[i] == v
    ensures var c', n := Shifted(c, i, |s| - r), |s|;
            if i + r + 2 <= n
            then c'[i + 1..n - r - 1] == s[i + r + 2..]
                 && c'[..i + 1] + RemoveSkipping(s[i + r + 2..], v) == RemoveSkipping(s, v)
            else c'[..n - r - 1] == RemoveSkipping(s, v)
  {
    var m, c' := |s| - r, Shifted(c, i, |s| - r);
    var rest := s[i + r..];
    assert rest[0] == c[i..m][0] == v;
    assert c'[..i] == c[..i];
    if |rest| == 1 {
      assert c'[..m - 1] == c[..i] + [];
    } else {
      assert rest[1] == c[i..m][1] == c[i + 1] == c'[i];
      assert rest[2..] == s[i + r + 2..];
      assert c'[..i + 1] == c[..i] + [rest[1]];
      assert c[..i] + ([rest[1]] + RemoveSkipping(rest[2..], v)) == c'[..i + 1] + RemoveSkipping(rest[2..], v);
      assert c'[i + 1..m - 1] == c[i + 2..m] == c[i..m][2..];
    }
  }

  lemma RemoveStepTail(s: seq<string>, v: string, c: seq<string>, i: nat, r: nat)
    requires MidRemoval(s, v, c, i, r) && i < |s| - r && c[i] == v
    ensures s[i + r] == v && (r == 0 ==> s[i] == v)
    ensures var c' := Shifted(c, i, |s| - r); forall j | |s| - r - 1 <= j < |s| :: c'[j] == s[|s| - 1]
  {
    var n := |s|;
    assert c[i] == c[i..n - r][0] == s[i + r..][0];
    assert c[n - r - 1] == c[i..n - r][n - r - 1 - i] == s[i + r..][n - r - 1 - i] == s[n - 1];
    var c' := Shifted(c, i, n - r);
    forall j | n - r - 1 <= j < n ensures c'[j] == s[n - 1] {
      ShiftedAt(c, i, n - r, j);
    }
  }

  lemma RemoveStep(s: seq<string>, v: string, c: seq<string>, i: nat, r: nat)
    requires MidRemoval(s, v, c, i, r) && i < |s| - r && c[i] == v
    ensures MidRemoval(s, v, Shifted(c, i, |s| - r), i + 1, r + 1)
  {
    RemoveStepList(s, v, c, i, r);
    RemoveStepTail(s, v, c, i, r);
    assert s[..i + 1] == s[..i] + [s[i]];
  }

  lemma BeyondEnd(s: seq<string>, v: string, c: seq<string>, i: nat, r: nat)
    requires MidRemoval(s, v, c, i, r) && |s| - r <= i < |s| && c[i] == v
    ensures OutOfBounds(s, v)
  {
    assert s[..i] == s[..|s| - 1][..i];
  }

  lemma LoopEnd(s: seq<string>, v: string, c: seq<string>, r: nat)
    requires MidRemoval(s, v, c, |s|, r)
    ensures !OutOfBounds(s, v) && c[..|s| - r] == RemoveSkipping(s, v)
  {
    if r == 0 {
      assert c[..|s|] + [] == c[..|s|];
    }
  }

  datatype Removal = Panicked | Removed(values: seq<string>)

  /** The loop from position i on, over cells of which the first len hold the list. Ranging keeps the length the slice had
      at the start while the cells move; slicing past the end of the shortened list is Go's run-time panic. */
  function RemovalLoop(c: seq<string>, len: nat, i: nat, v: string): Removal
    requires i <= |c| && len <= |c|
    decreases |c| - i
  {
    if i == |c| then Removed(c[..len])
    else if c[i] != v then RemovalLoop(c, len, i + 1, v)
    else if i + 1 > len then Panicked
    else RemovalLoop(Shifted(c, i, len), len - 1, i + 1, v)
  }

  lemma {:induction false} RemovalStops(s: seq<string>, v: string, c: seq<string>, i: nat, r: nat)
    requires MidRemoval(s, v, c, i, r) && (i == |s| || (c[i] == v && i + 1 > |s| - r))
    ensures RemovalLoop(c, |s| - r, i, v) == if OutOfBounds(s, v) then Panicked else Removed(RemoveSkipping(s, v))
  {
    if i == |s| {
      LoopEnd(s, v, c, r);
    } else {
      BeyondEnd(s, v, c, i, r);
    }
  }

  lemma {:induction false} RemovalGoesOn(s: seq<string>, v: string, c: seq<string>, i: nat, r: nat)
    returns (c': seq<string>, r': nat)
    requires MidRemoval(s, v, c, i, r) && i < |s| && (c[i] != v || i + 1 <= |s| - r)
    ensures MidRemoval(s, v, c', i + 1, r')
    ensures RemovalLoop(c, |s| - r, i, v) == RemovalLoop(c', |s| - r', i + 1, v)
  {
    if c[i] != v {
      c', r' := c, r;
      KeepStep(s, v, c, i, r);
    } else {
      c', r' := Shifted(c, i, |s| - r), r + 1;
      RemoveStep(s, v, c, i, r);
    }
  }

  lemma {:induction false} RemovalFrom(s: seq<string>, v: string, c: seq<string>, i: nat, r: nat)
    requires MidRemoval(s, v, c, i, r)
    ensures RemovalLoop(c, |s| - r, i, v) == if OutOfBounds(s, v) then Panicked else Removed(RemoveSkipping(s, v))
    decreases |s| - i
  {
    if i == |s| || (c[i] == v && i + 1 > |s| - r) {
      RemovalStops(s, v, c, i, r);
    } else {
      var c', r' := RemovalGoesOn(s, v, c, i, r);
      RemovalFrom(s, v, c', i + 1, r');
    }
  }

  /** What the in-place loop does to any list. */
  lemma RemovalMeaning(s: seq<string>, v: string)
    ensures RemovalLoop(s, |s|, 0, v) == if OutOfBounds(s, v) then Panicked else Removed(RemoveSkipping(s, v))
  {
    assert s[0..] == s && s[..0] == [];
    RemovalFrom(s, v, s, 0, 0);
  }

  lemma ShiftedPrefix(c: seq<string>, i: nat, m: nat, n: nat)
    requires i < m <= n <= |c|
    ensures Shifted(c, i, m)[..n] == Shifted(c[..n], i, m)
  {
    forall k | 0 <= k < n ensures Shifted(c, i, m)[k] == Shifted(c[..n], i, m)[k] {
      ShiftedAt(c, i, m, k);
      ShiftedAt(c[..n], i, m, k);
    }
  }

  /** Go's append of cells[i+1:m] to cells[:i], which moves the elements within the backing array. */
  method ShiftDown(cells: array<string>, i: nat, m: nat)
    requires i < m <= cells.Length
    modifies cells
    ensures cells[..] == Shifted(old(cells[..]), i, m)
  {
    var j := i;
    while j + 1 < m
      invariant i <= j < m
      invariant forall k | 0 <= k < cells.Length :: cells[k] == old(cells[if i <= k < j then k + 1 else k])
    {
      cells[j] := cells[j + 1];
      j := j + 1;
    }
  }

  /** The same on the first n cells alone. */
  method ShiftWithin(cells: array<string>, i: nat, m: nat, n: nat)
    requires i < m <= n <= cells.Length
    modifies cells
    ensures cells[..n] == Shifted(old(cells[..n]), i, m)
  {
    ghost var before := cells[..];
    ShiftedPrefix(before, i, m, n);
    ShiftDown(cells, i, m);
    assert before[..n] == old(cells[..n]) && cells[..n] == cells[..][..n];
  }

  /** One turn of the loop below, at position i, over the first n cells, of which the first len hold the list. */
  method RemoveAt(cells: array<string>, n: nat, len: nat, i: nat, v: string) returns (len': nat, panicked: bool)
    requires i < n <= cells.Length && len <= n
    modifies cells
    ensures panicked ==> RemovalLoop(old(cells[..n]), len, i, v) == Panicked
    ensures !panicked ==> len' <= n && RemovalLoop(cells[..n], len', i + 1, v) == RemovalLoop(old(cells[..n]), len, i, v)
  {
    len', panicked := len, false;
    if cells[i] == v {
      if i + 1 > len {
        return len, true;
      }
      ShiftWithin(cells, i, len, n);
      len' := len - 1;
    }
  }

  /** The loop that ranges over a slice and removes from it the values equal to v. */
  method RemoveInPlace(s: Slice, v: string) returns (t: Slice, panicked: bool)
    requires s.Valid()
    modifies s.cells
    ensures t.Valid() && t.cells == s.cells
    ensures panicked <==> OutOfBounds(old(s.Values()), v)
    ensures !panicked ==> t.Values() == RemoveSkipping(old(s.Values()), v)
  {
    RemovalMeaning(s.Values(), v);
    ghost var outcome := RemovalLoop(s.Values(), s.len, 0, v);
    var i: nat, len: nat := 0, s.len;
    while i < s.len
      invariant i <= s.len && len <= s.len
      invariant RemovalLoop(s.cells[..s.len], len, i, v) == outcome
    {
      len, panicked := RemoveAt(s.cells, s.len, len, i, v);
      if panicked {
        return s, true;
      }
      i := i + 1;
    }
    t, panicked := s.(len := len), false;
    assert s.cells[..s.len][..len] == t.Values();
  }

  // ----- all labels of an object, as values -----

  datatype Outcome = Panics | Merged(labels: LabelMap)

  function ValuesOf(m: LabelMap, key: string): seq<string> {
    if key in m then m[key] else []
  }

  function AddValue(m: LabelMap, key: string, v: string): LabelMap {
    if v in ValuesOf(m, key) then m else m[key := ValuesOf(m, key) + [v]]
  }

  function AddValues(m: LabelMap, key: string, values: seq<string>): LabelMap {
    if values == [] then m
    else AddValue(AddValues(m, key, values[..|values| - 1]), key, values[|values| - 1])
  }

  function RemoveValue(m: LabelMap, key: string, v: string): Outcome {
    if OutOfBounds(ValuesOf(m, key), v) then Panics
    else if v !in ValuesOf(m, key) then Merged(m)
    else if RemoveSkipping(m[key], v) == [] then Merged(m - {key})
    else Merged(m[key := RemoveSkipping(m[key], v)])
  }

  function RemoveValues(m: LabelMap, key: string, values: seq<string>): Outcome {
    if values == [] then Merged(m)
    else match RemoveValues(m, key, values[..|values| - 1])
         case Panics => Panics
         case Merged(m') => RemoveValue(m', key, values[|values| - 1])
  }

  function ApplyChange(m: LabelMap, c: Change): Outcome {
    match c
    case Add(key, values) => Merged(AddValues(m, key, if values == [] then [""] else values))
    case Remove(key, values) => if values == [] then Merged(m - {key}) else RemoveValues(m, key, values)
  }

  function Apply(m: LabelMap, changes: seq<Change>): Outcome {
    if changes == [] then Merged(m)
    else match Apply(m, changes[..|changes| - 1])
         case Panics => Panics
         case Merged(m') => ApplyChange(m', changes[|changes| - 1])
  }

  // ----- the reference: labels as a set of key and value pairs -----

  function Pairs(m: LabelMap): set<(string, string)> {
    set k, v | k in m && v in m[k] :: (k, v)
  }

  function Tagged(key: string, values: seq<string>): set<(string, string)> {
    set v | v in values :: (key, v)
  }

  function ChangePairs(ps: set<(string, string)>, c: Change): set<(string, string)> {
    match c
    case Add(key, values) => if values == [] then ps + {(key, "")} else ps + Tagged(key, values)
    case Remove(key, values) => set p | p in ps && !(p.0 == key && (values == [] || p.1 in values))
  }

  function FoldPairs(ps: set<(string, string)>, changes: seq<Change>): set<(string, string)> {
    if changes == [] then ps
    else ChangePairs(FoldPairs(ps, changes[..|changes| - 1]), changes[|changes| - 1])
  }

  ghost predicate AllDistinct(m: LabelMap) {
    forall k | k in m :: Distinct(m[k])
  }

  /** No key lost its last value and stayed. */
  ghost predicate NoNewEmpty(m: LabelMap, m': LabelMap) {
    forall k | k in m' && m'[k] == [] :: k in m && m[k] == []
  }

  ghost predicate Adds(m: LabelMap, m': LabelMap, ps: set<(string, string)>) {
    AllDistinct(m') && NoNewEmpty(m, m') && Pairs(m') == Pairs(m) + ps
  }

  lemma AddValuePairs(m: LabelMap, key: string, v: string)
    requires AllDistinct(m)
    ensures Adds(m, AddValue(m, key, v), {(key, v)})
  {
    var m' := AddValue(m, key, v);
    assert (key, v) in Pairs(m');
  }

  lemma AddsTwice(m: LabelMap, m1: LabelMap, m2: LabelMap, ps: set<(string, string)>, qs: set<(string, string)>)
    requires Adds(m, m1, ps) && Adds(m1, m2, qs)
    ensures Adds(m, m2, ps + qs)
  {
  }

  lemma TaggedMore(key: string, values: seq<string>, last: string)
    ensures Tagged(key, values + [last]) == Tagged(key, values) + {(key, last)}
  {
  }

  lemma {:induction false} AddValuesPairs(m: LabelMap, key: string, values: seq<string>)
    requires AllDistinct(m)
    ensures Adds(m, AddValues(m, key, values), Tagged(key, values))
  {
    if values != [] {
      var init, last := values[..|values| - 1], values[|values| - 1];
      assert values == init + [last];
      var m' := AddValues(m, key, init);
      AddValuesPairs(m, key, init);
      AddValuePairs(m', key, last);
      AddsTwice(m, m', AddValue(m', key, last), Tagged(key, init), {(key, last)});
      TaggedMore(key, init, last);
    }
  }

  lemma RemoveValuePairs(m: LabelMap, key: string, v: string)
    requires AllDistinct(m)
    ensures var o := RemoveValue(m, key, v);
            o.Merged? && AllDistinct(o.labels) && NoNewEmpty(m, o.labels)
            && Pairs(o.labels) == Pairs(m) - {(key, v)}
  {
    var s := ValuesOf(m, key);
    DistinctNeverAdjacent(s, v);
    SkippingRemovesAllIff(s, v);
    WithoutMembers(s, v);
    var m' := RemoveValue(m, key, v).labels;
    forall p | p in Pairs(m) - {(key, v)} ensures p in Pairs(m') {
      if p.0 == key {
        assert p.1 in Without(s, v);
      }
    }
    forall p | p in Pairs(m') ensures p in Pairs(m) - {(key, v)} {}
  }

  lemma {:induction false} RemoveValuesPairs(m: LabelMap, key: string, values: seq<string>)
    requires AllDistinct(m)
    ensures var o := RemoveValues(m, key, values);
            o.Merged? && AllDistinct(o.labels) && NoNewEmpty(m, o.labels)
            && Pairs(o.labels) == set p | p in Pairs(m) && !(p.0 == key && p.1 in values)
  {
    if values != [] {
      var init, last := values[..|values| - 1], values[|values| - 1];
      RemoveValuesPairs(m, key, init);
      RemoveValuePairs(RemoveValues(m, key, init).labels, key, last);
      assert values == init + [last];
    }
  }

  lemma ChangeIsPairs(m: LabelMap, c: Change)
    requires AllDistinct(m)
    ensures var o := ApplyChange(m, c);
            o.Merged? && AllDistinct(o.labels) && NoNewEmpty(m, o.labels)
            && Pairs(o.labels) == ChangePairs(Pairs(m), c)
  {
    match c
    case Add(key, values) =>
      AddValuesPairs(m, key, if values == [] then [""] else values);
      assert Tagged(key, [""]) == {(key, "")};
    case Remove(key, values) =>
      if values != [] {
        RemoveValuesPairs(m, key, values);
      }
  }

  /** For duplicate-free lists any sequence of changes is the sequential fold over key and value pairs: nothing goes out
      of bounds, the lists stay duplicate-free, and a key is dropped with its last value. */
  lemma {:induction false} ApplyIsFold(m: LabelMap, changes: seq<Change>)
    requires AllDistinct(m)
    ensures var o := Apply(m, changes);
            o.Merged? && AllDistinct(o.labels) && NoNewEmpty(m, o.labels)
            && Pairs(o.labels) == FoldPairs(Pairs(m), changes)
  {
    if changes != [] {
      var init := changes[..|changes| - 1];
      ApplyIsFold(m, init);
      ChangeIsPairs(Apply(m, init).labels, changes[|changes| - 1]);
    }
  }

  // ----- the same on slices that share their arrays with the caller -----

  type Slices = map<string, Slice>

  /** No two keys share a backing array. */
  ghost predicate Separate(m: Slices) {
    && (forall k | k in m :: m[k].Valid())
    && (forall k, l | k in m && l in m && k != l :: m[k].cells != m[l].cells)
  }

  function Cells(m: Slices): set<array<string>> {
    set k | k in m :: m[k].cells
  }

  ghost function Contents(m: Slices): LabelMap
    requires Separate(m)
    reads Cells(m)
  {
    map k | k in m :: m[k].Values()
  }

  lemma ContentsAre(m: Slices, labels: LabelMap)
    requires Separate(m) && m.Keys == labels.Keys && forall k | k in m :: m[k].Values() == labels[k]
    ensures Contents(m) == labels
  {
  }

  /** append(s, v): in place while there is room, else into a new array. */
  method Append(s: Slice, v: string) returns (t: Slice)
    requires s.Valid()
    modifies s.cells
    ensures t.Valid() && (t.cells == s.cells || fresh(t.cells))
    ensures t.Values() == old(s.Values()) + [v]
  {
    if s.len < s.cells.Length {
      s.cells[s.len] := v;
      t := Slice(s.cells, s.len + 1);
    } else {
      var cells := new string[2 * s.len + 1](i requires 0 <= i && s.Valid() reads s.cells => if i < s.len then s.cells[i] else v);
      t := Slice(cells, s.len + 1);
    }
  }

  method AddInPlace(m: Slices, key: string, v: string) returns (m': Slices)
    requires Separate(m)
    modifies Cells(m)
    ensures Separate(m') && fresh(Cells(m') - Cells(m))
    ensures Contents(m') == AddValue(old(Contents(m)), key, v)
  {
    if key !in m {
      var cells := new string[1](_ => v);
      m' := m[key := Slice(cells, 1)];
      forall k | k in m ensures m'[k].Values() == old(m[k].Values()) {
        assert m[k].cells in Cells(m);
      }
      ContentsAre(m', old(Contents(m))[key := [] + [v]]);
      return;
    }
    assert m[key].cells in Cells(m);
    var i := 0;
    while i < m[key].len
      invariant i <= m[key].len && v !in m[key].cells[..i]
    {
      if m[key].cells[i] == v {
        return m;
      }
      i := i + 1;
    }
    ghost var before := Contents(m);
    var t := Append(m[key], v);
    m' := m[key := t];
    ContentsAre(m', before[key := before[key] + [v]]);
  }

  /** What removing one value makes of the labels, from what it makes of the list. */
  lemma RemovedFrom(m: LabelMap, key: string, v: string, after: seq<string>)
    requires key in m && !OutOfBounds(m[key], v) && after == RemoveSkipping(m[key], v)
    ensures RemoveValue(m, key, v) == Merged(if m[key] != [] && after == [] then m - {key} else m[key := after])
  {
    SkippingShorter(m[key], v);
    if v !in m[key] {
      assert !Adjacent(m[key], v);
      SkippingRemovesAllIff(m[key], v);
      WithoutMembers(m[key], v);
      assert m[key := m[key]] == m;
    }
  }

  /** Removal from the list of one key leaves the lists of the others as they are. */
  method RemoveAtKey(m: Slices, key: string, v: string) returns (t: Slice, panicked: bool)
    requires Separate(m) && key in m
    modifies m[key].cells
    ensures t.Valid() && t.cells == m[key].cells
    ensures panicked <==> OutOfBounds(old(m[key].Values()), v)
    ensures !panicked ==> t.Values() == RemoveSkipping(old(m[key].Values()), v)
    ensures forall k | k in m && k != key :: m[k].Values() == old(m[k].Values())
  {
    t, panicked := RemoveInPlace(m[key], v);
  }

  method RemoveFrom(m: Slices, key: string, v: string) returns (m': Slices, panicked: bool)
    requires Separate(m)
    modifies Cells(m)
    ensures Separate(m') && Cells(m') <= Cells(m)
    ensures panicked <==> RemoveValue(old(Contents(m)), key, v).Panics?
    ensures !panicked ==> Contents(m') == RemoveValue(old(Contents(m)), key, v).labels
  {
    m', panicked := m, false;
    if key in m {
      assert m[key].cells in Cells(m);
      ghost var before := Contents(m);
      var t;
      t, panicked := RemoveAtKey(m, key, v);
      if !panicked {
        RemovedFrom(before, key, v, t.Values());
        if m[key].len > 0 && t.len == 0 {
          m' := m - {key};
          ContentsAre(m', before - {key});
        } else {
          m' := m[key := t];
          ContentsAre(m', before[key := t.Values()]);
        }
      }
    }
  }

  /** ApplyLabelChangesToLabels, for the merged labels. */
  method ApplyLabelChanges(changes: seq<Change>, labels: Slices) returns (merged: Slices, panicked: bool)
    requires Separate(labels)
    modifies Cells(labels)
    ensures Separate(merged)
    ensures panicked <==> Apply(old(Contents(labels)), changes).Panics?
    ensures !panicked ==> Contents(merged) == Apply(old(Contents(labels)), changes).labels
  {
    merged, panicked := labels, false;
    ghost var start := Contents(labels);
    for n := 0 to |changes|
      invariant Separate(merged) && fresh(Cells(merged) - Cells(labels))
      invariant Apply(start, changes[..n]) == Merged(Contents(merged))
    {
      assert changes[..n + 1][..n] == changes[..n];
      merged, panicked := ApplyOne(merged, changes[n]);
      if panicked {
        PanicPersists(start, changes, n + 1);
        return;
      }
    }
    assert changes[..|changes|] == changes;
  }

  lemma {:induction false} PanicPersists(m: LabelMap, changes: seq<Change>, n: nat)
    requires n <= |changes| && Apply(m, changes[..n]).Panics?
    ensures Apply(m, changes).Panics?
    decreases |changes| - n
  {
    if n < |changes| {
      assert changes[..n + 1][..n] == changes[..n];
      PanicPersists(m, changes, n + 1);
    } else {
      assert changes[..n] == changes;
    }
  }

  lemma {:induction false} RemovePanicPersists(m: LabelMap, key: string, values: seq<string>, n: nat)
    requires n <= |values| && RemoveValues(m, key, values[..n]).Panics?
    ensures RemoveValues(m, key, values).Panics?
    decreases |values| - n
  {
    if n < |values| {
      assert values[..n + 1][..n] == values[..n];
      RemovePanicPersists(m, key, values, n + 1);
    } else {
      assert values[..n] == values;
    }
  }

  method AddAll(m: Slices, key: string, values: seq<string>) returns (m': Slices)
    requires Separate(m)
    modifies Cells(m)
    ensures Separate(m') && fresh(Cells(m') - Cells(m))
    ensures Contents(m') == AddValues(old(Contents(m)), key, values)
  {
    m' := m;
    ghost var start := Contents(m);
    for n := 0 to |values|
      invariant Separate(m') && fresh(Cells(m') - Cells(m))
      invariant Contents(m') == AddValues(start, key, values[..n])
    {
      assert values[..n + 1][..n] == values[..n];
      m' := AddInPlace(m', key, values[n]);
    }
    assert values[..|values|] == values;
  }

  method RemoveAll(m: Slices, key: string, values: seq<string>) returns (m': Slices, panicked: bool)
    requires Separate(m)
    modifies Cells(m)
    ensures Separate(m') && Cells(m') <= Cells(m)
    ensures panicked <==> RemoveValues(old(Contents(m)), key, values).Panics?
    ensures !panicked ==> Contents(m') == RemoveValues(old(Contents(m)), key, values).labels
  {
    m', panicked := m, false;
    ghost var start := Contents(m);
    for n := 0 to |values|
      invariant Separate(m') && Cells(m') <= Cells(m)
      invariant !panicked && RemoveValues(start, key, values[..n]) == Merged(Contents(m'))
    {
      assert values[..n + 1][..n] == values[..n];
      m', panicked := RemoveFrom(m', key, values[n]);
      if panicked {
        RemovePanicPersists(start, key, values, n + 1);
        return;
      }
    }
    assert values[..|values|] == values;
  }

  method ApplyOne(m: Slices, c: Change) returns (m': Slices, panicked: bool)
    requires Separate(m)
    modifies Cells(m)
    ensures Separate(m') && fresh(Cells(m') - Cells(m))
    ensures panicked <==> ApplyChange(old(Contents(m)), c).Panics?
    ensures !panicked ==> Contents(m') == ApplyChange(old(Contents(m)), c).labels
  {
    m', panicked := m, false;
    match c {
      case Add(key, values) =>
        m' := AddAll(m, key, if values == [] then [""] else values);
      case Remove(key, values) =>
        if values == [] {
          m' := m - {key};
        } else {
          m', panicked := RemoveAll(m, key, values);
        }
    }
  }
}
