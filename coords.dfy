/**
 * What `PipelineManager._gen_coord_set` computes, stated as functions on values.
 *
 * The configured `positions` and `timepoints` are lists of entries of several
 * Python types.  Scanning a list visits indices one after another; every visited
 * position receives the running counter `cnt` as its output slot.  The method
 * that performs the scan with loops lives in the `Manager` module and is proved
 * against the functions here; the lemmas here say what those functions mean.
 */
module CoordSet {
  import opened Common

  /** One entry of a configured `positions` or `timepoints` list, by Python type. */
  datatype Entry =
    | Str(s: string)          // a string: only 'all' is understood
    | Int(n: int)             // an int (Python bools are ints too)
    | IntList(items: seq<int>)          // a list of ints (bools as 0 and 1)
    | MixedList(values: seq<Yaml>)      // a list holding some item that is not an int
    | Tuple(items: seq<int>)            // `(start, stop)`, read as `range(start, stop)`
    | Other                             // a float, None, a dict, ...

  /** Which list is scanned: the two scans differ only for list entries. */
  datatype Axis = Positions | Timepoints

  /** Python's `isinstance(y, int)`: ints, and bools as 0 and 1. */
  predicate IsPyInt(y: Yaml) {
    y.YInt? || y.YBool?
  }

  function PyIntValue(y: Yaml): int
    requires IsPyInt(y)
  {
    if y.YInt? then y.i else if y.b then 1 else 0
  }

  /** A value a Python set or dict cannot hold: a list or a dict. */
  predicate Unhashable(y: Yaml) {
    y.YList? || y.YMap?
  }

  /** The entry an already-parsed YAML value denotes. */
  function EntryOf(y: Yaml): (e: Entry)
    ensures y.YStr? <==> e.Str?
    ensures IsPyInt(y) <==> e.Int?
    ensures IsPyInt(y) ==> e == Int(PyIntValue(y))
    ensures y.YList? <==> e.IntList? || e.MixedList?
    ensures e.IntList? ==>
      |e.items| == |y.items| &&
      forall i :: 0 <= i < |y.items| ==> IsPyInt(y.items[i]) && e.items[i] == PyIntValue(y.items[i])
    ensures e.MixedList? ==> e.values == y.items && exists i :: 0 <= i < |y.items| && !IsPyInt(y.items[i])
  {
    match y
    case YStr(s) => Str(s)
    case YInt(n) => Int(n)
    case YBool(b) => Int(if b then 1 else 0)
    case YList(items) =>
      if forall i :: 0 <= i < |items| ==> IsPyInt(items[i]) then
        IntList(seq(|items|, i requires 0 <= i < |items| => PyIntValue(items[i])))
      else MixedList(items)
    case _ => Other
  }

  /**
   * The exception a non-empty list with a non-int item raises: TypeError among
   * the positions (the list is used as a dict key) and, among the timepoints,
   * when an item cannot be put in a set.  The remaining case, a timepoint list
   * of floats, strings or None, is accepted by the source; the model's
   * timepoints are integers and it reports ValueError there.
   */
  function MixedListError(axis: Axis, values: seq<Yaml>): Error {
    if axis == Positions || exists i :: 0 <= i < |values| && Unhashable(values[i]) then TypeError
    else ValueError
  }

  /** `list(range(a, b))`. */
  function Span(a: int, b: int): (r: seq<int>)
    ensures |r| == if a <= b then b - a else 0
    ensures forall i :: 0 <= i < |r| ==> r[i] == a + i
  {
    seq(if a <= b then b - a else 0, i => a + i)
  }

  lemma SpanMembers(a: int, b: int, x: int)
    ensures x in Span(a, b) <==> a <= x < b
  {
    if a <= x < b {
      assert Span(a, b)[x - a] == x;
    }
  }

  /** Prepends the visits of a processed entry to the visits of the rest. */
  function Then(prefix: seq<int>, r: Result<seq<int>>): (t: Result<seq<int>>)
    ensures t.Ok? <==> r.Ok?
    ensures r.Err? ==> t == r
  {
    if r.Ok? then Ok(prefix + r.value) else r
  }

  lemma ThenThen(a: seq<int>, b: seq<int>, r: Result<seq<int>>)
    ensures Then(a, Then(b, r)) == Then(a + b, r)
  {
    if r.Ok? {
      assert a + (b + r.value) == (a + b) + r.value;
    }
  }

  /**
   * The indices a scan of `entries` visits, in order, or the exception it
   * raises.  `extent` is what `'all'` ranges over (the number of positions,
   * or the number of frames).  `'all'` ends the scan; a non-empty position
   * list raises TypeError because the list itself is used as a dict key.
   */
  function Visits(axis: Axis, entries: seq<Entry>, extent: int): Result<seq<int>>
    decreases |entries|
  {
    if entries == [] then Ok([])
    else
      var rest := Visits(axis, entries[1..], extent);
      match entries[0]
      case Str(s) => if s == "all" then Ok(Span(0, extent)) else Err(ValueError)
      case Int(n) => Then([n], rest)
      case IntList(items) =>
        if axis == Positions && items != [] then Err(TypeError) else Then(items, rest)
      case MixedList(values) =>
        if values == [] then Then([], rest) else Err(MixedListError(axis, values))
      case Tuple(items) =>
        if |items| < 2 then Err(IndexError) else Then(Span(items[0], items[1]), rest)
      case Other => Err(ValueError)
  }

  /** The set `p_indices` (or `t_indices`) a successful scan collects. */
  function Members(v: seq<int>): (s: set<int>)
    ensures forall x :: x in s <==> x in v
  {
    set i | 0 <= i < |v| :: v[i]
  }

  /** `indices_map` after the visits in `v`: visit number `i` maps `v[i]` to `i`. */
  function SlotMap(v: seq<int>): map<int, nat>
    decreases |v|
  {
    if v == [] then map[] else SlotMap(v[..|v| - 1])[v[|v| - 1] := |v| - 1]
  }

  /** `i` is the last visit of `p` among the visits `v`. */
  predicate IsLastVisit(v: seq<int>, p: int, i: int) {
    0 <= i < |v| && v[i] == p && forall j :: i < j < |v| ==> v[j] != p
  }

  /**
   * The map holds exactly the visited indices, and each is mapped to its last
   * visit: a repeated index is re-mapped to its later slot.
   */
  lemma {:induction false} SlotMapIsLastVisit(v: seq<int>)
    ensures forall p :: p in SlotMap(v) <==> p in v
    ensures forall p :: p in SlotMap(v) ==> IsLastVisit(v, p, SlotMap(v)[p])
    decreases |v|
  {
    if v != [] {
      var u := v[..|v| - 1];
      SlotMapIsLastVisit(u);
      forall p | p in SlotMap(v)
        ensures IsLastVisit(v, p, SlotMap(v)[p])
      {
        if p != v[|v| - 1] {
          assert IsLastVisit(u, p, SlotMap(u)[p]);
        }
      }
      forall p | p in v
        ensures p in SlotMap(v)
      {
        var k :| 0 <= k < |v| && v[k] == p;
        if k < |v| - 1 {
          assert u[k] == p;
        }
      }
    }
  }

  /** No two positions share an output slot, and every slot is a visit number. */
  lemma SlotMapInjective(v: seq<int>)
    ensures forall p, q :: p in SlotMap(v) && q in SlotMap(v) && p != q ==> SlotMap(v)[p] != SlotMap(v)[q]
    ensures forall p :: p in SlotMap(v) ==> SlotMap(v)[p] < |v|
  {
    SlotMapIsLastVisit(v);
  }

  /** A visit that is repeated later leaves its slot unused. */
  lemma SlotMapEarlierSlotUnused(v: seq<int>, i: int, j: int)
    requires 0 <= i < j < |v| && v[i] == v[j]
    ensures forall p :: p in SlotMap(v) ==> SlotMap(v)[p] != i
  {
    SlotMapIsLastVisit(v);
  }

  /**
   * Scanning a prefix without `'all'` and then the rest visits the prefix's
   * indices followed by the rest's.
   */
  lemma {:induction false} VisitsAppend(axis: Axis, pre: seq<Entry>, rest: seq<Entry>, extent: int)
    requires Visits(axis, pre, extent).Ok?
    requires Str("all") !in pre
    ensures Visits(axis, pre + rest, extent) == Then(Visits(axis, pre, extent).value, Visits(axis, rest, extent))
    decreases |pre|
  {
    if pre == [] {
      assert pre + rest == rest;
      var r := Visits(axis, rest, extent);
      if r.Ok? {
        assert [] + r.value == r.value;
      }
    } else {
      assert (pre + rest)[0] == pre[0];
      assert (pre + rest)[1..] == pre[1..] + rest;
      var tail := Visits(axis, pre[1..], extent);
      match pre[0]
      case Str(s) =>
      case Int(n) =>
        VisitsAppend(axis, pre[1..], rest, extent);
        ThenThen([n], tail.value, Visits(axis, rest, extent));
      case IntList(items) =>
        VisitsAppend(axis, pre[1..], rest, extent);
        ThenThen(items, tail.value, Visits(axis, rest, extent));
      case MixedList(values) =>
        VisitsAppend(axis, pre[1..], rest, extent);
        ThenThen([], tail.value, Visits(axis, rest, extent));
      case Tuple(items) =>
        VisitsAppend(axis, pre[1..], rest, extent);
        ThenThen(Span(items[0], items[1]), tail.value, Visits(axis, rest, extent));
      case Other =>
    }
  }

  /**
   * `'all'` visits every index below the extent after what the entries before
   * it visited, and the entries after it are never looked at.
   */
  lemma AllStopsScan(axis: Axis, pre: seq<Entry>, post: seq<Entry>, extent: int)
    requires Visits(axis, pre, extent).Ok?
    requires Str("all") !in pre
    ensures Visits(axis, pre + [Str("all")] + post, extent)
         == Ok(Visits(axis, pre, extent).value + Span(0, extent))
  {
    assert pre + [Str("all")] + post == pre + ([Str("all")] + post);
    VisitsAppend(axis, pre, [Str("all")] + post, extent);
  }

  /**
   * A non-empty list among the positions raises TypeError when it is reached,
   * while among the timepoints it contributes its members.
   */
  lemma ListEntry(pre: seq<Entry>, items: seq<int>, post: seq<Entry>, extent: int)
    requires items != []
    requires Visits(Positions, pre, extent).Ok? && Str("all") !in pre
    requires Visits(Timepoints, pre, extent).Ok?
    ensures Visits(Positions, pre + [IntList(items)] + post, extent) == Err(TypeError)
    ensures Visits(Timepoints, pre + [IntList(items)] + post, extent)
         == Then(Visits(Timepoints, pre, extent).value + items, Visits(Timepoints, post, extent))
  {
    assert pre + [IntList(items)] + post == pre + ([IntList(items)] + post);
    assert ([IntList(items)] + post)[1..] == post;
    VisitsAppend(Positions, pre, [IntList(items)] + post, extent);
    VisitsAppend(Timepoints, pre, [IntList(items)] + post, extent);
    ThenThen(Visits(Timepoints, pre, extent).value, items, Visits(Timepoints, post, extent));
  }

  /**
   * A non-empty list with a non-int item raises TypeError among the positions,
   * and among the timepoints when one of its items is a list or a dict.
   */
  lemma MixedListEntry(axis: Axis, pre: seq<Entry>, values: seq<Yaml>, post: seq<Entry>, extent: int)
    requires values != []
    requires Visits(axis, pre, extent).Ok? && Str("all") !in pre
    ensures axis == Positions ==> Visits(axis, pre + [MixedList(values)] + post, extent) == Err(TypeError)
    ensures (exists i :: 0 <= i < |values| && Unhashable(values[i])) ==>
      Visits(axis, pre + [MixedList(values)] + post, extent) == Err(TypeError)
  {
    assert pre + [MixedList(values)] + post == pre + ([MixedList(values)] + post);
    VisitsAppend(axis, pre, [MixedList(values)] + post, extent);
  }

  /** A set of integers in [0, bound) has at most `bound` members. */
  lemma {:induction false} BoundedSetSize(s: set<int>, bound: int)
    requires forall x :: x in s ==> 0 <= x < bound
    ensures |s| <= if bound < 0 then 0 else bound
    decreases if bound < 0 then 0 else bound
  {
    if bound <= 0 {
      assert s == {} by {
        forall x | x in s ensures false { }
      }
    } else {
      BoundedSetSize(s - {bound - 1}, bound - 1);
    }
  }

  /** For a set of non-negative ints, |S| <= max(S) + 1. */
  lemma SizeAtMostMaxPlusOne(s: set<int>, m: int)
    requires m in s
    requires forall x :: x in s ==> 0 <= x <= m
    ensures |s| <= m + 1
  {
    BoundedSetSize(s, m + 1);
  }

  /** A scan collects no more distinct indices than it visits. */
  lemma {:induction false} MembersSize(v: seq<int>)
    ensures |Members(v)| <= |v|
    decreases |v|
  {
    if v != [] {
      var u := v[..|v| - 1];
      MembersSize(u);
      assert Members(v) == Members(u) + {v[|v| - 1]};
    }
  }

  /** The `(p, t)` units of work: every selected position with every selected timepoint. */
  function Units(ps: set<int>, ts: set<int>): (u: set<(int, int)>)
    ensures forall p, t :: (p, t) in u <==> p in ps && t in ts
  {
    set p, t | p in ps && t in ts :: (p, t)
  }
}
