/**
 * Values and failures shared by every part of the model.
 *
 * The modelled program is written in Python: its failures are exceptions, its
 * configuration is whatever a YAML or JSON loader returns, and its tests use
 * Python's truthiness, `in`, `len` and subscription.  This module gives each of
 * those a Dafny meaning once, so the other modules can state the source's
 * behaviour, error paths included, without a `requires` that hides them.
 */
module Common {

  /** The Python exception classes the modelled code raises. */
  datatype Error =
    | ValueError
    | TypeError
    | KeyError
    | IndexError
    | NameError
    | UnboundLocalError
    | AssertionError
    | AttributeError
    | NotImplementedError
    | RuntimeError
    | TimeoutError

  datatype Option<+T> = None | Some(value: T)

  /** A value, or the exception raised while computing it. */
  datatype Result<+T> = Ok(value: T) | Err(error: Error) {
    predicate IsFailure() { Err? }
    function PropagateFailure<U>(): Result<U> requires Err? { Err(error) }
    function Extract(): T requires Ok? { value }
  }

  /** A statement that either completes or raises. */
  datatype Outcome = Pass | Fail(error: Error) {
    predicate IsFailure() { Fail? }
    function PropagateFailure(): Outcome requires Fail? { this }
  }

  /**
   * A parsed YAML (or JSON) value.  A mapping keeps its keys in the order the
   * loader produced them, because the configuration reader walks them in that
   * order and the first offending key decides which exception is raised.
   */
  datatype Yaml =
    | YNone
    | YBool(b: bool)
    | YInt(i: int)
    | YReal(r: real)
    | YStr(s: string)
    | YList(items: seq<Yaml>)
    | YMap(entries: seq<(string, Yaml)>)

  /** Python truthiness: None, False, zero and empty containers are false. */
  predicate Truthy(y: Yaml) {
    match y
    case YNone => false
    case YBool(b) => b
    case YInt(i) => i != 0
    case YReal(r) => r != 0.0
    case YStr(s) => s != ""
    case YList(items) => items != []
    case YMap(entries) => entries != []
  }

  predicate HasKey(entries: seq<(string, Yaml)>, key: string) {
    exists i :: 0 <= i < |entries| && entries[i].0 == key
  }

  /** The value stored under `key` (the first such entry), if any. */
  function Lookup(entries: seq<(string, Yaml)>, key: string): (r: Option<Yaml>)
    ensures r.Some? <==> HasKey(entries, key)
    ensures r.Some? ==> (key, r.value) in entries
  {
    if entries == [] then None
    else if entries[0].0 == key then Some(entries[0].1)
    else
      var rest := Lookup(entries[1..], key);
      assert forall i :: 1 <= i < |entries| ==> entries[i] == entries[1..][i - 1];
      rest
  }

  /**
   * Python's `d[key] = value` on a mapping: an existing key keeps its place
   * and takes the new value, a new key goes last.
   */
  function PySet(entries: seq<(string, Yaml)>, key: string, value: Yaml): (r: seq<(string, Yaml)>)
    ensures Lookup(r, key) == Some(value)
    ensures forall k :: k != key ==> Lookup(r, k) == Lookup(entries, k)
    ensures HasKey(entries, key) ==> |r| == |entries|
    ensures !HasKey(entries, key) ==> r == entries + [(key, value)]
    decreases |entries|
  {
    if entries == [] then [(key, value)]
    else if entries[0].0 == key then [(key, value)] + entries[1..]
    else
      var rest := PySet(entries[1..], key, value);
      assert HasKey(entries, key) ==> HasKey(entries[1..], key);
      [entries[0]] + rest
  }

  /** Python's `needle in hay` for a string needle. */
  function PyIn(needle: string, hay: Yaml): (r: Result<bool>)
    ensures r.Err? <==> !(hay.YStr? || hay.YList? || hay.YMap?)
    ensures hay.YList? ==> r == Ok(YStr(needle) in hay.items)
    ensures hay.YMap? ==> r == Ok(HasKey(hay.entries, needle))
  {
    match hay
    case YStr(s) => Ok(Contains(s, needle))
    case YList(items) => Ok(YStr(needle) in items)
    case YMap(entries) => Ok(HasKey(entries, needle))
    case _ => Err(TypeError)
  }

  /** Python's `container[key]` for a string key. */
  function PyGet(container: Yaml, key: string): (r: Result<Yaml>)
    ensures r.Ok? <==> container.YMap? && HasKey(container.entries, key)
    ensures container.YMap? && !HasKey(container.entries, key) ==> r == Err(KeyError)
  {
    match container
    case YMap(entries) =>
      (match Lookup(entries, key)
       case Some(v) => Ok(v)
       case None => Err(KeyError))
    case _ => Err(TypeError)
  }

  /** Python's `container.items()`: only a mapping has it. */
  function PyItems(container: Yaml): (r: Result<seq<(string, Yaml)>>)
    ensures r.Ok? <==> container.YMap?
    ensures r.Err? ==> r.error == AttributeError
  {
    if container.YMap? then Ok(container.entries) else Err(AttributeError)
  }

  /** Python's `len(y)`. */
  function PyLen(y: Yaml): (r: Result<nat>)
    ensures r.Ok? <==> (y.YStr? || y.YList? || y.YMap?)
    ensures y.YList? ==> r == Ok(|y.items|)
  {
    match y
    case YStr(s) => Ok(|s|)
    case YList(items) => Ok(|items|)
    case YMap(entries) => Ok(|entries|)
    case _ => Err(TypeError)
  }

  /**
   * Python's `y[i]` for a non-negative int index.  A mapping whose keys are
   * strings has no int key, so subscripting it raises KeyError.
   */
  function PyItem(y: Yaml, i: nat): (r: Result<Yaml>)
    ensures y.YList? ==> r == (if i < |y.items| then Ok(y.items[i]) else Err(IndexError))
    ensures r.Ok? ==> y.YList? || y.YStr?
  {
    match y
    case YList(items) => if i < |items| then Ok(items[i]) else Err(IndexError)
    case YStr(s) => if i < |s| then Ok(YStr([s[i]])) else Err(IndexError)
    case YMap(_) => Err(KeyError)
    case _ => Err(TypeError)
  }

  /** The numeric value of an int, float or bool (Python bools are ints). */
  function AsReal(y: Yaml): Option<real> {
    match y
    case YBool(b) => Some(if b then 1.0 else 0.0)
    case YInt(i) => Some(i as real)
    case YReal(r) => Some(r)
    case _ => None
  }

  predicate StartsWith(s: string, prefix: string) {
    |prefix| <= |s| && s[..|prefix|] == prefix
  }

  predicate EndsWith(s: string, suffix: string) {
    |suffix| <= |s| && s[|s| - |suffix|..] == suffix
  }

  /** Python's `needle in hay` on two strings: a substring test. */
  predicate Contains(hay: string, needle: string)
    decreases |hay|
  {
    StartsWith(hay, needle) || (|hay| > 0 && Contains(hay[1..], needle))
  }

  predicate Occurs(hay: string, needle: string, i: int) {
    0 <= i && i + |needle| <= |hay| && hay[i..i + |needle|] == needle
  }

  /** The recursive substring test agrees with "occurs at some offset". */
  lemma {:induction false} ContainsIff(hay: string, needle: string)
    ensures Contains(hay, needle) <==> exists i :: Occurs(hay, needle, i)
    decreases |hay|
  {
    if StartsWith(hay, needle) {
      assert Occurs(hay, needle, 0);
    } else if |hay| > 0 {
      ContainsIff(hay[1..], needle);
      if Contains(hay[1..], needle) {
        var i :| Occurs(hay[1..], needle, i);
        assert hay[1..][i..i + |needle|] == hay[i + 1..i + 1 + |needle|];
        assert Occurs(hay, needle, i + 1);
      }
      if i :| Occurs(hay, needle, i) {
        assert i != 0;
        assert hay[1..][i - 1..i - 1 + |needle|] == hay[i..i + |needle|];
        assert Occurs(hay[1..], needle, i - 1);
      }
    }
  }

  /** A witness offset proves the substring test. */
  lemma ContainsAt(hay: string, needle: string, i: nat)
    requires Occurs(hay, needle, i)
    ensures Contains(hay, needle)
  {
    ContainsIff(hay, needle);
  }

  /** A text that contains `a + b` contains `a`. */
  lemma ContainsPrefix(hay: string, a: string, b: string)
    requires Contains(hay, a + b)
    ensures Contains(hay, a)
  {
    ContainsIff(hay, a + b);
    var i :| Occurs(hay, a + b, i);
    assert hay[i..i + |a|] == (a + b)[..|a|] == a;
    ContainsAt(hay, a, i);
  }

  /** Python's `str.lower()` restricted to ASCII letters. */
  function Lower(s: string): (r: string)
    ensures |r| == |s|
    ensures forall i :: 0 <= i < |s| ==> r[i] == LowerChar(s[i])
  {
    seq(|s|, i requires 0 <= i < |s| => LowerChar(s[i]))
  }

  function LowerChar(c: char): char {
    if 'A' <= c <= 'Z' then (c as int - 'A' as int + 'a' as int) as char else c
  }

  /** No element of `s` occurs twice. */
  predicate NoDup<T(==)>(s: seq<T>) {
    forall i, j :: 0 <= i < j < |s| ==> s[i] != s[j]
  }
}
