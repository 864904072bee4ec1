/** The slice of Python's data model that the integration's configuration,
    templates and service payloads are made of: None, booleans, integers,
    strings, lists and string-keyed dicts, together with exceptions, truthiness,
    str() and the dict operations the code performs. Dicts keep insertion
    order, as Python's do. */
module Py {

  datatype Option<+T> = None | Some(value: T)

  /** A Python value. `Nil` is Python's None. */
  datatype Value =
    | Nil
    | Bool(b: bool)
    | Int(i: int)
    | Str(s: string)
    | List(elems: seq<Value>)
    | Dict(items: Mapping)

  /** A dict as its items in insertion order. */
  type Mapping = seq<(string, Value)>

  /** The exceptions the modelled code raises, catches or lets through. */
  datatype Exc =
    | TemplateError
    | ValueError(msg: string)
    | TypeError
    | KeyError(key: string)
    | AttributeError
    | OtherError

  /** How a Python call ends: it returns a value or raises. */
  datatype Outcome<+T> = Returns(value: T) | Raises(exc: Exc)

  /** Running calls one after another: the values of all of them, in order,
      or the exception of the first that raises (the later ones do not run). */
  function Collect<T>(outs: seq<Outcome<T>>): Outcome<seq<T>>
    decreases |outs|
  {
    if outs == [] then Returns([])
    else
      match Collect(outs[..|outs| - 1])
      case Raises(e) => Raises(e)
      case Returns(vs) =>
        match outs[|outs| - 1]
        case Raises(e) => Raises(e)
        case Returns(v) => Returns(vs + [v])
  }

  /** The run returns exactly when every call returns, and then holds their
      values in order. */
  lemma {:induction false} CollectReturns<T>(outs: seq<Outcome<T>>)
    ensures Collect(outs).Returns? <==> forall i | 0 <= i < |outs| :: outs[i].Returns?
    ensures Collect(outs).Returns? ==>
      && |Collect(outs).value| == |outs|
      && forall i | 0 <= i < |outs| :: outs[i] == Returns(Collect(outs).value[i])
    decreases |outs|
  {
    if outs != [] {
      var init := outs[..|outs| - 1];
      assert forall i | 0 <= i < |init| :: init[i] == outs[i];
      CollectReturns(init);
    }
  }

  /** A run that raises raises the exception of its first raising call. */
  lemma {:induction false} CollectRaises<T>(outs: seq<Outcome<T>>)
    requires Collect(outs).Raises?
    ensures exists i | 0 <= i < |outs| ::
      outs[i] == Raises(Collect(outs).exc) && forall j | 0 <= j < i :: outs[j].Returns?
    decreases |outs|
  {
    var init := outs[..|outs| - 1];
    assert forall i | 0 <= i < |init| :: init[i] == outs[i];
    if Collect(init).Raises? {
      CollectRaises(init);
      var i :| 0 <= i < |init| && init[i] == Raises(Collect(init).exc)
               && forall j | 0 <= j < i :: init[j].Returns?;
      assert outs[i] == Raises(Collect(outs).exc);
    } else {
      CollectReturns(init);
      assert outs[|outs| - 1] == Raises(Collect(outs).exc);
    }
  }

  /** One more call: its exception, or its value after the earlier ones. */
  lemma CollectStep<T>(outs: seq<Outcome<T>>, i: nat, vs: seq<T>)
    requires i < |outs| && Collect(outs[..i]) == Returns(vs)
    ensures outs[i].Raises? ==> Collect(outs[..i + 1]) == Raises(outs[i].exc)
    ensures outs[i].Returns? ==> Collect(outs[..i + 1]) == Returns(vs + [outs[i].value])
  {
    assert outs[..i + 1][..i] == outs[..i];
  }

  /** Once a prefix of the calls raises, the whole run raises the same. */
  lemma {:induction false} CollectPrefixRaises<T>(outs: seq<Outcome<T>>, n: nat)
    requires n <= |outs| && Collect(outs[..n]).Raises?
    ensures Collect(outs) == Collect(outs[..n])
    decreases |outs| - n
  {
    if n < |outs| {
      var init := outs[..|outs| - 1];
      assert init[..n] == outs[..n];
      CollectPrefixRaises(init, n);
    } else {
      assert outs[..n] == outs;
    }
  }

  /** Running a first call, then the rest: its exception, or its value in
      front of the rest's run. */
  lemma {:induction false} CollectCons<T>(o: Outcome<T>, rest: seq<Outcome<T>>)
    ensures Collect([o] + rest) ==
      match o
      case Raises(e) => Raises(e)
      case Returns(v) =>
        match Collect(rest)
        case Raises(e) => Raises(e)
        case Returns(vs) => Returns([v] + vs)
    decreases |rest|
  {
    var all := [o] + rest;
    if rest == [] {
      assert all[..|all| - 1] == [] && all[|all| - 1] == o;
      if o.Returns? {
        assert [] + [o.value] == [o.value] + [];
      }
    } else {
      var init := rest[..|rest| - 1];
      assert all[..|all| - 1] == [o] + init;
      assert all[|all| - 1] == rest[|rest| - 1];
      CollectCons(o, init);
      var last := rest[|rest| - 1];
      if o.Returns? && Collect(init).Returns? && last.Returns? {
        assert [o.value] + (Collect(init).value + [last.value])
          == ([o.value] + Collect(init).value) + [last.value];
      }
    }
  }

  /** Python's truth value (`bool(v)`, `if v:`). */
  predicate Truthy(v: Value) {
    match v
    case Nil => false
    case Bool(b) => b
    case Int(i) => i != 0
    case Str(s) => s != ""
    case List(es) => es != []
    case Dict(items) => items != []
  }

  /** `x or ""` */
  function OrEmpty(v: Value): (r: Value)
    ensures Truthy(v) ==> r == v
    ensures !Truthy(v) ==> r == Str("")
  {
    if Truthy(v) then v else Str("")
  }

  // ---------------------------------------------------------------------------
  // Dicts

  function Keys(m: Mapping): seq<string> {
    seq(|m|, i requires 0 <= i < |m| => m[i].0)
  }

  /** `m.values()`, in order. */
  function Values(m: Mapping): seq<Value> {
    seq(|m|, i requires 0 <= i < |m| => m[i].1)
  }

  lemma ValuesCons(p: (string, Value), m: Mapping)
    ensures Values([p] + m) == [p.1] + Values(m)
  {
  }

  /** A dict never holds a key twice. */
  predicate DistinctKeys(m: Mapping) {
    forall i, j | 0 <= i < j < |m| :: m[i].0 != m[j].0
  }

  /** `m.get(k)`, with None for a missing key. */
  function Get(m: Mapping, k: string): (r: Option<Value>)
    ensures r.None? <==> k !in Keys(m)
    ensures r.Some? ==> (k, r.value) in m
  {
    if m == [] then None
    else if m[0].0 == k then
      assert m[0] == (k, m[0].1) && Keys(m)[0] == k;
      Some(m[0].1)
    else
      var r := Get(m[1..], k);
      assert m == [m[0]] + m[1..];
      KeysCons(m[0], m[1..]);
      assert forall x | x in m[1..] :: x in m;
      r
  }

  /** `m.get(k, d)` */
  function GetOr(m: Mapping, k: string, d: Value): (r: Value)
    ensures k !in Keys(m) ==> r == d
    ensures k in Keys(m) ==> Some(r) == Get(m, k)
  {
    match Get(m, k)
    case Some(v) => v
    case None => d
  }

  lemma KeysCons(p: (string, Value), m: Mapping)
    ensures Keys([p] + m) == [p.0] + Keys(m)
  {
  }

  lemma KeysSnoc(m: Mapping, p: (string, Value))
    ensures Keys(m + [p]) == Keys(m) + [p.0]
  {
  }

  lemma KeysOfSingle(m: Mapping)
    requires |m| == 1
    ensures Keys(m) == [m[0].0]
  {
  }

  /** `m[k] = v`: an existing key keeps its place and takes the new value,
      a new key goes to the end. */
  function SetItem(m: Mapping, k: string, v: Value): (r: Mapping)
    ensures Keys(r) == if k in Keys(m) then Keys(m) else Keys(m) + [k]
    ensures Get(r, k) == Some(v)
    ensures forall j | j != k :: Get(r, j) == Get(m, j)
  {
    if m == [] then [(k, v)]
    else if m[0].0 == k then
      var r := [(k, v)] + m[1..];
      assert Keys(m)[0] == k;
      assert Keys(r) == Keys(m) by {
        assert forall i | 0 <= i < |r| :: r[i].0 == m[i].0;
      }
      assert forall j | j != k :: Get(r, j) == Get(m, j) by {
        forall j | j != k ensures Get(r, j) == Get(m, j) {
          assert r[1..] == m[1..];
        }
      }
      r
    else
      var rest := SetItem(m[1..], k, v);
      var r := [m[0]] + rest;
      assert m == [m[0]] + m[1..];
      KeysCons(m[0], m[1..]);
      assert k in Keys(m) <==> k in Keys(m[1..]);
      KeysCons(m[0], rest);
      assert r[1..] == rest;
      r
  }

  lemma DistinctKeysOf(m: Mapping)
    ensures DistinctKeys(m) <==> forall i, j | 0 <= i < j < |m| :: Keys(m)[i] != Keys(m)[j]
  {
    assert forall i | 0 <= i < |m| :: Keys(m)[i] == m[i].0;
  }

  /** Setting an item never duplicates a key. */
  lemma SetItemDistinct(m: Mapping, k: string, v: Value)
    requires DistinctKeys(m)
    ensures DistinctKeys(SetItem(m, k, v))
  {
    var r := SetItem(m, k, v);
    DistinctKeysOf(m);
    DistinctKeysOf(r);
  }

  /** `m.update(o)`: the items of `o`, in order, set into `m`. */
  function Update(m: Mapping, o: Mapping): (r: Mapping)
    ensures forall k :: k in Keys(r) <==> k in Keys(m) || k in Keys(o)
    ensures |m| <= |r| && Keys(r)[..|m|] == Keys(m)
    decreases |o|
  {
    if o == [] then m
    else
      var m' := SetItem(m, o[0].0, o[0].1);
      assert o == [o[0]] + o[1..];
      KeysCons(o[0], o[1..]);
      assert Keys(m')[..|m|] == Keys(m);
      Update(m', o[1..])
  }

  /** Updating a dict never duplicates a key. */
  lemma {:induction false} UpdateDistinct(m: Mapping, o: Mapping)
    requires DistinctKeys(m)
    ensures DistinctKeys(Update(m, o))
    decreases |o|
  {
    if o != [] {
      SetItemDistinct(m, o[0].0, o[0].1);
      UpdateDistinct(SetItem(m, o[0].0, o[0].1), o[1..]);
    }
  }

  /** After `m.update(o)`, a key of `o` holds its value in `o`; every other
      key holds its value in `m`. */
  lemma {:induction false} UpdateGet(m: Mapping, o: Mapping, k: string)
    requires DistinctKeys(o)
    ensures Get(Update(m, o), k) == if k in Keys(o) then Get(o, k) else Get(m, k)
    decreases |o|
  {
    if o != [] {
      var m' := SetItem(m, o[0].0, o[0].1);
      assert o == [o[0]] + o[1..];
      KeysCons(o[0], o[1..]);
      assert o[0].0 !in Keys(o[1..]);
      UpdateGet(m', o[1..], k);
      if k == o[0].0 {
        assert Get(m', k) == Some(o[0].1);
      } else {
        assert Get(m', k) == Get(m, k);
        assert Get(o, k) == Get(o[1..], k);
      }
    }
  }

  /** The dict `m` with the extra item `(k, v)` at the end, when `k` is new. */
  lemma {:induction false} GetAppend(m: Mapping, k: string, v: Value, j: string)
    requires k !in Keys(m)
    ensures Get(m + [(k, v)], j) == if j == k then Some(v) else Get(m, j)
  {
    if m != [] {
      assert (m + [(k, v)])[1..] == m[1..] + [(k, v)];
      assert m == [m[0]] + m[1..];
      KeysCons(m[0], m[1..]);
      GetAppend(m[1..], k, v, j);
    }
  }

  // ---------------------------------------------------------------------------
  // str()

  function DigitChar(d: nat): char
    requires d < 10
  {
    "0123456789"[d]
  }

  /** The decimal digits of `n`, most significant first. */
  function NatToDecimal(n: nat): string {
    if n < 10 then [DigitChar(n)] else NatToDecimal(n / 10) + [DigitChar(n % 10)]
  }

  /** `str(i)` for an int: an optional minus sign and the decimal digits. */
  function IntToString(i: int): string {
    if i < 0 then "-" + NatToDecimal(-i) else NatToDecimal(i)
  }

  /** `str(v)`. Strings inside lists and dicts are shown between single
      quotes without escaping. */
  function PyStr(v: Value): string {
    match v
    case Str(s) => s
    case _ => Repr(v)
  }

  function Repr(v: Value): string
    decreases v, 1
  {
    match v
    case Nil => "None"
    case Bool(b) => if b then "True" else "False"
    case Int(i) => IntToString(i)
    case Str(s) => "'" + s + "'"
    case List(es) => "[" + ReprElems(es) + "]"
    case Dict(items) => "{" + ReprItems(items) + "}"
  }

  function ReprElems(es: seq<Value>): string
    decreases es
  {
    if es == [] then ""
    else if |es| == 1 then Repr(es[0])
    else Repr(es[0]) + ", " + ReprElems(es[1..])
  }

  function ReprItems(items: Mapping): string
    decreases items
  {
    if items == [] then ""
    else
      assert items[0].1 < items[0];
      var first := "'" + items[0].0 + "': " + Repr(items[0].1);
      if |items| == 1 then first else first + ", " + ReprItems(items[1..])
  }
}
