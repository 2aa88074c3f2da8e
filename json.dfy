/** The parsed inspection record as Python's `json.load` delivers it, and the
    few Python operations the extractor and the fillers apply to such values:
    truthiness, `dict.get(key, default)` and `for x in v`.

    Every Python exception the core can raise on a malformed record (a `.get`
    on something that is not a dict, a `.strip()` on something that is not a
    string, iterating a number) is modelled as the single failure `Raised`:
    the program never looks at the kind of exception, it either lets it reach
    the top-level `except` (report generation fails) or swallows it for one
    stage. */
module JsonValues {

  /** A JSON value. Numbers are integers (JSON floats are not modelled). */
  datatype Json =
    | JNull
    | JBool(b: bool)
    | JNum(n: int)
    | JStr(s: string)
    | JArr(items: seq<Json>)
    | JObj(fields: map<string, Json>)

  const EmptyObject: Json := JObj(map[])
  const EmptyString: Json := JStr("")
  const EmptyList: Json := JArr([])

  /** Either a value or "a Python exception was raised". */
  datatype Outcome<+T> = Ok(value: T) | Raised {
    predicate IsFailure() { Raised? }
    function PropagateFailure<U>(): Outcome<U>
      requires Raised?
    {
      Raised
    }
    function Extract(): T
      requires Ok?
    {
      value
    }
  }

  datatype Option<+T> = None | Some(value: T)

  /** Python truthiness of a JSON value: `None`, `False`, `0`, `''`, `[]`
      and `{}` are false, everything else is true. */
  predicate Truthy(v: Json) {
    match v
    case JNull => false
    case JBool(b) => b
    case JNum(n) => n != 0
    case JStr(s) => s != ""
    case JArr(items) => items != []
    case JObj(fields) => fields != map[]
  }

  /** `v.get(key, default)`: the stored value when the key is present (even
      when it is `null`), the default when it is absent; raises when `v` is
      not a dict. */
  function Get(v: Json, key: string, default: Json): (r: Outcome<Json>)
    ensures r.Ok? <==> v.JObj?
    ensures v.JObj? && key in v.fields ==> r == Ok(v.fields[key])
    ensures v.JObj? && key !in v.fields ==> r == Ok(default)
  {
    match v
    case JObj(fields) => Ok(if key in fields then fields[key] else default)
    case _ => Raised
  }

  /** The value `Get` would yield, ignoring the failure case; used to state
      contracts. */
  function At(v: Json, key: string, default: Json): Json {
    if v.JObj? && key in v.fields then v.fields[key] else default
  }

  /** The elements `for x in v` visits, as far as the extractor can use them
      (each element then gets `.get` called on it). A list yields its items;
      an empty string or dict yields nothing; a non-empty string or dict
      yields strings, on which `.get` raises; any other value is not
      iterable and raises. */
  function Iterate(v: Json): (r: Outcome<seq<Json>>)
    ensures v.JArr? ==> r == Ok(v.items)
    ensures r.Ok? && !v.JArr? ==> r == Ok([])
    ensures r.Raised? <==> ((v.JStr? || v.JObj?) && Truthy(v)) || v.JNum? || v.JBool? || v.JNull?
  {
    match v
    case JArr(items) => Ok(items)
    case JStr(s) => if s == "" then Ok([]) else Raised
    case JObj(fields) => if fields == map[] then Ok([]) else Raised
    case _ => Raised
  }

  /** Applies `f` to every element in order; the first element on which `f`
      raises makes the whole walk raise, as a Python loop does. The
      recursion peels the last element, matching a loop that appends. */
  function MapAll<X, A>(xs: seq<X>, f: X -> Outcome<A>): Outcome<seq<A>>
  {
    if xs == [] then Ok([])
    else
      var front :- MapAll(xs[..|xs| - 1], f);
      var last :- f(xs[|xs| - 1]);
      Ok(front + [last])
  }

  /** A walk succeeds exactly when every element succeeds, and then it keeps
      the number and the order of the elements. */
  lemma {:induction false} MapAllOk<X, A>(xs: seq<X>, f: X -> Outcome<A>)
    ensures MapAll(xs, f).Ok? <==> forall i :: 0 <= i < |xs| ==> f(xs[i]).Ok?
    ensures MapAll(xs, f).Ok? ==>
      |MapAll(xs, f).value| == |xs| &&
      forall i :: 0 <= i < |xs| ==> MapAll(xs, f).value[i] == f(xs[i]).value
  {
    if xs != [] {
      var init := xs[..|xs| - 1];
      MapAllOk(init, f);
      assert forall i :: 0 <= i < |init| ==> init[i] == xs[i];
    }
  }

  /** Extending a successful walk by one element, as a loop body does. */
  lemma MapAllSnoc<X, A>(xs: seq<X>, x: X, f: X -> Outcome<A>)
    ensures MapAll(xs + [x], f) ==
      match MapAll(xs, f)
      case Raised => Raised
      case Ok(front) => (match f(x) case Raised => Raised case Ok(last) => Ok(front + [last]))
  {
    assert (xs + [x])[..|xs + [x]| - 1] == xs;
  }

  /** A walk over two elements that both succeed yields both results. */
  lemma MapAllPair<X, A>(x: X, y: X, f: X -> Outcome<A>, a: A, b: A)
    requires f(x) == Ok(a) && f(y) == Ok(b)
    ensures MapAll([x, y], f) == Ok([a, b])
  {
    assert MapAll([x], f) == Ok([a]) by {
      MapAllSnoc([], x, f);
      assert [] + [x] == [x];
      assert [] + [a] == [a];
    }
    MapAllSnoc([x], y, f);
    assert [x] + [y] == [x, y];
    assert [a] + [b] == [a, b];
  }

  /** Once a prefix of the walk raised, the whole walk raises. */
  lemma {:induction false} MapAllRaisedPrefix<X, A>(xs: seq<X>, n: nat, f: X -> Outcome<A>)
    requires n <= |xs|
    requires MapAll(xs[..n], f).Raised?
    ensures MapAll(xs, f).Raised?
  {
    if n < |xs| {
      assert xs[..|xs| - 1][..n] == xs[..n];
      MapAllRaisedPrefix(xs[..|xs| - 1], n, f);
    } else {
      assert xs[..n] == xs;
    }
  }

  /** A walk whose prefix succeeded and whose next element raises, raises. */
  lemma RaisedAt<X, A>(xs: seq<X>, i: nat, f: X -> Outcome<A>)
    requires i < |xs|
    requires MapAll(xs[..i], f).Ok? && f(xs[i]).Raised?
    ensures MapAll(xs, f).Raised?
  {
    assert xs[..i + 1] == xs[..i] + [xs[i]];
    MapAllSnoc(xs[..i], xs[i], f);
    MapAllRaisedPrefix(xs, i + 1, f);
  }

  /** A walk whose prefix succeeded, extended by one successful element. */
  lemma OkAt<X, A>(xs: seq<X>, i: nat, f: X -> Outcome<A>)
    requires i < |xs|
    requires MapAll(xs[..i], f).Ok? && f(xs[i]).Ok?
    ensures MapAll(xs[..i + 1], f) == Ok(MapAll(xs[..i], f).value + [f(xs[i]).value])
  {
    assert xs[..i + 1] == xs[..i] + [xs[i]];
    MapAllSnoc(xs[..i], xs[i], f);
  }

  /** Threads an accumulator through the elements in order; the first step
      that raises makes the whole walk raise, as a Python loop does. */
  function Fold<A, X>(acc: Outcome<A>, xs: seq<X>, step: (A, X) -> Outcome<A>): Outcome<A> {
    if xs == [] then acc
    else
      var a :- Fold(acc, xs[..|xs| - 1], step);
      step(a, xs[|xs| - 1])
  }

  lemma FoldSnoc<A, X>(acc: Outcome<A>, xs: seq<X>, x: X, step: (A, X) -> Outcome<A>)
    ensures Fold(acc, xs + [x], step) ==
      match Fold(acc, xs, step) case Raised => Raised case Ok(a) => step(a, x)
  {
    assert (xs + [x])[..|xs + [x]| - 1] == xs;
  }

  /** Walking `xs + ys` is walking `ys` from where `xs` left off. */
  lemma {:induction false} FoldAppend<A, X>(acc: Outcome<A>, xs: seq<X>, ys: seq<X>, step: (A, X) -> Outcome<A>)
    ensures Fold(acc, xs + ys, step) == Fold(Fold(acc, xs, step), ys, step)
  {
    if ys == [] {
      assert xs + ys == xs;
    } else {
      var init := ys[..|ys| - 1];
      assert xs + ys == (xs + init) + [ys[|ys| - 1]];
      FoldSnoc(acc, xs + init, ys[|ys| - 1], step);
      FoldAppend(acc, xs, init, step);
    }
  }

  /** Nothing resumes a walk that raised. */
  lemma {:induction false} FoldRaised<A, X>(xs: seq<X>, step: (A, X) -> Outcome<A>)
    ensures Fold(Raised, xs, step) == Raised
  {
    if xs != [] {
      FoldRaised(xs[..|xs| - 1], step);
    }
  }

  /** When whether a step raises depends on the element alone, the walk
      succeeds exactly when no element makes it raise. */
  lemma {:induction false} FoldOk<A, X>(acc: A, xs: seq<X>, step: (A, X) -> Outcome<A>, ok: X -> bool)
    requires forall a, x :: step(a, x).Ok? <==> ok(x)
    ensures Fold(Ok(acc), xs, step).Ok? <==> forall i :: 0 <= i < |xs| ==> ok(xs[i])
  {
    if xs != [] {
      var init := xs[..|xs| - 1];
      FoldOk(acc, init, step, ok);
      assert forall i :: 0 <= i < |init| ==> init[i] == xs[i];
    }
  }
}
