/** Option and Result types shared by the model, the Python exceptions that
    the modelled code raises or lets propagate, and dictionary iteration. */
module Base {

  datatype Option<+T> = None | Some(value: T)

  /** The exceptions that can leave the modelled operations. */
  datatype Error =
    | TypeError                                   // `str + None`, `str + element`, `str + list`
    | AttributeError                              // `.replace` / `.extend` on a value that lacks it
    | KeyError                                    // dictionary lookup of an absent key
    | IndexError                                  // list index past the end
    | StopIteration                               // `next()` on an empty record collection
    | XmlSyntaxError                              // `etree.fromstring` on malformed input
    | NotImplementedError                         // the base driver has no attribute mapping
    | DatasetNotFoundError(message: string)
    | AttributeMappingNotFoundError(message: string)

  /** A value, or the exception raised while computing it. */
  datatype Result<+T> = Ok(value: T) | Err(error: Error)

  /** `order` lists every key of `keys` exactly once: the order in which a
      dictionary with these keys is iterated, which the model leaves open. */
  predicate Enumerates<T>(order: seq<T>, keys: set<T>)
  {
    |order| == |keys| && keys == set k | k in order
  }

  /** No element of `s` occurs twice. */
  predicate Distinct<T(==)>(s: seq<T>)
  {
    forall i, j :: 0 <= i < j < |s| ==> s[i] != s[j]
  }

  lemma {:induction false} ElementsBound<T>(s: seq<T>)
    ensures |set k | k in s| <= |s|
    decreases |s|
  {
    if s != [] {
      var front := s[..|s| - 1];
      ElementsBound(front);
      assert (set k | k in s) == (set k | k in front) + {s[|s| - 1]} by {
        assert s == front + [s[|s| - 1]];
      }
    }
  }

  /** A sequence without repetitions has as many elements as its set. */
  lemma {:induction false} DistinctElements<T>(s: seq<T>)
    requires Distinct(s)
    ensures |set k | k in s| == |s|
    decreases |s|
  {
    if s != [] {
      var front := s[..|s| - 1];
      DistinctElements(front);
      assert (set k | k in s) == (set k | k in front) + {s[|s| - 1]} by {
        assert s == front + [s[|s| - 1]];
      }
      assert s[|s| - 1] !in (set k | k in front);
    }
  }

  /** An enumeration lists no key twice. */
  lemma EnumerationDistinct<T>(order: seq<T>, keys: set<T>)
    requires Enumerates(order, keys)
    ensures Distinct(order)
  {
    forall i, j | 0 <= i < j < |order|
      ensures order[i] != order[j]
    {
      if order[i] == order[j] {
        var rest := order[..j] + order[j + 1..];
        var all := set k | k in order;
        var fewer := set k | k in rest;
        assert all <= fewer by {
          forall k | k in all
            ensures k in fewer
          {
            var m :| 0 <= m < |order| && order[m] == k;
            if m < j {
              assert rest[m] == k;
            } else if m == j {
              assert rest[i] == k;
            } else {
              assert rest[m - 1] == k;
            }
          }
        }
        ElementsBound(rest);
        SubsetCard(all, fewer);
        assert false;
      }
    }
  }

  lemma SubsetCard<T>(a: set<T>, b: set<T>)
    requires a <= b
    ensures |a| <= |b|
  {
    if a != b {
      assert |b| == |a| + |b - a|;
    }
  }

  // --------------------------------------- loops that extend a list

  /** What a loop that extends a list by each step's items builds: the
      steps' lists concatenated in order, or the first step's exception. */
  function Gather<T>(rs: seq<Result<seq<T>>>): Result<seq<T>>
  {
    if rs == [] then Ok([])
    else
      match Gather(rs[..|rs| - 1])
      case Err(e) => Err(e)
      case Ok(acc) =>
        match rs[|rs| - 1]
        case Err(e) => Err(e)
        case Ok(items) => Ok(acc + items)
  }

  /** One step of a loop that appends one item. */
  function Wrap<T>(r: Result<T>): Result<seq<T>>
  {
    match r
    case Ok(x) => Ok([x])
    case Err(e) => Err(e)
  }

  /** The steps of a loop that appends one item per step. */
  function Wrapped<T>(xs: seq<Result<T>>): (rs: seq<Result<seq<T>>>)
    ensures |rs| == |xs|
  {
    seq(|xs|, i requires 0 <= i < |xs| => Wrap(xs[i]))
  }

  /** The number of items the successful steps contribute. */
  function Sizes<T>(rs: seq<Result<seq<T>>>): nat
  {
    if rs == [] then 0
    else Sizes(rs[..|rs| - 1]) + (if rs[|rs| - 1].Ok? then |rs[|rs| - 1].value| else 0)
  }

  lemma {:induction false} GatherSticks<T>(rs: seq<Result<seq<T>>>, k: nat)
    requires k <= |rs| && Gather(rs[..k]).Err?
    ensures Gather(rs) == Gather(rs[..k])
    decreases |rs|
  {
    if k == |rs| {
      assert rs[..k] == rs;
    } else {
      assert rs[..|rs| - 1][..k] == rs[..k];
      GatherSticks(rs[..|rs| - 1], k);
    }
  }

  /** One more successful step appends its items. */
  lemma GatherStep<T>(rs: seq<Result<seq<T>>>, i: nat, acc: seq<T>, items: seq<T>)
    requires i < |rs| && Gather(rs[..i]) == Ok(acc) && rs[i] == Ok(items)
    ensures Gather(rs[..i + 1]) == Ok(acc + items)
  {
    assert rs[..i + 1][..i] == rs[..i];
  }

  /** A failing step ends the loop with its error. */
  lemma GatherStepFails<T>(rs: seq<Result<seq<T>>>, i: nat, acc: seq<T>)
    requires i < |rs| && Gather(rs[..i]) == Ok(acc) && rs[i].Err?
    ensures Gather(rs) == Err(rs[i].error)
  {
    assert rs[..i + 1][..i] == rs[..i];
    GatherSticks(rs, i + 1);
  }

  /** Running the steps of `a` and then those of `b` is running `a`, and
      then, if it succeeded, running `b` and appending what it gathered. */
  lemma {:induction false} GatherAppend<T>(a: seq<Result<seq<T>>>, b: seq<Result<seq<T>>>)
    ensures Gather(a + b) == match Gather(a)
                             case Err(e) => Err(e)
                             case Ok(x) => (match Gather(b)
                                            case Err(e) => Err(e)
                                            case Ok(y) => Ok(x + y))
    decreases |b|
  {
    if b == [] {
      assert a + b == a;
      if Gather(a).Ok? {
        assert Gather(a).value + [] == Gather(a).value;
      }
    } else {
      var n := |b|;
      assert (a + b)[..|a + b| - 1] == a + b[..n - 1];
      assert (a + b)[|a + b| - 1] == b[n - 1];
      GatherAppend(a, b[..n - 1]);
      if Gather(a).Ok? && Gather(b[..n - 1]).Ok? && b[n - 1].Ok? {
        var x, y, z := Gather(a).value, Gather(b[..n - 1]).value, b[n - 1].value;
        assert x + y + z == x + (y + z);
      }
    }
  }

  /** The loop succeeds exactly when every step does; it then holds as many
      items as the steps produce, and exactly the items some step produces. */
  lemma {:induction false} GatherValue<T>(rs: seq<Result<seq<T>>>)
    ensures Gather(rs).Ok? <==> forall i :: 0 <= i < |rs| ==> rs[i].Ok?
    ensures Gather(rs).Ok? ==> |Gather(rs).value| == Sizes(rs)
    ensures Gather(rs).Ok? ==> forall x :: x in Gather(rs).value <==> Produces(rs, x)
    decreases |rs|
  {
    if rs != [] {
      var n := |rs|;
      var front := rs[..n - 1];
      GatherValue(front);
      assert forall i :: 0 <= i < n - 1 ==> front[i] == rs[i];
      if Gather(rs).Ok? {
        assert Gather(front).Ok?;
        var acc := Gather(front).value;
        assert Gather(rs).value == acc + rs[n - 1].value;
        forall x | x in Gather(rs).value
          ensures Produces(rs, x)
        {
          if x in acc {
            assert Produces(front, x);
            var i :| 0 <= i < |front| && front[i].Ok? && x in front[i].value;
            assert rs[i] == front[i];
          } else {
            assert x in rs[n - 1].value;
          }
        }
        forall x | Produces(rs, x)
          ensures x in Gather(rs).value
        {
          var i :| 0 <= i < n && rs[i].Ok? && x in rs[i].value;
          if i < n - 1 {
            assert front[i] == rs[i];
            assert Produces(front, x);
          }
        }
      }
    }
  }

  /** Some successful step produces `x`. */
  ghost predicate Produces<T>(rs: seq<Result<seq<T>>>, x: T)
  {
    exists i :: 0 <= i < |rs| && rs[i].Ok? && x in rs[i].value
  }

  /** The first failing step decides the exception. */
  lemma GatherFirstError<T>(rs: seq<Result<seq<T>>>, k: nat)
    requires k < |rs| && rs[k].Err? && forall j :: 0 <= j < k ==> rs[j].Ok?
    ensures Gather(rs) == Err(rs[k].error)
  {
    GatherValue(rs[..k]);
    assert forall j :: 0 <= j < k ==> rs[..k][j] == rs[j];
    assert rs[..k + 1][..k] == rs[..k];
    GatherSticks(rs, k + 1);
  }

  /** When every step adds one item, the list holds the steps' items in
      step order. */
  lemma {:induction false} GatherSingletons<T>(rs: seq<Result<seq<T>>>)
    requires forall i :: 0 <= i < |rs| ==> rs[i].Ok? && |rs[i].value| == 1
    ensures Gather(rs).Ok? && |Gather(rs).value| == |rs|
    ensures forall i :: 0 <= i < |rs| ==> Gather(rs).value[i] == rs[i].value[0]
    decreases |rs|
  {
    if rs != [] {
      var n := |rs|;
      var front := rs[..n - 1];
      assert forall i :: 0 <= i < n - 1 ==> front[i] == rs[i];
      GatherSingletons(front);
    }
  }

  /** A loop that appends one item per step succeeds exactly when every
      step does, and then holds the steps' items in step order. */
  lemma GatherWrapped<T>(xs: seq<Result<T>>)
    ensures Gather(Wrapped(xs)).Ok? <==> forall i :: 0 <= i < |xs| ==> xs[i].Ok?
    ensures Gather(Wrapped(xs)).Ok? ==>
              |Gather(Wrapped(xs)).value| == |xs| && forall i :: 0 <= i < |xs| ==> Ok(Gather(Wrapped(xs)).value[i]) == xs[i]
  {
    var rs := Wrapped(xs);
    GatherValue(rs);
    assert forall i :: 0 <= i < |xs| ==> (rs[i].Ok? <==> xs[i].Ok?);
    if forall i :: 0 <= i < |xs| ==> xs[i].Ok? {
      GatherSingletons(rs);
    }
  }

  /** The first failing step of such a loop decides the exception. */
  lemma GatherWrappedFirstError<T>(xs: seq<Result<T>>, k: nat)
    requires k < |xs| && xs[k].Err? && forall j :: 0 <= j < k ==> xs[j].Ok?
    ensures Gather(Wrapped(xs)) == Err(xs[k].error)
  {
    GatherFirstError(Wrapped(xs), k);
  }
}
