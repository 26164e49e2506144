/** The rest parameters of `add(...children)`: any JavaScript values, of
    which only those passing `instanceof GameObject` are kept. */
module Arguments {

  /** One argument as an `instanceof T` test sees it: an instance of `T`, or
      anything else (`null`, `undefined`, a number, another object). */
  datatype Arg<T> = Instance(obj: T) | Other

  /** The instances among the arguments, in order. */
  function Instances<T>(xs: seq<Arg<T>>): (r: seq<T>)
    ensures |r| <= |xs|
  {
    if |xs| == 0 then []
    else
      var last := xs[|xs| - 1];
      Instances(xs[..|xs| - 1]) + if last.Instance? then [last.obj] else []
  }

  /** Filtering keeps exactly the instances among the arguments. */
  lemma {:induction false} InstancesMembers<T>(xs: seq<Arg<T>>)
    ensures forall g :: g in Instances(xs) <==> Instance(g) in xs
  {
    if |xs| > 0 {
      var init := xs[..|xs| - 1];
      InstancesMembers(init);
      assert xs == init + [xs[|xs| - 1]];
    }
  }

  /** Filtering a concatenation filters each part, so arguments given in
      two calls end up as if given in one. */
  lemma {:induction false} InstancesAppend<T>(xs: seq<Arg<T>>, ys: seq<Arg<T>>)
    ensures Instances(xs + ys) == Instances(xs) + Instances(ys)
  {
    if |ys| > 0 {
      var init := ys[..|ys| - 1];
      assert (xs + ys)[..|xs + ys| - 1] == xs + init;
      InstancesAppend(xs, init);
    } else {
      assert xs + ys == xs;
    }
  }
}
