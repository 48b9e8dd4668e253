/** Building a Go `map[string]struct{}` set by inserting each element of a
    list in turn. */
module Sets {

  /** The set obtained by inserting `xs[0]`, `xs[1]`, ... into an empty set:
      exactly the elements of `xs`, duplicates collapsed. */
  function ToSet(xs: seq<string>): (r: set<string>)
    ensures forall x :: x in r <==> x in xs
    ensures |r| <= |xs|
  {
    if |xs| == 0 then {}
    else ToSet(xs[..|xs| - 1]) + {xs[|xs| - 1]}
  }
}
