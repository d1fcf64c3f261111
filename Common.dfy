/** Shared vocabulary of the model: an optional value, strictly ascending
    integer sequences, the sort used to order dictionary keys, and the
    join/split pair used for CSV text. */
module Common {

  datatype Option<+T> = None | Some(value: T)

  /** Ascending without repeats. */
  ghost predicate StrictlyAscending(s: seq<int>)
  {
    forall i, j :: 0 <= i < j < |s| ==> s[i] < s[j]
  }

  /** The set of elements of a sequence. */
  function Elems<T>(s: seq<T>): set<T>
  {
    set x | x in s
  }

  /** Inserts `k` into a strictly ascending sequence at its place. */
  function Insert(s: seq<int>, k: int): (r: seq<int>)
    requires StrictlyAscending(s)
    requires k !in s
    ensures StrictlyAscending(r)
    ensures |r| == |s| + 1
    ensures Elems(r) == Elems(s) + {k}
  {
    if s == [] then [k]
    else if k < s[0] then [k] + s
    else
      var t := Insert(s[1..], k);
      assert forall i :: 0 <= i < |t| ==> t[i] in Elems(t);
      [s[0]] + t
  }

  /** `[...new Set(xs)].sort((a, b) => a - b)`: the distinct values of
      `xs` in ascending order, every one once and nothing else. */
  method SortedDistinct(xs: seq<int>) returns (r: seq<int>)
    ensures StrictlyAscending(r)
    ensures Elems(r) == Elems(xs)
    ensures |r| == |Elems(xs)|
  {
    r := [];
    for i := 0 to |xs|
      invariant StrictlyAscending(r)
      invariant Elems(r) == Elems(xs[..i])
    {
      assert xs[..i + 1] == xs[..i] + [xs[i]];
      if xs[i] !in r {
        r := Insert(r, xs[i]);
      }
    }
    assert xs[..|xs|] == xs;
    AscendingCard(r);
  }

  /** A strictly ascending sequence has as many elements as distinct values. */
  lemma {:induction false} AscendingCard(s: seq<int>)
    requires StrictlyAscending(s)
    ensures |Elems(s)| == |s|
  {
    if s != [] {
      AscendingCard(s[1..]);
      assert Elems(s) == Elems(s[1..]) + {s[0]};
      assert s[0] !in Elems(s[1..]);
    }
  }

  /** `xs.join(sep)` for a one-character separator. */
  function Join(xs: seq<string>, sep: char): (r: string)
    ensures xs == [] ==> r == ""
  {
    if xs == [] then ""
    else if |xs| == 1 then xs[0]
    else xs[0] + [sep] + Join(xs[1..], sep)
  }

  /** `s.split(sep)` for a one-character separator: the maximal pieces
      between separators, so there is always at least one piece. */
  function Split(s: string, sep: char): (r: seq<string>)
    ensures |r| >= 1
    decreases |s|
  {
    if sep !in s then [s]
    else
      var i := IndexOf(s, sep);
      [s[..i]] + Split(s[i + 1..], sep)
  }

  function IndexOf(s: string, c: char): (i: nat)
    requires c in s
    ensures i < |s| && s[i] == c && c !in s[..i]
  {
    if s[0] == c then 0 else 1 + IndexOf(s[1..], c)
  }

  /** Splitting a join gives back the pieces, provided no piece holds the
      separator. */
  lemma {:induction false} SplitJoin(xs: seq<string>, sep: char)
    requires xs != []
    requires forall i :: 0 <= i < |xs| ==> sep !in xs[i]
    ensures Split(Join(xs, sep), sep) == xs
  {
    if |xs| == 1 {
    } else {
      var j := Join(xs, sep);
      assert j == xs[0] + [sep] + Join(xs[1..], sep);
      assert j[|xs[0]|] == sep;
      assert sep in j;
      IndexOfFirst(xs[0], sep, Join(xs[1..], sep));
      SplitJoin(xs[1..], sep);
      assert j[..|xs[0]|] == xs[0];
      assert j[|xs[0]| + 1..] == Join(xs[1..], sep);
    }
  }

  lemma IndexOfFirst(a: string, sep: char, b: string)
    requires sep !in a
    ensures sep in a + [sep] + b
    ensures IndexOf(a + [sep] + b, sep) == |a|
  {
    var s := a + [sep] + b;
    assert s[|a|] == sep;
    assert forall j :: 0 <= j < |a| ==> s[j] == a[j];
  }
}
