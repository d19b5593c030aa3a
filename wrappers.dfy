/** Option and Result values used throughout the model: a Python `None` becomes
    `None`, a raised exception becomes `Err` carrying its message. */
module Wrappers {

  datatype Option<T> = None | Some(value: T) {
    /** The value, or `default` for None (Python's `x or default`). */
    function GetOr(default: T): T {
      match this
      case Some(v) => v
      case None => default
    }
  }

  datatype Result<T> = Ok(value: T) | Err(error: string)

  /** Success or a raised error, for operations that return nothing. */
  datatype Outcome = Pass | Fail(error: string)

  /** Python truthiness of an optional string: None and "" are false. */
  predicate Truthy(s: Option<string>) {
    s.Some? && s.value != ""
  }
}

/** Sequence helpers for Python list operations. */
module Seqs {
  import opened Wrappers

  const NegativeCount: string := "Count cannot be negative"

  /** Python's slice `xs[:count]` for a non-negative count. */
  function Prefix<T>(xs: seq<T>, count: nat): (r: seq<T>)
    ensures |r| == if count < |xs| then count else |xs|
    ensures r == xs[..|r|]
  {
    if count < |xs| then xs[..count] else xs
  }

  /** The count-limited selection the list tools make: the whole table without a count,
      an error for a negative count, otherwise the first `min(count, |table|)` entries. */
  function SelectCount<T>(table: seq<T>, count: Option<int>): (r: Result<seq<T>>)
    ensures count.None? ==> r == Ok(table)
    ensures count.Some? && count.value < 0 ==> r == Err(NegativeCount)
    ensures count.Some? && count.value >= 0 ==>
      r.Ok? && |r.value| == (if count.value < |table| then count.value else |table|)
      && r.value == table[..|r.value|]
  {
    match count
    case None => Ok(table)
    case Some(n) => if n < 0 then Err(NegativeCount) else Ok(Prefix(table, n))
  }

  /** The first entry of `xs` whose `key` is `id` (Python's `next(..., {})`, with None for
      `{}`). */
  function FirstWith<T(==)>(xs: seq<T>, key: T -> string, id: string): (r: Option<T>)
    ensures r.None? <==> forall k :: 0 <= k < |xs| ==> key(xs[k]) != id
    ensures r.Some? ==> key(r.value) == id
    ensures r.Some? ==>
      exists k :: 0 <= k < |xs| && xs[k] == r.value && (forall j :: 0 <= j < k ==> key(xs[j]) != id)
  {
    if xs == [] then None
    else if key(xs[0]) == id then Some(xs[0])
    else
      var r := FirstWith(xs[1..], key, id);
      if r.Some? then
        var k :| 0 <= k < |xs[1..]| && xs[1..][k] == r.value
          && (forall j :: 0 <= j < k ==> key(xs[1..][j]) != id);
        assert xs[k + 1] == r.value;
        r
      else r
  }

  /** The elements of `xs` from last to first. */
  function Reverse<T>(xs: seq<T>): (r: seq<T>)
    ensures |r| == |xs|
  {
    if xs == [] then [] else Reverse(xs[1..]) + [xs[0]]
  }

  lemma {:induction false} ReverseAt<T>(xs: seq<T>, k: nat)
    requires k < |xs|
    ensures Reverse(xs)[k] == xs[|xs| - 1 - k]
  {
    if k < |xs| - 1 {
      ReverseAt(xs[1..], k);
    }
  }
}
