/** Identifiers, opaque values and small helpers shared by every module.

    Identifiers and JSON values are represented by integers: the store only
    ever compares them for equality. */
module Common {
  type Persona = int
  type InputId = int
  type TurnId = int
  type Human = int
  type Payload = int

  datatype Option<+T> = None | Some(value: T) {
    function GetOr(default: T): T {
      match this
      case None => default
      case Some(v) => v
    }
  }

  /** An input is named by its persona and its id (`persona|input_id`). */
  datatype InputKey = InputKey(persona: Persona, input: InputId)

  /** A planned call's position: its input and its flat call index. */
  datatype Position = Position(persona: Persona, input: InputId, index: int)

  /** How an operation answers: done, denied by the budget, fenced out, or
      refused with an HTTP status. */
  datatype Reply = Ok | Denied | Fenced | Refused(status: int)

  function Max(a: int, b: int): int { if a < b then b else a }

  function Min(a: int, b: int): int { if a < b then a else b }

  ghost predicate Ascending<T(!new)>(xs: seq<T>, key: T -> int) {
    forall p, q :: 0 <= p < q < |xs| ==> key(xs[p]) <= key(xs[q])
  }

  /** Insert `x` after every element whose key is no larger. */
  method InsertSorted<T(==, !new)>(xs: seq<T>, key: T -> int, x: T) returns (r: seq<T>)
    requires Ascending(xs, key)
    ensures Ascending(r, key) && |r| == |xs| + 1 && multiset(r) == multiset(xs) + multiset{x}
    ensures forall e :: e in r <==> e in xs || e == x
  {
    var j := |xs|;
    while j > 0 && key(xs[j - 1]) > key(x)
      invariant 0 <= j <= |xs|
      invariant forall p :: j <= p < |xs| ==> key(xs[p]) > key(x)
    {
      j := j - 1;
    }
    r := xs[..j] + [x] + xs[j..];
    Inserted(xs, key, x, j);
    InsertedOnce(xs, x, j);
  }

  lemma InsertedOnce<T>(xs: seq<T>, x: T, j: nat)
    requires j <= |xs|
    ensures multiset(xs[..j] + [x] + xs[j..]) == multiset(xs) + multiset{x}
  {
    assert xs == xs[..j] + xs[j..];
  }

  lemma InsertedPair<T(!new)>(xs: seq<T>, key: T -> int, x: T, j: nat, p: nat, q: nat)
    requires Ascending(xs, key) && j <= |xs| && p < q <= |xs|
    requires j > 0 ==> key(xs[j - 1]) <= key(x)
    requires forall p :: j <= p < |xs| ==> key(xs[p]) > key(x)
    ensures key((xs[..j] + [x] + xs[j..])[p]) <= key((xs[..j] + [x] + xs[j..])[q])
  {
    if q < j { return; }
    if q == j {
      assert p < j - 1 ==> key(xs[p]) <= key(xs[j - 1]);
      return;
    }
    if p < j { return; }
    if p == j { return; }
  }

  lemma Inserted<T(!new)>(xs: seq<T>, key: T -> int, x: T, j: nat)
    requires Ascending(xs, key) && j <= |xs|
    requires j > 0 ==> key(xs[j - 1]) <= key(x)
    requires forall p :: j <= p < |xs| ==> key(xs[p]) > key(x)
    ensures Ascending(xs[..j] + [x] + xs[j..], key)
    ensures forall e :: e in xs[..j] + [x] + xs[j..] <==> e in xs || e == x
  {
    var r := xs[..j] + [x] + xs[j..];
    assert Ascending(r, key) by {
      forall p, q | 0 <= p < q < |r| ensures key(r[p]) <= key(r[q]) { InsertedPair(xs, key, x, j, p, q); }
    }
    assert xs == xs[..j] + xs[j..];
  }

  /** A copy of `xs` in ascending order of `key`. */
  method SortedCopy<T(==, !new)>(xs: seq<T>, key: T -> int) returns (r: seq<T>)
    ensures Ascending(r, key) && |r| == |xs| && multiset(r) == multiset(xs)
    ensures forall e :: e in r <==> e in xs
  {
    r := [];
    var i := 0;
    while i < |xs|
      invariant 0 <= i <= |xs| && |r| == i && Ascending(r, key) && multiset(r) == multiset(xs[..i])
      invariant forall e :: e in r <==> e in xs[..i]
    {
      assert xs[..i + 1] == xs[..i] + [xs[i]];
      r := InsertSorted(r, key, xs[i]);
      i := i + 1;
    }
    assert xs[..i] == xs;
  }
}
