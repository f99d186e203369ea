/**
 * Shared vocabulary of both services: optional values, results carrying the
 * services' error messages, identifiers, timestamps and the `.first()` lookup
 * that every query of the services ends with.
 */
module Common {

  datatype Option<T> = None | Some(value: T) {
    function GetOr(default: T): T
    {
      match this
      case Some(v) => v
      case None => default
    }
  }

  /** A service result: `{"success": True, ...}` or `{"success": False, "error": message}`. */
  datatype Result<T> = Ok(value: T) | Err(error: string)

  /** Database identifiers (uuid4 strings in the source) are drawn from a counter. */
  type Id = nat

  /** Instants are whole seconds on one clock; the services read the clock, the model takes it as a parameter. */
  type Time = int

  const MINUTE: int := 60
  const DAY: int := 24 * 60 * MINUTE

  /**
   * The index of the first row that satisfies `p`, as `query.filter(p).first()`
   * returns it when rows come back in insertion order.
   */
  function FirstIndex<T>(s: seq<T>, p: T -> bool): (r: Option<nat>)
    ensures r.Some? ==> r.value < |s| && p(s[r.value])
    ensures r.Some? ==> forall k :: 0 <= k < r.value ==> !p(s[k])
    ensures r.None? <==> forall k :: 0 <= k < |s| ==> !p(s[k])
  {
    if |s| == 0 then None
    else if p(s[0]) then Some(0)
    else match FirstIndex(s[1..], p)
      case None => None
      case Some(j) => Some(j + 1)
  }

  /** Appending a row changes the first match only when there was none. */
  lemma {:induction false} FirstIndexAppend<T>(s: seq<T>, x: T, p: T -> bool)
    ensures FirstIndex(s + [x], p) == if FirstIndex(s, p).Some? then FirstIndex(s, p)
                                      else if p(x) then Some(|s|) else None
  {
    if |s| > 0 {
      assert (s + [x])[1..] == s[1..] + [x];
      FirstIndexAppend(s[1..], x, p);
    }
  }

  /** Exactly the elements of `s` that satisfy `p`, in their order (a `filter_by` query). */
  function Filter<T>(s: seq<T>, p: T -> bool): (r: seq<T>)
    ensures |r| <= |s|
    ensures forall k :: 0 <= k < |r| ==> p(r[k])
    ensures multiset(r) <= multiset(s)
    ensures forall x :: x in s && p(x) ==> x in r
  {
    if |s| == 0 then []
    else
      assert s == [s[0]] + s[1..];
      if p(s[0]) then [s[0]] + Filter(s[1..], p) else Filter(s[1..], p)
  }

  /** `s` with the element at `k` taken out (a `session.delete` of one row). */
  function RemoveAt<T>(s: seq<T>, k: nat): (r: seq<T>)
    requires k < |s|
    ensures |r| == |s| - 1
    ensures forall i :: 0 <= i < k ==> r[i] == s[i]
    ensures forall i :: k <= i < |r| ==> r[i] == s[i + 1]
  {
    s[..k] + s[k + 1..]
  }

  // ------------------------------------------------ ordering by a key

  /** `order_by(key.desc())`: no element is followed by one with a larger key. */
  ghost predicate SortedDesc<T>(s: seq<T>, key: T -> int)
  {
    forall i, j :: 0 <= i < j < |s| ==> key(s[i]) >= key(s[j])
  }

  /** Inserts `x` into a sequence sorted by descending key, before the first row it does not rank below. */
  function InsertDesc<T>(x: T, s: seq<T>, key: T -> int): (r: seq<T>)
    ensures |r| == |s| + 1
  {
    if |s| == 0 then [x]
    else if key(x) >= key(s[0]) then [x] + s
    else [s[0]] + InsertDesc(x, s[1..], key)
  }

  /** Insertion adds exactly `x`. */
  lemma {:induction false} InsertDescPerm<T>(x: T, s: seq<T>, key: T -> int)
    ensures multiset(InsertDesc(x, s, key)) == multiset(s) + multiset{x}
  {
    if |s| > 0 && key(x) < key(s[0]) {
      InsertDescPerm(x, s[1..], key);
      assert s == [s[0]] + s[1..];
    }
  }

  /** Insertion keeps the order, and no row of the result outranks both `x` and the old first row. */
  lemma {:induction false} InsertDescSorted<T>(x: T, s: seq<T>, key: T -> int)
    requires SortedDesc(s, key)
    ensures SortedDesc(InsertDesc(x, s, key), key)
    ensures |s| > 0 ==> forall i :: 0 <= i < |s| + 1 ==> key(InsertDesc(x, s, key)[i]) <= key(x) || key(InsertDesc(x, s, key)[i]) <= key(s[0])
  {
    var r := InsertDesc(x, s, key);
    if |s| == 0 {
    } else if key(x) >= key(s[0]) {
      forall i, j | 0 <= i < j < |r| ensures key(r[i]) >= key(r[j]) {
        assert r[j] == s[j - 1];
        if i > 0 {
          assert r[i] == s[i - 1];
        }
      }
    } else {
      var rest := InsertDesc(x, s[1..], key);
      InsertDescSorted(x, s[1..], key);
      assert r == [s[0]] + rest;
      assert forall i :: 0 <= i < |rest| ==> key(rest[i]) <= key(s[0]) by {
        if |s| > 1 {
          assert s[1..][0] == s[1];
        }
      }
      forall i, j | 0 <= i < j < |r| ensures key(r[i]) >= key(r[j]) {
        assert r[j] == rest[j - 1];
        if i > 0 {
          assert r[i] == rest[i - 1];
        }
      }
    }
  }

  /** The rows of `s` from the largest key to the smallest. */
  function SortDesc<T>(s: seq<T>, key: T -> int): (r: seq<T>)
    ensures SortedDesc(r, key)
    ensures multiset(r) == multiset(s)
    ensures |r| == |s|
  {
    if |s| == 0 then []
    else
      var rest := SortDesc(s[1..], key);
      assert s == [s[0]] + s[1..];
      InsertDescSorted(s[0], rest, key);
      InsertDescPerm(s[0], rest, key);
      InsertDesc(s[0], rest, key)
  }

  /** `.limit(n)`. */
  function Take<T>(s: seq<T>, n: nat): (r: seq<T>)
    ensures |r| == if n < |s| then n else |s|
    ensures r == s[..|r|]
  {
    if n < |s| then s[..n] else s
  }

  /** The first `n` rows of a sorted sequence have the largest keys: nothing left out outranks them. */
  lemma TakeSortedIsTop<T>(s: seq<T>, n: nat, key: T -> int)
    requires SortedDesc(s, key)
    ensures forall x, i :: x in multiset(s) - multiset(Take(s, n)) && 0 <= i < |Take(s, n)| ==> key(x) <= key(Take(s, n)[i])
  {
    var t := Take(s, n);
    var rest := s[|t|..];
    assert s == t + rest;
    assert multiset(s) - multiset(t) == multiset(rest);
    forall x, i | x in multiset(rest) && 0 <= i < |t| ensures key(x) <= key(t[i]) {
      var j :| 0 <= j < |rest| && rest[j] == x;
      assert s[|t| + j] == x && s[i] == t[i];
    }
  }

  /** `.limit(n)` keeps only rows of its input. */
  lemma TakeIsSub<T>(s: seq<T>, n: nat)
    ensures multiset(Take(s, n)) <= multiset(s)
  {
    var t := Take(s, n);
    assert s == t + s[|t|..];
    assert multiset(s) == multiset(t) + multiset(s[|t|..]);
  }

  /** The top `n` rows are rows of `s`. */
  lemma TopIsSub<T>(s: seq<T>, n: nat, key: T -> int)
    ensures multiset(Take(SortDesc(s, key), n)) <= multiset(s)
    ensures forall k :: 0 <= k < |Take(SortDesc(s, key), n)| ==> Take(SortDesc(s, key), n)[k] in s
  {
    var t := Take(SortDesc(s, key), n);
    TakeIsSub(SortDesc(s, key), n);
    forall k | 0 <= k < |t| ensures t[k] in s {
      assert t[k] in multiset(t);
    }
  }

  /** No row of `s` left out of the top `n` outranks one kept. */
  lemma TopIsTop<T>(s: seq<T>, n: nat, key: T -> int)
    ensures forall x, k :: x in multiset(s) - multiset(Take(SortDesc(s, key), n)) && 0 <= k < |Take(SortDesc(s, key), n)| ==>
      key(x) <= key(Take(SortDesc(s, key), n)[k])
  {
    TakeSortedIsTop(SortDesc(s, key), n, key);
  }

  /** `order_by(key.desc()).limit(n)`: the `n` rows with the largest keys, largest first. */
  function TopN<T>(s: seq<T>, n: nat, key: T -> int): (r: seq<T>)
    ensures |r| == if n < |s| then n else |s|
    ensures SortedDesc(r, key)
    ensures multiset(r) <= multiset(s)
    ensures forall k :: 0 <= k < |r| ==> r[k] in s
    ensures forall x, k :: x in multiset(s) - multiset(r) && 0 <= k < |r| ==> key(x) <= key(r[k])
  {
    TopIsSub(s, n, key);
    TopIsTop(s, n, key);
    Take(SortDesc(s, key), n)
  }

  /** `list.reverse()`. */
  function Reverse<T>(s: seq<T>): (r: seq<T>)
    ensures |r| == |s|
    ensures forall i :: 0 <= i < |s| ==> r[i] == s[|s| - 1 - i]
  {
    if |s| == 0 then [] else [s[|s| - 1]] + Reverse(s[..|s| - 1])
  }
  /** Reversing a sequence puts its first element last. */
  lemma ReverseCons<T>(x: T, s: seq<T>)
    ensures Reverse([x] + s) == Reverse(s) + [x]
  {
    var a := Reverse([x] + s);
    var b := Reverse(s) + [x];
    forall i | 0 <= i < |a| ensures a[i] == b[i] {
      if i < |s| {
        assert a[i] == ([x] + s)[|s| - i];
      }
    }
  }

}
