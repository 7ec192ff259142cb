/** The few Python and numpy primitives the epidemic core relies on, with the
    exceptions they raise made explicit: dictionary lookup (KeyError), list.index
    (ValueError), tuple unpacking of a state vector (ValueError), float division
    by zero, and the built-in sum. */
module Builtins {

  /** The failures the core can run into. The repository defines no exception
      classes of its own; each constructor names the Python or numpy condition. */
  datatype Error =
    | KeyError(key: string)                  // dict[key] with key absent
    | UnpackError(expected: nat, got: nat)   // `S, I, R = y` with |y| != expected
    | ZeroDivision                           // Python float division by zero
    | NonFinite                              // numpy division by a zero total: inf or nan
    | NotInList(item: string)                // list.index(item) with item absent
    | EmptyArgmax                            // np.argmax of an empty column
    | NegativeSampleCount(num: int)          // np.linspace with num < 0

  datatype Result<+T> = Ok(value: T) | Err(error: Error) {
    predicate IsFailure() { Err? }
    function PropagateFailure<U>(): Result<U>
      requires Err?
    {
      Err(error)
    }
    function Extract(): T
      requires Ok?
    {
      value
    }
  }

  /** A string-keyed dictionary of floats (parameters, initial conditions). */
  type Params = map<string, real>

  /** `d[key]`: the value, or KeyError naming the key. */
  function Get(d: Params, key: string): (r: Result<real>)
    ensures r.Ok? <==> key in d
    ensures r.Ok? ==> r.value == d[key]
    ensures r.Err? ==> r.error == KeyError(key)
  {
    if key in d then Ok(d[key]) else Err(KeyError(key))
  }

  /** `[d[k] for k in keys]`: the values in the order of `keys`; the first
      absent key, in that order, is the one the KeyError names. */
  function Fetch(d: Params, keys: seq<string>): (r: Result<seq<real>>)
    ensures r.Ok? <==> forall i :: 0 <= i < |keys| ==> keys[i] in d
    ensures r.Ok? ==> |r.value| == |keys| && forall i :: 0 <= i < |keys| ==> r.value[i] == d[keys[i]]
    ensures r.Err? ==> exists j :: 0 <= j < |keys| && r.error == KeyError(keys[j]) && keys[j] !in d &&
                                   forall i :: 0 <= i < j ==> keys[i] in d
  {
    if keys == [] then Ok([])
    else if keys[0] !in d then Err(KeyError(keys[0]))
    else
      var rest :- Fetch(d, keys[1..]);
      assert forall i :: 1 <= i < |keys| ==> keys[i] == keys[1..][i - 1];
      Ok([d[keys[0]]] + rest)
  }

  /** Reading `keys` does not see an entry stored under any other key. */
  lemma {:induction false} FetchIgnores(d: Params, keys: seq<string>, k: string, v: real)
    requires forall i :: 0 <= i < |keys| ==> keys[i] != k
    ensures Fetch(d[k := v], keys) == Fetch(d, keys)
  {
    var e := d[k := v];
    assert forall i :: 0 <= i < |keys| ==> (keys[i] in e <==> keys[i] in d);
    var a, b := Fetch(e, keys), Fetch(d, keys);
    if a.Ok? {
      assert a.value == b.value;
    } else {
      var j :| 0 <= j < |keys| && a.error == KeyError(keys[j]) && keys[j] !in e && forall i :: 0 <= i < j ==> keys[i] in e;
      var j' :| 0 <= j' < |keys| && b.error == KeyError(keys[j']) && keys[j'] !in d && forall i :: 0 <= i < j' ==> keys[i] in d;
      assert j == j';
    }
  }

  /** True when no name occurs twice. */
  predicate Distinct(names: seq<string>) {
    forall i, j :: 0 <= i < j < |names| ==> names[i] != names[j]
  }

  /** The index of the first occurrence of `c`. */
  function Position(names: seq<string>, c: string): (k: nat)
    requires c in names
    ensures k < |names| && names[k] == c
    ensures forall j :: 0 <= j < k ==> names[j] != c
  {
    PositionFrom(names, c, 0)
  }

  function PositionFrom(names: seq<string>, c: string, i: nat): (k: nat)
    requires i <= |names| && c in names[i..]
    ensures i <= k < |names| && names[k] == c
    ensures forall j :: i <= j < k ==> names[j] != c
    decreases |names| - i
  {
    if names[i] == c then i
    else
      assert c in names[i + 1..] by {
        var j :| i <= j < |names| && names[j] == c;
        assert names[i..][j - i] == c;
        assert names[i + 1..][j - i - 1] == c;
      }
      PositionFrom(names, c, i + 1)
  }

  /** `names.index(c)`: the first position of `c`, or ValueError. */
  function IndexOf(names: seq<string>, c: string): (r: Result<nat>)
    ensures r.Ok? <==> c in names
    ensures r.Ok? ==> r.value < |names| && names[r.value] == c &&
                      forall j :: 0 <= j < r.value ==> names[j] != c
    ensures r.Err? ==> r.error == NotInList(c)
  {
    if c in names then Ok(Position(names, c)) else Err(NotInList(c))
  }

  /** `sum(s)`: the total of a sequence of numbers; a total of nonnegative
      numbers is nonnegative. */
  function Sum(s: seq<real>): (r: real)
    ensures (forall j :: 0 <= j < |s| ==> s[j] >= 0.0) ==> r >= 0.0
  {
    SumToNonnegative(s, |s|);
    SumTo(s, |s|)
  }

  /** The total of the first `k` entries. */
  function SumTo(s: seq<real>, k: nat): real
    requires k <= |s|
  {
    if k == 0 then 0.0 else SumTo(s, k - 1) + s[k - 1]
  }

  /** An entry of a sequence of nonnegative numbers is at most their total. */
  lemma {:induction false} EntryBelowSum(s: seq<real>, i: nat)
    requires i < |s| && forall j :: 0 <= j < |s| ==> s[j] >= 0.0
    ensures s[i] <= Sum(s)
  {
    EntryBelowSumTo(s, i, |s|);
  }

  lemma {:induction false} EntryBelowSumTo(s: seq<real>, i: nat, k: nat)
    requires i < k <= |s| && forall j :: 0 <= j < |s| ==> s[j] >= 0.0
    ensures s[i] <= SumTo(s, k)
    decreases k
  {
    if k == i + 1 {
      SumToNonnegative(s, i);
    } else {
      EntryBelowSumTo(s, i, k - 1);
    }
  }

  lemma {:induction false} SumToNonnegative(s: seq<real>, k: nat)
    requires k <= |s|
    ensures (forall j :: 0 <= j < |s| ==> s[j] >= 0.0) ==> SumTo(s, k) >= 0.0
  {
    if k > 0 {
      SumToNonnegative(s, k - 1);
    }
  }

  /** `d.values()` for a dictionary whose keys, in insertion order, are `keys`. */
  function ValuesIn(d: Params, keys: seq<string>): (v: seq<real>)
    requires forall i :: 0 <= i < |keys| ==> keys[i] in d
    ensures |v| == |keys| && forall i :: 0 <= i < |keys| ==> v[i] == d[keys[i]]
  {
    seq(|keys|, i requires 0 <= i < |keys| => d[keys[i]])
  }

  /** When the keys of `d` are exactly the entries of `keys`, a mapping holds
      every key of `d` iff it holds every entry of `keys`. */
  lemma {:induction false} KeysCovered(d: Params, keys: seq<string>, p: Params)
    requires forall k :: k in d <==> k in keys
    ensures (forall k :: k in d ==> k in p) <==> (forall i :: 0 <= i < |keys| ==> keys[i] in p)
  {
    if forall i :: 0 <= i < |keys| ==> keys[i] in p {
      forall k | k in d
        ensures k in p
      {
        var i :| 0 <= i < |keys| && keys[i] == k;
      }
    }
  }

  /** When `p` lacks a key of `d`, reading the keys of `d` in order fails
      with a KeyError naming a key of `d` that `p` lacks. */
  lemma {:induction false} FetchMissing(d: Params, keys: seq<string>, p: Params)
    requires forall k :: k in d <==> k in keys
    requires exists k :: k in d && k !in p
    ensures Fetch(p, keys).Err?
    ensures exists k :: Fetch(p, keys).error == KeyError(k) && k in d && k !in p
  {
    KeysCovered(d, keys, p);
    var j :| 0 <= j < |keys| && Fetch(p, keys).error == KeyError(keys[j]) && keys[j] !in p;
    assert keys[j] in d;
  }

  /** Replacing one entry changes the total by the difference. */
  lemma {:induction false} SumUpdate(s: seq<real>, i: nat, v: real)
    requires i < |s|
    ensures Sum(s[i := v]) == Sum(s) - s[i] + v
  {
    SumToUpdate(s, i, v, |s|);
  }

  lemma {:induction false} SumToUpdate(s: seq<real>, i: nat, v: real, k: nat)
    requires i < |s| && k <= |s|
    ensures SumTo(s[i := v], k) == SumTo(s, k) - (if i < k then s[i] - v else 0.0)
  {
    if k > 0 {
      SumToUpdate(s, i, v, k - 1);
    }
  }

  /** The closed form of the sum for the state sizes of the model family
      (3, 4, 5 and 7 compartments). */
  lemma {:induction false} SumOf3(s: seq<real>)
    requires |s| == 3
    ensures Sum(s) == s[0] + s[1] + s[2]
  {
    assert SumTo(s, 1) == s[0];
    assert SumTo(s, 2) == s[0] + s[1];
  }

  lemma {:induction false} SumOf4(s: seq<real>)
    requires |s| == 4
    ensures Sum(s) == s[0] + s[1] + s[2] + s[3]
  {
    assert SumTo(s, 1) == s[0];
    assert SumTo(s, 2) == s[0] + s[1];
    assert SumTo(s, 3) == s[0] + s[1] + s[2];
  }

  lemma {:induction false} SumOf5(s: seq<real>)
    requires |s| == 5
    ensures Sum(s) == s[0] + s[1] + s[2] + s[3] + s[4]
  {
    assert SumTo(s, 1) == s[0];
    assert SumTo(s, 2) == s[0] + s[1];
    assert SumTo(s, 3) == s[0] + s[1] + s[2];
    assert SumTo(s, 4) == s[0] + s[1] + s[2] + s[3];
  }

  lemma {:induction false} SumOf7(s: seq<real>)
    requires |s| == 7
    ensures Sum(s) == s[0] + s[1] + s[2] + s[3] + s[4] + s[5] + s[6]
  {
    assert SumTo(s, 1) == s[0];
    assert SumTo(s, 2) == s[0] + s[1];
    assert SumTo(s, 3) == s[0] + s[1] + s[2];
    assert SumTo(s, 4) == s[0] + s[1] + s[2] + s[3];
    assert SumTo(s, 5) == s[0] + s[1] + s[2] + s[3] + s[4];
    assert SumTo(s, 6) == s[0] + s[1] + s[2] + s[3] + s[4] + s[5];
  }

  lemma {:induction false} SumZeros(n: nat)
    ensures Sum(seq(n, _ => 0.0)) == 0.0
  {
    SumToZeros(seq(n, _ => 0.0), n);
  }

  lemma {:induction false} SumToZeros(s: seq<real>, k: nat)
    requires k <= |s| && forall i :: 0 <= i < |s| ==> s[i] == 0.0
    ensures SumTo(s, k) == 0.0
  {
    if k > 0 {
      SumToZeros(s, k - 1);
    }
  }
}
