/** Bin keys and the group-by of stacker.py: cyan epochs are keyed by the
    nearest new moon, orange epochs by whole days or by `stack`-day buckets;
    rows sharing a key form one bin, and bins are visited in ascending key
    order. */
module Binning {
  import opened LightCurve
  import opened Numerics

  datatype Band = Cyan | Orange

  /** The letter of the `F` column for the band. */
  function Label(band: Band): char {
    match band
    case Cyan => 'c'
    case Orange => 'o'
  }

  /** The binning rule of one band: the bucket width `stack` (orange) and the
      new-moon dates (cyan). */
  datatype Binner = Binner(band: Band, stack: int, newMoons: seq<real>)

  /** Cyan needs at least one new moon (`np.argmin` of an empty array raises);
      orange with `stack != 1` divides by `stack`. */
  predicate ValidBinner(b: Binner) {
    match b.band
    case Cyan => |b.newMoons| > 0
    case Orange => b.stack != 0
  }

  /** `np.argmin(np.abs(date - newMoons))`: the index of the new moon nearest
      to date, the first one when several are equally near. */
  function NearestNewMoon(date: real, newMoons: seq<real>): (i: nat)
    requires |newMoons| > 0
    ensures i < |newMoons|
    ensures forall j :: 0 <= j < |newMoons| ==> Abs(date - newMoons[i]) <= Abs(date - newMoons[j])
    ensures forall j :: 0 <= j < i ==> Abs(date - newMoons[i]) < Abs(date - newMoons[j])
  {
    if |newMoons| == 1 then 0
    else
      var k := NearestNewMoon(date, newMoons[..|newMoons| - 1]);
      if Abs(date - newMoons[|newMoons| - 1]) < Abs(date - newMoons[k]) then |newMoons| - 1 else k
  }

  /** The bin key of an epoch observed at date (stacker.py lines 53-58 and
      110-121 compute the same key). */
  function BinKey(b: Binner, date: real): (key: real)
    requires ValidBinner(b)
    ensures b.band == Cyan ==> key in b.newMoons
    ensures b.band == Cyan ==> forall m :: m in b.newMoons ==> Abs(date - key) <= Abs(date - m)
    ensures b.band == Cyan ==> key == b.newMoons[NearestNewMoon(date, b.newMoons)]
    ensures b.band == Orange && b.stack == 1 ==> IsWhole(key) && Abs(key) <= Abs(date) < Abs(key) + 1.0
    ensures b.band == Orange && b.stack == 1 ==> key == Trunc(date) as real
  {
    match b.band
    case Cyan => b.newMoons[NearestNewMoon(date, b.newMoons)]
    case Orange =>
      if b.stack == 1 then Trunc(date) as real
      else (b.stack * RoundHalfEven(date / b.stack as real)) as real
  }

  /** The rows of one bin: those whose key is k, in their original order
      (the reference definition of a group). */
  function Members(b: Binner, rows: seq<Row>, k: real): (g: seq<Row>)
    requires ValidBinner(b)
    ensures |g| <= |rows|
    ensures forall r :: r in g ==> r in rows && BinKey(b, r.mjd) == k
    ensures forall i :: 0 <= i < |rows| && BinKey(b, rows[i].mjd) == k ==> rows[i] in g
  {
    if rows == [] then []
    else (if BinKey(b, rows[0].mjd) == k then [rows[0]] else []) + Members(b, rows[1..], k)
  }

  lemma {:induction false} MembersAppend(b: Binner, xs: seq<Row>, ys: seq<Row>, k: real)
    requires ValidBinner(b)
    ensures Members(b, xs + ys, k) == Members(b, xs, k) + Members(b, ys, k)
  {
    if xs == [] {
      assert xs + ys == ys;
    } else {
      assert (xs + ys)[1..] == xs[1..] + ys;
      MembersAppend(b, xs[1..], ys, k);
    }
  }

  /** `DataFrame.groupby(key)`: a map from each key to its rows, built by
      appending every row, in order, to the list of its key. */
  function GroupBy(b: Binner, rows: seq<Row>): map<real, seq<Row>>
    requires ValidBinner(b)
  {
    if rows == [] then map[]
    else
      var m := GroupBy(b, rows[..|rows| - 1]);
      var r := rows[|rows| - 1];
      var k := BinKey(b, r.mjd);
      m[k := (if k in m then m[k] else []) + [r]]
  }

  /** The group-by map holds exactly the non-empty bins, each with its
      members in their original order. */
  lemma GroupByMembers(b: Binner, rows: seq<Row>)
    requires ValidBinner(b)
    ensures forall k :: k in GroupBy(b, rows) <==> Members(b, rows, k) != []
    ensures forall k :: k in GroupBy(b, rows) ==> GroupBy(b, rows)[k] == Members(b, rows, k)
  {
    forall k ensures (k in GroupBy(b, rows) <==> Members(b, rows, k) != [])
      && (k in GroupBy(b, rows) ==> GroupBy(b, rows)[k] == Members(b, rows, k))
    {
      GroupByMembersAt(b, rows, k);
    }
  }

  lemma {:induction false} GroupByMembersAt(b: Binner, rows: seq<Row>, k: real)
    requires ValidBinner(b)
    ensures k in GroupBy(b, rows) <==> Members(b, rows, k) != []
    ensures k in GroupBy(b, rows) ==> GroupBy(b, rows)[k] == Members(b, rows, k)
  {
    if rows != [] {
      var init, r := rows[..|rows| - 1], rows[|rows| - 1];
      GroupByMembersAt(b, init, k);
      assert rows == init + [r];
      MembersAppend(b, init, [r], k);
      assert Members(b, [r], k) == if BinKey(b, r.mjd) == k then [r] else [];
    }
  }

  predicate StrictlyIncreasing(ks: seq<real>) {
    forall i, j :: 0 <= i < j < |ks| ==> ks[i] < ks[j]
  }

  function InsertKey(k: real, ks: seq<real>): (r: seq<real>)
    requires StrictlyIncreasing(ks)
    ensures StrictlyIncreasing(r)
    ensures forall y :: y in r <==> y == k || y in ks
  {
    if ks == [] then [k]
    else if k < ks[0] then [k] + ks
    else if k == ks[0] then ks
    else
      var rest := InsertKey(k, ks[1..]);
      assert forall i :: 0 <= i < |rest| ==> ks[0] < rest[i] by {
        forall i | 0 <= i < |rest| ensures ks[0] < rest[i] {
          assert rest[i] in rest;
        }
      }
      [ks[0]] + rest
  }

  /** The group keys in ascending order, each once: the order in which
      `groupby(...).apply` visits the bins. */
  function SortedKeys(b: Binner, rows: seq<Row>): (ks: seq<real>)
    requires ValidBinner(b)
    ensures StrictlyIncreasing(ks)
    ensures forall k :: k in ks <==> Members(b, rows, k) != []
  {
    if rows == [] then []
    else InsertKey(BinKey(b, rows[0].mjd), SortedKeys(b, rows[1..]))
  }

  /** Every sorted key names a non-empty bin of the group-by map. */
  lemma KeysInGroupBy(b: Binner, rows: seq<Row>)
    requires ValidBinner(b)
    ensures forall i :: 0 <= i < |SortedKeys(b, rows)| ==>
      && SortedKeys(b, rows)[i] in GroupBy(b, rows)
      && GroupBy(b, rows)[SortedKeys(b, rows)[i]] == Members(b, rows, SortedKeys(b, rows)[i]) != []
  {
    var ks := SortedKeys(b, rows);
    forall i | 0 <= i < |ks|
      ensures ks[i] in GroupBy(b, rows) && GroupBy(b, rows)[ks[i]] == Members(b, rows, ks[i]) != []
    {
      assert ks[i] in ks;
      GroupByMembersAt(b, rows, ks[i]);
    }
  }

  /** The bins, in ascending key order. */
  function Groups(b: Binner, rows: seq<Row>): (gs: seq<seq<Row>>)
    requires ValidBinner(b)
    ensures |gs| == |SortedKeys(b, rows)|
    ensures forall i :: 0 <= i < |gs| ==> gs[i] != [] && gs[i] == Members(b, rows, SortedKeys(b, rows)[i])
  {
    var m, ks := GroupBy(b, rows), SortedKeys(b, rows);
    KeysInGroupBy(b, rows);
    seq(|ks|, i requires 0 <= i < |ks| => m[ks[i]])
  }
}
