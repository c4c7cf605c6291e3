/**
 * Boolean row masks as pandas uses them (`dat[ii]`, `ii &= ...`, `ii.sum()`),
 * and the concatenation of a list of frames (`pd.concat`).
 */
module Seqs {

  /** The number of selected positions (`ii.sum()`). */
  function Count(m: seq<bool>): (c: nat)
    ensures c <= |m|
  {
    if m == [] then 0 else (if m[0] then 1 else 0) + Count(m[1..])
  }

  /** The elements at selected positions, in order (`dat[ii]`). */
  function Select<T>(s: seq<T>, m: seq<bool>): (r: seq<T>)
    requires |s| == |m|
    ensures |r| == Count(m)
  {
    if s == [] then [] else (if m[0] then [s[0]] else []) + Select(s[1..], m[1..])
  }

  /** Element-wise conjunction of two masks (`ii & jj`). */
  function And(a: seq<bool>, b: seq<bool>): (r: seq<bool>)
    requires |a| == |b|
    ensures |r| == |a|
    ensures forall i :: 0 <= i < |a| ==> r[i] == (a[i] && b[i])
  {
    seq(|a|, i requires 0 <= i < |a| => a[i] && b[i])
  }

  /** The mask that selects everything. */
  function AllTrue(n: nat): (r: seq<bool>)
    ensures |r| == n && forall i :: 0 <= i < n ==> r[i]
  {
    seq(n, i => true)
  }

  lemma {:induction false} CountAllTrue(m: seq<bool>)
    requires forall i :: 0 <= i < |m| ==> m[i]
    ensures Count(m) == |m|
  {
    if m != [] {
      CountAllTrue(m[1..]);
    }
  }

  /** A mask that counts all its positions selects every one of them. */
  lemma {:induction false} CountFull(m: seq<bool>)
    requires Count(m) == |m|
    ensures forall i :: 0 <= i < |m| ==> m[i]
  {
    if m != [] {
      CountFull(m[1..]);
      assert forall i :: 1 <= i < |m| ==> m[i] == m[1..][i - 1];
    }
  }

  /** A mask counts nothing exactly when it selects no position. */
  lemma {:induction false} CountZero(m: seq<bool>)
    ensures Count(m) == 0 <==> forall i :: 0 <= i < |m| ==> !m[i]
  {
    if m != [] {
      CountZero(m[1..]);
      assert forall i :: 1 <= i < |m| ==> m[i] == m[1..][i - 1];
    }
  }

  lemma {:induction false} CountAndBound(a: seq<bool>, b: seq<bool>)
    requires |a| == |b|
    ensures Count(And(a, b)) <= Count(a)
  {
    if a != [] {
      assert And(a, b)[1..] == And(a[1..], b[1..]);
      CountAndBound(a[1..], b[1..]);
    }
  }

  lemma {:induction false} SelectAllTrue<T>(s: seq<T>, m: seq<bool>)
    requires |s| == |m| && forall i :: 0 <= i < |m| ==> m[i]
    ensures Select(s, m) == s
  {
    if s != [] {
      SelectAllTrue(s[1..], m[1..]);
    }
  }

  /** The frames of a list, one after the other (`pd.concat(dat_list)`). */
  function Flatten<T>(ss: seq<seq<T>>): seq<T>
  {
    if ss == [] then [] else Flatten(ss[..|ss| - 1]) + ss[|ss| - 1]
  }

  lemma FlattenSnoc<T>(ss: seq<seq<T>>, s: seq<T>)
    ensures Flatten(ss + [s]) == Flatten(ss) + s
  {
    assert (ss + [s])[..|ss|] == ss;
  }

  lemma {:induction false} CountAppend(a: seq<bool>, b: seq<bool>)
    ensures Count(a + b) == Count(a) + Count(b)
  {
    if a != [] {
      assert (a + b)[0] == a[0] && (a + b)[1..] == a[1..] + b;
      CountAppend(a[1..], b);
    } else {
      assert a + b == b;
    }
  }

  lemma {:induction false} SelectAppend<T>(a: seq<T>, ma: seq<bool>, b: seq<T>, mb: seq<bool>)
    requires |a| == |ma| && |b| == |mb|
    ensures Select(a + b, ma + mb) == Select(a, ma) + Select(b, mb)
  {
    if a != [] {
      assert (a + b)[0] == a[0] && (a + b)[1..] == a[1..] + b;
      assert (ma + mb)[0] == ma[0] && (ma + mb)[1..] == ma[1..] + mb;
      SelectAppend(a[1..], ma[1..], b, mb);
    } else {
      assert a + b == b && ma + mb == mb;
    }
  }

  /** Every selected element comes from a selected position. */
  lemma {:induction false} SelectFrom<T>(s: seq<T>, m: seq<bool>, j: nat)
    requires |s| == |m| && j < |Select(s, m)|
    ensures exists i :: 0 <= i < |s| && m[i] && s[i] == Select(s, m)[j]
  {
    var head := if m[0] then [s[0]] else [];
    if j < |head| {
      assert m[0] && s[0] == Select(s, m)[j];
    } else {
      SelectFrom(s[1..], m[1..], j - |head|);
      var i :| 0 <= i < |s[1..]| && m[1..][i] && s[1..][i] == Select(s[1..], m[1..])[j - |head|];
      assert m[i + 1] && s[i + 1] == Select(s, m)[j];
    }
  }

  /** The position of the input that the `j`-th selected element comes from. */
  lemma SelectOrigin<T>(s: seq<T>, m: seq<bool>, j: nat) returns (i: nat)
    requires |s| == |m| && j < |Select(s, m)|
    ensures i < |s| && m[i] && s[i] == Select(s, m)[j]
  {
    SelectFrom(s, m, j);
    var k :| 0 <= k < |s| && m[k] && s[k] == Select(s, m)[j];
    i := k;
  }

  /** An element at a selected position is kept. */
  lemma {:induction false} SelectIn<T>(s: seq<T>, m: seq<bool>, i: nat)
    requires |s| == |m| && i < |s| && m[i]
    ensures s[i] in Select(s, m)
  {
    if i > 0 {
      SelectIn(s[1..], m[1..], i - 1);
      assert s[1..][i - 1] == s[i];
    }
  }

  /** The number of positions holding `k`. */
  function CountEq(rs: seq<nat>, k: nat): (n: nat)
    ensures n <= |rs|
  {
    if rs == [] then 0 else (if rs[0] == k then 1 else 0) + CountEq(rs[1..], k)
  }

  /** The mask of positions holding more than `k`. */
  function Above(rs: seq<nat>, k: nat): (m: seq<bool>)
    ensures |m| == |rs|
    ensures forall i :: 0 <= i < |rs| ==> (m[i] <==> rs[i] > k)
  {
    if rs == [] then [] else [rs[0] > k] + Above(rs[1..], k)
  }

  lemma {:induction false} CountEqAppend(a: seq<nat>, b: seq<nat>, k: nat)
    ensures CountEq(a + b, k) == CountEq(a, k) + CountEq(b, k)
  {
    if a != [] {
      assert (a + b)[0] == a[0] && (a + b)[1..] == a[1..] + b;
      CountEqAppend(a[1..], b, k);
    } else {
      assert a + b == b;
    }
  }

  lemma {:induction false} AboveAppend(a: seq<nat>, b: seq<nat>, k: nat)
    ensures Above(a + b, k) == Above(a, k) + Above(b, k)
  {
    if a != [] {
      assert (a + b)[0] == a[0] && (a + b)[1..] == a[1..] + b;
      AboveAppend(a[1..], b, k);
    } else {
      assert a + b == b;
    }
  }

  lemma {:induction false} CountEqNone(rs: seq<nat>, k: nat)
    requires forall i :: 0 <= i < |rs| ==> rs[i] != k
    ensures CountEq(rs, k) == 0
  {
    if rs != [] {
      CountEqNone(rs[1..], k);
    }
  }

  /** The positions above `k` are those holding `k + 1` and those above `k + 1`. */
  lemma {:induction false} CountAboveStep(rs: seq<nat>, k: nat)
    ensures Count(Above(rs, k)) == CountEq(rs, k + 1) + Count(Above(rs, k + 1))
  {
    if rs != [] {
      assert Above(rs, k)[1..] == Above(rs[1..], k);
      assert Above(rs, k + 1)[1..] == Above(rs[1..], k + 1);
      CountAboveStep(rs[1..], k);
    }
  }

  lemma {:induction false} CountAboveZero(rs: seq<nat>)
    ensures |rs| == CountEq(rs, 0) + Count(Above(rs, 0))
  {
    if rs != [] {
      assert Above(rs, 0)[1..] == Above(rs[1..], 0);
      CountAboveZero(rs[1..]);
    }
  }

  /** Positions holding 0 to 5 and positions above 5 make up the whole sequence. */
  lemma {:induction false} CountRanks(rs: seq<nat>)
    ensures |rs| == Count(Above(rs, 5)) + CountEq(rs, 0) + CountEq(rs, 1) + CountEq(rs, 2)
                    + CountEq(rs, 3) + CountEq(rs, 4) + CountEq(rs, 5)
  {
    if rs != [] {
      CountRanks(rs[1..]);
    }
  }

  /** The counts of 0 to 5 add up over a concatenation. */
  lemma {:induction false} CountRanksAppend(a: seq<nat>, b: seq<nat>)
    ensures CountEq(a + b, 0) == CountEq(a, 0) + CountEq(b, 0)
    ensures CountEq(a + b, 1) == CountEq(a, 1) + CountEq(b, 1)
    ensures CountEq(a + b, 2) == CountEq(a, 2) + CountEq(b, 2)
    ensures CountEq(a + b, 3) == CountEq(a, 3) + CountEq(b, 3)
    ensures CountEq(a + b, 4) == CountEq(a, 4) + CountEq(b, 4)
    ensures CountEq(a + b, 5) == CountEq(a, 5) + CountEq(b, 5)
  {
    if a != [] {
      assert (a + b)[0] == a[0] && (a + b)[1..] == a[1..] + b;
      CountRanksAppend(a[1..], b);
    } else {
      assert a + b == b;
    }
  }

  /** With nothing above `k`, no position holds a value above `k`. */
  lemma {:induction false} NothingAbove(rs: seq<nat>, k: nat)
    requires Count(Above(rs, k)) == 0
    ensures forall j: nat :: j > k ==> CountEq(rs, j) == 0
  {
    if rs != [] {
      NothingAbove(rs[1..], k);
    }
  }

  /** Keeping the positions above `k` keeps the later counts and drops the earlier ones. */
  lemma {:induction false} SelectAbove(rs: seq<nat>, k: nat)
    ensures forall j: nat :: j > k ==> CountEq(Select<nat>(rs, Above(rs, k)), j) == CountEq(rs, j)
    ensures forall j: nat :: j <= k ==> CountEq(Select<nat>(rs, Above(rs, k)), j) == 0
    ensures forall i :: 0 <= i < |Select<nat>(rs, Above(rs, k))| ==> Select<nat>(rs, Above(rs, k))[i] > k
  {
    if rs != [] {
      assert Above(rs, k)[1..] == Above(rs[1..], k);
      SelectAbove(rs[1..], k);
      var rest := Select<nat>(rs[1..], Above(rs[1..], k));
      if rs[0] > k {
        assert Select<nat>(rs, Above(rs, k)) == [rs[0]] + rest;
      } else {
        assert Select<nat>(rs, Above(rs, k)) == rest;
      }
    }
  }

  /** Selecting above `k` and then above `j >= k` is selecting above `j`. */
  lemma {:induction false} SelectAboveTwice<T>(s: seq<T>, rs: seq<nat>, k: nat, j: nat)
    requires |s| == |rs| && k <= j
    ensures |Select<nat>(rs, Above(rs, k))| == |Select(s, Above(rs, k))|
    ensures Select(Select(s, Above(rs, k)), Above(Select<nat>(rs, Above(rs, k)), j)) == Select(s, Above(rs, j))
  {
    if s != [] {
      assert Above(rs, k)[1..] == Above(rs[1..], k);
      assert Above(rs, j)[1..] == Above(rs[1..], j);
      SelectAboveTwice(s[1..], rs[1..], k, j);
      var r1 := Select<nat>(rs[1..], Above(rs[1..], k));
      var s1 := Select(s[1..], Above(rs[1..], k));
      if rs[0] > k {
        assert Select<nat>(rs, Above(rs, k)) == [rs[0]] + r1;
        assert Select(s, Above(rs, k)) == [s[0]] + s1;
        assert Above([rs[0]] + r1, j)[1..] == Above(r1, j);
      } else {
        assert Select<nat>(rs, Above(rs, k)) == r1;
        assert Select(s, Above(rs, k)) == s1;
      }
    }
  }
}
