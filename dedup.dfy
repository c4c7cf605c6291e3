/**
 * `drop_duplicates(subset="SNP")`, which both converters apply: the first
 * row of every SNP, in order
 * (src/ldsc/munge_sumstats/munge_sumstats.py:640; sumstats_to_chisq.py:185).
 */
module Dedup {
  import opened Wrappers
  import opened Schema
  import opened Seqs

  /** The SNP cells of some rows. */
  function Snps(rows: seq<Row>): set<Cell>
  {
    set i | 0 <= i < |rows| :: Get(rows[i], Snp)
  }

  lemma SnpsSnoc(rows: seq<Row>, r: Row)
    ensures Snps(rows + [r]) == Snps(rows) + {Get(r, Snp)}
  {
    var s := rows + [r];
    forall x | x in Snps(s) ensures x in Snps(rows) + {Get(r, Snp)} {
      var i :| 0 <= i < |s| && Get(s[i], Snp) == x;
      if i < |rows| {
        assert Get(rows[i], Snp) == x;
      }
    }
    forall x | x in Snps(rows) ensures x in Snps(s) {
      var i :| 0 <= i < |rows| && Get(rows[i], Snp) == x;
      assert Get(s[i], Snp) == x;
    }
    assert Get(s[|rows|], Snp) == Get(r, Snp);
  }

  /**
   * `drop_duplicates(subset="SNP")`: the first row of every SNP, in order.
   * The result has no repeated SNP and loses none.
   */
  function DropDuplicates(rows: seq<Row>): (out: seq<Row>)
    ensures UniqueSnps(out)
    ensures Snps(out) == Snps(rows)
    ensures |out| <= |rows|
    ensures forall i :: 0 <= i < |out| ==> out[i] in rows
  {
    if rows == [] then []
    else
      var front := rows[..|rows| - 1];
      var last := rows[|rows| - 1];
      assert rows == front + [last];
      SnpsSnoc(front, last);
      var d := DropDuplicates(front);
      if Get(last, Snp) in Snps(front) then d
      else
        SnpsSnoc(d, last);
        assert forall i :: 0 <= i < |d| ==> Get(d[i], Snp) in Snps(d);
        d + [last]
  }

  /** `FirstMask(rows)[i]`: no earlier row has the SNP of row `i`. */
  function FirstMask(rows: seq<Row>): (m: seq<bool>)
    ensures |m| == |rows| && forall i :: 0 <= i < |rows| ==> (m[i] <==> Get(rows[i], Snp) !in Snps(rows[..i]))
  {
    seq(|rows|, i requires 0 <= i < |rows| => Get(rows[i], Snp) !in Snps(rows[..i]))
  }

  lemma DropDuplicatesSnoc(front: seq<Row>, last: Row)
    ensures DropDuplicates(front + [last])
      == DropDuplicates(front) + (if Get(last, Snp) in Snps(front) then [] else [last])
  {
    var rows := front + [last];
    assert rows[..|rows| - 1] == front && rows[|rows| - 1] == last;
  }

  lemma FirstMaskSnoc(front: seq<Row>, last: Row)
    ensures FirstMask(front + [last]) == FirstMask(front) + [Get(last, Snp) !in Snps(front)]
  {
    var rows := front + [last];
    var m := FirstMask(rows);
    forall i | 0 <= i < |front| ensures m[i] == FirstMask(front)[i] {
      assert rows[..i] == front[..i];
    }
    assert rows[..|front|] == front;
  }

  /** Removing duplicates keeps exactly the first occurrence of every SNP. */
  lemma {:induction false} DropDuplicatesFirst(rows: seq<Row>)
    ensures DropDuplicates(rows) == Select(rows, FirstMask(rows))
  {
    if rows != [] {
      var front := rows[..|rows| - 1];
      var last := rows[|rows| - 1];
      DropDuplicatesFirst(front);
      FirstSnoc(front, last);
      assert rows == front + [last];
    }
  }

  lemma FirstSnoc(front: seq<Row>, last: Row)
    requires DropDuplicates(front) == Select(front, FirstMask(front))
    ensures DropDuplicates(front + [last]) == Select(front + [last], FirstMask(front + [last]))
  {
    var b := Get(last, Snp) !in Snps(front);
    DropDuplicatesSnoc(front, last);
    FirstMaskSnoc(front, last);
    SelectAppend(front, FirstMask(front), [last], [b]);
    assert Select([last], [b]) == if b then [last] else [];
  }

  /** Rows whose SNPs are already distinct are left as they are. */
  lemma {:induction false} DropDuplicatesNoop(rows: seq<Row>)
    requires UniqueSnps(rows)
    ensures DropDuplicates(rows) == rows
  {
    if rows != [] {
      var front := rows[..|rows| - 1];
      var last := rows[|rows| - 1];
      DropDuplicatesNoop(front);
      assert Get(last, Snp) !in Snps(front) by {
        forall i | 0 <= i < |front| ensures Get(front[i], Snp) != Get(last, Snp) {
          assert front[i] == rows[i];
        }
      }
      assert rows == front + [last];
    }
  }

  /** Keeping some of the rows keeps their SNPs distinct. */
  lemma {:induction false} SelectUnique(rows: seq<Row>, m: seq<bool>)
    requires |rows| == |m| && UniqueSnps(rows)
    ensures UniqueSnps(Select(rows, m))
  {
    if rows != [] {
      var tail := rows[1..];
      assert UniqueSnps(tail) by {
        forall i, j | 0 <= i < j < |tail| ensures Get(tail[i], Snp) != Get(tail[j], Snp) {
          assert tail[i] == rows[i + 1] && tail[j] == rows[j + 1];
        }
      }
      SelectUnique(tail, m[1..]);
      var rest := Select(tail, m[1..]);
      forall k | 0 <= k < |rest| ensures Get(rest[k], Snp) != Get(rows[0], Snp) {
        var i := SelectOrigin(tail, m[1..], k);
        assert tail[i] == rows[i + 1];
      }
      var s := Select(rows, m);
      assert s == (if m[0] then [rows[0]] else []) + rest;
      forall a, b | 0 <= a < b < |s| ensures Get(s[a], Snp) != Get(s[b], Snp) {
        if m[0] {
          if a == 0 {
            assert s[b] == rest[b - 1];
          } else {
            assert s[a] == rest[a - 1] && s[b] == rest[b - 1];
          }
        }
      }
    }
  }
}
