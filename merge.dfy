/**
 * `pd.DataFrame(results).drop_duplicates(subset=['Link'])` (app.py, line 103):
 * a row is dropped exactly when an earlier row has the same link, so the
 * first row of every link survives and the order of the rows is kept.
 */
module Merge {
  import opened Collectors

  /** The links of some rows. */
  function LinkSet(rows: seq<Job>): set<string> {
    set j | j in rows :: j.link
  }

  /** No two rows share a link. */
  predicate DistinctLinks(rows: seq<Job>) {
    forall i, j :: 0 <= i < j < |rows| ==> rows[i].link != rows[j].link
  }

  /** Row `i` is the first row with its link. */
  predicate FirstOfItsLink(rows: seq<Job>, i: int) {
    0 <= i < |rows| && forall j :: 0 <= j < i ==> rows[j].link != rows[i].link
  }

  /** `s` is `t` with some rows left out: an increasing choice of positions of `t` spells `s`. */
  ghost predicate IsSubsequence(s: seq<Job>, t: seq<Job>) {
    exists idx: seq<int> :: Spells(idx, s, t)
  }

  predicate Spells(idx: seq<int>, s: seq<Job>, t: seq<Job>) {
    |idx| == |s|
    && (forall k :: 0 <= k < |idx| ==> 0 <= idx[k] < |t| && s[k] == t[idx[k]])
    && (forall k, m :: 0 <= k < m < |idx| ==> idx[k] < idx[m])
  }

  /** The rows kept: the last row goes when one of the rows before it has its link. */
  function Dedup(rows: seq<Job>): seq<Job>
    decreases |rows|
  {
    if rows == [] then []
    else
      var prefix := rows[..|rows| - 1];
      var x := rows[|rows| - 1];
      if x.link in LinkSet(prefix) then Dedup(prefix) else Dedup(prefix) + [x]
  }

  /** The pandas call, as the loop it performs: one pass with the set of links seen so far. */
  method DropDuplicates(rows: seq<Job>) returns (kept: seq<Job>)
    ensures kept == Dedup(rows)
  {
    kept := [];
    var seen: set<string> := {};
    var i := 0;
    while i < |rows|
      invariant 0 <= i <= |rows|
      invariant kept == Dedup(rows[..i])
      invariant seen == LinkSet(rows[..i])
    {
      var row := rows[i];
      assert rows[..i + 1][..i] == rows[..i];
      assert rows[..i + 1] == rows[..i] + [row];
      if row.link !in seen {
        kept := kept + [row];
      }
      seen := seen + {row.link};
      i := i + 1;
    }
    assert rows[..|rows|] == rows;
  }

  lemma LinkSetSnoc(p: seq<Job>, x: Job)
    ensures LinkSet(p + [x]) == LinkSet(p) + {x.link}
  {
    assert forall j :: j in p + [x] <==> j in p || j == x;
  }

  /** One step of `Dedup`, at the end of the rows. */
  lemma DedupSnoc(p: seq<Job>, x: Job)
    ensures Dedup(p + [x]) == if x.link in LinkSet(p) then Dedup(p) else Dedup(p) + [x]
  {
    assert (p + [x])[..|p|] == p;
  }

  /** The rows kept carry exactly the links of all the rows: no link is lost. */
  lemma {:induction false} DedupLinks(rows: seq<Job>)
    ensures LinkSet(Dedup(rows)) == LinkSet(rows)
    decreases |rows|
  {
    if rows != [] {
      var p, x := rows[..|rows| - 1], rows[|rows| - 1];
      assert rows == p + [x];
      DedupLinks(p);
      LinkSetSnoc(p, x);
      LinkSetSnoc(Dedup(p), x);
    }
  }

  /** The rows kept have distinct links. */
  lemma {:induction false} DedupDistinct(rows: seq<Job>)
    ensures DistinctLinks(Dedup(rows))
    decreases |rows|
  {
    if rows != [] {
      var p, x := rows[..|rows| - 1], rows[|rows| - 1];
      assert rows == p + [x];
      DedupDistinct(p);
      DedupLinks(p);
      if x.link !in LinkSet(p) {
        var d := Dedup(p);
        forall i | 0 <= i < |d| ensures d[i].link != x.link {
          assert d[i] in d;
        }
      }
    }
  }

  /** The rows kept keep their order: they are a subsequence of the rows. */
  lemma {:induction false} DedupSubsequence(rows: seq<Job>)
    ensures IsSubsequence(Dedup(rows), rows)
    decreases |rows|
  {
    if rows == [] {
      assert Spells([], [], []);
    } else {
      var p, x := rows[..|rows| - 1], rows[|rows| - 1];
      assert rows == p + [x];
      DedupSubsequence(p);
      var idx :| Spells(idx, Dedup(p), p);
      DedupSnoc(p, x);
      if x.link in LinkSet(p) {
        assert Spells(idx, Dedup(rows), rows);
      } else {
        var idx' := idx + [|p|];
        assert Dedup(rows) == Dedup(p) + [x];
        forall k | 0 <= k < |idx'| ensures 0 <= idx'[k] < |rows| && Dedup(rows)[k] == rows[idx'[k]] {
          if k < |idx| {
            assert idx'[k] == idx[k];
          }
        }
        assert Spells(idx', Dedup(rows), rows);
      }
    }
  }

  /** A row is kept exactly when no earlier row has its link. */
  lemma {:induction false} DedupKeepsFirst(rows: seq<Job>)
    ensures forall x :: x in Dedup(rows) <==> exists i :: FirstOfItsLink(rows, i) && rows[i] == x
    decreases |rows|
  {
    if rows != [] {
      var p, x := rows[..|rows| - 1], rows[|rows| - 1];
      assert rows == p + [x];
      DedupKeepsFirst(p);
      DedupSnoc(p, x);
      forall y ensures y in Dedup(rows) <==> exists i :: FirstOfItsLink(rows, i) && rows[i] == y {
        if y in Dedup(rows) {
          if y in Dedup(p) {
            var i :| FirstOfItsLink(p, i) && p[i] == y;
            assert FirstOfItsLink(rows, i);
          } else {
            assert y == x && x.link !in LinkSet(p);
            forall j | 0 <= j < |p| ensures rows[j].link != x.link {
              assert p[j] in p;
            }
            assert FirstOfItsLink(rows, |p|);
          }
        }
        if exists i :: FirstOfItsLink(rows, i) && rows[i] == y {
          var i :| FirstOfItsLink(rows, i) && rows[i] == y;
          if i < |p| {
            assert FirstOfItsLink(p, i);
          } else {
            forall z | z in p ensures z.link != x.link {
              var j :| 0 <= j < |p| && p[j] == z;
              assert rows[j] == z;
            }
          }
        }
      }
    }
  }

  /** Below the last row, being first of one's link does not depend on the last row. */
  lemma FirstOfItsLinkSnoc(p: seq<Job>, x: Job)
    ensures forall i :: 0 <= i < |p| ==> (FirstOfItsLink(p + [x], i) <==> FirstOfItsLink(p, i))
    ensures FirstOfItsLink(p + [x], |p|) <==> x.link !in LinkSet(p)
  {
    var rows := p + [x];
    forall i | 0 <= i < |p| ensures FirstOfItsLink(rows, i) <==> FirstOfItsLink(p, i) {
      assert forall j :: 0 <= j <= i ==> rows[j] == p[j];
    }
    if x.link in LinkSet(p) {
      var z :| z in p && z.link == x.link;
      var j :| 0 <= j < |p| && p[j] == z;
      assert rows[j].link == rows[|p|].link;
    } else {
      forall j | 0 <= j < |p| ensures rows[j].link != x.link {
        assert p[j] in p;
      }
    }
  }

  /**
   * The rows kept are the rows at exactly the positions that are first of
   * their link, in the order of those positions.
   */
  lemma {:induction false} DedupFirstPositions(rows: seq<Job>)
    ensures exists idx: seq<int> ::
      Spells(idx, Dedup(rows), rows) && forall i :: 0 <= i < |rows| ==> (i in idx <==> FirstOfItsLink(rows, i))
    decreases |rows|
  {
    if rows == [] {
      var none: seq<int> := [];
      assert Spells(none, Dedup(rows), rows);
    } else {
      var p, x := rows[..|rows| - 1], rows[|rows| - 1];
      assert rows == p + [x];
      DedupFirstPositions(p);
      var idx: seq<int> :| Spells(idx, Dedup(p), p)
        && forall i :: 0 <= i < |p| ==> (i in idx <==> FirstOfItsLink(p, i));
      DedupSnoc(p, x);
      FirstOfItsLinkSnoc(p, x);
      if x.link in LinkSet(p) {
        assert Spells(idx, Dedup(rows), rows);
        forall i | 0 <= i < |rows| ensures i in idx <==> FirstOfItsLink(rows, i) {
          if i == |p| {
            assert i !in idx;
          }
        }
      } else {
        var idx' := idx + [|p|];
        assert Dedup(rows) == Dedup(p) + [x];
        forall k | 0 <= k < |idx'| ensures 0 <= idx'[k] < |rows| && Dedup(rows)[k] == rows[idx'[k]] {
          if k < |idx| {
            assert idx'[k] == idx[k];
          }
        }
        assert Spells(idx', Dedup(rows), rows);
        forall i | 0 <= i < |rows| ensures i in idx' <==> FirstOfItsLink(rows, i) {
          if i < |p| {
            assert i in idx' <==> i in idx;
          }
        }
      }
    }
  }

  /** Rows with distinct links are all kept. */
  lemma {:induction false} DedupOfDistinct(rows: seq<Job>)
    requires DistinctLinks(rows)
    ensures Dedup(rows) == rows
    decreases |rows|
  {
    if rows != [] {
      var p, x := rows[..|rows| - 1], rows[|rows| - 1];
      assert rows == p + [x];
      DedupOfDistinct(p);
      forall z | z in p ensures z.link != x.link {
        var j :| 0 <= j < |p| && p[j] == z;
        assert rows[j] == z;
      }
    }
  }

  /** Dropping duplicates a second time changes nothing. */
  lemma DedupIdempotent(rows: seq<Job>)
    ensures Dedup(Dedup(rows)) == Dedup(rows)
  {
    DedupDistinct(rows);
    DedupOfDistinct(Dedup(rows));
  }

  /**
   * When the rows of `a` come before those of `b`, a link that occurs in `a`
   * is represented by a row of `a`: the earlier collector wins.
   */
  lemma EarlierRowsWin(a: seq<Job>, b: seq<Job>)
    ensures forall x :: x in Dedup(a + b) && x.link in LinkSet(a) ==> x in a
  {
    DedupKeepsFirst(a + b);
    forall x | x in Dedup(a + b) && x.link in LinkSet(a) ensures x in a {
      var i :| FirstOfItsLink(a + b, i) && (a + b)[i] == x;
      var z :| z in a && z.link == x.link;
      var j :| 0 <= j < |a| && a[j] == z;
      assert (a + b)[j].link == x.link;
      assert i <= j;
      assert a[i] == x;
    }
  }
}
