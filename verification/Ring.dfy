/** A fixed number of slots written round and round: slot `i % n` holds entry `i` while it is one of the last `n`. */
module Ring {
  import opened Arithmetic

  ghost predicate Holds<T>(slots: seq<T>, history: seq<T>) {
    0 < |slots| && forall i {:trigger history[i]} ::
      0 <= i < |history| && |history| <= i + |slots| ==> slots[i % |slots|] == history[i]
  }

  function LastN<T>(s: seq<T>, n: nat): (r: seq<T>)
    ensures |r| == Min(|s|, n) && r == s[|s| - |r|..]
  {
    if |s| <= n then s else s[|s| - n..]
  }

  lemma NearbySlotsDiffer(i: nat, j: nat, n: nat)
    requires i < j < i + n
    ensures i % n != j % n
  {
    if i % n == j % n {
      DivModUnique(i / n, i % n, n);
      assert j - i == (j / n - i / n) * n;
      if j / n <= i / n {
        MulMonotone(j / n - i / n, 0, n);
      } else {
        MulMonotone(1, j / n - i / n, n);
      }
    }
  }

  lemma Push<T>(slots: seq<T>, history: seq<T>, x: T)
    requires Holds(slots, history)
    ensures Holds(slots[|history| % |slots| := x], history + [x])
  {
    var n, h := |slots|, history + [x];
    forall i | 0 <= i < |h| && |h| <= i + n
      ensures slots[|history| % n := x][i % n] == h[i]
    {
      if i < |history| {
        NearbySlotsDiffer(i, |history|, n);
        assert slots[i % n] == history[i];
      }
    }
  }

  /** Counting from the oldest entry: once `total` entries filled the ring, the oldest is at `total % n`. */
  lemma FromOldest(total: nat, n: nat, i: nat)
    requires 0 < n <= total && i < n
    ensures (total % n + i) % n == (total - n + i) % n
  {
    ShiftDiv(total % n + i, total / n - 1, n);
    assert total - n + i == total % n + i + (total / n - 1) * n by {
      assert (total / n - 1) * n == total / n * n - n;
    }
  }
}
