/** Fixed-width big-endian numbers, as encoding/binary writes and reads them. */
module BigEndian {
  import opened Common

  function Pow256(w: nat): (p: nat)
    ensures p > 0
  {
    if w == 0 then 1 else 256 * Pow256(w - 1)
  }

  /** The low w bytes of x, most significant first: converting to a narrower type drops the high bits. */
  function Put(w: nat, x: nat): (b: Bytes)
    ensures |b| == w
  {
    if w == 0 then [] else Put(w - 1, x / 256) + [x % 256]
  }

  function Get(b: Bytes): nat {
    if b == [] then 0 else 256 * Get(b[..|b| - 1]) + b[|b| - 1]
  }

  lemma Widths()
    ensures Pow256(4) == TWO_TO_THE_32 && Pow256(8) == TWO_TO_THE_64
  {
    assert Pow256(2) == 65536;
    assert Pow256(3) == 16777216;
    assert Pow256(4) == 256 * Pow256(3);
    assert Pow256(5) == 256 * Pow256(4);
    assert Pow256(6) == 256 * Pow256(5);
    assert Pow256(7) == 256 * Pow256(6);
    assert Pow256(8) == 256 * Pow256(7);
  }

  lemma RemainderIs(x: nat, m: nat, k: nat, y: nat)
    requires m > 0 && y < m && x == m * k + y
    ensures x % m == y
  {
    var q := x / m;
    assert x == m * q + x % m;
    assert m * (k - q) == m * k - m * q && m * (q - k) == m * q - m * k;
    if k > q {
      MulGrows(m, k - q);
    } else if k < q {
      MulGrows(m, q - k);
    }
  }

  lemma MulGrows(m: nat, k: nat)
    requires k >= 1
    ensures m * k >= m
  {
    assert m * k == m + m * (k - 1);
  }

  lemma AppendDigit(q: nat, r: nat, P: nat)
    requires P > 0 && r < 256
    ensures (256 * q + r) % (256 * P) == 256 * (q % P) + r
  {
    var k, s := q / P, q % P;
    assert q == P * k + s;
    assert 256 * (P * k) == (256 * P) * k;
    RemainderIs(256 * q + r, 256 * P, k, 256 * s + r);
  }

  /** Reading back what was written gives the number modulo the width. */
  lemma {:induction false} GetPut(w: nat, x: nat)
    ensures Get(Put(w, x)) == x % Pow256(w)
  {
    if w > 0 {
      GetPut(w - 1, x / 256);
      assert (Put(w - 1, x / 256) + [x % 256])[..w - 1] == Put(w - 1, x / 256);
      AppendDigit(x / 256, x % 256, Pow256(w - 1));
    }
  }

  lemma GetPutExact(w: nat, x: nat)
    requires x < Pow256(w)
    ensures Get(Put(w, x)) == x
  {
    GetPut(w, x);
    RemainderIs(x, Pow256(w), 0, x);
  }

  lemma {:induction false} GetBound(b: Bytes)
    ensures Get(b) < Pow256(|b|)
  {
    if b != [] {
      GetBound(b[..|b| - 1]);
    }
  }

  /** Writing back what was read gives the same bytes. */
  lemma {:induction false} PutGet(b: Bytes)
    ensures Put(|b|, Get(b)) == b
  {
    if b != [] {
      var init, last := b[..|b| - 1], b[|b| - 1];
      PutGet(init);
      assert Get(b) / 256 == Get(init) && Get(b) % 256 == last;
      assert b == init + [last];
    }
  }

  lemma {:induction false} GetConcat(a: Bytes, b: Bytes)
    ensures Get(a + b) == Get(a) * Pow256(|b|) + Get(b)
  {
    if b == [] {
      assert a + b == a;
    } else {
      var init := b[..|b| - 1];
      assert (a + b)[..|a + b| - 1] == a + init;
      GetConcat(a, init);
      assert 256 * (Get(a) * Pow256(|init|)) == Get(a) * Pow256(|b|);
    }
  }
}
