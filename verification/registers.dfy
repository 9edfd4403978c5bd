/** Bytes, 16-bit holding-register words, and the big-endian conversions
    between numbers, bytes and words that register payloads are built from. */
module Registers {

  type Byte = b: int | 0 <= b < 0x100
  type Word = w: int | 0 <= w < 0x1_0000

  /** 256 to the power n: the number of values n bytes can hold. */
  function Pow256(n: nat): (p: nat)
    ensures p >= 1
  {
    if n == 0 then 1 else 256 * Pow256(n - 1)
  }

  /** The number big-endian bytes `bs` denote. */
  function BytesToNat(bs: seq<Byte>): (v: nat)
    ensures v < Pow256(|bs|)
  {
    if |bs| == 0 then 0
    else
      var hi := BytesToNat(bs[..|bs| - 1]);
      assert hi <= Pow256(|bs| - 1) - 1;
      assert hi * 256 <= Pow256(|bs|) - 256;
      hi * 256 + bs[|bs| - 1]
  }

  /** The n big-endian bytes of v, most significant first. */
  function NatToBytes(v: nat, n: nat): (bs: seq<Byte>)
    requires v < Pow256(n)
    ensures |bs| == n
  {
    if n == 0 then [] else NatToBytes(v / 256, n - 1) + [v % 256]
  }

  /** Reading the bytes of v back gives v. */
  lemma {:induction false} BytesRoundTrip(v: nat, n: nat)
    requires v < Pow256(n)
    ensures BytesToNat(NatToBytes(v, n)) == v
  {
    if n > 0 {
      var bs := NatToBytes(v, n);
      BytesRoundTrip(v / 256, n - 1);
      assert bs[..|bs| - 1] == NatToBytes(v / 256, n - 1);
    }
  }

  /** Group bytes in pairs and read each pair as a big-endian word
      (what `to_registers` does with the packed buffer). */
  function PairUp(bs: seq<Byte>): (ws: seq<Word>)
    requires |bs| % 2 == 0
    ensures |ws| == |bs| / 2
    ensures Split(ws) == bs
  {
    if |bs| == 0 then []
    else
      var w: int := bs[0] as int * 256 + bs[1] as int;
      assert w / 256 == bs[0] && w % 256 == bs[1];
      [w as Word] + PairUp(bs[2..])
  }

  /** The two bytes of every word, high byte first. */
  function Split(ws: seq<Word>): (bs: seq<Byte>)
    ensures |bs| == 2 * |ws|
  {
    if |ws| == 0 then [] else [ws[0] / 256, ws[0] % 256] + Split(ws[1..])
  }

  /** Pairing up the bytes of words gives back the words. */
  lemma {:induction false} SplitRoundTrip(ws: seq<Word>)
    ensures PairUp(Split(ws)) == ws
  {
    if |ws| > 0 {
      var bs := Split(ws);
      assert bs[2..] == Split(ws[1..]);
      SplitRoundTrip(ws[1..]);
    }
  }

  /** Pad an odd-length buffer with one zero byte, as `build` does before grouping. */
  function PadEven(bs: seq<Byte>): (ps: seq<Byte>)
    ensures |ps| == |bs| + |bs| % 2
    ensures |ps| % 2 == 0
    ensures ps[..|bs|] == bs
    ensures forall i :: |bs| <= i < |ps| ==> ps[i] == 0
  {
    if |bs| % 2 == 1 then bs + [0] else bs
  }

  /** n zero bytes. */
  function ZeroBytes(n: nat): (bs: seq<Byte>)
    ensures |bs| == n
  {
    if n == 0 then [] else [0] + ZeroBytes(n - 1)
  }

  /** n zero registers. */
  function ZeroWords(n: nat): (ws: seq<Word>)
    ensures |ws| == n
    ensures forall i :: 0 <= i < n ==> ws[i] == 0
  {
    seq(n, _ => 0)
  }

  /** Wider widths hold at least as many values. */
  lemma {:induction false} Pow256Grows(k: nat, n: nat)
    requires k <= n
    ensures Pow256(k) <= Pow256(n)
    decreases n
  {
    if k < n {
      Pow256Grows(k, n - 1);
    }
  }

  /** Zero in any width is all zero bytes. */
  lemma {:induction false} ZeroToBytes(n: nat)
    ensures NatToBytes(0, n) == ZeroBytes(n)
  {
    if n > 0 {
      ZeroToBytes(n - 1);
      ZeroBytesBack(n);
    }
  }

  /** A run of zero bytes ends with a zero byte. */
  lemma {:induction false} ZeroBytesBack(n: nat)
    requires n > 0
    ensures ZeroBytes(n) == ZeroBytes(n - 1) + [0]
  {
    if n > 1 {
      ZeroBytesBack(n - 1);
    }
  }

  /** n big-endian bytes of a number below 256^k start with n - k zero bytes. */
  lemma {:induction false} LeadingZeros(v: nat, k: nat, n: nat)
    requires k <= n
    requires v < Pow256(k)
    ensures v < Pow256(n)
    ensures NatToBytes(v, n) == ZeroBytes(n - k) + NatToBytes(v, k)
    decreases k
  {
    Pow256Grows(k, n);
    if k == 0 {
      ZeroToBytes(n);
    } else {
      var hi, lo := v / 256, v % 256;
      assert hi < Pow256(k - 1);
      LeadingZeros(hi, k - 1, n - 1);
      assert NatToBytes(v, n) == NatToBytes(hi, n - 1) + [lo];
      assert NatToBytes(v, k) == NatToBytes(hi, k - 1) + [lo];
      assert (ZeroBytes(n - k) + NatToBytes(hi, k - 1)) + [lo] == ZeroBytes(n - k) + (NatToBytes(hi, k - 1) + [lo]);
    }
  }

  /** Registers made of zero bytes followed by one pair. */
  lemma {:induction false} PairUpZeros(k: nat, a: Byte, b: Byte)
    ensures PairUp(ZeroBytes(2 * k) + [a, b]) == ZeroWords(k) + [a * 256 + b]
    decreases k
  {
    if k > 0 {
      var bs := ZeroBytes(2 * k) + [a, b];
      assert ZeroBytes(2 * k) == [0, 0] + ZeroBytes(2 * (k - 1)) by {
        assert ZeroBytes(2 * k - 1) == [0] + ZeroBytes(2 * k - 2);
      }
      assert bs[2..] == ZeroBytes(2 * (k - 1)) + [a, b];
      PairUpZeros(k - 1, a, b);
      assert ZeroWords(k) == [0] + ZeroWords(k - 1);
    }
  }
}
