/** Byte order and word order of a register value, decoded from the usual
    Modbus letter codes (AB, ABCD, BA, CDAB, BADC). */
module Endianness {
  import opened Wrappers

  datatype Endian = Big | Little

  /** The pair a MemoryOrder holds: order of bytes within a 16-bit word, and
      order of words within a multi-word value. */
  datatype Order = Order(byteOrder: Endian, wordOrder: Endian)

  /** A MemoryOrder object; `order()` is the field `order`, fixed at construction. */
  datatype MemoryOrder = MemoryOrder(order: Order)

  /** Swap the two elements of each consecutive pair (bytes within each word). */
  function SwapPairs<T>(xs: seq<T>): (ys: seq<T>)
    requires |xs| % 2 == 0
    ensures |ys| == |xs|
  {
    if |xs| == 0 then [] else [xs[1], xs[0]] + SwapPairs(xs[2..])
  }

  /** Reverse the order of the consecutive pairs (words within the value). */
  function ReversePairs<T>(xs: seq<T>): (ys: seq<T>)
    requires |xs| % 2 == 0
    ensures |ys| == |xs|
  {
    if |xs| == 0 then [] else ReversePairs(xs[2..]) + xs[..2]
  }

  /** Lay out big-endian bytes `xs` (an even number of them) in memory order `o`:
      words are reversed when the word order is Little, and the two bytes of
      every word are swapped when the byte order is Little. */
  function Arrange<T>(o: Order, xs: seq<T>): (ys: seq<T>)
    requires |xs| % 2 == 0
    ensures |ys| == |xs|
  {
    var w := if o.wordOrder == Little then ReversePairs(xs) else xs;
    if o.byteOrder == Little then SwapPairs(w) else w
  }

  /** The letter codes the decoder recognises. */
  predicate Named(code: string) {
    code == "AB" || code == "ABCD" || code == "BA" || code == "CDAB" || code == "BADC"
  }

  /** The letters a code is spelled from: the value's bytes, most significant first. */
  const Letters: string := "ABCD"

  /** `_str_to_endian`: the order a code names, (Big, Big) for `None` and for any other string. */
  function StrToEndian(code: Option<string>): (o: Order)
    ensures !(code.Some? && Named(code.value)) ==> o == Order(Big, Big)
  {
    match code
    case None => Order(Big, Big)
    case Some(c) =>
      if c == "AB" then Order(Big, Big)
      else if c == "BA" then Order(Little, Little)
      else if c == "CDAB" then Order(Big, Little)
      else if c == "BADC" then Order(Little, Big)
      else Order(Big, Big)
  }

  /** `MemoryOrder(code)`: construction never fails; a recognised code is
      laid out as it is spelled, and anything else gives big-endian bytes and
      words. */
  function New(code: Option<string>): (m: MemoryOrder)
    ensures code.Some? && Named(code.value) ==> Arrange(m.order, Letters[..|code.value|]) == code.value
    ensures !(code.Some? && Named(code.value)) ==> m.order == Order(Big, Big)
  {
    if code.Some? && Named(code.value) then
      CodeSpellsLayout(code.value);
      MemoryOrder(StrToEndian(code))
    else MemoryOrder(StrToEndian(code))
  }

  /** The canonical code of an order: AB, BA, CDAB or BADC. */
  function CodeOf(o: Order): (c: string)
    ensures Named(c)
  {
    match o
    case Order(Big, Big) => "AB"
    case Order(Little, Little) => "BA"
    case Order(Big, Little) => "CDAB"
    case Order(Little, Big) => "BADC"
  }

  /** Every order is named by its canonical code, so the four codes AB, BA, CDAB
      and BADC decode to four pairwise different orders. */
  lemma CodeRoundTrip(o: Order)
    ensures StrToEndian(Some(CodeOf(o))) == o
  {
  }

  /** The table: AB and ABCD keep both orders Big, BA makes both Little, CDAB
      swaps words only, BADC swaps bytes only. */
  lemma NamedCodes()
    ensures StrToEndian(Some("AB")) == Order(Big, Big)
    ensures StrToEndian(Some("ABCD")) == Order(Big, Big)
    ensures StrToEndian(Some("BA")) == Order(Little, Little)
    ensures StrToEndian(Some("CDAB")) == Order(Big, Little)
    ensures StrToEndian(Some("BADC")) == Order(Little, Big)
  {
  }

  /** Each recognised code spells the layout it names: laying out the bytes
      A, B (, C, D) of a value, most significant first, gives the code's letters. */
  lemma {:induction false} CodeSpellsLayout(c: string)
    requires Named(c)
    ensures Arrange(StrToEndian(Some(c)), Letters[..|c|]) == c
  {
    assert ReversePairs("AB") == "AB" by { assert ReversePairs("AB"[2..]) == []; }
    assert ReversePairs("CD") == "CD" by { assert ReversePairs("CD"[2..]) == []; }
    assert ReversePairs(Letters) == "CDAB" by {
      assert Letters[2..] == "CD";
      assert ReversePairs(Letters) == ReversePairs("CD") + Letters[..2];
    }
    assert SwapPairs("CD") == "DC" by { assert SwapPairs("CD"[2..]) == []; }
    assert SwapPairs(Letters) == "BADC" by {
      assert Letters[2..] == "CD";
      assert SwapPairs(Letters) == ['B', 'A'] + SwapPairs("CD");
    }
    assert SwapPairs("AB") == "BA" by { assert SwapPairs("AB"[2..]) == []; }
    assert Letters[..2] == "AB";
    assert Letters[..4] == Letters;
  }

  /** ABCD, `None` and unrecognised codes such as FOO all give the default (Big, Big). */
  lemma DefaultOrder(code: Option<string>)
    requires code.None? || code == Some("ABCD") || code == Some("FOO") || code == Some("")
    ensures StrToEndian(code) == Order(Big, Big)
  {
  }

  /** A 32-bit value under each order: "BA" reverses all four bytes (DCBA), and the
      four orders give four different layouts. */
  lemma FourByteLayouts()
    ensures Arrange(StrToEndian(Some("ABCD")), Letters) == "ABCD"
    ensures Arrange(StrToEndian(Some("CDAB")), Letters) == "CDAB"
    ensures Arrange(StrToEndian(Some("BADC")), Letters) == "BADC"
    ensures Arrange(StrToEndian(Some("BA")), Letters) == "DCBA"
  {
  }

  /** Swapping bytes twice restores the original layout. */
  lemma {:induction false} SwapPairsInvolutive<T>(xs: seq<T>)
    requires |xs| % 2 == 0
    ensures SwapPairs(SwapPairs(xs)) == xs
  {
    if |xs| > 0 {
      SwapPairsInvolutive(xs[2..]);
      assert SwapPairs(xs)[2..] == SwapPairs(xs[2..]);
    }
  }

  /** Reversing the words of a concatenation reverses and swaps its halves. */
  lemma {:induction false} ReversePairsAppend<T>(a: seq<T>, b: seq<T>)
    requires |a| % 2 == 0 && |b| % 2 == 0
    ensures ReversePairs(a + b) == ReversePairs(b) + ReversePairs(a)
    decreases |a|
  {
    if |a| == 0 {
      assert a + b == b;
    } else {
      assert (a + b)[2..] == a[2..] + b;
      assert (a + b)[..2] == a[..2];
      ReversePairsAppend(a[2..], b);
    }
  }

  /** Reversing words twice restores the original layout. */
  lemma {:induction false} ReversePairsInvolutive<T>(xs: seq<T>)
    requires |xs| % 2 == 0
    ensures ReversePairs(ReversePairs(xs)) == xs
    decreases |xs|
  {
    if |xs| > 0 {
      var p, rest := xs[..2], xs[2..];
      ReversePairsInvolutive(rest);
      ReversePairsAppend(ReversePairs(rest), p);
      assert ReversePairs(p) == p by { assert p[2..] == []; }
      assert p + rest == xs;
    }
  }

  /** The inverse layout: undo the byte swap, then the word reversal. */
  function Unarrange<T>(o: Order, ys: seq<T>): (xs: seq<T>)
    requires |ys| % 2 == 0
    ensures |xs| == |ys|
    ensures Arrange(o, xs) == ys
  {
    var w := if o.byteOrder == Little then SwapPairs(ys) else ys;
    var r := if o.wordOrder == Little then ReversePairs(w) else w;
    SwapPairsInvolutive(ys);
    ReversePairsInvolutive(w);
    r
  }

  /** Undoing a layout recovers the bytes that were laid out. */
  lemma ArrangeRoundTrip<T>(o: Order, xs: seq<T>)
    requires |xs| % 2 == 0
    ensures Unarrange(o, Arrange(o, xs)) == xs
  {
    var w := if o.wordOrder == Little then ReversePairs(xs) else xs;
    SwapPairsInvolutive(w);
    ReversePairsInvolutive(xs);
  }
}
