/** The payload generator: `make_buffer` fills a string of the requested size
    by cycling over the character array `symbols`.  The array is initialised
    from the literal "123456789_", so it has eleven elements, the last being
    the terminating NUL, and the loop runs up to `std::end(symbols)`: the
    cycle that is really emitted is '1'..'9', '_', '\0'. */
module Payload {

  /** Every element of `char symbols[] = "123456789_"`, terminator included. */
  const Symbols: string := "123456789_\0"

  /** The buffer of length `n`, built one character at a time (the reference
      definition used by the loop in `MakeBuffer`). */
  function Cycle(n: nat): (r: string)
    ensures |r| == n
    ensures forall i :: 0 <= i < n ==> r[i] == Symbols[i % |Symbols|]
  {
    if n == 0 then [] else Cycle(n - 1) + [Symbols[(n - 1) % |Symbols|]]
  }

  /** `q` copies of `s`, one after the other. */
  function Repeat(s: string, q: nat): (r: string)
    ensures |r| == q * |s|
  {
    if q == 0 then [] else Repeat(s, q - 1) + s
  }

  /** A shorter buffer is a prefix of a longer one. */
  lemma CyclePrefix(m: nat, n: nat)
    requires m <= n
    ensures Cycle(m) == Cycle(n)[..m]
  {
  }

  /** The closed form of the contract pins the buffer down: any string of
      length `n` that follows the symbol cycle is `Cycle(n)`. */
  lemma CycleUnique(s: string)
    requires forall i :: 0 <= i < |s| ==> s[i] == Symbols[i % |Symbols|]
    ensures s == Cycle(|s|)
  {
  }

  /** The buffer is the whole symbol array repeated `n / 11` times, then
      truncated: followed by the first `n % 11` symbols. */
  lemma {:induction false} CycleIsRepetition(n: nat)
    ensures Cycle(n) == Repeat(Symbols, n / |Symbols|) + Symbols[..n % |Symbols|]
  {
    var q, k := n / |Symbols|, n % |Symbols|;
    var r := Repeat(Symbols, q) + Symbols[..k];
    assert |r| == n;
    forall i | 0 <= i < n
      ensures r[i] == Symbols[i % |Symbols|]
    {
      RepeatAt(q, i);
    }
    CycleUnique(r);
  }

  lemma {:induction false} RepeatAt(q: nat, i: nat)
    ensures i < q * |Symbols| ==> Repeat(Symbols, q)[i] == Symbols[i % |Symbols|]
    ensures q * |Symbols| <= i < q * |Symbols| + |Symbols| ==>
              i % |Symbols| == i - q * |Symbols|
  {
    if q > 0 {
      RepeatAt(q - 1, i);
    }
  }

  /** The NUL terminator is emitted: every buffer of eleven characters or
      more carries it at each position 10, 21, 32, ... */
  lemma BufferCarriesNul(n: nat, j: nat)
    requires 11 * j + 10 < n
    ensures Cycle(n)[11 * j + 10] == '\0'
  {
  }

  /** Within one pass of the inner loop, the next character to append is the
      symbol the loop index points at. */
  lemma NextSymbol(start: nat, i: nat)
    requires start % |Symbols| == 0 && i < |Symbols|
    ensures Cycle(start + i + 1) == Cycle(start + i) + [Symbols[i]]
  {
    assert (start + i) % |Symbols| == i;
  }

  /** A full pass over the symbol array ends on a multiple of its length. */
  lemma PassEnd(start: nat)
    requires start % |Symbols| == 0
    ensures (start + |Symbols|) % |Symbols| == 0
  {
  }

  /** `make_buffer`: an outer loop that keeps going until the buffer has the
      requested size, and an inner loop over the symbol array that stops at
      its end or as soon as the size is reached. */
  method MakeBuffer(size: nat) returns (buffer: string)
    ensures buffer == Cycle(size)
  {
    buffer := [];
    while |buffer| != size
      invariant |buffer| <= size
      invariant |buffer| % |Symbols| == 0 || |buffer| == size
      invariant buffer == Cycle(|buffer|)
      decreases size - |buffer|
    {
      ghost var start := |buffer|;
      var i := 0;
      while i != |Symbols| && |buffer| != size
        invariant 0 <= i <= |Symbols|
        invariant start % |Symbols| == 0
        invariant |buffer| == start + i <= size
        invariant buffer == Cycle(|buffer|)
        decreases |Symbols| - i
      {
        NextSymbol(start, i);
        buffer := buffer + [Symbols[i]];
        i := i + 1;
      }
      PassEnd(start);
    }
  }
}
