/** Parameter resolution and acceptance in the router: `extract_chunk_size`
    with its multiplier lambda, and the accept/reject rules of the three
    GET handlers. The route parameters arrive already matched and parsed:
    `value` and `count` are `std::size_t` numbers, `multiplier` is the text
    matched by `[MmKkBb]?`. */
module Routes {

  /** 2^64: `std::size_t` arithmetic wraps modulo this. */
  const SIZE_MODULUS: int := 0x1_0000_0000_0000_0000

  type SizeT = n: int | 0 <= n < SIZE_MODULUS

  /** The chunk size and count of `GET /`: `100u*1024u` and `10000u`. */
  const DEFAULT_CHUNK_SIZE: SizeT := 102400
  const DEFAULT_COUNT: SizeT := 10000

  /** The multiplier lambda of `extract_chunk_size`. */
  function Multiplier(sv: string): (m: SizeT)
    ensures m == 1 <==> sv in {"", "B", "b"}
    ensures m == 1024 <==> sv in {"K", "k"}
    ensures m == 1048576 <==> sv !in {"", "B", "b", "K", "k"}
  {
    if sv == [] || sv == "B" || sv == "b" then 1
    else if sv == "K" || sv == "k" then 1024
    else 1024 * 1024
  }

  /** `cast_to<size_t>(value) * multiplier(...)`, a `size_t` product. */
  function ChunkSize(value: SizeT, multiplier: string): (r: SizeT)
    ensures value * Multiplier(multiplier) < SIZE_MODULUS ==> r == value * Multiplier(multiplier)
    ensures value == 0 ==> r == 0
  {
    (value * Multiplier(multiplier)) % SIZE_MODULUS
  }

  /** Without wrap-around the chunk size is zero exactly when the value is. */
  lemma ChunkSizeZero(value: SizeT, multiplier: string)
    requires value * Multiplier(multiplier) < SIZE_MODULUS
    ensures ChunkSize(value, multiplier) == 0 <==> value == 0
  {
  }

  /** The wrap-around of the product is visible: `/17592186044416M` (2^44
      megabytes) resolves to chunk size 0, `/18014398509481985K` (2^54 + 1
      kilobytes) to 1024, and `/35184372088831M` (2^45 - 1 megabytes) to
      2^64 - 2^20, a size that is not zero. */
  lemma ChunkSizeWraps()
    ensures ChunkSize(0x1000_0000_0000, "M") == 0
    ensures ChunkSize(0x40_0000_0000_0001, "K") == 1024
    ensures ChunkSize(0x1FFF_FFFF_FFFF, "M") == SIZE_MODULUS - 0x10_0000
  {
  }

  /** What a handler returns: `request_accepted()` after starting a session
      with these parameters, or `request_rejected()`. */
  datatype Verdict =
    | Accepted(chunkSize: SizeT, count: SizeT)
    | Rejected

  /** The handler of `/`. */
  function HandleRoot(): (v: Verdict)
    ensures v.Accepted? && v.chunkSize > 0 && v.count > 0
    ensures v == Accepted(DEFAULT_CHUNK_SIZE, DEFAULT_COUNT)
  {
    Accepted(100 * 1024, 10000)
  }

  /** The handler of `/:value(\d+):multiplier([MmKkBb]?)`. */
  function HandleSize(value: SizeT, multiplier: string): (v: Verdict)
    ensures v.Accepted? <==> ChunkSize(value, multiplier) != 0
    ensures v.Accepted? ==> v.chunkSize == ChunkSize(value, multiplier) && v.count == DEFAULT_COUNT
  {
    var chunkSize := ChunkSize(value, multiplier);
    if chunkSize != 0 then Accepted(chunkSize, 10000) else Rejected
  }

  /** The handler of `/:value(\d+):multiplier([MmKkBb]?)/:count(\d+)`. */
  function HandleSizeCount(value: SizeT, multiplier: string, count: SizeT): (v: Verdict)
    ensures v.Accepted? <==> ChunkSize(value, multiplier) != 0 && count != 0
    ensures v.Accepted? ==> v.chunkSize == ChunkSize(value, multiplier) && v.count == count
  {
    var chunkSize := ChunkSize(value, multiplier);
    if chunkSize != 0 && count != 0 then Accepted(chunkSize, count) else Rejected
  }

  /** The route that matched, with its parsed parameters. */
  datatype Route =
    | Root
    | Size(value: SizeT, multiplier: string)
    | SizeCount(value: SizeT, multiplier: string, count: SizeT)

  /** The router hands each matched route to its handler. */
  function Dispatch(r: Route): (v: Verdict)
    ensures v.Accepted? ==> v.chunkSize > 0 && v.count > 0
    ensures r.Root? ==> v.Accepted?
    ensures !r.Root? && ChunkSize(r.value, r.multiplier) == 0 ==> v.Rejected?
    ensures r.SizeCount? && r.count == 0 ==> v.Rejected?
  {
    match r
    case Root => HandleRoot()
    case Size(value, multiplier) => HandleSize(value, multiplier)
    case SizeCount(value, multiplier, count) => HandleSizeCount(value, multiplier, count)
  }

  /** The documented sample requests. */
  lemma SampleRequests()
    ensures Dispatch(Size(5, "k")) == Accepted(5120, 10000)
    ensures Dispatch(Size(2, "M")) == Accepted(2097152, 10000)
    ensures Dispatch(Size(10, "")) == Accepted(10, 10000)
    ensures Dispatch(SizeCount(10, "", 3)) == Accepted(10, 3)
    ensures Dispatch(Size(0, "")) == Rejected
    ensures Dispatch(SizeCount(100, "", 0)) == Rejected
  {
  }
}
