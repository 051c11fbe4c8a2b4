/** Where a faulting page's bytes come from: address arithmetic, the local file and the chunk cache. */
module PageServer {
  import opened Common
  import opened Alignment

  datatype Region = Region(base: nat, size: nat, offset: nat)

  /** One handler: its regions, its page size, and the chunk size of the remote path. */
  datatype Config = Config(regions: seq<Region>, page: nat, chunk: nat)

  predicate Contains(r: Region, a: nat) {
    r.base <= a < r.base + r.size
  }

  /** File offset of a page address: the first region that contains it decides. */
  function Locate(regions: seq<Region>, dst: nat): Option<nat> {
    if regions == [] then None
    else if Contains(regions[0], dst) then Some(regions[0].offset + (dst - regions[0].base))
    else Locate(regions[1..], dst)
  }

  /** The search loop of `file_offset_for_addr` and `serve_pf`; None stands for their panic. */
  method FileOffsetForAddr(cfg: Config, addr: nat) returns (dst: nat, offset: Option<nat>)
    requires cfg.page > 0
    ensures dst == RoundDown(addr, cfg.page)
    ensures offset == Locate(cfg.regions, dst)
    ensures offset.None? <==> forall i :: 0 <= i < |cfg.regions| ==> !Contains(cfg.regions[i], dst)
    ensures offset.Some? ==>
              exists i :: 0 <= i < |cfg.regions| && Contains(cfg.regions[i], dst)
                          && offset.value == cfg.regions[i].offset + (dst - cfg.regions[i].base)
                          && forall j :: 0 <= j < i ==> !Contains(cfg.regions[j], dst)
  {
    dst := RoundDown(addr, cfg.page);
    assert cfg.regions[0..] == cfg.regions;
    for i := 0 to |cfg.regions|
      invariant forall j :: 0 <= j < i ==> !Contains(cfg.regions[j], dst)
      invariant Locate(cfg.regions, dst) == Locate(cfg.regions[i..], dst)
    {
      assert cfg.regions[i..][0] == cfg.regions[i] && cfg.regions[i..][1..] == cfg.regions[i + 1..];
      if Contains(cfg.regions[i], dst) {
        return dst, Some(cfg.regions[i].offset + (dst - cfg.regions[i].base));
      }
    }
    return dst, None;
  }

  /** End of the last region in the file. */
  function RemoteSize(regions: seq<Region>): nat {
    if regions == [] then 0 else
      var rest := RemoteSize(regions[1..]);
      var end := regions[0].offset + regions[0].size;
      if end < rest then rest else end
  }

  predicate RegionAligned(r: Region, page: nat)
    requires page > 0
  {
    Multiple(r.base, page) && Multiple(r.size, page) && Multiple(r.offset, page)
  }

  /** Regions are page aligned and lie inside the backing bytes. */
  predicate Mapped(cfg: Config, blob: seq<byte>) {
    cfg.page > 0 && RemoteSize(cfg.regions) <= |blob|
    && forall r :: r in cfg.regions ==> RegionAligned(r, cfg.page)
  }

  lemma {:induction false} LocateInFile(regions: seq<Region>, page: nat, dst: nat)
    requires page > 0 && Multiple(dst, page) && forall r :: r in regions ==> RegionAligned(r, page)
    ensures var off := Locate(regions, dst);
      off.Some? ==> Multiple(off.value, page) && off.value + page <= RemoteSize(regions)
  {
    if regions != [] {
      LocateInFile(regions[1..], page, dst);
      var r := regions[0];
      if Contains(r, dst) {
        assert RegionAligned(r, page);
        SumOfMultiples(r.base, r.size, page);
        NextMultiple(dst, r.base + r.size, page);
        DifferenceOfMultiples(r.base, dst, page);
        SumOfMultiples(r.offset, dst - r.base, page);
      }
    }
  }

  /** What `serve_pf` copies from a local file: the page at its file offset. */
  function LocalPage(cfg: Config, blob: seq<byte>, off: nat): seq<byte>
    requires off + cfg.page <= |blob|
  {
    blob[off..off + cfg.page]
  }

  /** Length of the chunk at `base` of a remote blob of `size` bytes. */
  function ChunkLength(size: nat, chunk: nat, base: nat): nat
    requires base <= size
  {
    if size - base < chunk then size - base else chunk
  }

  /** The page size divides the chunk size: the chunk holding a page's first byte holds all of it. */
  lemma PageInChunk(size: nat, chunk: nat, page: nat, off: nat)
    requires page > 0 && chunk > 0 && Multiple(chunk, page)
    requires Multiple(off, page) && off + page <= size
    ensures var base := RoundDown(off, chunk);
      off - base + page <= ChunkLength(size, chunk, base)
  {
    var base := RoundDown(off, chunk);
    MultipleOfMultiple(base, chunk, page);
    DifferenceOfMultiples(base, off, page);
    NextMultiple(off - base, chunk, page);
  }

  /** For the powers of two the handler accepts, a served page fits in its chunk exactly when the
      page size does not exceed the chunk size; otherwise the slice is out of range. */
  lemma SliceInRangeIff(size: nat, chunk: nat, page: nat, off: nat, pageBits: nat, chunkBits: nat)
    requires page == Pow2(pageBits) && chunk == Pow2(chunkBits)
    requires Multiple(off, page) && off + page <= size
    ensures var base := RoundDown(off, chunk);
      off - base + page <= ChunkLength(size, chunk, base) <==> page <= chunk
  {
    if pageBits <= chunkBits {
      Pow2Divides(pageBits, chunkBits);
      PageInChunk(size, chunk, page, off);
    } else {
      Pow2Divides(chunkBits, pageBits);
    }
  }

  // ---------------------------------------------------------------- the remote path

  /** Every cached chunk is the blob's own slice. */
  ghost predicate CacheOk(size: nat, chunk: nat, blob: seq<byte>, cache: map<nat, seq<byte>>) {
    forall base :: base in cache ==>
      base <= size <= |blob| && cache[base] == blob[base..base + ChunkLength(size, chunk, base)]
  }

  lemma CacheGrows(size: nat, chunk: nat, blob: seq<byte>, cache: map<nat, seq<byte>>, base: nat)
    requires CacheOk(size, chunk, blob, cache) && base <= size <= |blob|
    ensures CacheOk(size, chunk, blob, cache[base := blob[base..base + ChunkLength(size, chunk, base)]])
  {
  }

  /** A page inside a chunk is the page of the blob at the same place. */
  lemma CutPage(blob: seq<byte>, base: nat, bytes: seq<byte>, off: nat, page: nat)
    requires base <= off && off - base + page <= |bytes| && base + |bytes| <= |blob|
    requires bytes == blob[base..base + |bytes|]
    ensures bytes[off - base..off - base + page] == blob[off..off + page]
  {
    SliceOfSlice(blob, base, base + |bytes|, off - base, off - base + page);
  }

  /** `serve_remote_pf` up to the copy: look the chunk up, fetch it on a miss, cut the page out.
      The upstream answers a fetch with the blob's bytes. */
  class ChunkCache {
    const page: nat
    const chunk: nat
    const size: nat
    const blob: seq<byte>
    var cache: map<nat, seq<byte>>
    var fetches: nat

    /** Every chunk in the cache was fetched once, and nothing else was. */
    ghost predicate FetchedOnce()
      reads this
    {
      fetches == |cache|
    }

    ghost predicate Valid()
      reads this
    {
      && page > 0 && chunk > 0 && Multiple(chunk, page) && size <= |blob|
      && CacheOk(size, chunk, blob, cache)
    }

    constructor (page: nat, chunk: nat, size: nat, blob: seq<byte>)
      requires page > 0 && chunk > 0 && Multiple(chunk, page) && size <= |blob|
      ensures Valid() && FetchedOnce() && cache == map[]
      ensures this.page == page && this.chunk == chunk && this.size == size && this.blob == blob
    {
      this.page, this.chunk, this.size, this.blob := page, chunk, size, blob;
      cache, fetches := map[], 0;
    }

    method FetchRange(offset: nat, len: nat) returns (data: seq<byte>)
      requires offset + len <= |blob|
      modifies this`fetches
      ensures data == blob[offset..offset + len] && fetches == old(fetches) + 1
    {
      data := blob[offset..offset + len];
      fetches := fetches + 1;
    }

    method Chunk(base: nat) returns (data: seq<byte>)
      requires Valid() && base <= size
      modifies this
      ensures Valid() && data == blob[base..base + ChunkLength(size, chunk, base)]
      ensures cache == old(cache)[base := data]
      ensures fetches == old(fetches) + if base in old(cache) then 0 else 1
      ensures old(FetchedOnce()) ==> FetchedOnce()
    {
      if base !in cache {
        MapGrows(cache, base, blob[base..base + ChunkLength(size, chunk, base)]);
        var fetched := FetchRange(base, ChunkLength(size, chunk, base));
        CacheGrows(size, chunk, blob, cache, base);
        cache := cache[base := fetched];
      }
      data := cache[base];
    }

    /** The remote page is the local page, whatever the cache holds. */
    method Page(off: nat) returns (data: seq<byte>)
      requires Valid() && Multiple(off, page) && off + page <= size
      modifies this
      ensures Valid() && data == blob[off..off + page]
      ensures cache.Keys == old(cache).Keys + {RoundDown(off, chunk)}
      ensures old(FetchedOnce()) ==> FetchedOnce()
    {
      PageInChunk(size, chunk, page, off);
      data := Cut(RoundDown(off, chunk), off);
    }

    /** The page at `off`, out of the chunk at `base` that holds it. */
    method Cut(base: nat, off: nat) returns (data: seq<byte>)
      requires Valid() && base <= off && base <= size && off - base + page <= ChunkLength(size, chunk, base)
      modifies this
      ensures Valid() && off + page <= |blob| && data == blob[off..off + page]
      ensures cache.Keys == old(cache).Keys + {base}
      ensures old(FetchedOnce()) ==> FetchedOnce()
    {
      var bytes := Chunk(base);
      CutPage(blob, base, bytes, off, page);
      data := bytes[off - base..off - base + page];
    }
  }
}
