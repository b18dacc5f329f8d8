/** The shared image cache (src/types/cache.rs): textures by URL. A texture is only its size here;
    loading and decoding are outcomes passed in by the caller. */
module ImageCaches {
  import opened Wrappers
  import opened Collections

  /** A decoded texture, by its pixel size. */
  datatype Texture = Texture(width: nat, height: nat)

  /** Four bytes per pixel. */
  function TextureBytes(t: Texture): nat {
    t.width * t.height * 4
  }

  /** The approximate memory the textures of `m` take. */
  ghost function Usage(m: map<string, Texture>): nat {
    SumValues(m, TextureBytes)
  }

  /** Storing `t` under `url` replaces what was there in the total. */
  lemma UsageAfterInsert(m: map<string, Texture>, url: string, t: Texture)
    ensures Usage(m[url := t]) == Usage(m) - (if url in m then TextureBytes(m[url]) else 0) + TextureBytes(t)
  {
    SumUpdate(m, url, t, TextureBytes);
  }

  /** Dropping `url` takes its texture out of the total. */
  lemma UsageAfterRemove(m: map<string, Texture>, url: string)
    ensures Usage(m - {url}) == Usage(m) - (if url in m then TextureBytes(m[url]) else 0)
  {
    if url in m {
      SumRemove(m, url, TextureBytes);
    } else {
      assert m - {url} == m;
    }
  }

  const MEGABYTE: nat := 1024 * 1024

  class ImageCache {
    var entries: map<string, Texture>

    /** `new`: empty. */
    constructor ()
      ensures entries == map[]
    {
      entries := map[];
    }

    /** `get`. */
    function Get(url: string): (r: Option<Texture>)
      reads this
      ensures r.Some? <==> url in entries
      ensures r.Some? ==> r.value == entries[url]
    {
      if url in entries then Some(entries[url]) else None
    }

    /** `contains`. */
    function Contains(url: string): (b: bool)
      reads this
      ensures b <==> Get(url).Some?
    {
      url in entries
    }

    /** `len`. */
    function Len(): (n: nat)
      reads this
      ensures n == |entries|
      ensures n == 0 <==> entries == map[]
    {
      |entries|
    }

    /** `is_empty`. */
    function IsEmpty(): (b: bool)
      reads this
      ensures b <==> Len() == 0
    {
      entries == map[]
    }

    /** `insert`: `url` then reads back as `texture`, replacing any earlier entry; no other URL
        changes. */
    method Insert(url: string, texture: Texture)
      modifies this
      ensures entries == old(entries)[url := texture]
      ensures Get(url) == Some(texture)
      ensures forall u :: u != url ==> Get(u) == old(Get(u))
    {
      entries := entries[url := texture];
    }

    /** `remove`: returns what `url` held, which is then gone; no other URL changes. */
    method Remove(url: string) returns (r: Option<Texture>)
      modifies this
      ensures r == old(Get(url))
      ensures entries == old(entries) - {url}
      ensures !Contains(url)
      ensures forall u :: u != url ==> Get(u) == old(Get(u))
    {
      r := Get(url);
      entries := entries - {url};
    }

    /** `clear`. */
    method Clear()
      modifies this
      ensures entries == map[] && Len() == 0 && IsEmpty()
    {
      entries := map[];
    }

    /** `urls`: every cached URL once, in the map's own order, which is left open here. */
    method Urls() returns (urls: seq<string>)
      ensures |urls| == Len()
      ensures forall u :: u in urls <==> u in entries
      ensures forall i, j :: 0 <= i < j < |urls| ==> urls[i] != urls[j]
    {
      urls := [];
      var rest := entries.Keys;
      while rest != {}
        invariant rest !! (set u | u in urls)
        invariant forall u :: u in entries <==> u in rest || u in urls
        invariant forall i, j :: 0 <= i < j < |urls| ==> urls[i] != urls[j]
        invariant |urls| + |rest| == |entries|
        decreases |rest|
      {
        var u :| u in rest;
        urls := urls + [u];
        rest := rest - {u};
      }
    }

    /** `memory_usage`: the sum over the cached textures of four bytes per pixel. */
    method MemoryUsage() returns (total: nat)
      ensures total == Usage(entries)
    {
      total := 0;
      var rest := entries;
      while rest != map[]
        invariant total + Usage(rest) == Usage(entries)
        decreases |rest|
      {
        var u :| u in rest;
        SumRemove(rest, u, TextureBytes);
        total := total + TextureBytes(rest[u]);
        rest := rest - {u};
      }
    }

    /** `prune`: everything goes when the textures take more than `maxMemoryMb` megabytes, and
        nothing changes otherwise. */
    method Prune(maxMemoryMb: nat)
      modifies this
      ensures old(Usage(entries)) > maxMemoryMb * MEGABYTE ==> entries == map[]
      ensures old(Usage(entries)) <= maxMemoryMb * MEGABYTE ==> entries == old(entries)
    {
      var current := MemoryUsage();
      if current > maxMemoryMb * MEGABYTE {
        Clear();
      }
    }

    /** `get_or_load`: a hit returns the cached texture without calling the loader; a miss calls it
        once, and caches what it loads or returns its error with the cache unchanged. `load` is what
        the loader would produce for `url`, and `called` whether it was called. */
    method GetOrLoad(url: string, load: Result<Texture, string>) returns (r: Result<Texture, string>, called: bool)
      modifies this
      ensures called <==> old(url !in entries)
      ensures !called ==> r == Ok(old(entries)[url]) && entries == old(entries)
      ensures called ==> r == load
      ensures called && load.Ok? ==> entries == old(entries)[url := load.value]
      ensures called && load.Err? ==> entries == old(entries)
    {
      var cached := Get(url);
      if cached.Some? {
        return Ok(cached.value), false;
      }
      called := true;
      if load.Err? {
        return load, called;
      }
      Insert(url, load.value);
      r := load;
    }

    /** `insert_from_bytes`: caches the texture when the bytes decode, and changes nothing when they
        do not; `decoded` is what decoding the bytes gives. */
    method InsertFromBytes(url: string, decoded: Result<Texture, string>) returns (r: Result<Texture, string>)
      modifies this
      ensures r == decoded
      ensures decoded.Ok? ==> entries == old(entries)[url := decoded.value]
      ensures decoded.Err? ==> entries == old(entries)
    {
      if decoded.Ok? {
        Insert(url, decoded.value);
      }
      r := decoded;
    }
  }
}
