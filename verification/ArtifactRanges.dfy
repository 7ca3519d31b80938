/** A seekable reader over a remote blob that fetches and keeps byte ranges. */
module ArtifactRanges {
  import opened Options

  type Byte = bv8
  type Blob = seq<Byte>

  const MAX_MEMBER := 12 * 1024 * 1024
  const TAIL := 128 * 1024
  const STEP := 64 * 1024

  datatype Failure = Capture(message: string) | Http(code: int) | Transport
  datatype Outcome = Done(data: Blob) | Failed(failure: Failure)

  datatype Whence = Start | Current | End

  /** What one request may come back as; `Cut` is a body that ended early. */
  datatype Response =
    | Refused(code: int)
    | Unreachable
    | Answer(status: int, range: Option<ContentRange>, etag: string, body: Body)
  datatype ContentRange = ContentRange(first: nat, last: nat, total: nat)
  datatype Body = Whole(bytes: Blob) | Cut(partial: Blob)

  /** A quoted, non-empty entity tag: RFC 9110's strong form. */
  predicate StrongTag(etag: string) {
    && |etag| >= 3 && etag[0] == '"' && etag[|etag| - 1] == '"'
    && forall i :: 0 < i < |etag| - 1 ==> etag[i] != '"'
  }

  /** What sections 8.8 and 14 of RFC 9110 promise of the server: a strong tag names one sequence of
      bytes, and a complete partial response to a range carries that range of it. */
  predicate Honest(versions: map<string, Blob>, r: Response, lo: int, hi: int, size: int) {
    r.Answer? && r.status == 206 && StrongTag(r.etag) && 0 <= lo < hi <= size && r.range == Some(ContentRange(lo, hi - 1, size)) ==>
      && r.etag in versions && |versions[r.etag]| == size
      && (r.body.Whole? && |r.body.bytes| == hi - lo ==> r.body.bytes == versions[r.etag][lo..hi])
  }

  /** The source's `data[a:b]` for bounds that are not negative. */
  function Slice(data: Blob, a: nat, b: nat): Blob {
    var hi := if b < |data| then b else |data|;
    if a < hi then data[a..hi] else []
  }

  function Total(cache: seq<(int, Blob)>): nat {
    if cache == [] then 0 else Total(cache[..|cache| - 1]) + |cache[|cache| - 1].1|
  }

  /** What to ask for: at least 64 KiB, and the whole tail once the read reaches into it. */
  function RangeFor(size: int, start: int, end: int): (r: (int, int))
    requires end <= size && (start <= end || end == size)
    ensures r.0 <= start && end <= r.1 <= size
    ensures 0 <= start && 0 <= end ==> 0 <= r.0 <= end
  {
    var tail := if size - TAIL > 0 then size - TAIL else 0;
    var lo := if start >= size - TAIL then (if start < tail then start else tail) else start;
    var ahead := if end > lo + STEP then end else lo + STEP;
    (lo, if size < ahead then size else ahead)
  }

  class ArtifactRanges {
    const size: int
    /** The blob's versions by tag: the server's side, never looked into by the reader. */
    const versions: map<string, Blob>

    var pos: int
    var cache: seq<(int, Blob)>
    var etag: Option<string>
    var bytesRequested: int
    var bytesRead: int
    var bytesVerified: int

    /** Everything kept is a range of the one version whose tag was seen first, and is counted once. */
    ghost predicate Valid()
      reads this
    {
      && (forall i :: 0 <= i < |cache| ==> Kept(cache[i].0, cache[i].1))
      && (etag.Some? ==> etag.value in versions && |versions[etag.value]| == size)
      && bytesVerified == Total(cache) && bytesVerified <= bytesRequested <= 2 * MAX_MEMBER
    }

    ghost predicate Kept(offset: int, data: Blob)
      reads this
    {
      && etag.Some? && etag.value in versions
      && 0 <= offset && offset + |data| <= size && offset + |data| <= |versions[etag.value]|
      && data == versions[etag.value][offset..offset + |data|]
    }

    /** What the blob holds between two positions; nothing when they are not in order. */
    ghost function Window(start: int, end: int): Blob
      reads this
      requires start < end ==> etag.Some? && etag.value in versions && 0 <= start && end <= |versions[etag.value]|
    {
      if start < end then versions[etag.value][start..end] else []
    }

    constructor (size: int, versions: map<string, Blob>)
      ensures Valid() && pos == 0 && this.size == size && this.versions == versions && cache == [] && bytesRequested == 0
    {
      this.size, this.versions := size, versions;
      pos, cache, etag := 0, [], None;
      bytesRequested, bytesRead, bytesVerified := 0, 0, 0;
    }

    /** A position outside the blob is reported, but kept. */
    method Seek(offset: int, whence: Whence) returns (ok: bool)
      requires Valid()
      modifies `pos
      ensures Valid() && pos == offset + (match whence case Start => 0 case Current => old(pos) case End => size)
      ensures ok <==> 0 <= pos <= size
    {
      var base := match whence case Start => 0 case Current => pos case End => size;
      pos := base + offset;
      ok := 0 <= pos <= size;
    }

    function EndOf(amount: int): int
      reads this
    {
      if amount < 0 then size else if size < pos + amount then size else pos + amount
    }

    /** Whatever is kept and however often ranges were asked for, a read that succeeds returns exactly
        the pinned version's bytes between the old position and the new one. The position moves
        even when the read fails. */
    method Read(amount: int) returns (r: Outcome)
      requires Valid()
      modifies this
      ensures Valid() && pos == old(EndOf(amount))
      ensures old(etag).Some? ==> etag == old(etag)
      ensures old(cache) <= cache
      ensures r.Done? && old(pos) < pos ==> etag.Some? && etag.value in versions && 0 <= old(pos) && pos <= |versions[etag.value]|
      ensures r.Done? ==> r.data == Window(old(pos), pos)
      ensures r.Done? && old(pos) >= 0 ==> |r.data| == if old(pos) < pos then pos - old(pos) else 0
      ensures old(pos) < 0 && old(pos) != pos ==> r.Failed?
      ensures old(pos == EndOf(amount) || exists i :: 0 <= i < |cache| && Covers(cache[i], pos, EndOf(amount))) ==>
                r.Done? && bytesRequested == old(bytesRequested) && cache == old(cache)
    {
      var start := pos;
      var end := EndOf(amount);
      pos := end;
      if start == end { return Done([]); }
      for i := 0 to |cache|
        invariant forall j :: 0 <= j < i ==> !Covers(cache[j], start, end)
      {
        var (offset, data) := cache[i];
        if offset <= start && end <= offset + |data| {
          assert Kept(offset, data);
          SliceThroughRange(versions[etag.value], offset, data, start, end);
          return Done(Slice(data, start - offset, end - offset));
        }
      }
      r := FetchAndKeep(start, end);
    }

    /** Nothing kept covers the range: fetch a wider one, keep it, and cut the answer out of it. */
    method FetchAndKeep(start: int, end: int) returns (r: Outcome)
      requires Valid() && end <= size && (start <= end || end == size)
      modifies `cache, `etag, `bytesRequested, `bytesRead, `bytesVerified
      ensures Valid() && old(cache) <= cache && (old(etag).Some? ==> etag == old(etag))
      ensures r.Done? ==> 0 <= start && 0 <= end && etag.Some? && etag.value in versions && end <= |versions[etag.value]|
                          && r.data == Slice(versions[etag.value], start, end)
    {
      var (lo, hi) := RangeFor(size, start, end);
      r := RetryTransport(lo, hi);
      if r.Done? {
        SliceThroughRange(versions[etag.value], lo, r.data, start, end);
        Keep(lo, r.data);
        r := Done(Slice(r.data, start - lo, end - lo));
      }
    }

    method Keep(lo: int, data: Blob)
      requires Fetched(lo, lo + |data|, data) && Counted(data) && bytesVerified <= bytesRequested <= 2 * MAX_MEMBER
      modifies `cache
      ensures Valid() && cache == old(cache) + [(lo, data)]
    {
      TotalGrows(cache, (lo, data));
      cache := cache + [(lo, data)];
    }

    /** Up to three attempts; only transport trouble and three gateway errors are worth another. */
    method RetryTransport(lo: int, hi: int) returns (r: Outcome)
      requires Valid() && hi <= size
      modifies `etag, `bytesRequested, `bytesRead, `bytesVerified
      ensures old(etag).Some? ==> etag == old(etag)
      ensures r.Failed? ==> Valid()
      ensures r.Done? ==> Fetched(lo, hi, r.data) && Counted(r.data) && bytesVerified <= bytesRequested <= 2 * MAX_MEMBER
      ensures bytesRequested <= old(bytesRequested) + 3 * (if lo < hi then hi - lo else 0)
    {
      var attempt := 0;
      while true
        invariant 0 <= attempt < 3 && Valid() && (old(etag).Some? ==> etag == old(etag))
        invariant bytesRequested <= old(bytesRequested) + attempt * (if lo < hi then hi - lo else 0)
        decreases 3 - attempt
      {
        r := ReadRange(lo, hi);
        if r.Done? { return; }
        var again := match r.failure
          case Http(code) => code == 502 || code == 503 || code == 504
          case Transport => true
          case Capture(_) => false;
        if !again || attempt == 2 { return; }
        attempt := attempt + 1;
      }
    }

    ghost predicate Fetched(lo: int, hi: int, data: Blob)
      reads this
    {
      && 0 <= lo < hi <= size && hi - lo <= MAX_MEMBER && etag.Some? && etag.value in versions && |versions[etag.value]| == size
      && data == versions[etag.value][lo..hi]
    }

    /** Verified bytes are those kept so far and these. */
    ghost predicate Counted(data: Blob)
      reads this
    {
      && (forall i :: 0 <= i < |cache| ==> Kept(cache[i].0, cache[i].1))
      && bytesVerified == Total(cache) + |data|
    }

    /** One request: budget, range, tag and length are all checked before a byte counts. */
    method ReadRange(lo: int, hi: int) returns (r: Outcome)
      requires Valid() && hi <= size
      modifies `etag, `bytesRequested, `bytesRead, `bytesVerified
      ensures old(etag).Some? ==> etag == old(etag)
      ensures r.Failed? ==> Valid()
      ensures r.Done? ==> Fetched(lo, hi, r.data) && Counted(r.data) && bytesVerified <= bytesRequested <= 2 * MAX_MEMBER
      ensures bytesRequested == old(bytesRequested) || (lo < hi && bytesRequested == old(bytesRequested) + hi - lo)
    {
      if !(0 < hi - lo <= MAX_MEMBER && bytesRequested + hi - lo <= 2 * MAX_MEMBER) {
        return Failed(Capture("ZIP range budget exceeded"));
      }
      bytesRequested := bytesRequested + hi - lo;
      var response := Request(lo, hi);
      if response.Refused? { return Failed(Http(response.code)); }
      if response.Unreachable? { return Failed(Transport); }
      if response.status != 206 || !SameRange(response.range, lo, hi) {
        return Failed(Capture("incorrect artifact byte range"));
      }
      if !StrongTag(response.etag) || (etag.Some? && etag.value != response.etag) {
        return Failed(Capture("artifact object changed"));
      }
      etag := Some(response.etag);
      if response.body.Cut? {
        bytesRead := bytesRead + |response.body.partial|;
        return Failed(Transport);
      }
      var data := response.body.bytes;
      bytesRead := bytesRead + |data|;
      if |data| != hi - lo { return Failed(Capture("truncated artifact range")); }
      bytesVerified := bytesVerified + |data|;
      r := Done(data);
    }

    predicate SameRange(range: Option<ContentRange>, lo: int, hi: int) {
      range.Some? && range.value.first == lo && range.value.last == hi - 1 && range.value.total == size
    }

    /** The network: any answer an honest server may give, or none. */
    method Request(lo: int, hi: int) returns (r: Response)
      ensures Honest(versions, r, lo, hi, size)
    {
      r := *;
      if !Honest(versions, r, lo, hi, size) { r := Unreachable; }
    }
  }

  predicate Covers(kept: (int, Blob), start: int, end: int) { kept.0 <= start && end <= kept.0 + |kept.1| }

  lemma TotalGrows(cache: seq<(int, Blob)>, kept: (int, Blob))
    ensures Total(cache + [kept]) == Total(cache) + |kept.1|
  {
    assert (cache + [kept])[..|cache|] == cache;
  }

  /** A slice taken through a kept range is the same slice of the blob itself. */
  lemma SliceThroughRange(blob: Blob, offset: nat, data: Blob, start: nat, end: nat)
    requires offset + |data| <= |blob| && data == blob[offset..offset + |data|]
    requires offset <= start && offset <= end <= offset + |data|
    ensures Slice(data, start - offset, end - offset) == Slice(blob, start, end)
  {
    if start < end {
      var cut := data[start - offset..end - offset];
      forall i | 0 <= i < end - start ensures cut[i] == blob[start..end][i] {
        assert cut[i] == data[start - offset + i] == blob[start + i];
      }
      assert cut == blob[start..end];
    }
  }
}
