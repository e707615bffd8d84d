/** The duration of an Opus file, found by walking the pages of its Ogg container
    (page layout: section 6 of RFC 3533; 48 kHz granules: section 4 of RFC 7845). */
module OggScan {
  import opened Common

  const CAPTURE: seq<byte> := [79, 103, 103, 83]  // "OggS"
  const HEADER := 27

  /** A seekable reader over a file that returns full reads. */
  class Reader {
    const data: seq<byte>
    var pos: nat

    constructor (data: seq<byte>)
      ensures this.data == data && pos == 0
    {
      this.data, pos := data, 0;
    }

    method SeekStart()
      modifies this`pos
      ensures pos == 0
    {
      pos := 0;
    }

    /** Up to `n` bytes; none at all signals the end of the file. */
    method Read(n: nat) returns (chunk: seq<byte>)
      modifies this`pos
      ensures old(pos) >= |data| ==> chunk == [] && pos == old(pos)
      ensures old(pos) < |data| && old(pos) + n <= |data| ==> chunk == data[old(pos)..old(pos) + n] && pos == old(pos) + n
      ensures old(pos) < |data| < old(pos) + n ==> chunk == data[old(pos)..] && pos == |data|
    {
      if pos >= |data| {
        return [];
      }
      var end := if pos + n <= |data| then pos + n else |data|;
      chunk := data[pos..end];
      pos := end;
    }

    /** Exactly `n` bytes, or failure with the rest of the file consumed. */
    method ReadFull(n: nat) returns (ok: bool, chunk: seq<byte>)
      modifies this`pos
      ensures ok <==> n == 0 || old(pos) + n <= |data|
      ensures ok ==> |chunk| == n && pos == old(pos) + n && (n > 0 ==> chunk == data[old(pos)..old(pos) + n])
    {
      if n == 0 {
        return true, [];
      }
      chunk := Read(n);
      ok := |chunk| == n;
    }

    /** Seeking past the end is allowed, seeking before the start is not. */
    method SeekBy(offset: int) returns (ok: bool)
      modifies this`pos
      ensures ok <==> old(pos) + offset >= 0
      ensures pos == if ok then old(pos) + offset else old(pos)
    {
      ok := pos + offset >= 0;
      if ok {
        pos := pos + offset;
      }
    }
  }

  // ---------- numbers on the page ----------

  function Pow256(k: nat): nat {
    if k == 0 then 1 else 256 * Pow256(k - 1)
  }

  function FromLittleEndian(bs: seq<byte>): nat {
    if bs == [] then 0 else bs[0] + 256 * FromLittleEndian(bs[1..])
  }

  function ToLittleEndian(n: nat, k: nat): (bs: seq<byte>)
    ensures |bs| == k
  {
    if k == 0 then [] else [n % 256] + ToLittleEndian(n / 256, k - 1)
  }

  /** The 64-bit pattern read as a two's complement number. */
  function Signed64(u: nat): int {
    if u < 0x8000_0000_0000_0000 then u else u - 0x1_0000_0000_0000_0000
  }

  function Sum(bs: seq<byte>): nat {
    if bs == [] then 0 else Sum(bs[..|bs| - 1]) + bs[|bs| - 1]
  }

  /** Splitting a segment table splits its page. */
  lemma {:induction false} SumSplits(s: seq<byte>, t: seq<byte>)
    ensures Sum(s + t) == Sum(s) + Sum(t) && (|s| == 1 ==> Sum(s) == s[0])
  {
    if t == [] {
      assert s + t == s;
    } else {
      var init := t[..|t| - 1];
      assert (s + t)[..|s + t| - 1] == s + init;
      SumSplits(s, init);
    }
  }

  function Max(a: int, b: int): int {
    if b > a then b else a
  }

  // ---------- the scan ----------

  predicate CaptureAt(data: seq<byte>, pos: nat) {
    pos + 4 <= |data| && data[pos..pos + 4] == CAPTURE
  }

  function GranuleAt(data: seq<byte>, pos: nat): int
    requires pos + HEADER <= |data|
  {
    Signed64(FromLittleEndian(data[pos + 6..pos + 14]))
  }

  /** What a header at some position makes the scanner do: give up, try the next
      byte, or take a granule position and continue after the page (if it can). */
  datatype Hop = Stop | Skip | Last(granule: int) | Jump(granule: int, next: nat)

  function HopAt(data: seq<byte>, pos: nat): (h: Hop)
    ensures h.Jump? ==> pos < h.next
    ensures !h.Stop? ==> pos < |data|
  {
    if pos + HEADER > |data| then Stop
    else if !CaptureAt(data, pos) then Skip
    else
      var table := pos + HEADER;
      var end := table + data[pos + 26];
      if end > |data| then Last(GranuleAt(data, pos))
      else Jump(GranuleAt(data, pos), end + Sum(data[table..end]))
  }

  /** The largest granule position met from `pos` on, starting from `best`. */
  function Scan(data: seq<byte>, pos: nat, best: int): int
    decreases |data| - pos
  {
    match HopAt(data, pos)
    case Stop => best
    case Skip => Scan(data, pos + 1, best)
    case Last(g) => Max(best, g)
    case Jump(g, next) => Scan(data, next, Max(best, g))
  }

  lemma Fields(data: seq<byte>, pos: nat, buf: seq<byte>)
    requires pos + HEADER <= |data| && buf == data[pos..pos + HEADER]
    ensures buf[..4] == data[pos..pos + 4] && buf[6..14] == data[pos + 6..pos + 14] && buf[26] == data[pos + 26]
  {
    assert |buf| == HEADER;
    forall i | 0 <= i < 8 ensures buf[6..14][i] == data[pos + 6..pos + 14][i] {
      assert buf[6 + i] == data[pos + (6 + i)];
    }
  }

  method PageSize(segmentTable: seq<byte>) returns (pageSize: nat)
    ensures pageSize == Sum(segmentTable)
  {
    pageSize := 0;
    for i := 0 to |segmentTable|
      invariant pageSize == Sum(segmentTable[..i])
    {
      pageSize := pageSize + segmentTable[i];
      assert segmentTable[..i + 1][..i] == segmentTable[..i];
    }
    assert segmentTable[..|segmentTable|] == segmentTable;
  }

  /** One turn of the page loop. */
  method ReadPage(r: Reader, best: int) returns (more: bool, best': int)
    modifies r`pos
    ensures match HopAt(r.data, old(r.pos))
            case Stop => !more && best' == best
            case Skip => more && best' == best && r.pos == old(r.pos) + 1
            case Last(g) => !more && best' == Max(best, g)
            case Jump(g, next) => more && best' == Max(best, g) && r.pos == next
  {
    var start := r.pos;
    var buf := r.Read(HEADER);
    if |buf| < HEADER {
      return false, best;
    }
    Fields(r.data, start, buf);
    if buf[..4] != CAPTURE {
      var ok := r.SeekBy(-26);
      return ok, best;
    }
    best' := best;
    var granulePos := Signed64(FromLittleEndian(buf[6..14]));
    if granulePos > best' {
      best' := granulePos;
    }
    var ok, segmentTable := r.ReadFull(buf[26]);
    if !ok {
      return false, best';
    }
    assert segmentTable == r.data[start + HEADER..start + HEADER + buf[26]];
    var pageSize := PageSize(segmentTable);
    ok := r.SeekBy(pageSize);
    return ok, best';
  }

  /** Terminates on every input; the result is the scanned granule at 48 kHz. */
  method GetOpusDuration(r: Reader) returns (duration: real)
    modifies r`pos
    ensures duration == Scan(r.data, 0, 0) as real / 48000.0
  {
    r.SeekStart();
    var totalGranulePos, more := 0, true;
    while more
      invariant Scan(r.data, 0, 0) == if more then Scan(r.data, r.pos, totalGranulePos) else totalGranulePos
      decreases more, |r.data| - r.pos
    {
      more, totalGranulePos := ReadPage(r, totalGranulePos);
    }
    duration := totalGranulePos as real / 48000.0;
  }

  // ---------- well-formed files ----------

  datatype Page = Page(flags: seq<byte>, granule: seq<byte>, serial: seq<byte>, segments: seq<byte>, body: seq<byte>)

  ghost predicate WellFormed(p: Page) {
    && |p.flags| == 2 && |p.granule| == 8 && |p.serial| == 12
    && |p.segments| < 256 && |p.body| == Sum(p.segments)
  }

  function Granule(p: Page): int {
    Signed64(FromLittleEndian(p.granule))
  }

  /** Version and type, granule position, serial number with sequence number and
      checksum, segment count, segment table, body. */
  function Encode(p: Page): seq<byte>
    requires WellFormed(p)
  {
    CAPTURE + p.flags + p.granule + p.serial
    + [|p.segments|] + p.segments + p.body
  }

  function EncodeAll(pages: seq<Page>): seq<byte>
    requires forall p :: p in pages ==> WellFormed(p)
  {
    if pages == [] then [] else Encode(pages[0]) + EncodeAll(pages[1..])
  }

  function MaxGranule(pages: seq<Page>, best: int): int {
    if pages == [] then best else MaxGranule(pages[1..], Max(best, Granule(pages[0])))
  }

  lemma {:induction false} LittleEndianRoundTrip(n: nat, k: nat)
    requires n < Pow256(k)
    ensures FromLittleEndian(ToLittleEndian(n, k)) == n
  {
    if k > 0 {
      LittleEndianRoundTrip(n / 256, k - 1);
      assert ToLittleEndian(n, k)[1..] == ToLittleEndian(n / 256, k - 1);
    }
  }

  /** Every 64-bit granule position is the reading of the bytes that encode it. */
  lemma GranuleRoundTrip(g: int)
    requires -0x8000_0000_0000_0000 <= g < 0x8000_0000_0000_0000
    ensures Signed64(FromLittleEndian(ToLittleEndian(g % 0x1_0000_0000_0000_0000, 8))) == g
  {
    assert Pow256(8) == 256 * (256 * (256 * (256 * Pow256(4))));
    assert Pow256(4) == 256 * (256 * (256 * (256 * Pow256(0))));
    LittleEndianRoundTrip(g % 0x1_0000_0000_0000_0000, 8);
  }

  /** Where the fields of an encoded page sit in the file. */
  lemma PageLayout(pre: seq<byte>, p: Page, post: seq<byte>)
    requires WellFormed(p)
    ensures var data, pos := pre + Encode(p) + post, |pre|;
            var table := pos + HEADER;
            && |Encode(p)| == HEADER + |p.segments| + |p.body|
            && CaptureAt(data, pos) && data[pos + 26] == |p.segments|
            && data[pos + 6..pos + 14] == p.granule
            && data[table..table + |p.segments|] == p.segments
  {
    var data, pos := pre + Encode(p) + post, |pre|;
    assert data[pos..pos + |Encode(p)|] == Encode(p);
    assert Encode(p)[..4] == CAPTURE;
    assert Encode(p)[6..14] == p.granule;
    assert Encode(p)[26] == |p.segments|;
    assert Encode(p)[HEADER..HEADER + |p.segments|] == p.segments;
    forall i, j | 0 <= i <= j <= |Encode(p)| ensures data[pos + i..pos + j] == Encode(p)[i..j] {}
  }

  lemma HopOverPage(data: seq<byte>, pos: nat, p: Page)
    requires WellFormed(p) && pos + |Encode(p)| <= |data| && data[pos..pos + |Encode(p)|] == Encode(p)
    ensures HopAt(data, pos) == Jump(Granule(p), pos + |Encode(p)|)
  {
    assert data == data[..pos] + Encode(p) + data[pos + |Encode(p)|..];
    PageLayout(data[..pos], p, data[pos + |Encode(p)|..]);
  }

  lemma SplitAt(data: seq<byte>, pos: nat, front: seq<byte>, back: seq<byte>, tail: seq<byte>)
    requires pos <= |data| && data[pos..] == front + back + tail
    ensures pos + |front| <= |data| && data[pos..pos + |front|] == front && data[pos + |front|..] == back + tail
  {
    assert front + back + tail == front + (back + tail);
    assert data[pos..pos + |front|] == data[pos..][..|front|];
    assert data[pos + |front|..] == data[pos..][|front|..];
  }

  /** One page of the file, then the rest. */
  lemma ScanPage(data: seq<byte>, pos: nat, p: Page, rest: seq<byte>, tail: seq<byte>, best: int)
    requires WellFormed(p) && pos <= |data| && data[pos..] == Encode(p) + rest + tail
    ensures var next := pos + |Encode(p)|;
            && next <= |data| && data[next..] == rest + tail
            && Scan(data, pos, best) == Scan(data, next, Max(best, Granule(p)))
  {
    SplitAt(data, pos, Encode(p), rest, tail);
    HopOverPage(data, pos, p);
  }

  lemma {:induction false} ScanPages(data: seq<byte>, pos: nat, pages: seq<Page>, tail: seq<byte>, best: int)
    requires (forall p :: p in pages ==> WellFormed(p)) && |tail| < HEADER
    requires pos <= |data| && data[pos..] == EncodeAll(pages) + tail
    ensures Scan(data, pos, best) == MaxGranule(pages, best)
    decreases |pages|
  {
    if pages == [] {
      assert |data| - pos == |tail|;
    } else {
      ScanPage(data, pos, pages[0], EncodeAll(pages[1..]), tail, best);
      ScanPages(data, pos + |Encode(pages[0])|, pages[1..], tail, Max(best, Granule(pages[0])));
    }
  }

  lemma {:induction false} ScanSkips(data: seq<byte>, pos: nat, start: nat, best: int)
    requires pos <= start && start + HEADER <= |data|
    requires forall i :: pos <= i < start ==> !CaptureAt(data, i)
    ensures Scan(data, pos, best) == Scan(data, start, best)
    decreases start - pos
  {
    if pos < start {
      ScanSkips(data, pos + 1, start, best);
    }
  }

  lemma {:induction false} ScanFindsNothing(data: seq<byte>, pos: nat, start: nat, best: int)
    requires |data| < start + HEADER
    requires forall i :: pos <= i < start ==> !CaptureAt(data, i)
    ensures Scan(data, pos, best) == best
    decreases |data| - pos
  {
    if pos + HEADER <= |data| {
      ScanFindsNothing(data, pos + 1, start, best);
    }
  }

  lemma {:induction false} MaxGranuleIsMaximum(pages: seq<Page>, best: int)
    ensures MaxGranule(pages, best) >= best
    ensures forall p :: p in pages ==> Granule(p) <= MaxGranule(pages, best)
    ensures MaxGranule(pages, best) == best || exists p :: p in pages && Granule(p) == MaxGranule(pages, best)
    decreases |pages|
  {
    if pages != [] {
      MaxGranuleIsMaximum(pages[1..], Max(best, Granule(pages[0])));
      assert pages[0] in pages && forall p :: p in pages[1..] ==> p in pages;
      assert forall p :: p in pages ==> p == pages[0] || p in pages[1..];
    }
  }

  lemma ScanFile(junk: seq<byte>, pages: seq<Page>, tail: seq<byte>, best: int)
    requires (forall p :: p in pages ==> WellFormed(p)) && |tail| < HEADER
    requires forall i :: 0 <= i < |junk| ==> !CaptureAt(junk + EncodeAll(pages) + tail, i)
    ensures Scan(junk + EncodeAll(pages) + tail, 0, best) == MaxGranule(pages, best)
  {
    var data := junk + EncodeAll(pages) + tail;
    if pages == [] {
      ScanFindsNothing(data, 0, |junk|, best);
    } else {
      PageLayout([], pages[0], []);
      ScanSkips(data, 0, |junk|, best);
      assert data[|junk|..] == EncodeAll(pages) + tail;
      ScanPages(data, |junk|, pages, tail, best);
    }
  }

  // ---------- what the scanner promises ----------

  /** On junk, then any pages, then a fragment too short for a header, where no
      capture pattern starts inside the junk, the scan yields the maximum of zero
      and the pages' signed granule positions. */
  lemma ScanIsMaximum(junk: seq<byte>, pages: seq<Page>, tail: seq<byte>)
    requires (forall p :: p in pages ==> WellFormed(p)) && |tail| < HEADER
    requires forall i :: 0 <= i < |junk| ==> !CaptureAt(junk + EncodeAll(pages) + tail, i)
    ensures var best := Scan(junk + EncodeAll(pages) + tail, 0, 0);
            && best >= 0 && (forall p :: p in pages ==> Granule(p) <= best)
            && (best == 0 || exists p :: p in pages && Granule(p) == best)
  {
    MaxGranuleIsMaximum(pages, 0);
    ScanFile(junk, pages, tail, 0);
  }

  /** On arbitrary bytes the scan never goes below its start, and anything above
      it is the granule field of a real header in the file. */
  lemma {:induction false} ScanIsJustified(data: seq<byte>, pos: nat, best: int)
    ensures Scan(data, pos, best) >= best
    ensures Scan(data, pos, best) == best ||
            exists i: nat :: && pos <= i && i + HEADER <= |data| && GranuleAt(data, i) == Scan(data, pos, best)
                             && data[i..i + 4] == [79, 103, 103, 83]
    decreases |data| - pos
  {
    match HopAt(data, pos)
    case Stop =>
    case Skip => ScanIsJustified(data, pos + 1, best);
    case Last(g) => assert GranuleAt(data, pos) == g;
    case Jump(g, next) =>
      assert GranuleAt(data, pos) == g;
      ScanIsJustified(data, next, Max(best, g));
  }
}
