/** Ranged media download: parsing the Range header and cutting the range out of the fetched chunks. */
module RangeStream {
  import opened Basics
  import opened Decimal

  const MAX_SAFE_INTEGER: int := 9007199254740991
  const CHUNK_SIZE: int := 512 * 1024

  datatype ByteRange = ByteRange(start: int, end: int, length: int)

  // ---------------------------------------------------------------------------
  // The header
  // ---------------------------------------------------------------------------

  function LeadingDigits(s: string): (n: nat)
    ensures n <= |s| && AllDigits(s[..n]) && (n < |s| ==> !('0' <= s[n] <= '9'))
  {
    if s == [] || !('0' <= s[0] <= '9') then 0
    else
      var n := LeadingDigits(s[1..]);
      assert s[..n + 1] == [s[0]] + s[1..][..n];
      n + 1
  }

  /** The two digit groups of bytes=(\d*)-(\d*), on a header already trimmed. */
  function MatchRange(header: string): (m: Option<(string, string)>)
    ensures m.Some? ==> AllDigits(m.value.0) && AllDigits(m.value.1)
  {
    var prefix := "bytes=";
    if !(prefix <= header) then None
    else
      var rest := header[|prefix|..];
      var n := LeadingDigits(rest);
      if n < |rest| && rest[n] == '-' && AllDigits(rest[n + 1..]) then Some((rest[..n], rest[n + 1..])) else None
  }

  predicate Safe(n: int) {
    -MAX_SAFE_INTEGER <= n <= MAX_SAFE_INTEGER
  }

  function Checked(start: int, end: int, fileSize: int): Option<ByteRange> {
    if start < 0 || end < 0 || start > end || start >= fileSize || end >= fileSize then None
    else Some(ByteRange(start, end, end - start + 1))
  }

  function ParseRangeHeader(header: string, fileSize: int): (r: Option<ByteRange>)
    ensures r.Some? ==> 0 <= r.value.start <= r.value.end < fileSize && r.value.length == r.value.end - r.value.start + 1
  {
    var m := MatchRange(header);
    if m.None? || fileSize <= 0 then None
    else
      var (startText, endText) := m.value;
      if startText == "" && endText == "" then None
      else if startText == "" then
        var suffix := Digits(endText);
        if !Safe(suffix) || suffix <= 0 then None
        else Checked(if fileSize > suffix then fileSize - suffix else 0, fileSize - 1, fileSize)
      else
        var start := Digits(startText);
        var end := if endText == "" then fileSize - 1 else Digits(endText);
        if !Safe(start) || !Safe(end) then None else Checked(start, end, fileSize)
  }

  lemma MatchNumerals(a: string, b: string)
    requires AllDigits(a) && AllDigits(b)
    ensures MatchRange("bytes=" + a + "-" + b) == Some((a, b))
  {
    var header := "bytes=" + a + "-" + b;
    var rest := header[6..];
    assert rest == a + "-" + b;
    var n := LeadingDigits(rest);
    assert rest[|a|] == '-' && forall i | 0 <= i < |a| :: rest[i] == a[i];
    assert forall i | 0 <= i < n :: '0' <= rest[..n][i] <= '9' && rest[..n][i] == rest[i];
    assert n == |a|;
    assert rest[..n] == a && rest[n + 1..] == b;
  }

  /** Whatever is accepted has the form bytes=a-b, with digits or nothing on either side, and is read as such. */
  lemma OnlyRangesParse(header: string, fileSize: int)
    ensures ParseRangeHeader(header, fileSize).Some? ==>
      exists a, b :: AllDigits(a) && AllDigits(b) && header == "bytes=" + a + "-" + b
  {
    var m := MatchRange(header);
    if m.Some? {
      var rest := header[6..];
      var n := LeadingDigits(rest);
      var (a, b) := m.value;
      assert rest == a + "-" + b;
      assert header == "bytes=" + rest;
      assert header == "bytes=" + a + "-" + b;
    }
  }

  /** How any two groups of digits are read, leading zeros included. */
  ghost predicate ReadAs(a: string, b: string, fileSize: nat, r: Option<ByteRange>)
    requires AllDigits(a) && AllDigits(b)
  {
    if a != "" && b != "" then
      r == if Digits(a) <= Digits(b) < fileSize then Some(ByteRange(Digits(a), Digits(b), Digits(b) - Digits(a) + 1)) else None
    else if a != "" then
      r == if Digits(a) < fileSize then Some(ByteRange(Digits(a), fileSize - 1, fileSize - Digits(a))) else None
    else if b == "" || Digits(b) == 0 || fileSize == 0 || Digits(b) > MAX_SAFE_INTEGER then r == None
    else if Digits(b) < fileSize then r == Some(ByteRange(fileSize - Digits(b), fileSize - 1, Digits(b)))
    else r == Some(ByteRange(0, fileSize - 1, fileSize))
  }

  lemma ReadGroups(header: string, a: string, b: string, fileSize: nat)
    requires AllDigits(a) && AllDigits(b) && fileSize <= MAX_SAFE_INTEGER && MatchRange(header) == Some((a, b))
    ensures ReadAs(a, b, fileSize, ParseRangeHeader(header, fileSize))
  {
    hide MatchRange, Digits;
  }

  lemma RangeOfDigits(a: string, b: string, fileSize: nat)
    requires AllDigits(a) && AllDigits(b) && fileSize <= MAX_SAFE_INTEGER
    ensures ReadAs(a, b, fileSize, ParseRangeHeader("bytes=" + a + "-" + b, fileSize))
  {
    MatchNumerals(a, b);
    hide MatchRange, Digits, ParseRangeHeader, ReadAs;
    ReadGroups("bytes=" + a + "-" + b, a, b, fileSize);
  }

  /** first-last is accepted exactly when it lies in the file; an over-long last position is refused. */
  lemma FirstLastRoundTrip(first: nat, last: nat, fileSize: nat)
    requires fileSize <= MAX_SAFE_INTEGER
    ensures ParseRangeHeader("bytes=" + Numeral(first) + "-" + Numeral(last), fileSize)
         == if first <= last < fileSize then Some(ByteRange(first, last, last - first + 1)) else None
  {
    MatchNumerals(Numeral(first), Numeral(last));
    NumeralReadsBack(first);
    NumeralReadsBack(last);
  }

  /** first- runs to the end of the file. */
  lemma OpenRoundTrip(first: nat, fileSize: nat)
    requires fileSize <= MAX_SAFE_INTEGER
    ensures ParseRangeHeader("bytes=" + Numeral(first) + "-" + "", fileSize)
         == if first < fileSize then Some(ByteRange(first, fileSize - 1, fileSize - first)) else None
  {
    MatchNumerals(Numeral(first), "");
    NumeralReadsBack(first);
  }

  /** -n is the last n bytes, or the whole file when it is shorter. */
  lemma SuffixRoundTrip(n: nat, fileSize: nat)
    requires n <= MAX_SAFE_INTEGER
    ensures ParseRangeHeader("bytes=" + "" + "-" + Numeral(n), fileSize)
         == if n == 0 || fileSize == 0 then None
            else if n < fileSize then Some(ByteRange(fileSize - n, fileSize - 1, n))
            else Some(ByteRange(0, fileSize - 1, fileSize))
  {
    MatchNumerals("", Numeral(n));
    NumeralReadsBack(n);
  }

  // ---------------------------------------------------------------------------
  // The stream
  // ---------------------------------------------------------------------------

  newtype Byte = b: int | 0 <= b < 256
  type Bytes = seq<Byte>

  function Flat(chunks: seq<Bytes>): Bytes {
    if chunks == [] then [] else Flat(chunks[..|chunks| - 1]) + chunks[|chunks| - 1]
  }

  /** The bytes after the first `skip`, at most `length` of them. */
  function Clip(s: Bytes, skip: nat, length: nat): Bytes {
    if |s| <= skip then []
    else if |s| - skip <= length then s[skip..]
    else s[skip..skip + length]
  }

  /**
   * The loop over fetched chunks; the response closes before chunk number `closes`. Whatever way the bytes
   * are cut, what is written is the wanted part of what arrived.
   */
  method StreamRange(chunks: seq<Bytes>, start: nat, length: nat, closes: nat) returns (written: Bytes)
    requires length > 0
    ensures var arrived := if closes < |chunks| then closes else |chunks|;
      written == Clip(Flat(chunks[..arrived]), start % CHUNK_SIZE, length)
  {
    hide Clip, Flat;
    var alignedStart := (start / CHUNK_SIZE) * CHUNK_SIZE;
    var skipBytes := start - alignedStart;
    assert skipBytes == start % CHUNK_SIZE;
    NothingYet(skipBytes, length);
    var skipped := 0;
    var remaining := length;
    written := [];
    ghost var arrived := if closes < |chunks| then closes else |chunks|;
    for i := 0 to |chunks|
      invariant i <= arrived
      invariant written == Clip(Flat(chunks[..i]), skipBytes, length)
      invariant skipped == if |Flat(chunks[..i])| < skipBytes then |Flat(chunks[..i])| else skipBytes
      invariant remaining == length - |written| > 0
    {
      if i >= closes { break; }
      var data := chunks[i];
      FlatStep(chunks, i);
      ClipStep(Flat(chunks[..i]), chunks[i], skipBytes, length);
      if skipped < skipBytes {
        var toSkip := if skipBytes - skipped < |data| then skipBytes - skipped else |data|;
        data := data[toSkip..];
        skipped := skipped + toSkip;
      }
      if |data| > remaining {
        data := data[..remaining];
      }
      if |data| > 0 {
        written := written + data;
        remaining := remaining - |data|;
      }
      if remaining <= 0 {
        ClipFull(chunks, i + 1, arrived, skipBytes, length);
        return;
      }
    }
  }

  lemma NothingYet(skip: nat, length: nat)
    ensures Flat([]) == [] && Clip([], skip, length) == []
  {
  }

  lemma FlatStep(chunks: seq<Bytes>, i: nat)
    requires i < |chunks|
    ensures Flat(chunks[..i + 1]) == Flat(chunks[..i]) + chunks[i]
  {
    assert chunks[..i + 1][..i] == chunks[..i];
  }

  lemma ClipStep(before: Bytes, chunk: Bytes, skip: nat, length: nat)
    ensures var room := length - |Clip(before, skip, length)|;
      var data := if |before| >= skip then chunk else if skip - |before| < |chunk| then chunk[skip - |before|..] else [];
      Clip(before + chunk, skip, length) == Clip(before, skip, length) + (if |data| > room then data[..room] else data)
  {
  }

  lemma {:induction false} ClipFull(chunks: seq<Bytes>, i: nat, j: nat, skip: nat, length: nat)
    requires i <= j <= |chunks| && |Clip(Flat(chunks[..i]), skip, length)| == length
    ensures Clip(Flat(chunks[..j]), skip, length) == Clip(Flat(chunks[..i]), skip, length)
    decreases j
  {
    if i < j {
      ClipFull(chunks, i, j - 1, skip, length);
      FlatStep(chunks, j - 1);
      ClipStep(Flat(chunks[..j - 1]), chunks[j - 1], skip, length);
    }
  }

  /** When the chunks are the file from the aligned offset on and cover the range, exactly the range is written. */
  lemma WholeRangeWritten(file: Bytes, range: ByteRange, arrived: Bytes)
    requires 0 <= range.start <= range.end < |file| && range.length == range.end - range.start + 1
    requires var aligned := range.start - range.start % CHUNK_SIZE;
      arrived <= file[aligned..] && |arrived| >= range.start % CHUNK_SIZE + range.length
    ensures Clip(arrived, range.start % CHUNK_SIZE, range.length) == file[range.start..range.end + 1]
  {
    var skip := range.start % CHUNK_SIZE;
    var aligned := range.start - skip;
    var n := |arrived|;
    assert arrived == file[aligned..][..n] == file[aligned..aligned + n];
    assert file[aligned..aligned + n][skip..skip + range.length] == file[range.start..range.start + range.length];
    assert Clip(arrived, skip, range.length) == arrived[skip..skip + range.length];
  }

  /** Bytes that arrived from the aligned offset on never yield anything but a beginning of the range. */
  lemma OnlyTheRangeWritten(file: Bytes, range: ByteRange, arrived: Bytes)
    requires 0 <= range.start <= range.end < |file| && range.length == range.end - range.start + 1
    requires arrived <= file[range.start - range.start % CHUNK_SIZE..]
    ensures var last := range.start - range.start % CHUNK_SIZE + |arrived|;
      Clip(arrived, range.start % CHUNK_SIZE, range.length)
        == if last <= range.start then [] else file[range.start..if last <= range.end then last else range.end + 1]
    ensures Clip(arrived, range.start % CHUNK_SIZE, range.length) <= file[range.start..range.end + 1]
  {
    var skip := range.start % CHUNK_SIZE;
    var aligned := range.start - skip;
    var n := |arrived|;
    assert arrived == file[aligned..][..n] == file[aligned..aligned + n];
    if skip < n < skip + range.length {
      assert arrived[skip..] == file[range.start..aligned + n];
    } else if n >= skip + range.length {
      WholeRangeWritten(file, range, arrived);
    }
  }

  // ---------------------------------------------------------------------------
  // The request
  // ---------------------------------------------------------------------------

  datatype Answer = Whole | NotSatisfiable | Partial(range: ByteRange, body: Bytes)

  /** Headers are absent or empty alike; a range counts for a non-empty file whose validator, if given, matches. */
  predicate RangeRequested(range: string, ifRange: string, etag: string, fileSize: nat) {
    range != "" && fileSize > 0 && (ifRange == "" || ifRange == etag)
  }

  /**
   * A request: the whole file unless a range counts, else the range parsed and streamed. Whatever way the bytes
   * of the file from the aligned offset on arrive, the body holds no byte outside the range, and all of it once
   * they cover it.
   */
  method DownloadRange(file: Bytes, header: string, ifRange: string, etag: string, chunks: seq<Bytes>, closes: nat)
    returns (answer: Answer)
    ensures answer.Whole? <==> header == "" || file == [] || (ifRange != "" && ifRange != etag)
    ensures answer.NotSatisfiable? <==> !answer.Whole? && ParseRangeHeader(header, |file|) == None
    ensures answer.Partial? ==>
      var range := answer.range;
      var aligned := range.start - range.start % CHUNK_SIZE;
      var arrived := Flat(chunks[..if closes < |chunks| then closes else |chunks|]);
      && ParseRangeHeader(header, |file|) == Some(range)
      && (arrived <= file[aligned..] ==>
            && answer.body <= file[range.start..range.end + 1]
            && (|arrived| >= range.start % CHUNK_SIZE + range.length ==> answer.body == file[range.start..range.end + 1]))
  {
    hide Clip, Flat;
    if !RangeRequested(header, ifRange, etag, |file|) {
      return Whole;
    }
    var parsed := ParseRangeHeader(header, |file|);
    if parsed.None? {
      return NotSatisfiable;
    }
    var range := parsed.value;
    hide ParseRangeHeader;
    var body := StreamRange(chunks, range.start, range.length, closes);
    ghost var arrived := Flat(chunks[..if closes < |chunks| then closes else |chunks|]);
    if arrived <= file[range.start - range.start % CHUNK_SIZE..] {
      OnlyTheRangeWritten(file, range, arrived);
      if |arrived| >= range.start % CHUNK_SIZE + range.length {
        WholeRangeWritten(file, range, arrived);
      }
    }
    return Partial(range, body);
  }
}
