/** The pieces of server.py that decide something without I/O: the transcript chunker of
    the format-transcript handler, the audio size check and extension choice of the
    transcription handler, and the week count of the AI planner handler. */
module Server {
  import opened Common
  import opened Strings

  const MaxChunkSize: nat := 8000

  /** `MAX_CHUNK_SIZE // 2`: a cut must start beyond this many characters into the window. */
  const HalfChunk: nat := 4000

  /** The separators tried, in order, when cutting a window short. */
  const Separators: seq<string> := ["。", "．", ". ", "\n\n", "\n", " "]

  /** `sep` occurs in `text` starting at `i`. */
  predicate OccursAt(text: string, sep: string, i: nat) {
    i + |sep| <= |text| && text[i..i + |sep|] == sep
  }

  /** `text.rfind(sep, lo, hi)`: the last start of `sep` lying wholly inside text[lo..hi],
      or -1. */
  function RFind(text: string, sep: string, lo: nat, hi: nat): (r: int)
    requires lo <= hi <= |text| && |sep| > 0
    ensures r == -1 || (lo <= r && r + |sep| <= hi && OccursAt(text, sep, r))
    ensures r == -1 ==> forall i: nat :: lo <= i && i + |sep| <= hi ==> !OccursAt(text, sep, i)
    ensures r != -1 ==> forall i: nat :: r < i && i + |sep| <= hi ==> !OccursAt(text, sep, i)
    decreases hi
  {
    if hi < lo + |sep| then -1
    else if text[hi - |sep|..hi] == sep then hi - |sep|
    else RFind(text, sep, lo, hi - 1)
  }

  /** The for-loop over the separators: the end just after the first separator whose last
      occurrence in the window starts beyond the middle of a full window, else `end`. */
  function CutEnd(text: string, pos: nat, end: nat, seps: seq<string>): (e: nat)
    requires pos <= end <= |text| && forall k :: 0 <= k < |seps| ==> |seps[k]| > 0
    ensures e == end || (exists k :: (0 <= k < |seps| && pos + HalfChunk + |seps[k]| < e <= end
      && text[e - |seps[k]|..e] == seps[k]))
  {
    if seps == [] then end
    else
      var last := RFind(text, seps[0], pos, end);
      if last > pos + HalfChunk then
        var e := last + |seps[0]|;
        assert text[e - |seps[0]|..e] == seps[0];
        assert pos + HalfChunk + |seps[0]| < e <= end;
        e
      else
        var e := CutEnd(text, pos, end, seps[1..]);
        CutEndTail(text, pos, end, seps, e);
        e
  }

  lemma CutEndTail(text: string, pos: nat, end: nat, seps: seq<string>, e: nat)
    requires pos <= end <= |text| && seps != []
    requires e == end || (exists k :: (0 <= k < |seps[1..]| && pos + HalfChunk + |seps[1..][k]| < e <= end
      && text[e - |seps[1..][k]|..e] == seps[1..][k]))
    ensures e == end || (exists k :: (0 <= k < |seps| && pos + HalfChunk + |seps[k]| < e <= end
      && text[e - |seps[k]|..e] == seps[k]))
  {
    if e != end {
      var k :| 0 <= k < |seps[1..]| && pos + HalfChunk + |seps[1..][k]| < e <= end
        && text[e - |seps[1..][k]|..e] == seps[1..][k];
      assert seps[k + 1] == seps[1..][k];
    }
  }

  /** The separators are tried in order: the first one whose last occurrence in the window
      starts beyond the middle decides the cut, just after that occurrence. */
  lemma {:induction false} CutEndFirstSeparator(text: string, pos: nat, end: nat, seps: seq<string>, k: nat)
    requires pos <= end <= |text| && forall j :: 0 <= j < |seps| ==> |seps[j]| > 0
    requires k < |seps| && RFind(text, seps[k], pos, end) > pos + HalfChunk
    requires forall j :: 0 <= j < k ==> RFind(text, seps[j], pos, end) <= pos + HalfChunk
    ensures CutEnd(text, pos, end, seps) == RFind(text, seps[k], pos, end) + |seps[k]|
    decreases k
  {
    if k > 0 {
      assert RFind(text, seps[0], pos, end) <= pos + HalfChunk;
      forall j | 0 <= j < k - 1
        ensures RFind(text, seps[1..][j], pos, end) <= pos + HalfChunk
      {
        assert seps[1..][j] == seps[j + 1];
      }
      assert seps[1..][k - 1] == seps[k];
      CutEndFirstSeparator(text, pos, end, seps[1..], k - 1);
    }
  }

  /** When no separator occurs beyond the middle of the window, the window is kept whole. */
  lemma {:induction false} CutEndNoSeparator(text: string, pos: nat, end: nat, seps: seq<string>)
    requires pos <= end <= |text| && forall j :: 0 <= j < |seps| ==> |seps[j]| > 0
    requires forall j :: 0 <= j < |seps| ==> RFind(text, seps[j], pos, end) <= pos + HalfChunk
    ensures CutEnd(text, pos, end, seps) == end
    decreases |seps|
  {
    if seps != [] {
      assert RFind(text, seps[0], pos, end) <= pos + HalfChunk;
      forall j | 0 <= j < |seps| - 1
        ensures RFind(text, seps[1..][j], pos, end) <= pos + HalfChunk
      {
        assert seps[1..][j] == seps[j + 1];
      }
      CutEndNoSeparator(text, pos, end, seps[1..]);
    }
  }

  /** The chunks joined back together. */
  function Concat(chunks: seq<string>): string {
    if chunks == [] then "" else Concat(chunks[..|chunks| - 1]) + chunks[|chunks| - 1]
  }

  /** The chunk ends just after one of the separators, which starts more than half a window
      into the chunk. */
  predicate EndsWithSeparator(chunk: string, seps: seq<string>) {
    exists k :: 0 <= k < |seps| && |seps[k]| <= |chunk|
      && chunk[|chunk| - |seps[k]|..] == seps[k] && |chunk| - |seps[k]| > HalfChunk
  }

  /** Where the chunk starting at `pos` ends: the window of at most 8000 characters, cut
      short by CutEnd when it does not reach the end of the text. */
  function NextEnd(text: string, pos: nat): (e: nat)
    requires pos < |text|
    ensures pos < e <= |text| && e <= pos + MaxChunkSize
    ensures pos + MaxChunkSize >= |text| ==> e == |text|
    ensures e < |text| ==> (e - pos > HalfChunk
      && (e - pos == MaxChunkSize || EndsWithSeparator(text[pos..e], Separators)))
  {
    var full := if pos + MaxChunkSize < |text| then pos + MaxChunkSize else |text|;
    var e := if full < |text| then CutEnd(text, pos, full, Separators) else full;
    ChunkShape(text, pos, e, |text|);
    e
  }

  /** The chunks the loop produces from `pos` on: each runs to the NextEnd of its start. */
  function Chunks(text: string, pos: nat): (r: seq<string>)
    requires pos <= |text|
    ensures forall k :: 0 <= k < |r| ==> 0 < |r[k]| <= MaxChunkSize
    ensures pos < |text| ==> r != [] && r[0] == text[pos..NextEnd(text, pos)]
    decreases |text| - pos
  {
    if pos == |text| then []
    else
      var e := NextEnd(text, pos);
      [text[pos..e]] + Chunks(text, e)
  }

  /** The chunking of the format-transcript handler.  A text of at most 8000 characters is
      one chunk; a longer one is cut into windows of at most 8000 characters, each cut
      short after a separator when one lies beyond the window's middle. */
  method ChunkText(text: string) returns (chunks: seq<string>)
    ensures Concat(chunks) == text
    ensures |text| <= MaxChunkSize ==> chunks == [text]
    ensures |text| > MaxChunkSize ==> chunks == Chunks(text, 0)
    ensures |text| > 0 ==> forall k :: 0 <= k < |chunks| ==> 0 < |chunks[k]| <= MaxChunkSize
    ensures forall k :: 0 <= k < |chunks| - 1 ==>
      |chunks[k]| > HalfChunk && (|chunks[k]| == MaxChunkSize || EndsWithSeparator(chunks[k], Separators))
  {
    var n := |text|;
    if n <= MaxChunkSize {
      chunks := [text];
      assert Concat(chunks) == Concat([]) + text;
      return;
    }
    chunks := [];
    var pos := 0;
    while pos < n
      invariant 0 <= pos <= n
      invariant Concat(chunks) == text[..pos]
      invariant chunks + Chunks(text, pos) == Chunks(text, 0)
      decreases n - pos
    {
      var end := NextEnd(text, pos);
      ChunksStep(text, pos, chunks);
      ConcatStep(text, pos, end, chunks);
      chunks := chunks + [text[pos..end]];
      pos := end;
    }
    assert text[..n] == text;
    assert chunks == Chunks(text, 0);
    ChunksShape(text, 0);
  }

  /** One pass of the loop moves the first chunk of the rest onto the result. */
  lemma ChunksStep(text: string, pos: nat, done: seq<string>)
    requires pos < |text|
    ensures var e := NextEnd(text, pos);
      (done + [text[pos..e]]) + Chunks(text, e) == done + Chunks(text, pos)
  {
  }

  /** Appending a chunk extends the joined text by it. */
  lemma ConcatStep(text: string, pos: nat, e: nat, done: seq<string>)
    requires pos <= e <= |text| && Concat(done) == text[..pos]
    ensures Concat(done + [text[pos..e]]) == text[..e]
  {
    assert (done + [text[pos..e]])[..|done|] == done;
    assert text[..pos] + text[pos..e] == text[..e];
  }

  /** Every chunk but the last is longer than half a window and is either a full window
      or ends just after a separator. */
  lemma {:induction false} ChunksShape(text: string, pos: nat)
    requires pos <= |text|
    ensures forall k :: 0 <= k < |Chunks(text, pos)| - 1 ==>
      |Chunks(text, pos)[k]| > HalfChunk
      && (|Chunks(text, pos)[k]| == MaxChunkSize || EndsWithSeparator(Chunks(text, pos)[k], Separators))
    decreases |text| - pos
  {
    if pos < |text| {
      var e := NextEnd(text, pos);
      var rest := Chunks(text, e);
      ChunksShape(text, e);
      assert Chunks(text, pos) == [text[pos..e]] + rest;
      if e == |text| {
        assert rest == [];
      }
    }
  }

  /** One chunk of the loop: non-empty, within the window, and when it is not the last,
      longer than half a window and either a full window or ending in a separator. */
  lemma ChunkShape(text: string, pos: nat, end: nat, n: nat)
    requires n == |text| && pos < n
    requires var full := if pos + MaxChunkSize < n then pos + MaxChunkSize else n;
      end == full || (full < n && end == CutEnd(text, pos, full, Separators))
    ensures pos < end <= pos + MaxChunkSize && end <= n
    ensures end < n ==> (end - pos > HalfChunk
      && (end - pos == MaxChunkSize || EndsWithSeparator(text[pos..end], Separators)))
  {
    var full := if pos + MaxChunkSize < n then pos + MaxChunkSize else n;
    if end != full {
      CutChunkShape(text, pos, end, full, Separators);
    }
  }

  /** A window cut short ends just after a separator that starts beyond its middle. */
  lemma CutChunkShape(text: string, pos: nat, end: nat, full: nat, seps: seq<string>)
    requires pos <= full <= |text| && forall j :: 0 <= j < |seps| ==> |seps[j]| > 0
    requires end == CutEnd(text, pos, full, seps) && end != full
    ensures pos + HalfChunk < end <= full
    ensures EndsWithSeparator(text[pos..end], seps)
  {
    var k :| 0 <= k < |seps| && pos + HalfChunk + |seps[k]| < end <= full
      && text[end - |seps[k]|..end] == seps[k];
    var sep := seps[k];
    var chunk := text[pos..end];
    assert chunk[|chunk| - |sep|..] == text[end - |sep|..end];
  }

  // ----- audio -----

  datatype Reply = Proceed | Reject(status: nat)

  /** The size check on the uploaded audio: missing data or fewer than 100 bytes is a 400. */
  function AudioGate(audio: Option<seq<bv8>>): (r: Reply)
    ensures r.Reject? <==> audio.None? || |audio.value| < 100
    ensures r.Reject? ==> r.status == 400
  {
    if audio.None? || |audio.value| < 100 then Reject(400) else Proceed
  }

  /** `filename.rsplit('.', 1)[-1]`: the text after the last dot. */
  function AfterLastDot(s: string): (r: string)
    ensures |r| <= |s| && r == s[|s| - |r|..] && '.' !in r
    ensures |r| < |s| ==> s[|s| - |r| - 1] == '.'
  {
    if s == [] || s[|s| - 1] == '.' then [] else AfterLastDot(s[..|s| - 1]) + [s[|s| - 1]]
  }

  const Accepted: seq<string> := [".webm", ".mp3", ".mp4", ".wav", ".m4a", ".ogg", ".flac", ".oga", ".mpga"]
  const Converted: seq<string> := [".mov", ".avi", ".mkv"]

  /** Whether the Content-Type alone decides the extension. */
  predicate TypeDecides(ct: string) {
    Contains(ct, "quicktime") || Contains(ct, "mov") || Contains(ct, "mp3") || Contains(ct, "mp4")
    || Contains(ct, "mpeg") || Contains(ct, "wav") || Contains(ct, "m4a") || Contains(ct, "ogg")
    || Contains(ct, "flac") || Contains(ct, "webm")
  }

  /** The extension and the needs_conversion flag for the uploaded file's Content-Type
      and filename: the Content-Type keywords first, in order, then the filename's
      extension if it is a known one, else '.webm'. */
  function AudioExt(ct: string, filename: string): (r: (string, bool))
    ensures r.1 <==> r.0 in Converted
    ensures r.0 in Accepted || r.0 in Converted
  {
    if Contains(ct, "quicktime") || Contains(ct, "mov") then (".mov", true)
    else if Contains(ct, "mp3") then (".mp3", false)
    else if Contains(ct, "mp4") then (".mp4", false)
    else if Contains(ct, "mpeg") then (".mp3", false)
    else if Contains(ct, "wav") then (".wav", false)
    else if Contains(ct, "m4a") then (".m4a", false)
    else if Contains(ct, "ogg") then (".ogg", false)
    else if Contains(ct, "flac") then (".flac", false)
    else if Contains(ct, "webm") then (".webm", false)
    else if filename != "" && '.' in filename then
      var fileExt := "." + Lower(AfterLastDot(filename));
      if fileExt in Accepted then (fileExt, false)
      else if fileExt in Converted then (fileExt, true)
      else (".webm", false)
    else (".webm", false)
  }

  /** A Content-Type naming a known format decides the extension whatever the filename. */
  lemma TypeDecidesExt(ct: string, f: string, g: string)
    requires TypeDecides(ct)
    ensures AudioExt(ct, f) == AudioExt(ct, g)
  {
  }

  /** Without a telling Content-Type, a known extension of the filename is kept whatever
      its case, and an unknown one gives '.webm'. */
  lemma FilenameFallback(ct: string, name: string, ext: string)
    requires !TypeDecides(ct) && '.' !in ext
    ensures "." + Lower(ext) in Accepted ==> AudioExt(ct, name + "." + ext) == ("." + Lower(ext), false)
    ensures "." + Lower(ext) in Converted ==> AudioExt(ct, name + "." + ext) == ("." + Lower(ext), true)
    ensures "." + Lower(ext) !in Accepted + Converted ==> AudioExt(ct, name + "." + ext) == (".webm", false)
  {
    var f := name + "." + ext;
    assert f[|name|] == '.';
    AfterLastDotSuffix(name, ext);
  }

  lemma {:induction false} AfterLastDotSuffix(name: string, ext: string)
    requires '.' !in ext
    ensures AfterLastDot(name + "." + ext) == ext
    decreases |ext|
  {
    var f := name + "." + ext;
    if ext == [] {
      assert f[|f| - 1] == '.';
    } else {
      var init := ext[..|ext| - 1];
      assert f[..|f| - 1] == name + "." + init;
      AfterLastDotSuffix(name, init);
      assert ext == init + [ext[|ext| - 1]];
    }
  }

  // ----- the AI planner's week count -----

  /** `max(1, days_remaining // 7)`: Python's floor division, which for the divisor 7 is
      Dafny's division. */
  function WeeksRemaining(daysRemaining: int): (w: int)
    ensures w >= 1
    ensures daysRemaining >= 7 ==> 7 * w <= daysRemaining < 7 * (w + 1)
    ensures daysRemaining < 14 ==> w == 1
  {
    var q := daysRemaining / 7;
    if q < 1 then 1 else q
  }
}
