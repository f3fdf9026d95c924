/** Reading workspace files: the ranged download loop, and the viewer's decoding
    of a possibly truncated UTF-8 prefix. */
module FileBrowser {
  import opened CodeUnits
  import Utf8

  type Bytes = seq<Utf8.Byte>

  // ---------- Ranged download ----------

  /** One reply to `readWorkspaceFile`; `content` is None when the payload is not base64. */
  datatype Reply =
    | Rejected
    | Part(content: Option<Bytes>, byteLen: int, totalSize: int, eof: bool, mtimeMs: Option<int>)

  datatype DownloadError = RequestFailed | SizeChanged | BadPayload | LengthMismatch | EmptyChunk | PastEnd | WrongTotal

  datatype Download = Downloaded(bytes: Bytes, totalSize: int, mtimeMs: Option<int>) | Failed(error: DownloadError)

  /** Any server: its answer may depend on how often it was asked, and on the range. */
  type Server = (nat, nat, nat) -> Reply

  function Flatten(chunks: seq<Bytes>): Bytes {
    if chunks == [] then [] else Flatten(chunks[..|chunks| - 1]) + chunks[|chunks| - 1]
  }

  function Lengths(chunks: seq<Bytes>): nat {
    if chunks == [] then 0 else Lengths(chunks[..|chunks| - 1]) + |chunks[|chunks| - 1]|
  }

  lemma {:induction false} FlattenLength(chunks: seq<Bytes>)
    ensures |Flatten(chunks)| == Lengths(chunks)
  {
    if chunks != [] {
      FlattenLength(chunks[..|chunks| - 1]);
    }
  }

  lemma {:induction false} FlattenPrefix(chunks: seq<Bytes>, i: nat)
    requires i <= |chunks|
    ensures Flatten(chunks[..i]) <= Flatten(chunks)
    decreases |chunks|
  {
    if i < |chunks| {
      var init := chunks[..|chunks| - 1];
      FlattenPrefix(init, i);
      assert init[..i] == chunks[..i];
    } else {
      assert chunks[..i] == chunks;
    }
  }

  /** `concatBytes`: copy every chunk into one buffer. */
  method ConcatBytes(chunks: seq<Bytes>) returns (out: array<Utf8.Byte>)
    ensures fresh(out) && out[..] == Flatten(chunks)
  {
    var total := 0;
    for i := 0 to |chunks|
      invariant total == Lengths(chunks[..i])
    {
      assert chunks[..i + 1][..i] == chunks[..i];
      total := total + |chunks[i]|;
    }
    assert chunks[..|chunks|] == chunks;
    out := new Utf8.Byte[total](_ => 0);
    var offset := 0;
    FlattenLength(chunks);
    for i := 0 to |chunks|
      invariant offset == |Flatten(chunks[..i])| <= total
      invariant out[..offset] == Flatten(chunks[..i])
    {
      assert chunks[..i + 1][..i] == chunks[..i];
      FlattenPrefix(chunks, i + 1);
      for k := 0 to |chunks[i]|
        invariant out[..offset + k] == Flatten(chunks[..i]) + chunks[i][..k]
      {
        out[offset + k] := chunks[i][k];
        assert chunks[i][..k + 1] == chunks[i][..k] + [chunks[i][k]];
      }
      assert chunks[i][..|chunks[i]|] == chunks[i];
      offset := offset + |chunks[i]|;
    }
  }

  ghost function ReplyAt(server: Server, chunkBytes: nat, chunks: seq<Bytes>, i: nat): Reply
    requires i <= |chunks|
  {
    server(i, |Flatten(chunks[..i])|, chunkBytes)
  }

  ghost predicate Answered(server: Server, chunkBytes: nat, chunks: seq<Bytes>, i: nat, totalSize: int)
    requires i < |chunks|
  {
    var reply := ReplyAt(server, chunkBytes, chunks, i);
    && reply.Part? && reply.content == Some(chunks[i])
    && reply.byteLen == |chunks[i]| && reply.totalSize == totalSize
  }

  ghost predicate AnsweredAll(server: Server, chunkBytes: nat, chunks: seq<Bytes>, totalSize: int, ended: bool) {
    forall i | 0 <= i < |chunks| ::
      && Answered(server, chunkBytes, chunks, i, totalSize)
      && (ReplyAt(server, chunkBytes, chunks, i).eof <==> (ended && i == |chunks| - 1))
  }

  /** A server that serves `file`: the longest range it may return, flagged when it reaches the end. */
  ghost predicate Honest(server: Server, file: Bytes, mtimeMs: Option<int>) {
    forall n: nat, offset: nat, max: nat :: HonestReply(server(n, offset, max), file, mtimeMs, offset, max)
  }

  ghost predicate HonestReply(reply: Reply, file: Bytes, mtimeMs: Option<int>, offset: nat, max: nat) {
    offset <= |file| ==>
      var end := if max < |file| - offset then offset + max else |file|;
      reply == Part(Some(file[offset..end]), end - offset, |file|, end == |file|, mtimeMs)
  }

  /** The loop's variables; `offset` is the number of bytes received. */
  datatype Progress = Progress(chunks: seq<Bytes>, offset: nat, totalSize: Option<int>, mtimeMs: Option<int>, eof: bool)

  datatype Iteration = Continue(progress: Progress) | Throw(error: DownloadError)

  /** One iteration: the checks in order, then the new variables. */
  function Accept(p: Progress, reply: Reply): Iteration {
    if reply.Rejected? then Throw(RequestFailed)
    else if p.totalSize.Some? && reply.totalSize != p.totalSize.value then Throw(SizeChanged)
    else if reply.content.None? then Throw(BadPayload)
    else
      var bytes := reply.content.value;
      var offset := p.offset + |bytes|;
      if |bytes| != reply.byteLen then Throw(LengthMismatch)
      else if !reply.eof && |bytes| == 0 then Throw(EmptyChunk)
      else if !reply.eof && offset > reply.totalSize then Throw(PastEnd)
      else
        Continue(Progress(p.chunks + [bytes], offset, Some(reply.totalSize),
                          if p.totalSize.None? then reply.mtimeMs else p.mtimeMs, reply.eof))
  }

  function OrZero(value: Option<int>): int {
    if value.Some? then value.value else 0
  }

  lemma AnsweredSnoc(server: Server, chunkBytes: nat, chunks: seq<Bytes>, chunk: Bytes, totalSize: int)
    requires AnsweredAll(server, chunkBytes, chunks, totalSize, false)
    requires var reply := server(|chunks|, |Flatten(chunks)|, chunkBytes);
             reply.Part? && reply.content == Some(chunk) && reply.byteLen == |chunk| && reply.totalSize == totalSize
    ensures AnsweredAll(server, chunkBytes, chunks + [chunk], totalSize,
                        server(|chunks|, |Flatten(chunks)|, chunkBytes).eof)
  {
    var next := chunks + [chunk];
    assert chunks[..|chunks|] == chunks;
    assert next[..|chunks|] == chunks;
    forall i | 0 <= i < |next|
      ensures ReplyAt(server, chunkBytes, next, i) == ReplyAt(server, chunkBytes, chunks, i)
    {
      assert next[..i] == chunks[..i];
    }
    assert forall i | 0 <= i < |chunks| :: Answered(server, chunkBytes, chunks, i, totalSize);
  }

  lemma FlattenSnoc(chunks: seq<Bytes>, chunk: Bytes)
    ensures Flatten(chunks + [chunk]) == Flatten(chunks) + chunk
  {
    assert (chunks + [chunk])[..|chunks|] == chunks;
  }

  /** What the loop keeps against any server. */
  ghost predicate Sound(server: Server, chunkBytes: nat, p: Progress) {
    && p.offset == |Flatten(p.chunks)|
    && (p.totalSize.None? <==> p.chunks == [])
    && AnsweredAll(server, chunkBytes, p.chunks, OrZero(p.totalSize), p.eof)
    && (p.eof ==> p.totalSize.Some?)
    && (!p.eof && p.totalSize.Some? ==> p.offset <= p.totalSize.value)
  }

  lemma AcceptSound(server: Server, chunkBytes: nat, p: Progress)
    requires Sound(server, chunkBytes, p) && !p.eof
    ensures var next := Accept(p, server(|p.chunks|, p.offset, chunkBytes));
            next.Continue? ==>
              && Sound(server, chunkBytes, next.progress)
              && next.progress.totalSize.Some?
              && (!next.progress.eof && p.totalSize.Some? ==>
                    next.progress.totalSize == p.totalSize && next.progress.offset > p.offset)
  {
    var reply := server(|p.chunks|, p.offset, chunkBytes);
    if Accept(p, reply).Continue? {
      AnsweredSnoc(server, chunkBytes, p.chunks, reply.content.value, reply.totalSize);
      FlattenSnoc(p.chunks, reply.content.value);
      hide AnsweredAll, Flatten;
    }
  }

  /** What the loop keeps against a server that serves `file`. */
  ghost predicate Tracks(p: Progress, file: Bytes, mtimeMs: Option<int>, chunkBytes: nat) {
    && p.offset <= |file| && Flatten(p.chunks) == file[..p.offset]
    && (p.totalSize.Some? ==> p.totalSize.value == |file| && p.mtimeMs == mtimeMs)
    && (p.eof ==> p.offset == |file|)
    && (chunkBytes == 0 && file != [] ==> p.totalSize.None? && p.offset == 0)
  }

  lemma AcceptTracks(server: Server, chunkBytes: nat, p: Progress, file: Bytes, mtimeMs: Option<int>)
    requires Honest(server, file, mtimeMs) && Tracks(p, file, mtimeMs, chunkBytes) && !p.eof
    ensures var next := Accept(p, server(|p.chunks|, p.offset, chunkBytes));
            if chunkBytes > 0 || file == [] then next.Continue? && Tracks(next.progress, file, mtimeMs, chunkBytes)
            else next == Throw(EmptyChunk)
  {
    var reply := server(|p.chunks|, p.offset, chunkBytes);
    assert HonestReply(reply, file, mtimeMs, p.offset, chunkBytes);
    var end := p.offset + reply.byteLen;
    FlattenSnoc(p.chunks, reply.content.value);
    assert file[..p.offset] + file[p.offset..end] == file[..end];
    hide Flatten, Honest;
  }

  ghost predicate TracksAll(server: Server, p: Progress, chunkBytes: nat) {
    forall file: Bytes, mtimeMs: Option<int> | Honest(server, file, mtimeMs) :: Tracks(p, file, mtimeMs, chunkBytes)
  }

  /** The result every honest server obtains. */
  ghost predicate ServesFile(server: Server, chunkBytes: nat, r: Download) {
    forall file: Bytes, mtimeMs: Option<int> | Honest(server, file, mtimeMs) ::
      r == if chunkBytes > 0 || file == [] then Downloaded(file, |file|, mtimeMs) else Failed(EmptyChunk)
  }

  lemma IterationTracks(server: Server, chunkBytes: nat, p: Progress)
    requires TracksAll(server, p, chunkBytes) && !p.eof
    ensures var next := Accept(p, server(|p.chunks|, p.offset, chunkBytes));
            && (next.Continue? ==> TracksAll(server, next.progress, chunkBytes))
            && (next.Throw? ==> ServesFile(server, chunkBytes, Failed(next.error)))
  {
    forall file: Bytes, mtimeMs: Option<int> | Honest(server, file, mtimeMs)
      ensures var next := Accept(p, server(|p.chunks|, p.offset, chunkBytes));
              if chunkBytes > 0 || file == [] then next.Continue? && Tracks(next.progress, file, mtimeMs, chunkBytes)
              else next == Throw(EmptyChunk)
    {
      assert Tracks(p, file, mtimeMs, chunkBytes);
      AcceptTracks(server, chunkBytes, p, file, mtimeMs);
    }
    hide Tracks, Honest, Accept;
  }

  lemma NothingYet(server: Server, chunkBytes: nat)
    ensures var p := Progress([], 0, None, None, false);
            Sound(server, chunkBytes, p) && TracksAll(server, p, chunkBytes)
  {
    var p := Progress([], 0, None, None, false);
    forall file: Bytes, mtimeMs: Option<int> | Honest(server, file, mtimeMs)
      ensures Tracks(p, file, mtimeMs, chunkBytes)
    {
    }
  }

  lemma Complete(server: Server, chunkBytes: nat, p: Progress)
    requires TracksAll(server, p, chunkBytes) && p.eof && p.totalSize.Some?
    ensures |Flatten(p.chunks)| == p.totalSize.value ==>
              ServesFile(server, chunkBytes, Downloaded(Flatten(p.chunks), p.totalSize.value, p.mtimeMs))
    ensures |Flatten(p.chunks)| != p.totalSize.value ==> ServesFile(server, chunkBytes, Failed(WrongTotal))
  {
    forall file: Bytes, mtimeMs: Option<int> | Honest(server, file, mtimeMs)
      ensures Flatten(p.chunks) == file && p.totalSize.value == |file| && p.mtimeMs == mtimeMs
      ensures chunkBytes > 0 || file == []
    {
      assert Tracks(p, file, mtimeMs, chunkBytes);
    }
  }

  /** `downloadWorkspaceFile`. Against any server it terminates, and a returned file is the
      in-order concatenation of the chunks received, as long as the size the server reported
      throughout. Against a server that serves a file it returns that file, for every size
      and every positive chunk size. */
  method DownloadWorkspaceFile(server: Server, chunkBytes: nat) returns (r: Download)
    ensures r.Downloaded? ==> |r.bytes| == r.totalSize && exists chunks ::
              AnsweredAll(server, chunkBytes, chunks, r.totalSize, true) && r.bytes == Flatten(chunks)
    ensures ServesFile(server, chunkBytes, r)
  {
    var p := Progress([], 0, None, None, false);
    NothingYet(server, chunkBytes);
    hide TracksAll, ServesFile, Accept, Flatten;
    while !p.eof
      invariant Sound(server, chunkBytes, p) && TracksAll(server, p, chunkBytes)
      decreases !p.eof, p.totalSize.None?, if p.totalSize.Some? then p.totalSize.value - p.offset else 0
    {
      var reply := server(|p.chunks|, p.offset, chunkBytes);
      AcceptSound(server, chunkBytes, p);
      IterationTracks(server, chunkBytes, p);
      match Accept(p, reply) {
        case Throw(error) => return Failed(error);
        case Continue(next) => p := next;
      }
    }
    var buffer := ConcatBytes(p.chunks);
    var bytes := buffer[..];
    Complete(server, chunkBytes, p);
    if |bytes| != p.totalSize.value { return Failed(WrongTotal); }
    return Downloaded(bytes, p.totalSize.value, p.mtimeMs);
  }

  // ---------- Decoding a truncated prefix ----------

  /** A fatal UTF-8 decoder: the code points, or None for ill-formed bytes. */
  function DecodeText(bytes: Bytes): Option<seq<int>>
    decreases |bytes|
  {
    if bytes == [] then Some([])
    else
      var n := Utf8.LeadLength(bytes[0]);
      if n == 0 || n > |bytes| then None
      else
        match Utf8.Decode(bytes[..n])
        case None => None
        case Some(cp) =>
          match DecodeText(bytes[n..])
          case None => None
          case Some(rest) => Some([cp] + rest)
  }

  predicate ValidText(bytes: Bytes) { DecodeText(bytes).Some? }

  /** `TextDecoder` drops a leading byte order mark. */
  function StripBom(text: seq<int>): seq<int> {
    if text != [] && text[0] == 0xFEFF then text[1..] else text
  }

  datatype TextPrefix = TextPrefix(text: seq<int>, binary: bool)

  /** The first `k` bytes decode. */
  predicate ValidTo(bytes: Bytes, k: nat) {
    k <= |bytes| && ValidText(bytes[..k])
  }

  /** The whole buffer, or a non-empty prefix at most three bytes shorter. */
  predicate MayEnd(bytes: Bytes, k: nat) {
    k == |bytes| || 1 <= k < |bytes| <= k + 3
  }

  function TextTo(bytes: Bytes, k: nat): seq<int>
    requires ValidTo(bytes, k)
  {
    StripBom(DecodeText(bytes[..k]).value)
  }

  ghost predicate LongestEnd(bytes: Bytes, k: nat) {
    MayEnd(bytes, k) && ValidTo(bytes, k) && forall j | k < j && MayEnd(bytes, j) :: !ValidTo(bytes, j)
  }

  /** The text of the longest admissible prefix that decodes; binary when there is none, or
      a NUL anywhere. */
  ghost predicate Reports(bytes: Bytes, r: TextPrefix) {
    if r.binary then
      r.text == [] && (0 in bytes || forall k: nat | MayEnd(bytes, k) :: !ValidTo(bytes, k))
    else
      0 !in bytes && exists k: nat | LongestEnd(bytes, k) :: r.text == TextTo(bytes, k)
  }

  /** `bytesToUtf8Prefix` */
  method BytesToUtf8Prefix(bytes: Bytes) returns (r: TextPrefix)
    ensures Reports(bytes, r)
  {
    if 0 in bytes { return TextPrefix([], true); }
    assert bytes[..|bytes|] == bytes;
    var whole := DecodeText(bytes);
    if whole.Some? {
      assert LongestEnd(bytes, |bytes|);
      return TextPrefix(StripBom(whole.value), false);
    }
    var trim := 1;
    while trim <= 3 && trim < |bytes|
      invariant 1 <= trim <= 4
      invariant forall j | |bytes| - trim < j && MayEnd(bytes, j) :: !ValidTo(bytes, j)
    {
      var k := |bytes| - trim;
      var text := DecodeText(bytes[..k]);
      if text.Some? {
        assert LongestEnd(bytes, k);
        return TextPrefix(StripBom(text.value), false);
      }
      trim := trim + 1;
    }
    return TextPrefix([], true);
  }

  /** The end of the last whole code point within the first `n` bytes. */
  function WholeEnd(text: Bytes, n: nat): nat
    requires ValidText(text)
    decreases |text|
  {
    if text == [] then 0
    else
      var m := Utf8.LeadLength(text[0]);
      if m > n then 0 else m + WholeEnd(text[m..], n - m)
  }

  lemma ValidFirst(text: Bytes)
    requires ValidText(text) && text != []
    ensures var m := Utf8.LeadLength(text[0]);
            1 <= m <= |text| && Utf8.Decode(text[..m]).Some? && ValidText(text[m..])
  {
  }

  /** Beyond its first code point, a prefix is valid when the rest of it is. */
  lemma ValidBeyond(text: Bytes, j: nat)
    requires ValidText(text) && text != [] && Utf8.LeadLength(text[0]) <= j <= |text|
    ensures var m := Utf8.LeadLength(text[0]); ValidTo(text, j) <==> ValidTo(text[m..], j - m)
  {
    var m := Utf8.LeadLength(text[0]);
    ValidFirst(text);
    assert text[..j][..m] == text[..m];
    assert text[..j][m..] == text[m..][..j - m];
  }

  lemma BrokenIsInvalid(text: Bytes, j: nat)
    requires text != [] && 0 < j <= |text| && j < Utf8.LeadLength(text[0])
    ensures !ValidTo(text, j)
  {
    assert text[..j][0] == text[0];
  }

  /** Cutting a text leaves at most three bytes after the last whole code point, the prefix
      up to there is valid, and no longer prefix of the cut is. */
  lemma {:induction false} CutFacts(text: Bytes, n: nat)
    requires ValidText(text) && n <= |text|
    ensures WholeEnd(text, n) <= n <= WholeEnd(text, n) + 3
    ensures ValidTo(text, WholeEnd(text, n))
    ensures forall j: nat | WholeEnd(text, n) < j <= n :: !ValidTo(text, j)
    decreases |text|
  {
    assert text[..0] == [] && ValidTo(text, 0);
    if text != [] {
      var m := Utf8.LeadLength(text[0]);
      ValidFirst(text);
      hide ValidText, ValidTo, Utf8.LeadLength, Utf8.Decode;
      forall j: nat | 0 < j <= n && j < m
        ensures !ValidTo(text, j)
      {
        BrokenIsInvalid(text, j);
      }
      if m <= n {
        CutFacts(text[m..], n - m);
        forall j: nat | m <= j <= n
          ensures ValidTo(text, j) <==> ValidTo(text[m..], j - m)
        {
          ValidBeyond(text, j);
        }
      }
    }
  }

  lemma CutValid(text: Bytes, n: nat, j: nat)
    requires j <= n <= |text|
    ensures ValidTo(text[..n], j) <==> ValidTo(text, j)
    ensures ValidTo(text, j) ==> TextTo(text[..n], j) == TextTo(text, j)
  {
    assert text[..n][..j] == text[..j];
  }

  /** For every cut of NUL-free valid text: the whole code points are shown, unless the cut
      is non-empty and holds none, which is reported as binary. */
  lemma CutTextIsShown(text: Bytes, n: nat, r: TextPrefix)
    requires ValidText(text) && 0 !in text && n <= |text|
    requires Reports(text[..n], r)
    ensures r.binary <==> n > 0 && WholeEnd(text, n) == 0
    ensures !r.binary ==> ValidTo(text, WholeEnd(text, n)) && r.text == TextTo(text, WholeEnd(text, n))
  {
    hide WholeEnd, ValidTo, TextTo, ValidText, DecodeText;
    var bytes := text[..n];
    var k := WholeEnd(text, n);
    CutFacts(text, n);
    forall j: nat | j <= n
      ensures ValidTo(bytes, j) <==> ValidTo(text, j)
    {
      CutValid(text, n, j);
    }
    if r.binary {
      assert !MayEnd(bytes, k);
    } else {
      var end: nat :| LongestEnd(bytes, end) && r.text == TextTo(bytes, end);
      assert end <= k;
      assert MayEnd(bytes, k);
      CutValid(text, n, k);
    }
  }

  /** At most three bytes are dropped whenever text is reported, whatever they are. */
  lemma AtMostThreeDropped(bytes: Bytes, r: TextPrefix)
    requires Reports(bytes, r) && !r.binary
    ensures exists k: nat | ValidTo(bytes, k) :: |bytes| <= k + 3 && r.text == TextTo(bytes, k)
  {
    var k: nat :| LongestEnd(bytes, k) && r.text == TextTo(bytes, k);
    assert ValidTo(bytes, k);
  }

  // ---------- Which buffers are cuts ----------

  /** The first bytes of some NUL-free text. */
  ghost predicate IsCut(bytes: Bytes) {
    exists text: Bytes :: ValidText(text) && 0 !in text && bytes <= text
  }

  /** The second bytes a lead byte admits: no overlong form, no surrogate, nothing above
      U+10FFFF (section 4 of RFC 3629). */
  predicate SecondByteOk(lead: Utf8.Byte, second: Utf8.Byte) {
    && Utf8.IsContinuation(second)
    && (lead == 0xE0 ==> second >= 0xA0) && (lead == 0xED ==> second < 0xA0)
    && (lead == 0xF0 ==> second >= 0x90) && (lead == 0xF4 ==> second < 0x90)
  }

  /** A multi-byte sequence that breaks off: a lead byte that announces more than is there. */
  predicate Incomplete(tail: Bytes) {
    && 1 <= |tail| <= 3 && 0xC2 <= tail[0] <= 0xF4 && |tail| < Utf8.LeadLength(tail[0])
    && (|tail| >= 2 ==> SecondByteOk(tail[0], tail[1]))
    && (|tail| >= 3 ==> Utf8.IsContinuation(tail[2]))
  }

  /** Incomplete sequences are the proper beginnings of encoded code points. */
  lemma BrokenOffIsIncomplete(whole: Bytes, n: nat)
    requires 1 <= n < |whole| && Utf8.Decode(whole).Some?
    ensures Incomplete(whole[..n])
  {
    var size := |whole|;
    forall i | 1 <= i < size
      ensures Utf8.IsContinuation(whole[i])
    {
      assert whole[i] == whole[1..][i - 1];
    }
    var mark: int := if size == 2 then 0xC0 else if size == 3 then 0xE0 else 0xF0;
    Utf8.PayloadUnfold(whole[0] as int - mark, whole[1..]);
  }

  function FirstSecond(lead: Utf8.Byte): Utf8.Byte { if lead == 0xE0 then 0xA0 else if lead == 0xF0 then 0x90 else 0x80 }

  /** The least code point that starts with the sequence. */
  function Completion(tail: Bytes): Bytes
    requires Incomplete(tail)
  {
    var second := if |tail| >= 2 then tail[1] else FirstSecond(tail[0]);
    var third: Utf8.Byte := if |tail| >= 3 then tail[2] else 0x80;
    match Utf8.LeadLength(tail[0])
    case 2 => [tail[0], second]
    case 3 => [tail[0], second, third]
    case _ => [tail[0], second, third, 0x80]
  }

  lemma CompletionDecodes(tail: Bytes)
    requires Incomplete(tail)
    ensures var whole := Completion(tail);
            tail < whole && whole != [] && Utf8.Decode(whole).Some? && 0 !in whole
  {
    var whole := Completion(tail);
    var size := |whole|;
    assert size == Utf8.LeadLength(tail[0]);
    var mark: int := if size == 2 then 0xC0 else if size == 3 then 0xE0 else 0xF0;
    Utf8.PayloadUnfold(whole[0] as int - mark, whole[1..]);
    assert tail == whole[..|tail|];
  }

  lemma OneCodePoint(whole: Bytes)
    requires whole != [] && Utf8.Decode(whole).Some?
    ensures ValidText(whole)
  {
    assert whole[..|whole|] == whole && whole[|whole|..] == [];
  }

  lemma {:induction false} ValidConcat(a: Bytes, b: Bytes)
    requires ValidText(a) && ValidText(b)
    ensures ValidText(a + b)
    decreases |a|
  {
    if a == [] {
      assert a + b == b;
    } else {
      var n := Utf8.LeadLength(a[0]);
      assert (a + b)[..n] == a[..n] && (a + b)[n..] == a[n..] + b;
      ValidConcat(a[n..], b);
    }
  }

  /** The text from the first code point that the cut breaks off. */
  function FromWhole(text: Bytes, n: nat): Bytes
    requires ValidText(text)
    decreases |text|
  {
    if text == [] || Utf8.LeadLength(text[0]) > n then text
    else FromWhole(text[Utf8.LeadLength(text[0])..], n - Utf8.LeadLength(text[0]))
  }

  lemma {:induction false} FromWholeIsRest(text: Bytes, n: nat)
    requires ValidText(text)
    ensures WholeEnd(text, n) <= |text| && FromWhole(text, n) == text[WholeEnd(text, n)..]
    decreases |text|
  {
    if text != [] {
      var m := Utf8.LeadLength(text[0]);
      ValidFirst(text);
      hide ValidText, Utf8.LeadLength, Utf8.Decode;
      if m <= n {
        FromWholeIsRest(text[m..], n - m);
        SliceTwice(text, m, WholeEnd(text[m..], n - m));
      }
    }
  }

  lemma SliceTwice(text: Bytes, a: nat, b: nat)
    requires a + b <= |text|
    ensures text[a..][b..] == text[a + b..]
  {
  }

  /** What a cut leaves after the last whole code point is the beginning of the next one. */
  lemma {:induction false} CutTail(text: Bytes, n: nat)
    requires ValidText(text) && n <= |text| && WholeEnd(text, n) < n
    ensures var rest := FromWhole(text, n);
            && rest != [] && ValidText(rest) && Utf8.LeadLength(rest[0]) > n - WholeEnd(text, n)
    decreases |text|
  {
    var m := Utf8.LeadLength(text[0]);
    ValidFirst(text);
    hide ValidText, Utf8.Decode, Utf8.LeadLength;
    if m <= n {
      CutTail(text[m..], n - m);
    }
  }

  /** The last whole code point of a cut is where the longest shown prefix ends. */
  lemma LongestIsWhole(text: Bytes, n: nat, k: nat)
    requires ValidText(text) && n <= |text| && LongestEnd(text[..n], k)
    ensures k == WholeEnd(text, n)
  {
    var bytes := text[..n];
    var end := WholeEnd(text, n);
    CutFacts(text, n);
    CutValid(text, n, end);
    CutValid(text, n, k);
    assert ValidTo(bytes, k) && k <= n;
    hide WholeEnd, ValidTo;
  }

  lemma ShownIsCut(bytes: Bytes, k: nat)
    requires 0 !in bytes && LongestEnd(bytes, k) && (k == |bytes| || Incomplete(bytes[k..]))
    ensures IsCut(bytes)
  {
    if k == |bytes| {
      assert bytes[..k] == bytes;
    } else {
      var tail := bytes[k..];
      var whole := Completion(tail);
      CompletionDecodes(tail);
      OneCodePoint(whole);
      ValidConcat(bytes[..k], whole);
      var head := bytes[..k];
      var text := head + whole;
      assert bytes == head + tail;
      assert text[..|bytes|] == bytes;
      assert 0 !in head;
      assert 0 !in text;
      assert bytes <= text;
    }
  }

  lemma CutIsShown(bytes: Bytes, k: nat)
    requires IsCut(bytes) && LongestEnd(bytes, k) && k < |bytes|
    ensures Incomplete(bytes[k..])
  {
    var text: Bytes :| ValidText(text) && 0 !in text && bytes <= text;
    var n := |bytes|;
    assert text[..n] == bytes;
    hide LongestEnd, WholeEnd, Incomplete, ValidText, Utf8.Decode, Utf8.LeadLength;
    LongestIsWhole(text, n, k);
    CutTail(text, n);
    FromWholeIsRest(text, n);
    var rest := text[k..];
    ValidFirst(rest);
    var whole := rest[..Utf8.LeadLength(rest[0])];
    BrokenOffIsIncomplete(whole, n - k);
    assert whole[..n - k] == bytes[k..];
  }

  /** Of the buffers shown as text, exactly those are cuts of NUL-free text whose dropped tail
      is empty or an incomplete sequence. */
  lemma ShownTextIsCutIff(bytes: Bytes, r: TextPrefix) returns (k: nat)
    requires Reports(bytes, r) && !r.binary
    ensures LongestEnd(bytes, k) && r.text == TextTo(bytes, k)
    ensures IsCut(bytes) <==> k == |bytes| || Incomplete(bytes[k..])
  {
    k :| LongestEnd(bytes, k) && r.text == TextTo(bytes, k);
    hide Incomplete, IsCut;
    if k == |bytes| || Incomplete(bytes[k..]) {
      ShownIsCut(bytes, k);
    }
    if IsCut(bytes) && k < |bytes| {
      CutIsShown(bytes, k);
    }
  }

  /** `a` followed by 0xFF is no cut of any text, and is shown as `a`. */
  lemma GarbageTailIsShown(r: TextPrefix)
    requires Reports([0x61, 0xFF], r)
    ensures r == TextPrefix([0x61], false) && !IsCut([0x61, 0xFF])
  {
    var bytes: Bytes := [0x61, 0xFF];
    var a: Bytes := [0x61];
    var tail: Bytes := [0xFF];
    assert a[..1] == a && a[1..] == [];
    assert Utf8.Decode(a) == Some(0x61);
    assert DecodeText([]) == Some([]);
    assert DecodeText(a) == Some([0x61] + []);
    assert [0x61] + [] == [0x61];
    assert bytes[..2] == bytes && bytes[..1] == a && bytes[1..] == tail;
    assert DecodeText(tail).None?;
    assert !ValidTo(bytes, 2) && ValidTo(bytes, 1);
    assert MayEnd(bytes, 1) && LongestEnd(bytes, 1);
    hide IsCut;
    if IsCut(bytes) {
      CutIsShown(bytes, 1);
      assert false;
    }
  }
}
