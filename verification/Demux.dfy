/** Docker's multiplexed log stream: frames of an 8-byte header and a payload. */
module Demux {

  import opened Prelude

  newtype Byte = x: int | 0 <= x < 256
  type Bytes = seq<Byte>

  const HEADER := 8

  /** The number in the `k` bytes from `i`, most significant first. */
  function BigAt(s: Bytes, i: nat, k: nat): nat
    requires i + k <= |s|
  {
    if k == 0 then 0 else BigAt(s, i, k - 1) * 256 + s[i + k - 1] as int
  }

  lemma ButTheLast(s: Bytes, i: nat, k: nat)
    requires 0 < k && i + k <= |s|
    ensures s[i..i + k - 1] == s[i..i + k][..k - 1] && s[i + k - 1] == s[i..i + k][k - 1]
  {
  }

  lemma {:induction false} SameBytes(s: Bytes, i: nat, t: Bytes, j: nat, k: nat)
    requires i + k <= |s| && j + k <= |t| && s[i..i + k] == t[j..j + k]
    ensures BigAt(s, i, k) == BigAt(t, j, k)
  {
    if k > 0 {
      ButTheLast(s, i, k);
      ButTheLast(t, j, k);
      SameBytes(s, i, t, j, k - 1);
    }
  }

  function ToBig(n: nat, k: nat): (b: Bytes)
    ensures |b| == k
  {
    if k == 0 then [] else ToBig(n / 256, k - 1) + [(n % 256) as Byte]
  }

  function Pow256(k: nat): (p: nat)
    ensures p > 0
  {
    if k == 0 then 1 else 256 * Pow256(k - 1)
  }

  lemma {:induction false} BigRoundTrip(n: nat, k: nat)
    requires n < Pow256(k)
    ensures BigAt(ToBig(n, k), 0, k) == n
  {
    if k > 0 {
      BigRoundTrip(n / 256, k - 1);
      SameBytes(ToBig(n, k), 0, ToBig(n / 256, k - 1), 0, k - 1);
    }
  }

  /** The payload length in the header at the front. */
  function Size(s: Bytes): nat
    requires HEADER <= |s|
  {
    BigAt(s, 4, 4)
  }

  // ---- the loop and its meaning ----------------------------------------------------------

  /** The payloads of a stream: the last one may be cut short, a cut header is ignored. */
  function Payloads(s: Bytes): (out: Bytes)
    decreases |s|
  {
    if |s| < HEADER then []
    else
      var end := Min(HEADER + Size(s), |s|);
      s[HEADER..end] + Payloads(s[end..])
  }

  /** What the program returns: a stream too short for one header comes back as it is. */
  function Demuxed(s: Bytes): Bytes {
    if |s| < HEADER then s else Payloads(s)
  }

  /** The chunks taken so far and the payloads still ahead make up the whole. */
  predicate Seen(out: seq<Bytes>, s: Bytes, i: nat) {
    i <= |s| && Concat(out) + Payloads(s[i..]) == Payloads(s)
  }

  /** Python's slices are clipped at the end, and the index may run past it. */
  method Demux(payload: Bytes) returns (logs: Bytes)
    ensures logs == Demuxed(payload)
  {
    var out: seq<Bytes> := [];
    var i := 0;
    Start(payload);
    while i + HEADER <= |payload|
      invariant |out| == 0 <==> i == 0
      invariant i > 0 ==> HEADER <= |payload|
      invariant Seen(out, payload, Min(i, |payload|))
    {
      var n := BigAt(payload, i + 4, 4);
      var chunk := payload[i + 8..Min(i + 8 + n, |payload|)];
      LoopStep(out, payload, i, n);
      out := out + [chunk];
      i := i + 8 + n;
    }
    Finish(out, payload, Min(i, |payload|));
    logs := if |out| > 0 then Concat(out) else payload;
  }

  lemma Start(s: Bytes)
    ensures Seen([], s, 0)
  {
    assert s[0..] == s;
  }

  lemma Finish(out: seq<Bytes>, s: Bytes, i: nat)
    requires Seen(out, s, i) && |s| < i + HEADER
    ensures Concat(out) == Payloads(s)
  {
    assert Payloads(s[i..]) == [];
  }

  lemma LoopStep(out: seq<Bytes>, s: Bytes, i: nat, n: nat)
    requires i + HEADER <= |s| && n == BigAt(s, i + 4, 4)
    requires Seen(out, s, i)
    ensures Seen(out + [s[i + 8..Min(i + 8 + n, |s|)]], s, Min(i + 8 + n, |s|))
  {
    var end := Min(i + 8 + n, |s|);
    TakeFrame(s, i, end);
    Regroup(out, s[i + 8..end], Payloads(s[i..]), Payloads(s[end..]));
  }

  lemma TakeFrame(s: Bytes, i: nat, end: nat)
    requires i + HEADER <= |s| && end == Min(i + 8 + BigAt(s, i + 4, 4), |s|)
    ensures Payloads(s[i..]) == s[i + 8..end] + Payloads(s[end..])
  {
    var t := s[i..];
    SameBytes(t, 4, s, i + 4, 4);
    assert t[8..end - i] == s[i + 8..end] && t[end - i..] == s[end..];
  }

  lemma Regroup(out: seq<Bytes>, chunk: Bytes, ahead: Bytes, rest: Bytes)
    requires ahead == chunk + rest
    ensures Concat(out + [chunk]) + rest == Concat(out) + ahead
  {
    ConcatMore(out, chunk);
    assert Concat(out) + (chunk + rest) == Concat(out) + chunk + rest;
  }

  function Concat(parts: seq<Bytes>): Bytes {
    if parts == [] then [] else parts[0] + Concat(parts[1..])
  }

  lemma {:induction false} ConcatMore(parts: seq<Bytes>, last: Bytes)
    ensures Concat(parts + [last]) == Concat(parts) + last
  {
    if parts == [] {
      assert Concat([last]) == last + Concat([]);
    } else {
      assert (parts + [last])[1..] == parts[1..] + [last];
      ConcatMore(parts[1..], last);
    }
  }

  // ---- framing and back --------------------------------------------------------------------

  /** Stream type, three zero bytes and the payload's length, then the payload. */
  datatype Frame = Frame(kind: Byte, payload: Bytes)

  predicate Fits(f: Frame) {
    |f.payload| < Pow256(4)
  }

  predicate AllFit(frames: seq<Frame>) {
    forall i :: 0 <= i < |frames| ==> Fits(frames[i])
  }

  function Encode(f: Frame): (s: Bytes)
    requires Fits(f)
    ensures |s| == HEADER + |f.payload|
  {
    [f.kind, 0, 0, 0] + ToBig(|f.payload|, 4) + f.payload
  }

  function EncodeAll(frames: seq<Frame>): (s: Bytes)
    requires AllFit(frames)
    ensures frames != [] ==> |s| >= HEADER
  {
    if frames == [] then [] else Encode(frames[0]) + EncodeAll(frames[1..])
  }

  function Text(frames: seq<Frame>): (s: Bytes) {
    if frames == [] then [] else frames[0].payload + Text(frames[1..])
  }

  lemma EncodeParts(f: Frame)
    requires Fits(f)
    ensures Size(Encode(f)) == |f.payload| && Encode(f)[HEADER..] == f.payload
  {
    BigRoundTrip(|f.payload|, 4);
    SameBytes(Encode(f), 4, ToBig(|f.payload|, 4), 0, 4);
  }

  /** A stream that starts with a whole frame. */
  lemma PayloadsOfFrame(f: Frame, rest: Bytes)
    requires Fits(f)
    ensures Payloads(Encode(f) + rest) == f.payload + Payloads(rest)
  {
    var e := Encode(f);
    EncodeParts(f);
    SameBytes(e + rest, 4, e, 4, 4);
    assert (e + rest)[HEADER..|e|] == e[HEADER..] && (e + rest)[|e|..] == rest;
  }

  /** A stream cut inside its first frame. */
  lemma PayloadsOfCutFrame(f: Frame, cut: nat)
    requires Fits(f) && cut < |Encode(f)|
    ensures Payloads(Encode(f)[..cut]) == if cut < HEADER then [] else f.payload[..cut - HEADER]
  {
    if cut >= HEADER {
      var e := Encode(f);
      EncodeParts(f);
      SameBytes(e[..cut], 4, e, 4, 4);
      assert e[..cut][HEADER..cut] == e[HEADER..][..cut - HEADER] && e[..cut][cut..] == [];
    }
  }

  lemma CutPayloads(f: Frame, more: Bytes, cut: nat)
    requires Fits(f) && cut <= |Encode(f) + more|
    ensures Payloads((Encode(f) + more)[..cut]) ==
      if cut < HEADER then [] else if cut < |Encode(f)| then f.payload[..cut - HEADER]
      else f.payload + Payloads(more[..cut - |Encode(f)|])
  {
    var e := Encode(f);
    if cut < |e| {
      PayloadsOfCutFrame(f, cut);
      assert (e + more)[..cut] == e[..cut];
    } else {
      PayloadsOfFrame(f, more[..cut - |e|]);
      assert (e + more)[..cut] == e + more[..cut - |e|];
    }
  }

  /** How many bytes of text survive when the stream is cut after `cut` bytes. */
  function Surviving(frames: seq<Frame>, cut: nat): nat
    requires AllFit(frames)
  {
    if frames == [] || cut < HEADER then 0
    else if cut < |Encode(frames[0])| then cut - HEADER
    else |frames[0].payload| + Surviving(frames[1..], cut - |Encode(frames[0])|)
  }

  lemma TakeWithin(a: Bytes, b: Bytes, k: nat)
    requires k <= |a|
    ensures (a + b)[..k] == a[..k]
  {
  }

  lemma TakeBeyond(a: Bytes, b: Bytes, k: nat)
    requires k <= |b|
    ensures (a + b)[..|a| + k] == a + b[..k]
  {
  }

  /** A stream cut anywhere yields exactly the text whose bytes arrived: the headers are taken out, nothing else. */
  lemma {:induction false} PayloadsOfCut(frames: seq<Frame>, cut: nat)
    requires AllFit(frames) && cut <= |EncodeAll(frames)|
    ensures Surviving(frames, cut) <= |Text(frames)|
    ensures Payloads(EncodeAll(frames)[..cut]) == Text(frames)[..Surviving(frames, cut)]
    decreases |frames|
  {
    if frames != [] {
      var f, more := frames[0], EncodeAll(frames[1..]);
      CutPayloads(f, more, cut);
      if cut >= |Encode(f)| {
        PayloadsOfCut(frames[1..], cut - |Encode(f)|);
        TakeBeyond(f.payload, Text(frames[1..]), Surviving(frames[1..], cut - |Encode(f)|));
      } else if cut >= HEADER {
        TakeWithin(f.payload, Text(frames[1..]), cut - HEADER);
      }
    }
  }

  lemma {:induction false} WholeStream(frames: seq<Frame>)
    requires AllFit(frames)
    ensures Surviving(frames, |EncodeAll(frames)|) == |Text(frames)|
  {
    if frames != [] { WholeStream(frames[1..]); }
  }

  /** Demultiplexing undoes framing. */
  lemma DemuxInvertsFraming(frames: seq<Frame>)
    requires AllFit(frames)
    ensures Demuxed(EncodeAll(frames)) == Text(frames)
  {
    var s := EncodeAll(frames);
    WholeStream(frames);
    PayloadsOfCut(frames, |s|);
    assert s[..|s|] == s && Text(frames)[..|Text(frames)|] == Text(frames);
  }

  /** Of a stream cut after its first header, a prefix of the text is shown; cut earlier, the raw bytes are. */
  lemma CutStream(frames: seq<Frame>, cut: nat)
    requires AllFit(frames) && cut <= |EncodeAll(frames)|
    ensures Surviving(frames, cut) <= |Text(frames)|
    ensures Demuxed(EncodeAll(frames)[..cut]) ==
      if cut < HEADER then EncodeAll(frames)[..cut] else Text(frames)[..Surviving(frames, cut)]
  {
    PayloadsOfCut(frames, cut);
  }
}
