/**
A relay credential in several signed parts: how a client frames it, and how a
relay reads, verifies and admits it, all parts or none.
*/
module AuthBatch {
  import opened Wrappers

  datatype Error =
    | ErrRead | ErrProtocol | ErrOverload | ErrExpired
    | ErrVerify | ErrIdentity | ErrMerge | ErrAdmit | ErrAdmission

  const MAX_CONTROL := 131072
  const MAX_GRANT_PARTS := 32
  const FRAME_AUTH: Byte := 1
  const FRAME_AUTH_GENERATION: Byte := 7
  const FRAME_AUTH_BATCH: Byte := 8

  // ---- Frames -------------------------------------------------------------------

  function Put32(n: int): (b: Bytes)
    requires 0 <= n < 0x1_0000_0000
    ensures |b| == 4
  {
    var high := n / 256 / 256;
    [(high / 256) as Byte, (high % 256) as Byte, (n / 256 % 256) as Byte, (n % 256) as Byte]
  }

  function Get32(b: Bytes): (n: int)
    requires |b| == 4
    ensures 0 <= n < 0x1_0000_0000
  {
    ((b[0] as int * 256 + b[1] as int) * 256 + b[2] as int) * 256 + b[3] as int
  }

  lemma GetPut32(n: int)
    requires 0 <= n < 0x1_0000_0000
    ensures Get32(Put32(n)) == n
  {
  }

  /** The first byte is the most significant. */
  lemma BigEndian(n: int)
    requires 0 <= n < 0x1_0000_0000
    ensures var b := Put32(n); n == b[0] as int * 0x100_0000 + b[1] as int * 0x1_0000 + b[2] as int * 0x100 + b[3] as int
  {
    GetPut32(n);
  }

  function Frame(kind: Byte, body: Bytes): Bytes
    requires |body| <= MAX_CONTROL
  {
    [kind] + Put32(|body|) + body
  }

  datatype Reading = Read(kind: Byte, body: Bytes, rest: Bytes) | ReadError(error: Error, left: Bytes)

  /** What reading one frame takes from a stream; a stream that ends early is used up. */
  function ReadFrame(stream: Bytes): Reading {
    if |stream| < 5 then ReadError(ErrRead, [])
    else
      var n := Get32(stream[1..5]);
      if n > MAX_CONTROL then ReadError(ErrProtocol, stream[5..])
      else if |stream| < 5 + n then ReadError(ErrRead, [])
      else Read(stream[0], stream[5..5 + n], stream[5 + n..])
  }

  /** A frame read back from the stream it was written to, whatever follows it. */
  lemma ReadOwnFrame(kind: Byte, body: Bytes, more: Bytes)
    requires |body| <= MAX_CONTROL
    ensures ReadFrame(Frame(kind, body) + more) == Read(kind, body, more)
  {
    var stream := Frame(kind, body) + more;
    GetPut32(|body|);
    assert stream[1..5] == Put32(|body|);
    assert stream[5..5 + |body|] == body;
    assert stream[5 + |body|..] == more;
  }

  lemma LastByte(n: int, b: Byte)
    ensures (n * 256 + b as int) / 256 == n && (n * 256 + b as int) % 256 == b as int
  {
  }

  lemma PutGet32(b: Bytes)
    requires |b| == 4
    ensures Put32(Get32(b)) == b
  {
    var high := b[0] as int * 256 + b[1] as int;
    var low := high * 256 + b[2] as int;
    LastByte(high, b[2]);
    LastByte(low, b[3]);
    LastByte(b[0] as int, b[1]);
  }

  /** And back: a frame that was read is the frame that was written. */
  lemma ReadIsFrame(stream: Bytes)
    requires ReadFrame(stream).Read?
    ensures var r := ReadFrame(stream); |r.body| <= MAX_CONTROL && stream == Frame(r.kind, r.body) + r.rest
  {
    var n := Get32(stream[1..5]);
    PutGet32(stream[1..5]);
    assert stream == [stream[0]] + stream[1..5] + stream[5..5 + n] + stream[5 + n..];
  }

  /** Reading fails exactly on streams that begin with no whole frame. */
  lemma ReadFailsWithoutFrame(stream: Bytes)
    ensures ReadFrame(stream).ReadError? <==> forall kind, body :: |body| <= MAX_CONTROL ==> !(Frame(kind, body) <= stream)
  {
    if ReadFrame(stream).Read? {
      ReadIsFrame(stream);
      assert Frame(ReadFrame(stream).kind, ReadFrame(stream).body) <= stream;
    }
    forall kind, body | |body| <= MAX_CONTROL && Frame(kind, body) <= stream ensures ReadFrame(stream).Read? {
      var n := |Frame(kind, body)|;
      assert stream == Frame(kind, body) + stream[n..];
      ReadOwnFrame(kind, body, stream[n..]);
    }
  }

  predicate Fit(parts: seq<Bytes>) {
    forall k :: 0 <= k < |parts| ==> |parts[k]| <= MAX_CONTROL
  }

  /** The follow-up frames of a batch. */
  function Frames(parts: seq<Bytes>): Bytes
    requires Fit(parts)
  {
    if parts == [] then [] else Frame(FRAME_AUTH, parts[0]) + Frames(parts[1..])
  }

  lemma {:induction false} FramesAppend(parts: seq<Bytes>, part: Bytes)
    requires Fit(parts) && |part| <= MAX_CONTROL
    ensures Frames(parts + [part]) == Frames(parts) + Frame(FRAME_AUTH, part)
  {
    var more := parts + [part];
    if parts == [] {
      assert more[1..] == [];
    } else {
      var head := Frame(FRAME_AUTH, parts[0]);
      assert more[0] == parts[0] && more[1..] == parts[1..] + [part];
      FramesAppend(parts[1..], part);
      Regroup(head, Frames(parts[1..]), Frame(FRAME_AUTH, part));
      assert Frames(more) == head + Frames(more[1..]);
    }
  }

  // ---- Writing ----------------------------------------------------------------------

  predicate Zero(b: Bytes) {
    forall i :: 0 <= i < |b| ==> b[i] == 0
  }

  /** The kind and body of a request's first frame. */
  function FirstKind(parts: seq<Bytes>, namespace: Bytes): Byte {
    if !Zero(namespace) then FRAME_AUTH_GENERATION else if |parts| > 1 then FRAME_AUTH_BATCH else FRAME_AUTH
  }

  function FirstBody(parts: seq<Bytes>, namespace: Bytes, disco: Bytes): Bytes
    requires 1 <= |parts| <= MAX_GRANT_PARTS
  {
    if !Zero(namespace) then namespace + disco + Put32(|parts|) + parts[0]
    else if |parts| > 1 then Put32(|parts|) + parts[0]
    else parts[0]
  }

  /** Every frame of the request fits. */
  predicate Sendable(parts: seq<Bytes>, namespace: Bytes, disco: Bytes) {
    1 <= |parts| <= MAX_GRANT_PARTS && |FirstBody(parts, namespace, disco)| <= MAX_CONTROL && Fit(parts)
  }

  function Request(parts: seq<Bytes>, namespace: Bytes, disco: Bytes): Bytes
    requires Sendable(parts, namespace, disco)
  {
    Frame(FirstKind(parts, namespace), FirstBody(parts, namespace, disco)) + Frames(parts[1..])
  }

  /** The `m`-th frame of the request is the first that does not fit. */
  predicate BreaksOff(parts: seq<Bytes>, namespace: Bytes, disco: Bytes, m: nat)
    requires 1 <= |parts| <= MAX_GRANT_PARTS
  {
    if m == 0 then |FirstBody(parts, namespace, disco)| > MAX_CONTROL
    else |FirstBody(parts, namespace, disco)| <= MAX_CONTROL &&
         m < |parts| && Fit(parts[1..][..m - 1]) && |parts[m]| > MAX_CONTROL
  }

  /** The first `m` frames of the request. */
  function Begun(parts: seq<Bytes>, namespace: Bytes, disco: Bytes, m: nat): Bytes
    requires 1 <= |parts| <= MAX_GRANT_PARTS && 1 <= m && BreaksOff(parts, namespace, disco, m)
  {
    Frame(FirstKind(parts, namespace), FirstBody(parts, namespace, disco)) + Frames(parts[1..][..m - 1])
  }

  /** The frame of a single token; the last four bytes of a generation header count its parts. */
  method AuthFrame(token: Bytes, namespace: Bytes, disco: Bytes) returns (kind: Byte, body: Bytes)
    requires |namespace| == |disco| == 32
    ensures Zero(namespace) ==> kind == FRAME_AUTH && body == token
    ensures !Zero(namespace) ==> kind == FRAME_AUTH_GENERATION && |body| == 68 + |token|
    ensures !Zero(namespace) ==> body[..64] == namespace + disco && body[64..68] == Put32(1) && body[68..] == token
  {
    if Zero(namespace) {
      return FRAME_AUTH, token;
    }
    return FRAME_AUTH_GENERATION, namespace + disco + [0, 0, 0, 1] + token;
  }

  /** The first frame of a request: the single token's, with the number of parts written in. */
  method FirstFrame(parts: seq<Bytes>, namespace: Bytes, disco: Bytes) returns (kind: Byte, body: Bytes)
    requires 1 <= |parts| <= MAX_GRANT_PARTS && |namespace| == |disco| == 32
    ensures kind == FirstKind(parts, namespace) && body == FirstBody(parts, namespace, disco)
  {
    kind, body := AuthFrame(parts[0], namespace, disco);
    if !Zero(namespace) {
      body := body[..64] + Put32(|parts|) + body[68..];
    } else if |parts| > 1 {
      kind, body := FRAME_AUTH_BATCH, Put32(|parts|) + parts[0];
    }
  }

  lemma FitsByFrame(parts: seq<Bytes>, namespace: Bytes, disco: Bytes)
    requires 1 <= |parts| <= MAX_GRANT_PARTS
    ensures Sendable(parts, namespace, disco) <==>
            |FirstBody(parts, namespace, disco)| <= MAX_CONTROL && Fit(parts[1..])
  {
    if Fit(parts[1..]) {
      forall k | 1 <= k < |parts| ensures |parts[k]| <= MAX_CONTROL {
        assert parts[k] == parts[1..][k - 1];
      }
    }
  }

  lemma BreaksOffOrNot(parts: seq<Bytes>, namespace: Bytes, disco: Bytes, n: nat)
    requires 1 <= |parts| <= MAX_GRANT_PARTS && |FirstBody(parts, namespace, disco)| <= MAX_CONTROL
    requires n < |parts| && Fit(parts[1..][..n])
    ensures n == |parts| - 1 ==> parts[1..][..n] == parts[1..]
    ensures n < |parts| - 1 && |parts[1 + n]| > MAX_CONTROL ==> !Fit(parts[1..]) && BreaksOff(parts, namespace, disco, n + 1)
  {
    if n < |parts| - 1 {
      assert parts[1..][n] == parts[1 + n];
    }
  }

  class Writer {
    var sent: Bytes

    constructor ()
      ensures sent == []
    {
      sent := [];
    }

    method WriteFrame(kind: Byte, body: Bytes) returns (err: Option<Error>)
      modifies this
      ensures err == if |body| > MAX_CONTROL then Some(ErrProtocol) else None
      ensures sent == old(sent) + if |body| > MAX_CONTROL then [] else Frame(kind, body)
    {
      if |body| > MAX_CONTROL {
        return Some(ErrProtocol);
      }
      sent := sent + ([kind] + Put32(|body|)) + body;
      return None;
    }

    /** Sends the follow-up frames, the first `m` of them, until one does not fit. */
    method WriteRest(parts: seq<Bytes>) returns (err: Option<Error>, ghost m: nat)
      requires |parts| >= 1
      modifies this
      ensures m < |parts| && Fit(parts[1..][..m]) && sent == old(sent) + Frames(parts[1..][..m])
      ensures if m == |parts| - 1 then err == None else err == Some(ErrProtocol) && |parts[1 + m]| > MAX_CONTROL
    {
      var rest := parts[1..];
      ghost var begun := sent;
      assert rest[..0] == [];
      for i := 0 to |rest|
        invariant Fit(rest[..i]) && sent == begun + Frames(rest[..i])
      {
        var next := WriteFrame(FRAME_AUTH, rest[i]);
        if next.Some? {
          return next, i;
        }
        FramesAppend(rest[..i], rest[i]);
        assert rest[..i + 1] == rest[..i] + [rest[i]];
        Regroup(begun, Frames(rest[..i]), Frame(FRAME_AUTH, rest[i]));
      }
      return None, |rest|;
    }

    /**
    Sends the whole request, if and only if every frame fits. A request that
    breaks off has sent exactly the frames before the one that does not fit.
    */
    method WriteAuthRequest(parts: seq<Bytes>, namespace: Bytes, disco: Bytes)
      returns (err: Option<Error>, ghost m: nat)
      requires |namespace| == |disco| == 32
      modifies this
      ensures err.None? <==> Sendable(parts, namespace, disco)
      ensures err.None? ==> sent == old(sent) + Request(parts, namespace, disco)
      ensures !(1 <= |parts| <= MAX_GRANT_PARTS) ==> err == Some(ErrAdmission) && m == 0
      ensures 1 <= |parts| <= MAX_GRANT_PARTS && err.Some? ==> err == Some(ErrProtocol) && BreaksOff(parts, namespace, disco, m)
      ensures err.Some? ==> sent == old(sent) + if m == 0 then [] else Begun(parts, namespace, disco, m)
    {
      m := 0;
      if |parts| == 0 || |parts| > MAX_GRANT_PARTS {
        return Some(ErrAdmission), 0;
      }
      var kind, body := FirstFrame(parts, namespace, disco);
      FitsByFrame(parts, namespace, disco);
      var first := WriteFrame(kind, body);
      if first.Some? {
        return first, 0;
      }
      ghost var n;
      err, n := WriteRest(parts);
      m := n + 1;
      Regroup(old(sent), Frame(kind, body), Frames(parts[1..][..n]));
      BreaksOffOrNot(parts, namespace, disco, n);
    }
  }

  /** What a credential's parts must meet before they are sent. */
  predicate GrantParts(parts: seq<Bytes>) {
    1 <= |parts| <= MAX_GRANT_PARTS && forall k :: 0 <= k < |parts| ==> 1 <= |parts[k]| <= MAX_CONTROL
  }

  /**
  A credential that passes the part limits is sent if and only if its first
  part leaves room for the request's own header.
  */
  lemma GrantPartsSendable(parts: seq<Bytes>, namespace: Bytes, disco: Bytes)
    requires GrantParts(parts) && |namespace| == |disco| == 32
    ensures Sendable(parts, namespace, disco) <==>
            |parts[0]| + (if !Zero(namespace) then 68 else if |parts| > 1 then 4 else 0) <= MAX_CONTROL
  {
  }

  /** The part limits alone do not promise it: a full first part of two never leaves that room. */
  lemma FullPartHasNoRoom(namespace: Bytes, disco: Bytes) returns (parts: seq<Bytes>)
    requires |namespace| == |disco| == 32
    ensures GrantParts(parts) && !Sendable(parts, namespace, disco)
  {
    parts := [seq(MAX_CONTROL, _ => 1), [1]];
    GrantPartsSendable(parts, namespace, disco);
  }
}
