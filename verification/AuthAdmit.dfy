/**
The relay's side of a multipart credential. Grant verification, identity,
merging, the digest, rate limits and the final admission are the relay's
parameters; what is proved holds for all of them.
*/
module AuthAdmit {
  import opened AuthBatch
  import opened Wrappers

  datatype Grant = Grant(accountID: string, signedHash: Bytes, content: string)

  const NO_GRANT := Grant("", [], "")

  datatype Verdict = Valid(grant: Grant) | Expired | Invalid

  /** `allow` answers for the connection's and the account's budget at the n-th frame. */
  datatype Relay = Relay(
    verify: Bytes -> Verdict,
    sameIdentity: (Grant, Grant) -> bool,
    merge: (Grant, Grant) -> Option<Grant>,
    sum: Bytes -> Bytes,
    allow: (nat, string, nat) -> bool,
    admits: Grant -> bool)

  // ---- What may be admitted ------------------------------------------------------

  /** The parts merged in order; none when one is not valid or does not match the merge of those before it. */
  function Merged(relay: Relay, parts: seq<Bytes>): Option<Grant>
    requires |parts| >= 1
  {
    var verdict := relay.verify(parts[|parts| - 1]);
    if !verdict.Valid? then None
    else if |parts| == 1 then Some(verdict.grant)
    else
      match Merged(relay, parts[..|parts| - 1])
      case None => None
      case Some(m) => if relay.sameIdentity(m, verdict.grant) then relay.merge(m, verdict.grant) else None
  }

  function Hashes(relay: Relay, parts: seq<Bytes>): Bytes {
    if parts == [] then []
    else
      var verdict := relay.verify(parts[|parts| - 1]);
      Hashes(relay, parts[..|parts| - 1]) + if verdict.Valid? then verdict.grant.signedHash else []
  }

  /** The grant to admit: several parts are known by the digest of all their hashes, in order. */
  function Final(relay: Relay, parts: seq<Bytes>): Grant
    requires |parts| >= 1 && Merged(relay, parts).Some?
  {
    var m := Merged(relay, parts).value;
    if |parts| > 1 then m.(signedHash := relay.sum(Hashes(relay, parts))) else m
  }

  /** A single part is admitted as it is; of several, their merge under the digest of all their hashes. */
  lemma FinalIs(relay: Relay, parts: seq<Bytes>)
    requires |parts| >= 1 && Merged(relay, parts).Some?
    ensures |parts| == 1 ==> relay.verify(parts[0]) == Valid(Final(relay, parts))
    ensures |parts| > 1 ==>
      var m := Merged(relay, parts).value;
      Final(relay, parts) == Grant(m.accountID, relay.sum(Hashes(relay, parts)), m.content)
  {
  }

  predicate ExpiredAt(relay: Relay, parts: seq<Bytes>, i: nat) {
    i < |parts| && relay.verify(parts[i]).Expired?
  }

  predicate InvalidAt(relay: Relay, parts: seq<Bytes>, i: nat) {
    i < |parts| && relay.verify(parts[i]).Invalid?
  }

  ghost predicate AnyExpired(relay: Relay, parts: seq<Bytes>) {
    exists i: nat :: ExpiredAt(relay, parts, i)
  }

  ghost predicate AnyInvalid(relay: Relay, parts: seq<Bytes>) {
    exists i: nat :: InvalidAt(relay, parts, i)
  }

  /** A merge exists only if every part is valid, so an admitted batch holds no expired or invalid part. */
  lemma {:induction false} MergedAllValid(relay: Relay, parts: seq<Bytes>)
    requires |parts| >= 1 && Merged(relay, parts).Some?
    ensures forall i :: 0 <= i < |parts| ==> relay.verify(parts[i]).Valid?
  {
    if |parts| > 1 {
      MergedAllValid(relay, parts[..|parts| - 1]);
      forall i | 0 <= i < |parts| ensures relay.verify(parts[i]).Valid? {
        assert i < |parts| - 1 ==> parts[i] == parts[..|parts| - 1][i];
      }
    }
  }

  // ---- Framing is uniquely decodable --------------------------------------------------

  lemma FramesHead(a: seq<Bytes>, x: Bytes)
    requires a != [] && Fit(a)
    ensures Fit(a[1..]) && ReadFrame(Frames(a) + x) == Read(FRAME_AUTH, a[0], Frames(a[1..]) + x)
  {
    Regroup(Frame(FRAME_AUTH, a[0]), Frames(a[1..]), x);
    ReadOwnFrame(FRAME_AUTH, a[0], Frames(a[1..]) + x);
  }

  lemma {:induction false} FramesDecode(a: seq<Bytes>, x: Bytes, b: seq<Bytes>, y: Bytes)
    requires Fit(a) && Fit(b) && |a| <= |b| && Frames(a) + x == Frames(b) + y
    ensures a == b[..|a|] && x == Frames(b[|a|..]) + y
  {
    if a == [] {
      assert b[0..] == b && [] + x == x;
    } else {
      FramesHead(a, x);
      FramesHead(b, y);
      FramesDecode(a[1..], x, b[1..], y);
      assert a == [a[0]] + a[1..] && b[..|a|] == [b[0]] + b[1..][..|a| - 1];
      assert b[1..][|a| - 1..] == b[|a|..];
    }
  }

  /** The account a follow-up frame is charged to: that of the last merge before it. */
  function Charged(relay: Relay, seen: seq<Bytes>): string {
    if seen == [] then ""
    else if Merged(relay, seen).Some? then Merged(relay, seen).value.accountID
    else Charged(relay, seen[..|seen| - 1])
  }

  /** The account charged is that of the longest start of the parts that merges, if any does. */
  lemma {:induction false} ChargedSince(relay: Relay, seen: seq<Bytes>) returns (k: nat)
    ensures k <= |seen| && forall j :: k < j <= |seen| ==> Merged(relay, seen[..j]).None?
    ensures if k == 0 then Charged(relay, seen) == ""
            else Merged(relay, seen[..k]).Some? && Charged(relay, seen) == Merged(relay, seen[..k]).value.accountID
  {
    var n := |seen|;
    assert seen[..n] == seen;
    if n == 0 {
      k := 0;
    } else if Merged(relay, seen).Some? {
      k := n;
    } else {
      k := ChargedSince(relay, seen[..n - 1]);
      assert forall j :: 0 <= j < n ==> seen[..n - 1][..j] == seen[..j];
    }
  }

  predicate AllowedAt(relay: Relay, seen: seq<Bytes>, i: nat)
    requires i < |seen|
  {
    relay.allow(i, Charged(relay, seen[..i]), |seen[i]|)
  }

  ghost predicate WithinBudget(relay: Relay, seen: seq<Bytes>) {
    forall i :: 1 <= i < |seen| ==> AllowedAt(relay, seen, i)
  }

  // ---- How a batch can end ------------------------------------------------------------------

  /** The next frame was missing, malformed, of another kind, or over budget. */
  ghost predicate BrokeOff(relay: Relay, count: nat, seen: seq<Bytes>, left: Bytes, error: Error) {
    |seen| < count &&
    match ReadFrame(left)
    case ReadError(e, _) => error == e && e in {ErrRead, ErrProtocol}
    case Read(kind, body, _) =>
      if kind != FRAME_AUTH then error == ErrProtocol
      else error == ErrOverload && !relay.allow(|seen|, Charged(relay, seen), |body|)
  }

  /** The last part is valid and the parts before it merge. */
  predicate Meets(relay: Relay, seen: seq<Bytes>) {
    |seen| > 1 && Merged(relay, seen[..|seen| - 1]).Some? && relay.verify(seen[|seen| - 1]).Valid?
  }

  /** The last part has another identity than the merge of those before it. */
  predicate Unlike(relay: Relay, seen: seq<Bytes>) {
    Meets(relay, seen) && !relay.sameIdentity(Merged(relay, seen[..|seen| - 1]).value, relay.verify(seen[|seen| - 1]).grant)
  }

  /** It has the same identity and does not merge. */
  predicate Unmergeable(relay: Relay, seen: seq<Bytes>) {
    Meets(relay, seen) && relay.sameIdentity(Merged(relay, seen[..|seen| - 1]).value, relay.verify(seen[|seen| - 1]).grant) &&
    relay.merge(Merged(relay, seen[..|seen| - 1]).value, relay.verify(seen[|seen| - 1]).grant).None?
  }

  /** `seen` are the parts verified, and `left` is the stream behind them. */
  ghost predicate Ended(relay: Relay, first: Bytes, count: nat, before: Bytes, seen: seq<Bytes>, left: Bytes, after: Bytes, err: Option<Error>) {
    1 <= |seen| <= count && seen[0] == first && Fit(seen[1..]) && before == Frames(seen[1..]) + left &&
    WithinBudget(relay, seen) &&
    (err.None? || err.value in {ErrExpired, ErrVerify, ErrIdentity, ErrMerge, ErrAdmit} || BrokeOff(relay, count, seen, left, err.value)) &&
    // The stream stands behind the parts verified unless the next frame could not be used.
    (err.None? || !BrokeOff(relay, count, seen, left, err.value) ==> after == left) &&
    (err.None? || err.value in {ErrExpired, ErrAdmit} ==> |seen| == count) &&
    // Expiry is reported after the whole batch, and an invalid part at once.
    (err == Some(ErrExpired) <==> |seen| == count && AnyExpired(relay, seen) && !AnyInvalid(relay, seen)) &&
    (err == Some(ErrVerify) <==> AnyInvalid(relay, seen)) &&
    // A valid part that is refused ends the batch at once too.
    (err == Some(ErrIdentity) <==> Unlike(relay, seen)) && (err == Some(ErrMerge) <==> Unmergeable(relay, seen))
  }

  /** Admission is reached at most once: with the whole batch, merged in order, if and only if it merges. */
  ghost predicate Admitted(relay: Relay, count: nat, seen: seq<Bytes>, was: seq<Grant>, now: seq<Grant>, err: Option<Error>) {
    if |seen| == count && |seen| >= 1 && Merged(relay, seen).Some? then
      now == was + [Final(relay, seen)] && err == if relay.admits(Final(relay, seen)) then None else Some(ErrAdmit)
    else now == was && err.Some? && err.value != ErrAdmit
  }

  // ---- Request headers ---------------------------------------------------------------------

  /** A request frame taken apart: how many parts, the first of them, and the namespace they are for. */
  datatype Header = Header(count: int, first: Bytes, namespace: Bytes, disco: Bytes) | BadHeader

  const NO_KEY: Bytes := [0, 0, 0, 0, 0, 0, 0, 0, 0, 0, 0, 0, 0, 0, 0, 0, 0, 0, 0, 0, 0, 0, 0, 0, 0, 0, 0, 0, 0, 0, 0, 0]

  function ParseHeader(kind: Byte, body: Bytes): Header {
    if kind == FRAME_AUTH then Header(1, body, NO_KEY, NO_KEY)
    else if kind == FRAME_AUTH_BATCH then
      if |body| <= 4 then BadHeader else Header(Get32(body[..4]), body[4..], NO_KEY, NO_KEY)
    else if kind == FRAME_AUTH_GENERATION then
      if |body| <= 68 then BadHeader
      else if Zero(body[..32]) || Zero(body[32..64]) then BadHeader
      else Header(Get32(body[64..68]), body[68..], body[..32], body[32..64])
    else BadHeader
  }

  // ---- The batch, part by part -------------------------------------------------------------

  lemma ReadFrameFacts(stream: Bytes)
    ensures var r := ReadFrame(stream);
            r.ReadError? ==> r.error in {ErrRead, ErrProtocol}
    ensures var r := ReadFrame(stream);
            r.Read? ==> |r.body| <= MAX_CONTROL && stream == Frame(r.kind, r.body) + r.rest
  {
    if ReadFrame(stream).Read? {
      ReadIsFrame(stream);
    }
  }

  ghost predicate Position(first: Bytes, all: Bytes, seen: seq<Bytes>, left: Bytes) {
    if seen == [] then left == all
    else seen[0] == first && Fit(seen[1..]) && all == Frames(seen[1..]) + left
  }

  /** The state of the loop after verifying `seen`. */
  ghost predicate Underway(relay: Relay, first: Bytes, all: Bytes, seen: seq<Bytes>, left: Bytes, merged: Grant, digest: Bytes, expired: bool) {
    Position(first, all, seen, left) && WithinBudget(relay, seen) && !AnyInvalid(relay, seen) &&
    merged.accountID == Charged(relay, seen) && (expired <==> AnyExpired(relay, seen)) &&
    (expired && seen != [] ==> Merged(relay, seen).None?) &&
    (!expired ==> digest == Hashes(relay, seen) && (seen != [] ==> Merged(relay, seen) == Some(merged)))
  }

  lemma PositionMore(first: Bytes, all: Bytes, seen: seq<Bytes>, left: Bytes, body: Bytes, rest: Bytes)
    requires Position(first, all, seen, left)
    requires if seen == [] then body == first && rest == left
             else |body| <= MAX_CONTROL && left == Frame(FRAME_AUTH, body) + rest
    ensures Position(first, all, seen + [body], rest)
  {
    if seen == [] {
      assert (seen + [body])[1..] == [] && Frames([]) + rest == rest;
    } else {
      assert (seen + [body])[1..] == seen[1..] + [body];
      FramesAppend(seen[1..], body);
      assert Frames(seen[1..]) + (Frame(FRAME_AUTH, body) + rest) == Frames(seen[1..]) + Frame(FRAME_AUTH, body) + rest;
    }
  }

  lemma AnyExpiredMore(relay: Relay, seen: seq<Bytes>, body: Bytes)
    ensures AnyExpired(relay, seen + [body]) <==> AnyExpired(relay, seen) || relay.verify(body).Expired?
  {
    var all := seen + [body];
    if AnyExpired(relay, all) {
      var i: nat :| ExpiredAt(relay, all, i);
      assert i < |seen| ==> ExpiredAt(relay, seen, i);
    }
    if AnyExpired(relay, seen) {
      var i: nat :| ExpiredAt(relay, seen, i);
      assert ExpiredAt(relay, all, i);
    }
    assert relay.verify(body).Expired? ==> ExpiredAt(relay, all, |seen|);
  }

  lemma AnyInvalidMore(relay: Relay, seen: seq<Bytes>, body: Bytes)
    ensures AnyInvalid(relay, seen + [body]) <==> AnyInvalid(relay, seen) || relay.verify(body).Invalid?
  {
    var all := seen + [body];
    if AnyInvalid(relay, all) {
      var i: nat :| InvalidAt(relay, all, i);
      assert i < |seen| ==> InvalidAt(relay, seen, i);
    }
    if AnyInvalid(relay, seen) {
      var i: nat :| InvalidAt(relay, seen, i);
      assert InvalidAt(relay, all, i);
    }
    assert relay.verify(body).Invalid? ==> InvalidAt(relay, all, |seen|);
  }

  lemma BudgetMore(relay: Relay, seen: seq<Bytes>, body: Bytes)
    requires WithinBudget(relay, seen)
    requires seen != [] ==> relay.allow(|seen|, Charged(relay, seen), |body|)
    ensures WithinBudget(relay, seen + [body])
  {
    var all := seen + [body];
    forall i | 1 <= i < |all| ensures AllowedAt(relay, all, i) {
      if i < |seen| {
        assert AllowedAt(relay, seen, i);
        assert all[..i] == seen[..i];
      } else {
        assert all[..i] == seen;
      }
    }
  }

  /** `body` is the next part: the request's own first part, or that of the next frame, within budget. */
  ghost predicate Comes(relay: Relay, first: Bytes, seen: seq<Bytes>, left: Bytes, body: Bytes, rest: Bytes) {
    if seen == [] then body == first && rest == left
    else |body| <= MAX_CONTROL && left == Frame(FRAME_AUTH, body) + rest && relay.allow(|seen|, Charged(relay, seen), |body|)
  }

  /** What the parts seen say after one more, `expired` being whether one had expired before it. */
  ghost predicate Noted(relay: Relay, seen: seq<Bytes>, body: Bytes, expired: bool) {
    var now, verdict := seen + [body], relay.verify(body);
    now[..|seen|] == seen && WithinBudget(relay, now) &&
    (AnyExpired(relay, now) <==> expired || verdict.Expired?) && (AnyInvalid(relay, now) <==> verdict.Invalid?) &&
    (expired || verdict.Expired? ==> Merged(relay, now).None? && Charged(relay, now) == Charged(relay, seen))
  }

  lemma NoMergeWithExpired(relay: Relay, parts: seq<Bytes>)
    requires |parts| >= 1 && AnyExpired(relay, parts)
    ensures Merged(relay, parts).None?
  {
    var i: nat :| ExpiredAt(relay, parts, i);
    if Merged(relay, parts).Some? {
      MergedAllValid(relay, parts);
    }
  }

  /** Reading one more part: what it adds to what was read, charged, found expired, merged and hashed. */
  lemma OneMore(relay: Relay, first: Bytes, all: Bytes, seen: seq<Bytes>, left: Bytes, merged: Grant, digest: Bytes, expired: bool, body: Bytes, rest: Bytes)
    requires Underway(relay, first, all, seen, left, merged, digest, expired) && Comes(relay, first, seen, left, body, rest)
    ensures Position(first, all, seen + [body], rest) && Noted(relay, seen, body, expired)
  {
    var now := seen + [body];
    assert now[..|seen|] == seen;
    PositionMore(first, all, seen, left, body, rest);
    AnyExpiredMore(relay, seen, body);
    AnyInvalidMore(relay, seen, body);
    BudgetMore(relay, seen, body);
    if expired || relay.verify(body).Expired? {
      NoMergeWithExpired(relay, now);
    }
  }

  /** Parts are compared and merged only while none has expired. */
  lemma MetPartsAreValid(relay: Relay, seen: seq<Bytes>)
    requires Meets(relay, seen)
    ensures !AnyExpired(relay, seen)
  {
    MergedAllValid(relay, seen[..|seen| - 1]);
    forall i: nat ensures !ExpiredAt(relay, seen, i) {
      if i < |seen| - 1 {
        assert seen[..|seen| - 1][i] == seen[i];
      }
    }
  }

  /** The batch ends because the next frame cannot be used. */
  lemma EndsBroken(relay: Relay, first: Bytes, count: nat, all: Bytes, seen: seq<Bytes>, left: Bytes, merged: Grant, digest: Bytes,
                   expired: bool, after: Bytes, attempts: seq<Grant>, error: Error)
    requires Underway(relay, first, all, seen, left, merged, digest, expired) && seen != []
    requires BrokeOff(relay, count, seen, left, error)
    ensures Ended(relay, first, count, all, seen, left, after, Some(error))
    ensures Admitted(relay, count, seen, attempts, attempts, Some(error))
  {
    if Meets(relay, seen) {
      MetPartsAreValid(relay, seen);
    }
  }

  /** It ends at a part that does not verify. */
  lemma EndsInvalid(relay: Relay, first: Bytes, count: nat, all: Bytes, seen: seq<Bytes>, body: Bytes, left: Bytes, expired: bool,
                    attempts: seq<Grant>)
    requires Position(first, all, seen + [body], left) && Noted(relay, seen, body, expired)
    requires |seen| < count && relay.verify(body).Invalid?
    ensures Ended(relay, first, count, all, seen + [body], left, left, Some(ErrVerify))
    ensures Admitted(relay, count, seen + [body], attempts, attempts, Some(ErrVerify))
  {
  }

  /** It ends at a valid part that does not match the merge so far. */
  lemma EndsUnmatched(relay: Relay, first: Bytes, count: nat, all: Bytes, seen: seq<Bytes>, body: Bytes, left: Bytes,
                      attempts: seq<Grant>, error: Error)
    requires Position(first, all, seen + [body], left) && Noted(relay, seen, body, false)
    requires 1 <= |seen| < count && relay.verify(body).Valid? && Merged(relay, seen).Some?
    requires Merged(relay, seen + [body]).None?
    requires error == if relay.sameIdentity(Merged(relay, seen).value, relay.verify(body).grant) then ErrMerge else ErrIdentity
    ensures Ended(relay, first, count, all, seen + [body], left, left, Some(error))
    ensures Admitted(relay, count, seen + [body], attempts, attempts, Some(error))
  {
    assert (seen + [body])[..|seen + [body]| - 1] == seen;
  }

  /** All parts are read, and one has expired. */
  lemma EndsExpired(relay: Relay, first: Bytes, all: Bytes, seen: seq<Bytes>, left: Bytes, merged: Grant, digest: Bytes,
                    attempts: seq<Grant>)
    requires Underway(relay, first, all, seen, left, merged, digest, true) && seen != []
    ensures Ended(relay, first, |seen|, all, seen, left, left, Some(ErrExpired))
    ensures Admitted(relay, |seen|, seen, attempts, attempts, Some(ErrExpired))
  {
    if Meets(relay, seen) {
      MetPartsAreValid(relay, seen);
    }
  }

  /** All parts are read and merged, and their merge is put to admission. */
  lemma EndsAdmitting(relay: Relay, first: Bytes, all: Bytes, seen: seq<Bytes>, left: Bytes, merged: Grant, digest: Bytes,
                      attempts: seq<Grant>, grant: Grant, err: Option<Error>)
    requires Underway(relay, first, all, seen, left, merged, digest, false) && seen != []
    requires grant == if |seen| > 1 then merged.(signedHash := relay.sum(digest)) else merged
    requires err == if relay.admits(grant) then None else Some(ErrAdmit)
    ensures Ended(relay, first, |seen|, all, seen, left, left, err)
    ensures Admitted(relay, |seen|, seen, attempts, attempts + [grant], err)
  {
  }

  lemma GoesOnExpired(relay: Relay, first: Bytes, all: Bytes, seen: seq<Bytes>, left: Bytes, merged: Grant, digest: Bytes,
                      expired: bool, body: Bytes, rest: Bytes)
    requires Underway(relay, first, all, seen, left, merged, digest, expired)
    requires Position(first, all, seen + [body], rest) && Noted(relay, seen, body, expired)
    requires !relay.verify(body).Invalid? && (expired || relay.verify(body).Expired?)
    ensures Underway(relay, first, all, seen + [body], rest, merged, digest, true)
  {
  }

  lemma GoesOnMerged(relay: Relay, first: Bytes, all: Bytes, seen: seq<Bytes>, left: Bytes, merged: Grant, digest: Bytes,
                     body: Bytes, rest: Bytes, next: Grant)
    requires Underway(relay, first, all, seen, left, merged, digest, false)
    requires Position(first, all, seen + [body], rest) && Noted(relay, seen, body, false)
    requires relay.verify(body).Valid? && Merged(relay, seen + [body]) == Some(next)
    ensures Underway(relay, first, all, seen + [body], rest, next, digest + relay.verify(body).grant.signedHash, false)
  {
    assert (seen + [body])[..|seen + [body]| - 1] == seen;
  }

  /** What one more valid part does to the merge. */
  lemma MergedMore(relay: Relay, seen: seq<Bytes>, body: Bytes)
    requires relay.verify(body).Valid?
    ensures var grant := relay.verify(body).grant;
            Merged(relay, seen + [body]) ==
              if seen == [] then Some(grant)
              else match Merged(relay, seen)
                   case None => None
                   case Some(m) => if relay.sameIdentity(m, grant) then relay.merge(m, grant) else None
  {
    assert (seen + [body])[..|seen + [body]| - 1] == seen;
  }

  // ---- The program ------------------------------------------------------------------------

  class PeerConn {
    /** Bytes not read yet. */
    var stream: Bytes

    /** A first grant was admitted, and the connection is bound to its namespace. */
    var keyed: bool

    var namespace: Bytes
    var disco: Bytes

    /** Every grant that was put to admission. */
    var attempts: seq<Grant>

    constructor (stream: Bytes)
      ensures this.stream == stream && !keyed && attempts == []
    {
      this.stream := stream;
      keyed, namespace, disco, attempts := false, [], [], [];
    }

    method Admit(relay: Relay, grant: Grant) returns (err: Option<Error>)
      modifies `attempts, `keyed
      ensures attempts == old(attempts) + [grant]
      ensures err == if relay.admits(grant) then None else Some(ErrAdmit)
      ensures keyed == (old(keyed) || relay.admits(grant))
    {
      attempts := attempts + [grant];
      if !relay.admits(grant) {
        return Some(ErrAdmit);
      }
      keyed := true;
      return None;
    }

    /** The next part of a batch, read from its own frame and charged to the budgets. */
    method NextPart(relay: Relay, i: nat, account: string) returns (err: Option<Error>, body: Bytes)
      modifies `stream
      ensures err.None? ==> |body| <= MAX_CONTROL && old(stream) == Frame(FRAME_AUTH, body) + stream
      ensures err.None? ==> relay.allow(i, account, |body|)
      ensures match ReadFrame(old(stream))
        case ReadError(e, _) => err == Some(e) && e in {ErrRead, ErrProtocol}
        case Read(kind, next, rest) =>
          stream == rest &&
          err == if kind != FRAME_AUTH then Some(ErrProtocol) else if relay.allow(i, account, |next|) then None else Some(ErrOverload)
    {
      body := [];
      ReadFrameFacts(stream);
      var r := ReadFrame(stream);
      if r.ReadError? {
        stream := r.left;
        return Some(r.error), [];
      }
      stream := r.rest;
      if r.kind != FRAME_AUTH {
        return Some(ErrProtocol), [];
      }
      if !relay.allow(i, account, |r.body|) {
        return Some(ErrOverload), [];
      }
      return None, r.body;
    }

    /**
    Verifies the parts in order and puts their merge to admission, once, if all
    of them are valid and match. `seen` are the parts that were verified and
    `left` is the stream behind them.
    */
    method AdmitAuthParts(relay: Relay, first: Bytes, count: nat)
      returns (err: Option<Error>, ghost seen: seq<Bytes>, ghost left: Bytes)
      requires 1 <= count <= MAX_GRANT_PARTS
      modifies `stream, `attempts, `keyed
      ensures Ended(relay, first, count, old(stream), seen, left, stream, err)
      ensures Admitted(relay, count, seen, old(attempts), attempts, err)
      ensures keyed == (old(keyed) || err.None?)
    {
      var merged, digest, expired, body := NO_GRANT, [], false, first;
      ghost var all := stream;
      seen, left := [], stream;
      for i := 0 to count
        invariant |seen| == i && stream == left && attempts == old(attempts) && keyed == old(keyed)
        invariant i == 0 ==> body == first
        invariant Underway(relay, first, all, seen, left, merged, digest, expired)
      {
        if i != 0 {
          var read;
          read, body := NextPart(relay, i, merged.accountID);
          if read.Some? {
            EndsBroken(relay, first, count, all, seen, left, merged, digest, expired, stream, attempts, read.value);
            return read, seen, left;
          }
        }
        OneMore(relay, first, all, seen, left, merged, digest, expired, body, stream);
        ghost var was, rest := seen, left;
        seen, left := seen + [body], stream;
        var verdict := relay.verify(body);
        if verdict.Expired? {
          GoesOnExpired(relay, first, all, was, rest, merged, digest, expired, body, stream);
          expired := true;
          continue;
        }
        if verdict.Invalid? {
          EndsInvalid(relay, first, count, all, was, body, stream, expired, attempts);
          return Some(ErrVerify), seen, left;
        }
        if expired {
          GoesOnExpired(relay, first, all, was, rest, merged, digest, expired, body, stream);
          continue;
        }
        MergedMore(relay, was, body);
        ghost var before, hashed := merged, digest;
        digest := digest + verdict.grant.signedHash;
        if i == 0 {
          merged := verdict.grant;
          GoesOnMerged(relay, first, all, was, rest, before, hashed, body, stream, merged);
          continue;
        }
        if !relay.sameIdentity(merged, verdict.grant) {
          EndsUnmatched(relay, first, count, all, was, body, stream, attempts, ErrIdentity);
          return Some(ErrIdentity), seen, left;
        }
        var merge := relay.merge(merged, verdict.grant);
        if merge.None? {
          EndsUnmatched(relay, first, count, all, was, body, stream, attempts, ErrMerge);
          return Some(ErrMerge), seen, left;
        }
        merged := merge.value;
        GoesOnMerged(relay, first, all, was, rest, before, hashed, body, stream, merged);
      }
      if expired {
        EndsExpired(relay, first, all, seen, left, merged, digest, attempts);
        return Some(ErrExpired), seen, left;
      }
      ghost var sum := merged;
      if count > 1 {
        merged := merged.(signedHash := relay.sum(digest));
      }
      ghost var was := attempts;
      err := Admit(relay, merged);
      EndsAdmitting(relay, first, all, seen, left, sum, digest, was, merged, err);
    }

    /** The connection may use a namespace: any before its first grant, and then only that one. */
    predicate Bindable(namespace: Bytes, disco: Bytes)
      reads this
    {
      keyed ==> this.namespace == namespace && this.disco == disco
    }

    method Authenticate(relay: Relay, kind: Byte, body: Bytes)
      returns (err: Option<Error>, ghost seen: seq<Bytes>, ghost left: Bytes)
      modifies this
      ensures var h := ParseHeader(kind, body);
        h.BadHeader? || !(1 <= h.count <= MAX_GRANT_PARTS) ==>
          err == Some(ErrProtocol) && seen == [] && stream == old(stream) && attempts == old(attempts)
      ensures var h := ParseHeader(kind, body);
        h.Header? && 1 <= h.count <= MAX_GRANT_PARTS && !old(Bindable(h.namespace, h.disco)) ==>
          err == Some(ErrAdmission) && seen == [] && stream == old(stream) && attempts == old(attempts)
      ensures var h := ParseHeader(kind, body);
        h.Header? && 1 <= h.count <= MAX_GRANT_PARTS && old(Bindable(h.namespace, h.disco)) ==>
          namespace == h.namespace && disco == h.disco && keyed == (old(keyed) || err.None?) &&
          Ended(relay, h.first, h.count, old(stream), seen, left, stream, err) &&
          Admitted(relay, h.count, seen, old(attempts), attempts, err)
    {
      seen, left := [], stream;
      var h := ParseHeader(kind, body);
      if h.BadHeader? || h.count == 0 || h.count > MAX_GRANT_PARTS || h.count < 0 {
        return Some(ErrProtocol), seen, left;
      }
      if keyed && (namespace != h.namespace || disco != h.disco) {
        return Some(ErrAdmission), seen, left;
      }
      if !keyed {
        namespace, disco := h.namespace, h.disco;
      }
      err, seen, left := AdmitAuthParts(relay, h.first, h.count);
    }
  }

  // ---- Both ends together ------------------------------------------------------------------

  /** A header is followed by a first part, and a namespace comes with a key of its own. */
  predicate Answerable(parts: seq<Bytes>, namespace: Bytes, disco: Bytes) {
    |parts| >= 1 &&
    if Zero(namespace) then |parts| == 1 || parts[0] != [] else parts[0] != [] && !Zero(disco)
  }

  /** The relay reads back the count, the first part and the namespace, if and only if the request is answerable. */
  lemma HeaderRoundTrip(parts: seq<Bytes>, namespace: Bytes, disco: Bytes)
    requires Sendable(parts, namespace, disco) && |namespace| == |disco| == 32
    ensures var h := ParseHeader(FirstKind(parts, namespace), FirstBody(parts, namespace, disco));
            if !Answerable(parts, namespace, disco) then h == BadHeader
            else if Zero(namespace) then h == Header(|parts|, parts[0], NO_KEY, NO_KEY)
            else h == Header(|parts|, parts[0], namespace, disco)
  {
    var body := FirstBody(parts, namespace, disco);
    GetPut32(|parts|);
    if !Zero(namespace) {
      assert body[..32] == namespace && body[32..64] == disco && body[64..68] == Put32(|parts|) && body[68..] == parts[0];
    } else if |parts| > 1 {
      assert body[..4] == Put32(|parts|) && body[4..] == parts[0];
    }
  }

  /** A relay connection on which a client has sent its request, and then anything. */
  method Send(parts: seq<Bytes>, namespace: Bytes, disco: Bytes, more: Bytes) returns (p: PeerConn)
    requires Sendable(parts, namespace, disco) && |namespace| == |disco| == 32
    ensures fresh(p) && p.stream == Request(parts, namespace, disco) + more && !p.keyed && p.attempts == []
  {
    var w := new Writer();
    var _, _ := w.WriteAuthRequest(parts, namespace, disco);
    assert [] + Request(parts, namespace, disco) == Request(parts, namespace, disco);
    p := new PeerConn(w.sent + more);
  }

  /** And only such frames are read as headers: whatever the relay reads, the writer would have written. */
  lemma HeaderIsWritten(kind: Byte, body: Bytes)
    requires ParseHeader(kind, body).Header?
    ensures var h := ParseHeader(kind, body);
            if kind == FRAME_AUTH then h == Header(1, body, NO_KEY, NO_KEY)
            else if kind == FRAME_AUTH_BATCH then body == Put32(h.count) + h.first && h.first != []
            else kind == FRAME_AUTH_GENERATION && body == h.namespace + h.disco + Put32(h.count) + h.first && h.first != [] &&
                 |h.namespace| == |h.disco| == 32 && !Zero(h.namespace) && !Zero(h.disco)
  {
    if kind == FRAME_AUTH_BATCH {
      PutGet32(body[..4]);
    } else if kind == FRAME_AUTH_GENERATION {
      PutGet32(body[64..68]);
    }
  }

  lemma SameStart(seen: seq<Bytes>, parts: seq<Bytes>)
    requires 1 <= |seen| <= |parts| && seen[0] == parts[0] && seen[1..] == parts[1..][..|seen| - 1]
    ensures seen == parts[..|seen|]
  {
    assert seen == [seen[0]] + seen[1..];
    assert parts[..|seen|] == [parts[0]] + parts[1..][..|seen| - 1];
  }

  lemma FramesOpen(rest: seq<Bytes>, more: Bytes)
    requires |rest| >= 1 && Fit(rest)
    ensures var r := ReadFrame(Frames(rest) + more); r.Read? && r.kind == FRAME_AUTH && r.body == rest[0]
  {
    FramesHead(rest, more);
  }

  lemma BatchInStep(parts: seq<Bytes>, seen: seq<Bytes>, left: Bytes, more: Bytes)
    requires 1 <= |seen| <= |parts| && seen[0] == parts[0] && Fit(parts[1..]) && Fit(seen[1..])
    requires Frames(parts[1..]) + more == Frames(seen[1..]) + left
    ensures seen <= parts
    ensures |seen| == |parts| ==> seen == parts && left == more
    ensures |seen| < |parts| ==>
      ReadFrame(left).Read? && ReadFrame(left).kind == FRAME_AUTH && ReadFrame(left).body == parts[|seen|]
  {
    FramesDecode(seen[1..], left, parts[1..], more);
    SameStart(seen, parts);
    var rest := parts[1..][|seen| - 1..];
    if |seen| < |parts| {
      FramesOpen(rest, more);
    } else {
      assert rest == [] && Frames(rest) + more == more;
    }
  }

  /** What the end of a batch says about the request it answers. */
  lemma BatchEnds(relay: Relay, parts: seq<Bytes>, seen: seq<Bytes>, left: Bytes, after: Bytes, more: Bytes, err: Option<Error>)
    requires |parts| >= 1 && Fit(parts[1..])
    requires Ended(relay, parts[0], |parts|, Frames(parts[1..]) + more, seen, left, after, err)
    ensures 1 <= |seen| && seen <= parts && (err.None? || err.value !in {ErrRead, ErrProtocol})
    ensures err.None? || err == Some(ErrExpired) ==> seen == parts && after == more
  {
    BatchInStep(parts, seen, left, more);
  }

  lemma {:induction false} MergedSoFar(relay: Relay, parts: seq<Bytes>, k: nat)
    requires 1 <= k <= |parts| && Merged(relay, parts).Some?
    ensures Merged(relay, parts[..k]).Some?
  {
    if k < |parts| {
      MergedSoFar(relay, parts[..|parts| - 1], k);
      assert parts[..|parts| - 1][..k] == parts[..k];
    } else {
      assert parts[..k] == parts;
    }
  }

  lemma {:induction false} HashesInOrder(relay: Relay, a: seq<Bytes>, b: seq<Bytes>)
    ensures Hashes(relay, a + b) == Hashes(relay, a) + Hashes(relay, b)
  {
    if b == [] {
      assert a + b == a;
    } else {
      var n := |b| - 1;
      HashesInOrder(relay, a, b[..n]);
      assert (a + b)[..|a + b| - 1] == a + b[..n];
      var last := if relay.verify(b[n]).Valid? then relay.verify(b[n]).grant.signedHash else [];
      Regroup(Hashes(relay, a), Hashes(relay, b[..n]), last);
    }
  }

  lemma MergedStart(relay: Relay, parts: seq<Bytes>, seen: seq<Bytes>)
    requires |parts| >= 1 && Merged(relay, parts).Some? && seen <= parts && seen != []
    ensures Merged(relay, seen).Some? && !AnyInvalid(relay, seen)
  {
    assert parts[..|seen|] == seen;
    MergedSoFar(relay, parts, |seen|);
    MergedAllValid(relay, seen);
  }

  lemma NextAllowed(relay: Relay, parts: seq<Bytes>, seen: seq<Bytes>)
    requires WithinBudget(relay, parts) && seen <= parts && 1 <= |seen| < |parts|
    ensures relay.allow(|seen|, Charged(relay, seen), |parts[|seen|]|)
  {
    assert AllowedAt(relay, parts, |seen|) && parts[..|seen|] == seen;
  }

  /** A request whose parts merge within the budgets is read to its end. */
  lemma BatchAccepts(relay: Relay, parts: seq<Bytes>, seen: seq<Bytes>, left: Bytes, after: Bytes, more: Bytes, err: Option<Error>)
    requires |parts| >= 1 && Fit(parts[1..]) && Merged(relay, parts).Some? && WithinBudget(relay, parts)
    requires Ended(relay, parts[0], |parts|, Frames(parts[1..]) + more, seen, left, after, err)
    ensures seen == parts
  {
    BatchInStep(parts, seen, left, more);
    if |seen| < |parts| {
      NextAllowed(relay, parts, seen);
    }
    MergedStart(relay, parts, seen);
  }

  lemma RequestOpens(parts: seq<Bytes>, namespace: Bytes, disco: Bytes, more: Bytes)
    requires Sendable(parts, namespace, disco) && |namespace| == |disco| == 32
    ensures Fit(parts[1..])
    ensures var r := ReadFrame(Request(parts, namespace, disco) + more);
            r.Read? && r.rest == Frames(parts[1..]) + more &&
            var h := ParseHeader(r.kind, r.body);
            if Answerable(parts, namespace, disco) then h.Header? && h.count == |parts| && h.first == parts[0]
            else h == BadHeader
  {
    var kind, body := FirstKind(parts, namespace), FirstBody(parts, namespace, disco);
    Regroup(Frame(kind, body), Frames(parts[1..]), more);
    ReadOwnFrame(kind, body, Frames(parts[1..]) + more);
    HeaderRoundTrip(parts, namespace, disco);
  }

  /** The parts merge, within the budgets, to a grant that is admitted. */
  ghost predicate Acceptable(relay: Relay, parts: seq<Bytes>)
    requires |parts| >= 1
  {
    Merged(relay, parts).Some? && WithinBudget(relay, parts) && relay.admits(Final(relay, parts))
  }

  /**
  A client's request, followed by anything, arrives at a relay that verifies the
  parts in order; an answerable request is read without a framing error, and
  after success or expiry the stream stands exactly behind it. It is admitted if
  and only if its parts merge within the budgets to a grant that is. Another is
  refused at its header.
  */
  method Exchange(relay: Relay, parts: seq<Bytes>, namespace: Bytes, disco: Bytes, more: Bytes)
    returns (err: Option<Error>, p: PeerConn, ghost seen: seq<Bytes>)
    requires Sendable(parts, namespace, disco) && |namespace| == |disco| == 32
    ensures fresh(p) && seen <= parts
    ensures if Answerable(parts, namespace, disco) then 1 <= |seen| && (err.None? || err.value !in {ErrRead, ErrProtocol})
            else err == Some(ErrProtocol) && seen == [] && p.attempts == []
    ensures err.None? || err == Some(ErrExpired) ==> seen == parts && p.stream == more
    ensures err.None? <==> Answerable(parts, namespace, disco) && Acceptable(relay, parts)
    ensures err.None? ==> p.attempts == [Final(relay, parts)]
    ensures err == Some(ErrExpired) ==> p.attempts == []
  {
    p := Send(parts, namespace, disco, more);
    RequestOpens(parts, namespace, disco, more);
    var r := ReadFrame(p.stream);
    p.stream := r.rest;
    ghost var left;
    err, seen, left := p.Authenticate(relay, r.kind, r.body);
    if Answerable(parts, namespace, disco) {
      BatchEnds(relay, parts, seen, left, p.stream, more, err);
      if Merged(relay, parts).Some? && WithinBudget(relay, parts) {
        BatchAccepts(relay, parts, seen, left, p.stream, more, err);
      }
    }
  }
}
