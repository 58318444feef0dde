/**
 Newline framing of mcp_servers/audit_bridge.py: `_send_json` and `_recv_json`.
 A connection is the pieces in which the peer's bytes arrive, in order, before it closes.
 JSON is a pair of functions between messages and lines.
 */
module Framing {
  import opened Wrappers

  type Byte = b: int | 0 <= b < 256

  const NEWLINE: Byte := 10
  const MAX_MESSAGE_BYTES: nat := 8 * 1024 * 1024
  const CHUNK: nat := 64 * 1024

  datatype FramingError = TooLong | Closed | MoreThanOneMessage | InvalidJson

  function Flat(pieces: seq<seq<Byte>>): seq<Byte> {
    if pieces == [] then [] else pieces[0] + Flat(pieces[1..])
  }

  ghost predicate NoneEmpty(pieces: seq<seq<Byte>>) {
    forall k :: 0 <= k < |pieces| ==> pieces[k] != []
  }

  function Parsed<M>(parse: seq<Byte> -> Option<M>, line: seq<Byte>): Result<M, FramingError> {
    match parse(line) case Some(m) => Ok(m) case None => Err(InvalidJson)
  }

  /** The first newline's position, or the length when there is none. */
  function LineEnd(s: seq<Byte>): (p: nat)
    ensures p <= |s| && NEWLINE !in s[..p]
    ensures p < |s| ==> s[p] == NEWLINE
  {
    if s == [] || s[0] == NEWLINE then 0
    else
      var p := LineEnd(s[1..]);
      assert s[..p + 1] == [s[0]] + s[1..][..p];
      p + 1
  }

  lemma LineEndIs(s: seq<Byte>, p: nat)
    requires p <= |s| && NEWLINE !in s[..p]
    requires p < |s| ==> s[p] == NEWLINE
    ensures LineEnd(s) == p
  {
    var q := LineEnd(s);
    assert forall k :: 0 <= k < p ==> s[k] == s[..p][k] != NEWLINE;
    assert forall k :: 0 <= k < q ==> s[k] == s[..q][k] != NEWLINE;
  }

  function Min(a: nat, b: nat): nat { if a <= b then a else b }

  // ---------------------------------------------------------------- the two ends

  class Connection {
    var pieces: seq<seq<Byte>>

    constructor (pieces: seq<seq<Byte>>)
      requires NoneEmpty(pieces)
      ensures this.pieces == pieces
    {
      this.pieces := pieces;
    }

    /** `recv(n)`: at most n bytes of the next piece, nothing once the peer has closed. A read of
        zero bytes, which would look like a close, is never asked for. */
    method Recv(n: nat) returns (chunk: seq<Byte>)
      requires n >= 1 && NoneEmpty(pieces)
      modifies this
      ensures NoneEmpty(pieces)
      ensures (chunk, pieces) == Taken(old(pieces), n)
    {
      if pieces == [] { return []; }
      var head := pieces[0];
      if |head| <= n {
        chunk, pieces := head, pieces[1..];
      } else {
        chunk, pieces := head[..n], [head[n..]] + pieces[1..];
      }
    }

    method SendAll(raw: seq<Byte>)
      requires raw != []
      modifies this
      ensures pieces == old(pieces) + [raw]
    {
      pieces := pieces + [raw];
    }
  }

  function Taken(pieces: seq<seq<Byte>>, n: nat): (seq<Byte>, seq<seq<Byte>>) {
    if pieces == [] then ([], [])
    else if |pieces[0]| <= n then (pieces[0], pieces[1..])
    else (pieces[0][..n], [pieces[0][n..]] + pieces[1..])
  }

  /** What is accepted for sending, as the bytes put on the wire. */
  function Framed(line: seq<Byte>): Result<seq<Byte>, FramingError> {
    if |line| + 1 > MAX_MESSAGE_BYTES then Err(TooLong) else Ok(line + [NEWLINE])
  }

  method SendJson(connection: Connection, line: seq<Byte>) returns (r: Result<(), FramingError>)
    modifies connection
    ensures r.Ok? <==> Framed(line).Ok?
    ensures r.Ok? ==> connection.pieces == old(connection.pieces) + [Framed(line).value]
    ensures r.Err? ==> r.error == TooLong && connection.pieces == old(connection.pieces)
  {
    var raw := line + [NEWLINE];
    if |raw| > MAX_MESSAGE_BYTES { return Err(TooLong); }
    connection.SendAll(raw);
    r := Ok(());
  }

  /** The reading loop as a function of what has been read and what is still to arrive. */
  function Reading<M>(parse: seq<Byte> -> Option<M>, data: seq<Byte>, pieces: seq<seq<Byte>>): Result<M, FramingError>
    requires NoneEmpty(pieces) && |data| <= MAX_MESSAGE_BYTES
    decreases MAX_MESSAGE_BYTES - |data|
  {
    if pieces == [] then Err(Closed)
    else
      var (chunk, left) := Taken(pieces, Min(CHUNK, MAX_MESSAGE_BYTES + 1 - |data|));
      var all := data + chunk;
      if |all| > MAX_MESSAGE_BYTES then Err(TooLong)
      else if LineEnd(chunk) == |chunk| then Reading(parse, all, left)
      else if LineEnd(chunk) != |chunk| - 1 then Err(MoreThanOneMessage)
      else Parsed(parse, all[..|all| - 1])
  }

  method RecvJson<M>(connection: Connection, parse: seq<Byte> -> Option<M>) returns (r: Result<M, FramingError>)
    requires NoneEmpty(connection.pieces)
    modifies connection
    ensures NoneEmpty(connection.pieces)
    ensures r == Reading(parse, [], old(connection.pieces))
  {
    var data: seq<Byte> := [];
    while true
      invariant NoneEmpty(connection.pieces) && |data| <= MAX_MESSAGE_BYTES
      invariant Reading(parse, data, connection.pieces) == Reading(parse, [], old(connection.pieces))
      decreases MAX_MESSAGE_BYTES - |data|
    {
      var chunk := connection.Recv(Min(CHUNK, MAX_MESSAGE_BYTES + 1 - |data|));
      if chunk == [] { return Err(Closed); }
      data := data + chunk;
      if |data| > MAX_MESSAGE_BYTES { return Err(TooLong); }
      var newline := LineEnd(chunk);
      if newline < |chunk| {
        var absolute := |data| - |chunk| + newline;
        if absolute != |data| - 1 { return Err(MoreThanOneMessage); }
        return Parsed(parse, data[..absolute]);
      }
    }
  }

  // ---------------------------------------------------------------- laws

  lemma TakenIsAPrefix(pieces: seq<seq<Byte>>, n: nat)
    requires NoneEmpty(pieces) && pieces != [] && n >= 1
    ensures var (chunk, left) := Taken(pieces, n);
            chunk != [] && |chunk| <= n && NoneEmpty(left) && chunk + Flat(left) == Flat(pieces)
  {
    if |pieces[0]| > n {
      FlatOfOneMore(pieces[0][n..], pieces[1..]);
      Rejoined(pieces[0], n, Flat(pieces[1..]));
    }
  }

  lemma FlatOfOneMore(piece: seq<Byte>, pieces: seq<seq<Byte>>)
    ensures Flat([piece] + pieces) == piece + Flat(pieces)
  {
    assert ([piece] + pieces)[1..] == pieces;
  }

  lemma Rejoined(s: seq<Byte>, n: nat, rest: seq<Byte>)
    requires n <= |s|
    ensures s[..n] + (s[n..] + rest) == s + rest
  {
    assert s[..n] + s[n..] == s;
  }

  lemma TakenLeavesLater(pieces: seq<seq<Byte>>, later: seq<seq<Byte>>, n: nat)
    requires pieces != []
    ensures Taken(pieces + later, n) == (Taken(pieces, n).0, Taken(pieces, n).1 + later)
  {
    assert (pieces + later)[1..] == pieces[1..] + later;
    if |pieces[0]| > n {
      assert [pieces[0][n..]] + (pieces[1..] + later) == [pieces[0][n..]] + pieces[1..] + later;
    }
  }

  /** Once the pieces before it end at a newline, nothing later matters. */
  lemma {:induction false} LineIsRead<M>(parse: seq<Byte> -> Option<M>, data: seq<Byte>, pieces: seq<seq<Byte>>,
                                         later: seq<seq<Byte>>, line: seq<Byte>)
    requires NoneEmpty(pieces) && NoneEmpty(later)
    requires NEWLINE !in line && |line| < MAX_MESSAGE_BYTES
    requires |data| <= |line| && data + Flat(pieces) == line + [NEWLINE]
    ensures NoneEmpty(pieces + later)
    ensures Reading(parse, data, pieces + later) == Parsed(parse, line)
    decreases |line| - |data|
  {
    var n := Min(CHUNK, MAX_MESSAGE_BYTES + 1 - |data|);
    assert pieces != [];
    TakenIsAPrefix(pieces, n);
    TakenLeavesLater(pieces, later, n);
    var (chunk, left) := Taken(pieces, n);
    var all := data + chunk;
    assert all + Flat(left) == line + [NEWLINE];
    assert all == (line + [NEWLINE])[..|all|];
    assert chunk == all[|data|..];
    if |all| <= |line| {
      assert all == line[..|all|];
      assert NEWLINE !in chunk;
      LineEndIs(chunk, |chunk|);
      LineIsRead(parse, all, left, later, line);
    } else {
      assert all == line + [NEWLINE];
      assert chunk[..|chunk| - 1] == line[|data|..];
      LineEndIs(chunk, |chunk| - 1);
      assert all[..|all| - 1] == line;
    }
  }

  /** A message survives the wire however its bytes are split, and the two limits agree. */
  lemma RoundTrip<M>(encode: M -> seq<Byte>, parse: seq<Byte> -> Option<M>, m: M, pieces: seq<seq<Byte>>)
    requires NEWLINE !in encode(m) && parse(encode(m)) == Some(m)
    requires NoneEmpty(pieces) && Flat(pieces) == encode(m) + [NEWLINE]
    ensures Reading(parse, [], pieces) == if Framed(encode(m)).Ok? then Ok(m) else Err(TooLong)
  {
    var line := encode(m);
    assert [] + Flat(pieces) == Flat(pieces);
    if |line| < MAX_MESSAGE_BYTES {
      LineIsRead(parse, [], pieces, [], line);
      assert pieces + [] == pieces;
    } else {
      assert Flat(pieces)[..|line|] == line;
      LineEndIs(Flat(pieces), |line|);
      WhatReadingMeans(parse, [], pieces);
    }
  }

  /** What any outcome says about the bytes that were on the wire. */
  ghost predicate Explains<M>(parse: seq<Byte> -> Option<M>, bytes: seq<Byte>, r: Result<M, FramingError>) {
    var p := LineEnd(bytes);
    if p == |bytes| then r == Err(if p > MAX_MESSAGE_BYTES then TooLong else Closed)
    else if p + 1 > MAX_MESSAGE_BYTES then r == Err(TooLong)
    else if p + 1 == |bytes| then r == Parsed(parse, bytes[..p])
    else || r == Parsed(parse, bytes[..p])
         || r == Err(MoreThanOneMessage)
         || (r == Err(TooLong) && |bytes| > MAX_MESSAGE_BYTES)
  }

  /** A line is delivered only if it stood first, whole and within the limit; every stream without
      such a line is refused for the right reason. */
  lemma {:induction false} WhatReadingMeans<M>(parse: seq<Byte> -> Option<M>, data: seq<Byte>, pieces: seq<seq<Byte>>)
    requires NoneEmpty(pieces) && NEWLINE !in data && |data| <= MAX_MESSAGE_BYTES
    ensures Explains(parse, data + Flat(pieces), Reading(parse, data, pieces))
    decreases MAX_MESSAGE_BYTES - |data|
  {
    var bytes := data + Flat(pieces);
    if pieces == [] {
      assert bytes == data;
      LineEndIs(bytes, |bytes|);
    } else {
      var n := Min(CHUNK, MAX_MESSAGE_BYTES + 1 - |data|);
      TakenIsAPrefix(pieces, n);
      var (chunk, left) := Taken(pieces, n);
      var all := data + chunk;
      assert bytes == all + Flat(left);
      FirstNewline(data, chunk, Flat(left));
      if LineEnd(chunk) == |chunk| && |all| <= MAX_MESSAGE_BYTES {
        WhatReadingMeans(parse, all, left);
      }
    }
  }

  /** Where the first newline of a stream is, seen from a chunk of it. */
  lemma FirstNewline(data: seq<Byte>, chunk: seq<Byte>, rest: seq<Byte>)
    requires NEWLINE !in data
    ensures var bytes, e := data + chunk + rest, LineEnd(chunk);
            && (e == |chunk| ==> NEWLINE !in data + chunk && LineEnd(bytes) >= |data + chunk|)
            && (e < |chunk| ==> LineEnd(bytes) == |data| + e && bytes[..|data| + e] == (data + chunk)[..|data| + e])
  {
    var bytes, all, e := data + chunk + rest, data + chunk, LineEnd(chunk);
    assert bytes[..|data| + e] == data + chunk[..e] == all[..|data| + e];
    if e < |chunk| {
      assert bytes[|data| + e] == NEWLINE;
      LineEndIs(bytes, |data| + e);
    } else {
      assert chunk[..e] == chunk;
      assert forall k :: 0 <= k < |all| ==> bytes[k] == all[k] && all[k] in all;
    }
  }

  /** Where the read that brings the d-th byte still to come ends: with its piece, or a whole number of
      full reads into it. */
  function ReadEnd(pieces: seq<seq<Byte>>, d: nat): nat {
    if pieces == [] then d
    else if d > |pieces[0]| then |pieces[0]| + ReadEnd(pieces[1..], d - |pieces[0]|)
    else Min(|pieces[0]|, (d + CHUNK - 1) / CHUNK * CHUNK)
  }

  /** What becomes of a line when the read that brings its newline ends after so many bytes. */
  function LineOutcome<M>(parse: seq<Byte> -> Option<M>, line: seq<Byte>, end: nat): Result<M, FramingError> {
    if end == |line| + 1 then Parsed(parse, line)
    else if end > MAX_MESSAGE_BYTES then Err(TooLong)
    else Err(MoreThanOneMessage)
  }

  /** Exactly what becomes of a first line that fits, whatever follows it and however the bytes arrive:
      it is delivered when a read ends with its newline, and otherwise refused for the bytes that came
      in the same read. */
  lemma {:induction false} FirstLineOutcome<M>(parse: seq<Byte> -> Option<M>, data: seq<Byte>, pieces: seq<seq<Byte>>,
                                               line: seq<Byte>, surplus: seq<Byte>)
    requires NoneEmpty(pieces) && NEWLINE !in line && |data| <= |line| < MAX_MESSAGE_BYTES
    requires data + Flat(pieces) == line + [NEWLINE] + surplus
    ensures Reading(parse, data, pieces) == LineOutcome(parse, line, |data| + ReadEnd(pieces, |line| + 1 - |data|))
    decreases |line| - |data|
  {
    var d, n := |line| + 1 - |data|, Min(CHUNK, MAX_MESSAGE_BYTES + 1 - |data|);
    NextOfStream(data, pieces, n, line, surplus);
    var (chunk, left) := Taken(pieces, n);
    var all := data + chunk;
    if |chunk| < d {
      ReadWithoutNewline(parse, data, pieces);
      ReadEndMoves(pieces, n, d);
      FirstLineOutcome(parse, all, left, line, surplus);
    } else {
      ReadEndIsHere(pieces, n, d, MAX_MESSAGE_BYTES + 1 - |data|);
      assert LineOutcome(parse, line, |data| + ReadEnd(pieces, d)) == LineOutcome(parse, line, |data| + |chunk|);
      ReadWithNewline(parse, data, pieces, line);
    }
  }

  /** A read of the line's earlier bytes only adds to what has been read. */
  lemma ReadWithoutNewline<M>(parse: seq<Byte> -> Option<M>, data: seq<Byte>, pieces: seq<seq<Byte>>)
    requires NoneEmpty(pieces) && pieces != [] && |data| <= MAX_MESSAGE_BYTES
    requires var chunk := Taken(pieces, Min(CHUNK, MAX_MESSAGE_BYTES + 1 - |data|)).0;
             NEWLINE !in chunk && |data + chunk| <= MAX_MESSAGE_BYTES
    ensures var (chunk, left) := Taken(pieces, Min(CHUNK, MAX_MESSAGE_BYTES + 1 - |data|));
            NoneEmpty(left) && Reading(parse, data, pieces) == Reading(parse, data + chunk, left)
  {
    var (chunk, left) := Taken(pieces, Min(CHUNK, MAX_MESSAGE_BYTES + 1 - |data|));
    TakenIsAPrefix(pieces, Min(CHUNK, MAX_MESSAGE_BYTES + 1 - |data|));
    LineEndIs(chunk, |chunk|);
  }

  /** The outcome of the read that brings the newline. */
  lemma ReadWithNewline<M>(parse: seq<Byte> -> Option<M>, data: seq<Byte>, pieces: seq<seq<Byte>>, line: seq<Byte>)
    requires NoneEmpty(pieces) && pieces != [] && |data| <= |line| < MAX_MESSAGE_BYTES
    requires var d, chunk := |line| + 1 - |data|, Taken(pieces, Min(CHUNK, MAX_MESSAGE_BYTES + 1 - |data|)).0;
             && d <= |chunk| && NEWLINE !in chunk[..d - 1] && chunk[d - 1] == NEWLINE
             && (|chunk| == d ==> (data + chunk)[..|data + chunk| - 1] == line)
    ensures var chunk := Taken(pieces, Min(CHUNK, MAX_MESSAGE_BYTES + 1 - |data|)).0;
            Reading(parse, data, pieces) == LineOutcome(parse, line, |data| + |chunk|)
  {
    LineEndIs(Taken(pieces, Min(CHUNK, MAX_MESSAGE_BYTES + 1 - |data|)).0, |line| - |data|);
  }

  /** What a read of the stream holds: bytes of the line, or its rest with the newline in its place. */
  lemma NextOfStream(data: seq<Byte>, pieces: seq<seq<Byte>>, n: nat, line: seq<Byte>, surplus: seq<Byte>)
    requires NoneEmpty(pieces) && NEWLINE !in line && |data| <= |line| && n >= 1
    requires data + Flat(pieces) == line + [NEWLINE] + surplus
    ensures pieces != []
    ensures var (chunk, left) := Taken(pieces, n);
            && chunk != [] && |chunk| <= n && NoneEmpty(left)
            && data + chunk + Flat(left) == line + [NEWLINE] + surplus
    ensures var d, chunk := |line| + 1 - |data|, Taken(pieces, n).0;
            && (|chunk| < d ==> NEWLINE !in chunk)
            && (|chunk| >= d ==> NEWLINE !in chunk[..d - 1] && chunk[d - 1] == NEWLINE)
            && (|chunk| == d ==> (data + chunk)[..|data + chunk| - 1] == line)
  {
    assert pieces != [] by { assert pieces == [] ==> Flat(pieces) == []; }
    TakenIsAPrefix(pieces, n);
    var (chunk, left) := Taken(pieces, n);
    assert data + (chunk + Flat(left)) == data + chunk + Flat(left);
    ChunkOfStream(data, chunk, Flat(left), line, surplus);
  }

  lemma ChunkOfStream(data: seq<Byte>, chunk: seq<Byte>, rest: seq<Byte>, line: seq<Byte>, surplus: seq<Byte>)
    requires NEWLINE !in line && |data| <= |line|
    requires data + chunk + rest == line + [NEWLINE] + surplus
    ensures var d := |line| + 1 - |data|;
            && (|chunk| < d ==> NEWLINE !in chunk)
            && (|chunk| >= d ==> NEWLINE !in chunk[..d - 1] && chunk[d - 1] == NEWLINE)
            && (|chunk| == d ==> (data + chunk)[..|data + chunk| - 1] == line)
  {
    var d, bytes := |line| + 1 - |data|, line + [NEWLINE] + surplus;
    assert forall k :: 0 <= k < |chunk| ==> chunk[k] == bytes[|data| + k];
    assert forall k :: 0 <= k < |line| ==> bytes[k] == line[k] && line[k] in line;
    if |chunk| == d {
      var all := data + chunk;
      assert forall k :: 0 <= k < |all| ==> all[k] == bytes[k];
    }
  }

  /** A read that stops short of the d-th byte leaves where that byte's read ends. */
  lemma ReadEndMoves(pieces: seq<seq<Byte>>, n: nat, d: nat)
    requires pieces != [] && 1 <= n <= CHUNK && |Taken(pieces, n).0| < d
    requires n < CHUNK ==> d <= n
    ensures ReadEnd(pieces, d) == |Taken(pieces, n).0| + ReadEnd(Taken(pieces, n).1, d - |Taken(pieces, n).0|)
  {
    var (chunk, left) := Taken(pieces, n);
    if |pieces[0]| > n {
      assert left[1..] == pieces[1..];
    }
  }

  /** A read that brings the d-th byte ends where that byte's read ends, unless the size limit cut it. */
  lemma ReadEndIsHere(pieces: seq<seq<Byte>>, n: nat, d: nat, room: nat)
    requires pieces != [] && 1 <= d <= |Taken(pieces, n).0| && n == Min(CHUNK, room) && d < room
    ensures ReadEnd(pieces, d) == d <==> |Taken(pieces, n).0| == d
    ensures ReadEnd(pieces, d) >= room <==> |Taken(pieces, n).0| >= room
  {
  }

  /** "Exactly one message per connection" is enforced only inside one read. When each piece arrives in
      one read, surplus bytes are refused exactly when no piece ends with the newline. */
  lemma SurplusIsSeenOnlyWithinOneRead<M>(parse: seq<Byte> -> Option<M>, data: seq<Byte>, pieces: seq<seq<Byte>>,
                                          line: seq<Byte>, surplus: seq<Byte>)
    requires NoneEmpty(pieces) && (forall k :: 0 <= k < |pieces| ==> |pieces[k]| <= CHUNK)
    requires NEWLINE !in line && |data| <= |line| && |line| + CHUNK < MAX_MESSAGE_BYTES && surplus != []
    requires data + Flat(pieces) == line + [NEWLINE] + surplus
    ensures Reading(parse, data, pieces) == Err(MoreThanOneMessage) <==>
            !exists k :: 0 <= k <= |pieces| && data + Flat(pieces[..k]) == line + [NEWLINE]
  {
    FirstLineOutcome(parse, data, pieces, line, surplus);
    var d := |line| + 1 - |data|;
    ReadEndOfShortPieces(pieces, d);
    forall k | 0 <= k <= |pieces|
      ensures data + Flat(pieces[..k]) == line + [NEWLINE] <==> |Flat(pieces[..k])| == d
    {
      PiecesUpToNewline(data, pieces, k, line + [NEWLINE], surplus);
    }
  }

  /** Pieces make up a part of the stream exactly when they have its length. */
  lemma PiecesUpToNewline(data: seq<Byte>, pieces: seq<seq<Byte>>, k: nat, part: seq<Byte>, surplus: seq<Byte>)
    requires k <= |pieces| && data + Flat(pieces) == part + surplus
    ensures data + Flat(pieces[..k]) == part <==> |data| + |Flat(pieces[..k])| == |part|
  {
    FlatOfPrefix(pieces, k);
    assert data + Flat(pieces[..k]) == (part + surplus)[..|data| + |Flat(pieces[..k])|];
    assert (part + surplus)[..|part|] == part;
  }

  lemma {:induction false} FlatOfPrefix(pieces: seq<seq<Byte>>, k: nat)
    requires k <= |pieces|
    ensures Flat(pieces[..k]) <= Flat(pieces)
  {
    if k > 0 {
      FlatOfPrefix(pieces[1..], k - 1);
      assert pieces[..k][1..] == pieces[1..][..k - 1];
    }
  }

  /** Pieces of at most one read: a read ends after d bytes exactly when some pieces add up to them. */
  lemma {:induction false} ReadEndOfShortPieces(pieces: seq<seq<Byte>>, d: nat)
    requires NoneEmpty(pieces) && (forall k :: 0 <= k < |pieces| ==> |pieces[k]| <= CHUNK)
    requires 1 <= d <= |Flat(pieces)|
    ensures d <= ReadEnd(pieces, d) < d + CHUNK
    ensures ReadEnd(pieces, d) == d <==> exists k :: 0 <= k <= |pieces| && |Flat(pieces[..k])| == d
  {
    var head, rest := |pieces[0]|, pieces[1..];
    forall k | 1 <= k <= |pieces|
      ensures |Flat(pieces[..k])| == head + |Flat(rest[..k - 1])|
    {
      assert pieces[..k][1..] == rest[..k - 1];
    }
    if d > head {
      ReadEndOfShortPieces(rest, d - head);
      if ReadEnd(pieces, d) == d {
        var j :| 0 <= j <= |rest| && |Flat(rest[..j])| == d - head;
        assert |Flat(pieces[..j + 1])| == d;
      }
    } else {
      assert rest[..0] == [] && |Flat(pieces[..1])| == head;
      forall k | 0 <= k <= |pieces|
        ensures |Flat(pieces[..k])| == d ==> d == head
      {
        assert k == 0 ==> pieces[..k] == [];
      }
    }
  }
}
