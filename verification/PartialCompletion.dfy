// Completing a request piece by piece: blk_update_request and req_bio_endio
// over a chain of bios (3.10/block/blk-core.c, 155-171, 2295-2399).
//
// Sizes are unbounded numbers: a request is assumed to hold fewer than 2^31
// bytes. The chain starts out with bios that are not empty.

module PartialCompletion {
  import opened Words

  datatype Bio = Bio(id: nat, size: nat, uptodate: bool)

  /** One call of bio_endio. */
  datatype End = End(id: nat, error: int)

  datatype Request = Request(bios: seq<Bio>, dataLen: nat, sector: nat, fs: bool, flushSeq: bool, ended: seq<End>)

  const EIO: int := -5

  function Total(bios: seq<Bio>): nat {
    if bios == [] then 0 else bios[0].size + Total(bios[1..])
  }

  predicate NonEmpty(bios: seq<Bio>) {
    forall i :: 0 <= i < |bios| ==> bios[i].size > 0
  }

  predicate Valid(r: Request) {
    NonEmpty(r.bios) && r.dataLen == Total(r.bios)
  }

  // -------------------------------------------------------------------- steps

  /** req_bio_endio: the bio after n of its bytes, and the error it reports */
  function Advance(b: Bio, n: nat, error: int): Bio
    requires n <= b.size
  {
    b.(size := b.size - n, uptodate := b.uptodate && error == 0)
  }

  function Verdict(b: Bio, error: int): int {
    if error != 0 then error else if b.uptodate then 0 else EIO
  }

  function Ends(b: Bio, n: nat, error: int, flushSeq: bool): seq<End> {
    if n == b.size && !flushSeq then [End(b.id, Verdict(b, error))] else []
  }

  /** The chain and the calls of bio_endio. */
  datatype Chain = Chain(bios: seq<Bio>, ended: seq<End>)

  /** The loop of blk_update_request with n bytes to go. */
  function Walk(c: Chain, n: nat, error: int, flushSeq: bool): Chain
    decreases |c.bios|
  {
    if c.bios == [] then c
    else
      var b := c.bios[0];
      var ended := c.ended + Ends(b, Min(b.size, n), error, flushSeq);
      if n < b.size then Chain([Advance(b, n, error)] + c.bios[1..], ended)
      else if n == b.size then Chain(c.bios[1..], ended)
      else Walk(Chain(c.bios[1..], ended), n - b.size, error, flushSeq)
  }

  /** blk_update_request; the answer is whether data remains */
  function Update(r: Request, error: int, n: nat): (Request, bool) {
    if r.bios == [] then (r, false)
    else
      var c := Walk(Chain(r.bios, r.ended), n, error, r.flushSeq);
      var done := Min(n, Total(r.bios));
      if c.bios == [] then (r.(bios := [], ended := c.ended, dataLen := 0), false)
      else (r.(bios := c.bios, ended := c.ended, dataLen := if done <= r.dataLen then r.dataLen - done else 0,
            sector := if r.fs then r.sector + done / 512 else r.sector), true)
  }

  // --------------------------------------------------------------- accounting

  function BioIds(bios: seq<Bio>): seq<nat> {
    if bios == [] then [] else [bios[0].id] + BioIds(bios[1..])
  }

  function EndIds(ended: seq<End>): seq<nat> {
    if ended == [] then [] else [ended[0].id] + EndIds(ended[1..])
  }

  lemma {:induction false} EndIdsAppend(a: seq<End>, e: End)
    ensures EndIds(a + [e]) == EndIds(a) + [e.id]
  {
    if a == [] {
      assert a + [e] == [e] && [e][1..] == [];
    } else {
      assert (a + [e])[1..] == a[1..] + [e];
      EndIdsAppend(a[1..], e);
    }
  }

  /** The loop takes exactly n bytes off the front, or all there are; it keeps the
      bios that are left non-empty; and it ends the bios it uses up, each once
      and in order. */
  lemma {:induction false} WalkAccounts(c: Chain, n: nat, error: int, flushSeq: bool)
    requires NonEmpty(c.bios)
    ensures var d := Walk(c, n, error, flushSeq);
            && NonEmpty(d.bios) && Total(d.bios) == Total(c.bios) - Min(n, Total(c.bios))
            && (d.bios == [] <==> n >= Total(c.bios))
            && (!flushSeq ==> EndIds(d.ended) + BioIds(d.bios) == EndIds(c.ended) + BioIds(c.bios))
            && (flushSeq ==> d.ended == c.ended)
    decreases |c.bios|
  {
    if c.bios != [] {
      var b, rest := c.bios[0], c.bios[1..];
      if n < b.size {
        var d := Walk(c, n, error, flushSeq);
        assert d.bios[1..] == rest && BioIds(d.bios) == BioIds(c.bios);
        assert c.ended + [] == c.ended;
      } else {
        WalkEndsOne(c, n, error, flushSeq);
        if n > b.size {
          WalkAccounts(Chain(rest, c.ended + Ends(b, b.size, error, flushSeq)), n - b.size, error, flushSeq);
        }
      }
    }
  }

  lemma WalkEndsOne(c: Chain, n: nat, error: int, flushSeq: bool)
    requires NonEmpty(c.bios) && c.bios != [] && n >= c.bios[0].size
    ensures var e := c.ended + Ends(c.bios[0], c.bios[0].size, error, flushSeq);
            && (!flushSeq ==> EndIds(e) + BioIds(c.bios[1..]) == EndIds(c.ended) + BioIds(c.bios))
            && (flushSeq ==> e == c.ended)
  {
    if !flushSeq {
      EndIdsAppend(c.ended, End(c.bios[0].id, Verdict(c.bios[0], error)));
    }
  }

  /** blk_update_request keeps __data_len the sum of the bios, takes exactly
      min(n, total) bytes, ends the used-up bios once and in order, and says
      false iff nothing remains. */
  lemma UpdateAccounts(r: Request, error: int, n: nat)
    requires Valid(r)
    ensures var (t, more) := Update(r, error, n);
            && Valid(t) && t.dataLen == r.dataLen - Min(n, r.dataLen)
            && (more <==> n < r.dataLen) && (more <==> t.bios != [])
            && (!r.flushSeq ==> EndIds(t.ended) + BioIds(t.bios) == EndIds(r.ended) + BioIds(r.bios))
            && (r.flushSeq ==> t.ended == r.ended)
            && t.fs == r.fs && t.flushSeq == r.flushSeq
  {
    WalkAccounts(Chain(r.bios, r.ended), n, error, r.flushSeq);
  }

  /** Completions in pieces, each with an error code of its own. */
  function Updates(r: Request, pieces: seq<(int, nat)>): Request
    decreases |pieces|
  {
    if pieces == [] then r else Updates(Update(r, pieces[0].0, pieces[0].1).0, pieces[1..])
  }

  function Bytes(pieces: seq<(int, nat)>): nat {
    if pieces == [] then 0 else pieces[0].1 + Bytes(pieces[1..])
  }

  /** However a request is cut up, once the pieces reach its length every bio has
      been ended exactly once, in the order of the chain. */
  lemma {:induction false} EveryBioEndsOnce(r: Request, pieces: seq<(int, nat)>)
    requires Valid(r) && !r.flushSeq
    ensures var t := Updates(r, pieces);
            && Valid(t) && t.dataLen == r.dataLen - Min(Bytes(pieces), r.dataLen)
            && EndIds(t.ended) + BioIds(t.bios) == EndIds(r.ended) + BioIds(r.bios)
            && (Bytes(pieces) >= r.dataLen ==> EndIds(t.ended) == EndIds(r.ended) + BioIds(r.bios))
    decreases |pieces|
  {
    if pieces != [] {
      UpdateAccounts(r, pieces[0].0, pieces[0].1);
      EveryBioEndsOnce(Update(r, pieces[0].0, pieces[0].1).0, pieces[1..]);
    }
    var t := Updates(r, pieces);
    if Bytes(pieces) >= r.dataLen {
      NothingLeft(t.bios);
      assert EndIds(t.ended) + [] == EndIds(t.ended);
    }
  }

  lemma NothingLeft(bios: seq<Bio>)
    requires NonEmpty(bios)
    ensures Total(bios) == 0 <==> bios == []
  {
  }

  // ------------------------------------------------------- with what error a bio ends

  /** Where bio i starts in the request. */
  function Start(bios: seq<Bio>, i: nat): nat
    requires i <= |bios|
  {
    if i == 0 then 0 else bios[0].size + Start(bios[1..], i - 1)
  }

  /** Where piece p starts. */
  function Offset(pieces: seq<(int, nat)>, p: nat): nat
    requires p <= |pieces|
  {
    if p == 0 then 0 else pieces[0].1 + Offset(pieces[1..], p - 1)
  }

  /** Piece p has bytes in the stretch from `from` to `to`, or is empty and lies there. */
  predicate Touches(pieces: seq<(int, nat)>, p: nat, from: nat, to: nat)
    requires p < |pieces|
  {
    var at := Offset(pieces, p);
    at < to && (at + pieces[p].1 > from || at >= from)
  }

  /** No piece up to k that touches the stretch reports an error. */
  ghost predicate Clean(pieces: seq<(int, nat)>, k: nat, from: nat, to: nat)
    requires k < |pieces|
  {
    forall p: nat :: p <= k && Touches(pieces, p, from, to) ==> pieces[p].0 == 0
  }

  /** The ends of bios that are used up at one go. */
  function AllEnd(bios: seq<Bio>, error: int): (es: seq<End>)
    ensures |es| == |bios|
    ensures forall i :: 0 <= i < |bios| ==> es[i] == End(bios[i].id, Verdict(bios[i], error))
  {
    if bios == [] then [] else [End(bios[0].id, Verdict(bios[0], error))] + AllEnd(bios[1..], error)
  }

  lemma {:induction false} StartInside(bios: seq<Bio>, i: nat)
    requires i < |bios|
    ensures Start(bios, i) + bios[i].size <= Total(bios)
  {
    if i > 0 { StartInside(bios[1..], i - 1); }
  }

  lemma {:induction false} StartAfter(bios: seq<Bio>, i: nat, j: nat)
    requires NonEmpty(bios) && j < i < |bios|
    ensures Start(bios, j) + bios[j].size <= Start(bios, i) && Start(bios, i) > 0
  {
    if j > 0 { StartAfter(bios[1..], i - 1, j - 1); }
  }

  /** The walk has stopped in bio j: the bios before it are ended, and it is marked
      unless the last byte was the last one of the bio before. */
  predicate StopsIn(c: Chain, d: Chain, n: nat, error: int, j: nat) {
    && j < |c.bios| && Start(c.bios, j) <= n < Start(c.bios, j) + c.bios[j].size
    && var b, done := c.bios[j], n - Start(c.bios, j);
       && d.bios == [if j > 0 && done == 0 then b else Advance(b, done, error)] + c.bios[j + 1..]
       && d.ended == c.ended + AllEnd(c.bios[..j], error)
  }

  lemma StopsHere(c: Chain, n: nat, error: int)
    requires c.bios != [] && n < c.bios[0].size
    ensures StopsIn(c, Walk(c, n, error, false), n, error, 0)
  {
    assert c.bios[..0] == [] && c.ended + [] == c.ended;
  }

  lemma StopsBehind(c: Chain, error: int)
    requires NonEmpty(c.bios) && |c.bios| > 1
    ensures StopsIn(c, Walk(c, c.bios[0].size, error, false), c.bios[0].size, error, 1)
  {
    var b, rest := c.bios[0], c.bios[1..];
    assert [rest[0]] + rest[1..] == rest && rest[1..] == c.bios[2..];
    assert c.bios[..1] == [b] && [b][1..] == [];
    assert Start(c.bios, 1) == b.size + Start(rest, 0);
  }

  lemma {:induction false} AllEndMore(ended: seq<End>, bios: seq<Bio>, i: nat, error: int)
    requires i < |bios|
    ensures ended + AllEnd(bios[..i + 1], error)
         == ended + [End(bios[0].id, Verdict(bios[0], error))] + AllEnd(bios[1..][..i], error)
  {
    assert bios[..i + 1][1..] == bios[1..][..i];
  }

  /** One bio further from the front. */
  lemma {:induction false} StopsFurther(c: Chain, d: Chain, n: nat, error: int, i: nat)
    requires c.bios != [] && n > c.bios[0].size
    requires var b := c.bios[0];
             StopsIn(Chain(c.bios[1..], c.ended + [End(b.id, Verdict(b, error))]), d, n - b.size, error, i)
    requires i == 0 ==> n - c.bios[0].size > 0
    ensures StopsIn(c, d, n, error, i + 1)
  {
    assert c.bios[1..][i + 1..] == c.bios[i + 2..];
    AllEndMore(c.ended, c.bios, i, error);
  }

  lemma {:induction false} WalkStops(c: Chain, n: nat, error: int) returns (j: nat)
    requires NonEmpty(c.bios) && n < Total(c.bios)
    ensures StopsIn(c, Walk(c, n, error, false), n, error, j)
    decreases |c.bios|
  {
    var b := c.bios[0];
    if n < b.size {
      j := 0;
      StopsHere(c, n, error);
    } else if n == b.size {
      j := 1;
      StopsBehind(c, error);
    } else {
      var i := WalkStops(Chain(c.bios[1..], c.ended + [End(b.id, Verdict(b, error))]), n - b.size, error);
      j := i + 1;
      StopsFurther(c, Walk(c, n, error, false), n, error, i);
    }
  }

  lemma {:induction false} WalkEndsAll(c: Chain, n: nat, error: int)
    requires NonEmpty(c.bios) && n >= Total(c.bios)
    ensures Walk(c, n, error, false).ended == c.ended + AllEnd(c.bios, error)
    decreases |c.bios|
  {
    if c.bios != [] {
      var b, rest := c.bios[0], c.bios[1..];
      if n == b.size {
        NothingLeft(rest);
      } else {
        WalkEndsAll(Chain(rest, c.ended + [End(b.id, Verdict(b, error))]), n - b.size, error);
      }
    }
  }

  /** What has been ended stays ended. */
  lemma {:induction false} EndedStays(r: Request, pieces: seq<(int, nat)>)
    requires Valid(r) && !r.flushSeq
    ensures r.ended <= Updates(r, pieces).ended
    decreases |pieces|
  {
    if pieces != [] {
      var (error, n) := pieces[0];
      UpdateAccounts(r, error, n);
      UpdateExtends(r, error, n);
      EndedStays(Update(r, error, n).0, pieces[1..]);
    }
  }

  lemma UpdateExtends(r: Request, error: int, n: nat)
    requires Valid(r) && !r.flushSeq
    ensures r.ended <= Update(r, error, n).0.ended
  {
    if r.bios != [] {
      var c := Chain(r.bios, r.ended);
      if n < Total(r.bios) {
        var j := WalkStops(c, n, error);
      } else {
        WalkEndsAll(c, n, error);
      }
    }
  }

  /** The piece that reaches the end of bio i ends it. */
  lemma LastPieceEnds(r: Request, error: int, n: nat, i: nat)
    requires Valid(r) && !r.flushSeq && i < |r.bios| && n >= Start(r.bios, i) + r.bios[i].size
    ensures var t := Update(r, error, n).0;
            |r.ended| + i < |t.ended| && t.ended[|r.ended| + i] == End(r.bios[i].id, Verdict(r.bios[i], error))
  {
    var c := Chain(r.bios, r.ended);
    if n < Total(r.bios) {
      var j := WalkStops(c, n, error);
      if j < i { StartAfter(r.bios, i, j); }
    } else {
      WalkEndsAll(c, n, error);
    }
  }

  lemma {:induction false} StartShifts(bios: seq<Bio>, j: nat, i: nat, x: Bio)
    requires j <= i < |bios|
    ensures Start([x] + bios[j + 1..], i - j)
         == if i == j then 0 else Start(bios, i) - Start(bios, j) - bios[j].size + x.size
  {
    var cut := [x] + bios[j + 1..];
    if j == 0 {
      assert i > 0 ==> cut[1..] == bios[1..];
    } else {
      assert cut == [x] + bios[1..][j..];
      StartShifts(bios[1..], j - 1, i - 1, x);
    }
  }

  /** Bio i of r is bio i - j of t: nearer to the front by the n bytes of a piece, and
      no longer up to date if that piece touched it with an error. */
  predicate Nearer(r: Request, t: Request, i: nat, j: nat, n: nat, marked: bool)
    requires i < |r.bios|
  {
    var b, from := r.bios[i], Start(r.bios, i);
    && Valid(t) && !t.flushSeq && j <= i < j + |t.bios| && |t.ended| == |r.ended| + j
    && n < from + b.size && t.bios[i - j].id == b.id && t.bios[i - j].uptodate == (b.uptodate && !marked)
    && Start(t.bios, i - j) == (if from <= n then 0 else from - n)
    && Start(t.bios, i - j) + t.bios[i - j].size == from + b.size - n
  }

  /** What a piece does that does not reach the end of bio i. */
  lemma PieceMarks(r: Request, pieces: seq<(int, nat)>, i: nat) returns (j: nat)
    requires Valid(r) && !r.flushSeq && i < |r.bios| && pieces != [] && pieces[0].1 < Start(r.bios, i) + r.bios[i].size
    ensures var from := Start(r.bios, i);
            Nearer(r, Update(r, pieces[0].0, pieces[0].1).0, i, j, pieces[0].1,
                   Touches(pieces, 0, from, from + r.bios[i].size) && pieces[0].0 != 0)
  {
    var (error, n) := pieces[0];
    UpdateAccounts(r, error, n);
    StartInside(r.bios, i);
    j := WalkStops(Chain(r.bios, r.ended), n, error);
    if i < j { StartAfter(r.bios, j, i); }
    var t := Update(r, error, n).0;
    StartShifts(r.bios, j, i, t.bios[0]);
    if j > 0 { StartAfter(r.bios, j, 0); }
    if i > j { StartAfter(r.bios, i, j); }
  }

  /** Entry `at` is bio b, ended by a piece with the error `last`; clean tells whether
      nothing went wrong with it before. */
  predicate EndedWith(ended: seq<End>, at: nat, b: Bio, clean: bool, last: int) {
    at < |ended| && ended[at] == End(b.id, if last != 0 then last else if clean then 0 else EIO)
  }

  lemma {:induction false} FirstPieceEnds(r: Request, pieces: seq<(int, nat)>, i: nat)
    requires Valid(r) && !r.flushSeq && i < |r.bios| && pieces != []
    requires pieces[0].1 >= Start(r.bios, i) + r.bios[i].size
    ensures var b, from := r.bios[i], Start(r.bios, i);
            EndedWith(Updates(r, pieces).ended, |r.ended| + i, b,
                      b.uptodate && Clean(pieces, 0, from, from + b.size), pieces[0].0)
  {
    var (error, n) := pieces[0];
    var b, from := r.bios[i], Start(r.bios, i);
    UpdateAccounts(r, error, n);
    LastPieceEnds(r, error, n, i);
    EndedStays(Update(r, error, n).0, pieces[1..]);
    assert b.size > 0 && Touches(pieces, 0, from, from + b.size);
    assert Clean(pieces, 0, from, from + b.size) <==> error == 0;
  }

  /** For every cutting of the request: bio i ends when piece k reaches its end. It ends
      with the error of that piece if there is one; otherwise with success exactly if it
      was up to date and no piece that touched it reported an error, and else with EIO. */
  lemma {:induction false} BioEndsWith(r: Request, pieces: seq<(int, nat)>, i: nat, k: nat)
    requires Valid(r) && !r.flushSeq && i < |r.bios| && k < |pieces|
    requires var to := Start(r.bios, i) + r.bios[i].size; Offset(pieces, k) < to <= Offset(pieces, k) + pieces[k].1
    ensures var b, from := r.bios[i], Start(r.bios, i);
            EndedWith(Updates(r, pieces).ended, |r.ended| + i, b,
                      b.uptodate && Clean(pieces, k, from, from + b.size), pieces[k].0)
    decreases |pieces|
  {
    if k == 0 {
      FirstPieceEnds(r, pieces, i);
    } else {
      var t := Update(r, pieces[0].0, pieces[0].1).0;
      var j := PieceMarks(r, pieces, i);
      BioEndsWith(t, pieces[1..], i - j, k - 1);
      EndsLater(r, t, pieces, i, j, k);
    }
  }

  lemma {:induction false} EndsLater(r: Request, t: Request, pieces: seq<(int, nat)>, i: nat, j: nat, k: nat)
    requires 0 < k < |pieces| && i < |r.bios| && t == Update(r, pieces[0].0, pieces[0].1).0
    requires var from := Start(r.bios, i);
             Nearer(r, t, i, j, pieces[0].1, Touches(pieces, 0, from, from + r.bios[i].size) && pieces[0].0 != 0)
    requires var b, from := t.bios[i - j], Start(t.bios, i - j);
             EndedWith(Updates(t, pieces[1..]).ended, |t.ended| + (i - j), b,
                       b.uptodate && Clean(pieces[1..], k - 1, from, from + b.size), pieces[k].0)
    ensures var b, from := r.bios[i], Start(r.bios, i);
            EndedWith(Updates(r, pieces).ended, |r.ended| + i, b,
                      b.uptodate && Clean(pieces, k, from, from + b.size), pieces[k].0)
  {
    CleanAfterFirst(pieces, k, Start(r.bios, i), Start(r.bios, i) + r.bios[i].size);
  }

  lemma TouchesLater(pieces: seq<(int, nat)>, p: nat, from: nat, to: nat)
    requires p + 1 < |pieces| && pieces[0].1 < to
    ensures var n := pieces[0].1;
            Touches(pieces, p + 1, from, to) <==> Touches(pieces[1..], p, if from <= n then 0 else from - n, to - n)
  {
  }

  lemma CleanAfterFirst(pieces: seq<(int, nat)>, k: nat, from: nat, to: nat)
    requires 0 < k < |pieces| && pieces[0].1 < to
    ensures var n := pieces[0].1;
            Clean(pieces, k, from, to) <==>
            (Touches(pieces, 0, from, to) ==> pieces[0].0 == 0)
            && Clean(pieces[1..], k - 1, if from <= n then 0 else from - n, to - n)
  {
    var n, rest := pieces[0].1, pieces[1..];
    var from' := if from <= n then 0 else from - n;
    if Clean(pieces, k, from, to) {
      forall p: nat | p <= k - 1 && Touches(rest, p, from', to - n) ensures rest[p].0 == 0 {
        TouchesLater(pieces, p, from, to);
        assert Touches(pieces, p + 1, from, to);
      }
    }
    if (Touches(pieces, 0, from, to) ==> pieces[0].0 == 0) && Clean(rest, k - 1, from', to - n) {
      forall p: nat | p <= k && Touches(pieces, p, from, to) ensures pieces[p].0 == 0 {
        if p > 0 {
          TouchesLater(pieces, p - 1, from, to);
          assert Touches(rest, p - 1, from', to - n);
        }
      }
    }
  }

  // -------------------------------------------------------------- composition

  /** a bytes end exactly where a bio ends, and another bio follows. */
  predicate AtBoundary(bios: seq<Bio>, a: nat)
    decreases |bios|
  {
    bios != [] && |bios| > 1 && a >= bios[0].size && (a == bios[0].size || AtBoundary(bios[1..], a - bios[0].size))
  }

  /** The bio that is first once a bytes are gone. */
  function FirstAfter(bios: seq<Bio>, a: nat): Bio
    requires AtBoundary(bios, a)
    decreases |bios|
  {
    if a == bios[0].size then bios[1] else FirstAfter(bios[1..], a - bios[0].size)
  }

  /** The second call has nothing to complete but an error to report, and meets a
      bio that the first did not touch. */
  predicate Stray(bios: seq<Bio>, error: int, a: nat, b: nat) {
    error != 0 && b == 0 && AtBoundary(bios, a) && FirstAfter(bios, a).uptodate
  }

  /** Walking a and then b bytes is walking a + b, except for a stray error. */
  lemma {:induction false} WalkComposes(c: Chain, a: nat, b: nat, error: int, flushSeq: bool)
    requires NonEmpty(c.bios)
    ensures Walk(Walk(c, a, error, flushSeq), b, error, flushSeq) == Walk(c, a + b, error, flushSeq)
            <==> !Stray(c.bios, error, a, b)
    decreases |c.bios|
  {
    if c.bios != [] {
      var x, rest := c.bios[0], c.bios[1..];
      var d := Chain(rest, c.ended + Ends(x, x.size, error, flushSeq));
      if a < x.size {
        WalkWithin(c, a, b, error, flushSeq);
      } else if a == x.size {
        assert Walk(c, a, error, flushSeq) == d;
        if b == 0 {
          WalkZero(d, error, flushSeq);
        }
      } else {
        WalkComposes(d, a - x.size, b, error, flushSeq);
      }
    }
  }

  /** The first piece stays inside the first bio. */
  lemma WalkWithin(c: Chain, a: nat, b: nat, error: int, flushSeq: bool)
    requires c.bios != [] && a < c.bios[0].size
    ensures Walk(Walk(c, a, error, flushSeq), b, error, flushSeq) == Walk(c, a + b, error, flushSeq)
  {
    var x, rest := c.bios[0], c.bios[1..];
    var y := Advance(x, a, error);
    assert c.ended + [] == c.ended;
    var m := Chain([y] + rest, c.ended);
    assert Walk(c, a, error, flushSeq) == m && m.bios[0] == y && m.bios[1..] == rest;
    assert Ends(y, Min(y.size, b), error, flushSeq) == Ends(x, Min(x.size, a + b), error, flushSeq);
    if b < y.size {
      assert Advance(y, b, error) == Advance(x, a + b, error);
    }
  }

  /** A call with no bytes only passes the error on to the first bio. */
  lemma WalkZero(c: Chain, error: int, flushSeq: bool)
    requires NonEmpty(c.bios)
    ensures Walk(c, 0, error, flushSeq) == c <==> !(error != 0 && c.bios != [] && c.bios[0].uptodate)
  {
    if c.bios != [] {
      assert c.ended + [] == c.ended;
      assert [c.bios[0]] + c.bios[1..] == c.bios;
      var d := Walk(c, 0, error, flushSeq);
      assert d.bios[0] == Advance(c.bios[0], 0, error);
    }
  }

  /** The sector moves on by whole sectors at each call, and not at all at the
      call that finishes the request. */
  predicate SectorAdds(r: Request, a: nat, b: nat) {
    || !r.fs || a >= r.dataLen
    || (a + b < r.dataLen && a % 512 + b % 512 < 512)
    || (a + b >= r.dataLen && a < 512)
  }

  /** Completing a and then b bytes with the same error is completing a + b,
      exactly when no stray error is passed on. */
  lemma UpdateComposes(r: Request, error: int, a: nat, b: nat)
    requires Valid(r)
    ensures var (two, more2) := Update(Update(r, error, a).0, error, b);
            var (one, more1) := Update(r, error, a + b);
            && more1 == more2
            && (two.(sector := one.sector) == one <==> !Stray(r.bios, error, a, b))
  {
    UpdateAccounts(r, error, a);
    UpdateAccounts(r, error, a + b);
    UpdateAccounts(Update(r, error, a).0, error, b);
    if r.bios != [] {
      WalkComposes(Chain(r.bios, r.ended), a, b, error, r.flushSeq);
      if AtBoundary(r.bios, a) {
        BoundaryInside(r.bios, a);
      }
    }
  }

  lemma SectorSum(a: nat, b: nat)
    ensures (a + b) / 512 == a / 512 + b / 512 <==> a % 512 + b % 512 < 512
    ensures a / 512 == 0 <==> a < 512
  {
  }

  lemma SectorAfter(r: Request, error: int, n: nat)
    requires Valid(r)
    ensures Update(r, error, n).0.sector == if r.fs && n < r.dataLen then r.sector + n / 512 else r.sector
  {
    UpdateAccounts(r, error, n);
  }

  /** The sector is the same exactly when the pieces add up in whole sectors and
      the second one does not finish the request. */
  lemma SectorComposes(r: Request, error: int, a: nat, b: nat)
    requires Valid(r)
    ensures Update(Update(r, error, a).0, error, b).0.sector == Update(r, error, a + b).0.sector <==> SectorAdds(r, a, b)
  {
    var m := Update(r, error, a).0;
    UpdateAccounts(r, error, a);
    SectorAfter(r, error, a);
    SectorAfter(r, error, a + b);
    SectorAfter(m, error, b);
    SectorSum(a, b);
  }

  lemma {:induction false} BoundaryInside(bios: seq<Bio>, a: nat)
    requires NonEmpty(bios) && AtBoundary(bios, a)
    ensures a < Total(bios)
    decreases |bios|
  {
    if a != bios[0].size {
      BoundaryInside(bios[1..], a - bios[0].size);
    }
  }

  /** A file system request completed in two halves ends with sector 1; completed at
      once it stays at sector 0. */
  lemma FinishingExample()
    ensures var r := Request([Bio(0, 1024, true)], 1024, 0, true, false, []);
            && Valid(r)
            && Update(Update(r, 0, 512).0, 0, 512).0.sector == 1
            && Update(r, 0, 1024).0.sector == 0
  {
  }

  /** Two calls with the same error that differ from one: the second carries no
      bytes, yet the error marks the next bio. */
  lemma StrayExample()
    ensures var r := Request([Bio(0, 512, true), Bio(1, 512, true)], 1024, 0, true, false, []);
            && Valid(r)
            && Update(Update(r, EIO, 512).0, EIO, 0).0.bios == [Bio(1, 512, false)]
            && Update(r, EIO, 512).0.bios == [Bio(1, 512, true)]
  {
  }

  // -------------------------------------------------------------- the request

  class Req {
    var bios: seq<Bio>
    var dataLen: nat
    var sector: nat
    const fs: bool
    const flushSeq: bool
    var ended: seq<End>

    ghost function Now(): Request
      reads this
    {
      Request(bios, dataLen, sector, fs, flushSeq, ended)
    }

    /** blk_update_request; curBytes is the size of a bio's current segment */
    method UpdateRequest(error: int, nrBytes: nat, curBytes: Bio -> nat) returns (more: bool)
      requires Valid(Now()) && forall b :: curBytes(b) <= b.size
      modifies this
      ensures (Now(), more) == Update(old(Now()), error, nrBytes)
    {
      if bios == [] { return false; }
      UpdateAccounts(Now(), error, nrBytes);
      var total := EndBios(error, nrBytes);
      if bios == [] {
        dataLen := 0;
        return false;
      }
      dataLen := dataLen - total;
      if fs { sector := sector + total / 512; }
      if dataLen < curBytes(bios[0]) { assert false; }  // a botched request
      return true;
    }

    /** The loop of blk_update_request, with req_bio_endio */
    method EndBios(error: int, nrBytes: nat) returns (total: nat)
      requires NonEmpty(bios) && bios != []
      modifies this`bios, this`ended
      ensures Chain(bios, ended) == Walk(old(Chain(bios, ended)), nrBytes, error, flushSeq)
      ensures total == Min(nrBytes, old(Total(bios)))
    {
      total := 0;
      var n: nat := nrBytes;
      while bios != []
        invariant NonEmpty(bios) && total + n == nrBytes && total + Total(bios) == old(Total(bios))
        invariant Walk(Chain(bios, ended), n, error, flushSeq) == Walk(old(Chain(bios, ended)), nrBytes, error, flushSeq)
        decreases |bios|
      {
        var b := bios[0];
        var k: nat := if b.size < n then b.size else n;
        ended := ended + Ends(b, k, error, flushSeq);
        bios := if k == b.size then bios[1..] else [Advance(b, k, error)] + bios[1..];
        total, n := total + k, n - k;
        if n == 0 { break; }
      }
    }
  }
}
