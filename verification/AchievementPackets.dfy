/**
 Sending all achievement data: completed achievements, then progress, split over as many packets as
 it takes so that no packet grows past what the client can read.
 */
module AchievementPackets {
  import opened Basics
  import opened WireFormat

  const FULL: nat := 0x7f00
  const CLIENT_LIMIT: nat := 0x7fff
  const END: nat := 0xffff_ffff

  /** A completed achievement in map order; `shown` is whether the player may be told of it. */
  datatype Completed = Completed(id: nat, date: nat, shown: bool)

  /** A progress record in map order; `known` is whether its criterion and achievement exist, `wanted` whether this reader gets it. */
  datatype Progress = Progress(id: nat, counter: int, date: nat, known: bool, wanted: bool)

  datatype Row = Row(id: nat, counter: nat, guid: nat, date: nat)

  predicate Sent(p: Progress) {
    p.known && p.wanted && p.counter > 0
  }

  ghost predicate CompletedOk(cs: seq<Completed>) {
    forall k :: 0 <= k < |cs| ==> cs[k].id < END && cs[k].date < WORD
  }

  ghost predicate ProgressOk(ps: seq<Progress>) {
    forall k :: 0 <= k < |ps| ==> ps[k].id < END && ps[k].counter < 0x8000_0000 && ps[k].date < WORD
  }

  // ---------- what is written for one entry ----------

  function CompletedBytes(c: Completed): (r: seq<Byte>)
    requires c.id < END && c.date < WORD
    ensures |r| <= 8
  {
    if c.shown then Bytes4(c.id) + Bytes4(c.date) else []
  }

  function RowTail(date: nat): (r: seq<Byte>)
    requires date < WORD
    ensures |r| == 16
  {
    Bytes4(0) + Bytes4(date) + Bytes4(0) + Bytes4(0)
  }

  function RowBytes(p: Progress, guid: nat): (r: seq<Byte>)
    requires p.id < END && 0 <= p.counter < 0x8000_0000 && p.date < WORD && guid < LONG
    ensures |r| <= 38
  {
    Bytes4(p.id) + (PackGuid(p.counter) + (PackGuid(guid) + RowTail(p.date)))
  }

  function ProgressBytes(p: Progress, guid: nat): (r: seq<Byte>)
    requires p.id < END && p.counter < 0x8000_0000 && p.date < WORD && guid < LONG
    ensures |r| <= 38
  {
    if Sent(p) then RowBytes(p, guid) else []
  }

  function AllCompleted(cs: seq<Completed>): seq<Byte>
    requires CompletedOk(cs)
  {
    if cs == [] then [] else CompletedBytes(cs[0]) + AllCompleted(cs[1..])
  }

  function AllProgress(ps: seq<Progress>, guid: nat): seq<Byte>
    requires ProgressOk(ps) && guid < LONG
  {
    if ps == [] then [] else ProgressBytes(ps[0], guid) + AllProgress(ps[1..], guid)
  }

  // ---------- filling a packet ----------

  datatype Filled = Filled(data: seq<Byte>, taken: nat, full: bool)

  function FillCompleted(data: seq<Byte>, cs: seq<Completed>): Filled
    requires CompletedOk(cs)
    decreases |cs|
  {
    if cs == [] then Filled(data, 0, false) else
    var d := data + CompletedBytes(cs[0]);
    if |d| > FULL then Filled(d, 1, true) else
    var r := FillCompleted(d, cs[1..]);
    r.(taken := r.taken + 1)
  }

  /** Entries whose criterion is unknown are passed over before the size is looked at. */
  function FillProgress(data: seq<Byte>, ps: seq<Progress>, guid: nat): Filled
    requires ProgressOk(ps) && guid < LONG
    decreases |ps|
  {
    if ps == [] then Filled(data, 0, false) else
    var d := data + ProgressBytes(ps[0], guid);
    if ps[0].known && |d| > FULL then Filled(d, 1, true) else
    var r := FillProgress(d, ps[1..], guid);
    r.(taken := r.taken + 1)
  }

  function Separator(): (r: seq<Byte>)
    ensures |r| == 4
  {
    Bytes4(END)
  }

  lemma {:induction false} FillCompletedTakes(data: seq<Byte>, cs: seq<Completed>)
    requires CompletedOk(cs) && |data| <= FULL
    ensures var r := FillCompleted(data, cs);
      && r.taken <= |cs| && (cs != [] ==> r.taken > 0) && (!r.full ==> r.taken == |cs|)
      && |r.data| <= (if r.full then FULL + 8 else FULL)
    decreases |cs|
  {
    if cs != [] {
      var d := data + CompletedBytes(cs[0]);
      if |d| <= FULL {
        FillCompletedTakes(d, cs[1..]);
      }
    }
  }

  lemma {:induction false} FillProgressTakes(data: seq<Byte>, ps: seq<Progress>, guid: nat)
    requires ProgressOk(ps) && guid < LONG && |data| <= FULL + 4
    ensures var r := FillProgress(data, ps, guid);
      && r.taken <= |ps| && (ps != [] ==> r.taken > 0) && (!r.full ==> r.taken == |ps|)
      && |r.data| <= FULL + 42
    decreases |ps|
  {
    if ps != [] {
      var d := data + ProgressBytes(ps[0], guid);
      if !(ps[0].known && |d| > FULL) {
        FillProgressTakes(d, ps[1..], guid);
      }
    }
  }

  lemma {:induction false} Assoc<T>(a: seq<T>, b: seq<T>, c: seq<T>)
    ensures (a + b) + c == a + (b + c)
  {
  }

  lemma {:induction false} CompletedPrefix(cs: seq<Completed>, k: nat)
    requires CompletedOk(cs) && k < |cs|
    ensures CompletedOk(cs[1..]) && AllCompleted(cs[..k + 1]) == CompletedBytes(cs[0]) + AllCompleted(cs[1..][..k])
  {
    assert cs[..k + 1][1..] == cs[1..][..k];
  }

  lemma {:induction false} FillCompletedData(data: seq<Byte>, cs: seq<Completed>)
    requires CompletedOk(cs)
    ensures FillCompleted(data, cs).taken <= |cs|
    ensures FillCompleted(data, cs).data == data + AllCompleted(cs[..FillCompleted(data, cs).taken])
    decreases |cs|
  {
    if cs == [] {
      assert data + AllCompleted([]) == data;
    } else {
      var d := data + CompletedBytes(cs[0]);
      var k := if |d| > FULL then 0 else FillCompleted(d, cs[1..]).taken;
      if |d| > FULL {
        assert d + AllCompleted(cs[1..][..0]) == d;
      } else {
        FillCompletedData(d, cs[1..]);
      }
      CompletedPrefix(cs, k);
      Assoc(data, CompletedBytes(cs[0]), AllCompleted(cs[1..][..k]));
    }
  }

  lemma {:induction false} ProgressPrefix(ps: seq<Progress>, guid: nat, k: nat)
    requires ProgressOk(ps) && guid < LONG && k < |ps|
    ensures ProgressOk(ps[1..]) && AllProgress(ps[..k + 1], guid) == ProgressBytes(ps[0], guid) + AllProgress(ps[1..][..k], guid)
  {
    assert ps[..k + 1][1..] == ps[1..][..k];
  }

  lemma {:induction false} FillProgressData(data: seq<Byte>, ps: seq<Progress>, guid: nat)
    requires ProgressOk(ps) && guid < LONG
    ensures FillProgress(data, ps, guid).taken <= |ps|
    ensures FillProgress(data, ps, guid).data == data + AllProgress(ps[..FillProgress(data, ps, guid).taken], guid)
    decreases |ps|
  {
    if ps == [] {
      assert data + AllProgress([], guid) == data;
    } else {
      var d := data + ProgressBytes(ps[0], guid);
      var stop := ps[0].known && |d| > FULL;
      var k := if stop then 0 else FillProgress(d, ps[1..], guid).taken;
      if stop {
        assert d + AllProgress(ps[1..][..0], guid) == d;
      } else {
        FillProgressData(d, ps[1..], guid);
      }
      ProgressPrefix(ps, guid, k);
      Assoc(data, ProgressBytes(ps[0], guid), AllProgress(ps[1..][..k], guid));
    }
  }

  // ---------- all packets ----------

  datatype Page = Page(data: seq<Byte>, completed: nat, progress: nat)

  function MakePage(header: seq<Byte>, guid: nat, cs: seq<Completed>, ps: seq<Progress>): Page
    requires CompletedOk(cs) && ProgressOk(ps) && guid < LONG
  {
    var c := FillCompleted(header, cs);
    var p := if c.full then Filled(c.data + Separator(), 0, false) else FillProgress(c.data + Separator(), ps, guid);
    Page(p.data + Separator(), c.taken, p.taken)
  }

  /** Every packet takes something from what is left, and none is larger than the client can read. */
  lemma {:induction false} PageTakes(header: seq<Byte>, guid: nat, cs: seq<Completed>, ps: seq<Progress>)
    requires CompletedOk(cs) && ProgressOk(ps) && guid < LONG && |header| <= 9
    ensures var page := MakePage(header, guid, cs, ps);
      && page.completed <= |cs| && page.progress <= |ps|
      && (cs != [] || ps != [] ==> page.completed + page.progress > 0)
      && |page.data| <= CLIENT_LIMIT
  {
    FillCompletedTakes(header, cs);
    var c := FillCompleted(header, cs);
    if !c.full {
      FillProgressTakes(c.data + Separator(), ps, guid);
    }
  }

  /** A packet leaves entries for another one only when it has grown past 0x7f00 bytes. */
  lemma {:induction false} PageStopsWhenFull(header: seq<Byte>, guid: nat, cs: seq<Completed>, ps: seq<Progress>)
    requires CompletedOk(cs) && ProgressOk(ps) && guid < LONG && |header| <= 9
    ensures var page := MakePage(header, guid, cs, ps);
      page.completed < |cs| || page.progress < |ps| ==> |page.data| > 0x7f00
  {
    FillCompletedTakes(header, cs);
    FillCompletedFull(header, cs);
    var c := FillCompleted(header, cs);
    if !c.full {
      FillProgressTakes(c.data + Separator(), ps, guid);
      FillProgressFull(c.data + Separator(), ps, guid);
    }
  }

  lemma {:induction false} FillCompletedFull(data: seq<Byte>, cs: seq<Completed>)
    requires CompletedOk(cs)
    ensures FillCompleted(data, cs).full ==> |FillCompleted(data, cs).data| > 0x7f00
    decreases |cs|
  {
    if cs != [] { FillCompletedFull(data + CompletedBytes(cs[0]), cs[1..]); }
  }

  lemma {:induction false} FillProgressFull(data: seq<Byte>, ps: seq<Progress>, guid: nat)
    requires ProgressOk(ps) && guid < LONG
    ensures FillProgress(data, ps, guid).full ==> |FillProgress(data, ps, guid).data| > 0x7f00
    decreases |ps|
  {
    if ps != [] { FillProgressFull(data + ProgressBytes(ps[0], guid), ps[1..], guid); }
  }

  lemma {:induction false} SuffixOk(cs: seq<Completed>, ps: seq<Progress>, k: nat, m: nat)
    requires CompletedOk(cs) && ProgressOk(ps) && k <= |cs| && m <= |ps|
    ensures CompletedOk(cs[k..]) && ProgressOk(ps[m..]) && CompletedOk(cs[..k]) && ProgressOk(ps[..m])
  {
  }

  function Packets(header: seq<Byte>, guid: nat, cs: seq<Completed>, ps: seq<Progress>): seq<seq<Byte>>
    requires CompletedOk(cs) && ProgressOk(ps) && guid < LONG && |header| <= 9
    decreases |cs| + |ps|
  {
    PageTakes(header, guid, cs, ps);
    var page := MakePage(header, guid, cs, ps);
    SuffixOk(cs, ps, page.completed, page.progress);
    [page.data] + (if page.completed == |cs| && page.progress == |ps| then []
                   else Packets(header, guid, cs[page.completed..], ps[page.progress..]))
  }

  lemma {:induction false} EveryPacketFits(header: seq<Byte>, guid: nat, cs: seq<Completed>, ps: seq<Progress>)
    requires CompletedOk(cs) && ProgressOk(ps) && guid < LONG && |header| <= 9
    ensures forall i :: 0 <= i < |Packets(header, guid, cs, ps)| ==> |Packets(header, guid, cs, ps)[i]| <= CLIENT_LIMIT
    decreases |cs| + |ps|
  {
    PageTakes(header, guid, cs, ps);
    var page := MakePage(header, guid, cs, ps);
    SuffixOk(cs, ps, page.completed, page.progress);
    if !(page.completed == |cs| && page.progress == |ps|) {
      EveryPacketFits(header, guid, cs[page.completed..], ps[page.progress..]);
    }
  }

  // ---------- reading packets back ----------

  function ReadCompleted(bs: seq<Byte>): Option<(seq<(nat, nat)>, seq<Byte>)>
    decreases |bs|
  {
    if |bs| < 4 then None
    else if Read4(bs) == END then Some(([], bs[4..]))
    else if |bs| < 8 then None
    else
      var r := ReadCompleted(bs[4..][4..]);
      if r.None? then None else Some(([(Read4(bs), Read4(bs[4..]))] + r.value.0, r.value.1))
  }

  /** One progress row and the bytes after it. */
  function ReadRow(bs: seq<Byte>): (r: Option<(Row, seq<Byte>)>)
    ensures r.Some? ==> |r.value.1| < |bs|
  {
    if |bs| < 4 then None else
    var counter := UnpackGuid(bs[4..]);
    if counter.None? then None else
    ShorterAfter(bs[4..]);
    var guid := UnpackGuid(counter.value.1);
    if guid.None? || |guid.value.1| < 16 then None else
    ShorterAfter(counter.value.1);
    var tail := guid.value.1;
    if tail[..4] != Bytes4(0) || tail[8..16] != Bytes4(0) + Bytes4(0) then None
    else Some((Row(Read4(bs), counter.value.0, guid.value.0, Read4(tail[4..])), tail[16..]))
  }

  lemma {:induction false} ShorterAfter(bs: seq<Byte>)
    ensures UnpackGuid(bs).Some? ==> |UnpackGuid(bs).value.1| < |bs|
  {
    if bs != [] {
      UnpackShorter(bs[0], 8, bs[1..]);
    }
  }

  lemma {:induction false} UnpackShorter(mask: nat, n: nat, bs: seq<Byte>)
    ensures Unpack(mask, n, bs).Some? ==> |Unpack(mask, n, bs).value.1| <= |bs|
    decreases n
  {
    if n > 0 {
      if mask % 2 == 0 {
        UnpackShorter(mask / 2, n - 1, bs);
      } else if bs != [] {
        UnpackShorter(mask / 2, n - 1, bs[1..]);
      }
    }
  }

  function ReadProgress(bs: seq<Byte>): Option<(seq<Row>, seq<Byte>)>
    decreases |bs|
  {
    if |bs| < 4 then None
    else if Read4(bs) == END then Some(([], bs[4..]))
    else
      var row := ReadRow(bs);
      if row.None? then None else
      var r := ReadProgress(row.value.1);
      if r.None? then None else Some(([row.value.0] + r.value.0, r.value.1))
  }

  datatype Content = Content(completed: seq<(nat, nat)>, progress: seq<Row>)

  /** A whole packet: `inspected` packets start with the inspected player's packed GUID. */
  function ReadPacket(bs: seq<Byte>, inspected: bool): Option<Content> {
    var body := if !inspected then Some(bs) else var g := UnpackGuid(bs); if g.None? then None else Some(g.value.1);
    if body.None? then None else
    var c := ReadCompleted(body.value);
    if c.None? then None else
    var p := ReadProgress(c.value.1);
    if p.None? || p.value.1 != [] then None else Some(Content(c.value.0, p.value.0))
  }

  function ReadAll(packets: seq<seq<Byte>>, inspected: bool): Option<Content> {
    if packets == [] then Some(Content([], []))
    else
      var first, rest := ReadPacket(packets[0], inspected), ReadAll(packets[1..], inspected);
      if first.None? || rest.None? then None
      else Some(Content(first.value.completed + rest.value.completed, first.value.progress + rest.value.progress))
  }

  // ---------- what should arrive ----------

  function ShownOf(cs: seq<Completed>): seq<(nat, nat)> {
    if cs == [] then [] else (if cs[0].shown then [(cs[0].id, cs[0].date)] else []) + ShownOf(cs[1..])
  }

  /** The record has begun, its criterion and achievement exist, and this reader may see it. */
  predicate Shows(p: Progress) {
    p.counter >= 1 && p.known && p.wanted
  }

  function SentOf(ps: seq<Progress>, guid: nat): seq<Row> {
    if ps == [] then [] else (if Shows(ps[0]) then [Row(ps[0].id, ps[0].counter, guid, ps[0].date)] else []) + SentOf(ps[1..], guid)
  }

  lemma {:induction false} HeadTail<T>(a: seq<T>, b: seq<T>)
    requires a != []
    ensures (a + b)[0] == a[0] && (a + b)[1..] == a[1..] + b
  {
  }

  lemma {:induction false} ShownSplit(a: seq<Completed>, b: seq<Completed>)
    ensures ShownOf(a + b) == ShownOf(a) + ShownOf(b)
  {
    if a == [] {
      assert a + b == b;
    } else {
      HeadTail(a, b);
      ShownSplit(a[1..], b);
      Assoc(if a[0].shown then [(a[0].id, a[0].date)] else [], ShownOf(a[1..]), ShownOf(b));
    }
  }

  lemma {:induction false} SentSplit(a: seq<Progress>, b: seq<Progress>, guid: nat)
    ensures SentOf(a + b, guid) == SentOf(a, guid) + SentOf(b, guid)
  {
    if a == [] {
      assert a + b == b;
    } else {
      HeadTail(a, b);
      SentSplit(a[1..], b, guid);
      Assoc(if Shows(a[0]) then [Row(a[0].id, a[0].counter, guid, a[0].date)] else [], SentOf(a[1..], guid), SentOf(b, guid));
    }
  }

  lemma {:induction false} ReadEnd(rest: seq<Byte>)
    ensures Read4(Separator() + rest) == END && (Separator() + rest)[4..] == rest
  {
    WordRoundTrip(END, rest);
  }

  lemma {:induction false} ReadOne(id: nat, date: nat, after: seq<Byte>)
    requires id < END && date < WORD
    ensures var r := ReadCompleted(after);
      ReadCompleted(Bytes4(id) + (Bytes4(date) + after)) == if r.None? then None else Some(([(id, date)] + r.value.0, r.value.1))
  {
    WordRoundTrip(id, Bytes4(date) + after);
    WordRoundTrip(date, after);
  }

  lemma {:induction false} SplitCompleted(cs: seq<Completed>, t: seq<Byte>)
    requires CompletedOk(cs) && cs != [] && cs[0].shown
    ensures CompletedOk(cs[1..]) && AllCompleted(cs) + t == Bytes4(cs[0].id) + (Bytes4(cs[0].date) + (AllCompleted(cs[1..]) + t))
  {
  }

  lemma {:induction false} SkipCompleted(cs: seq<Completed>, t: seq<Byte>)
    requires CompletedOk(cs) && cs != [] && !cs[0].shown
    ensures CompletedOk(cs[1..]) && AllCompleted(cs) + t == AllCompleted(cs[1..]) + t && ShownOf(cs) == ShownOf(cs[1..])
  {
    assert AllCompleted(cs) == AllCompleted(cs[1..]);
  }

  lemma {:induction false} CompletedRoundTrip(cs: seq<Completed>, rest: seq<Byte>)
    requires CompletedOk(cs)
    ensures ReadCompleted(AllCompleted(cs) + (Separator() + rest)) == Some((ShownOf(cs), rest))
    decreases |cs|
  {
    var t := Separator() + rest;
    if cs == [] {
      assert AllCompleted(cs) + t == t;
      ReadEnd(rest);
    } else {
      CompletedRoundTrip(cs[1..], rest);
      if cs[0].shown {
        SplitCompleted(cs, t);
        ReadOne(cs[0].id, cs[0].date, AllCompleted(cs[1..]) + t);
      } else {
        SkipCompleted(cs, t);
      }
    }
  }

  lemma {:induction false} TailRoundTrip(date: nat, rest: seq<Byte>)
    requires date < WORD
    ensures var t := RowTail(date) + rest;
      t[..4] == Bytes4(0) && t[8..16] == Bytes4(0) + Bytes4(0) && Read4(t[4..]) == date && t[16..] == rest
  {
    var t := RowTail(date) + rest;
    assert t[4..] == Bytes4(date) + (Bytes4(0) + Bytes4(0) + rest);
    WordRoundTrip(date, Bytes4(0) + Bytes4(0) + rest);
    assert t[8..16] == Bytes4(0) + Bytes4(0);
  }

  lemma {:induction false} RowRoundTrip(p: Progress, guid: nat, rest: seq<Byte>)
    requires p.id < END && 0 <= p.counter < 0x8000_0000 && p.date < WORD && guid < LONG
    ensures ReadRow(RowBytes(p, guid) + rest) == Some((Row(p.id, p.counter, guid, p.date), rest))
    ensures Read4(RowBytes(p, guid) + rest) == p.id
  {
    var tail := RowTail(p.date) + rest;
    var two := PackGuid(guid) + tail;
    var one := PackGuid(p.counter) + two;
    assert RowBytes(p, guid) + rest == Bytes4(p.id) + one;
    WordRoundTrip(p.id, one);
    GuidRoundTrip(p.counter, two);
    GuidRoundTrip(guid, tail);
    TailRoundTrip(p.date, rest);
  }

  lemma {:induction false} ReadOneRow(bs: seq<Byte>, row: Row, after: seq<Byte>)
    requires |bs| >= 4 && Read4(bs) != END && ReadRow(bs) == Some((row, after))
    ensures var r := ReadProgress(after);
      ReadProgress(bs) == if r.None? then None else Some(([row] + r.value.0, r.value.1))
  {
  }

  lemma {:induction false} SplitRow(ps: seq<Progress>, guid: nat, t: seq<Byte>)
    requires ProgressOk(ps) && guid < LONG && ps != [] && Sent(ps[0])
    ensures AllProgress(ps, guid) + t == RowBytes(ps[0], guid) + (AllProgress(ps[1..], guid) + t)
  {
  }

  lemma {:induction false} SkipRow(ps: seq<Progress>, guid: nat, t: seq<Byte>)
    requires ProgressOk(ps) && guid < LONG && ps != [] && !Sent(ps[0])
    ensures AllProgress(ps, guid) + t == AllProgress(ps[1..], guid) + t && SentOf(ps, guid) == SentOf(ps[1..], guid)
  {
    assert AllProgress(ps, guid) == AllProgress(ps[1..], guid);
  }

  lemma {:induction false} ProgressRoundTrip(ps: seq<Progress>, guid: nat, rest: seq<Byte>)
    requires ProgressOk(ps) && guid < LONG
    ensures ReadProgress(AllProgress(ps, guid) + (Separator() + rest)) == Some((SentOf(ps, guid), rest))
    decreases |ps|
  {
    var t := Separator() + rest;
    if ps == [] {
      assert AllProgress(ps, guid) + t == t;
      ReadEnd(rest);
    } else {
      ProgressRoundTrip(ps[1..], guid, rest);
      var after := AllProgress(ps[1..], guid) + t;
      if Sent(ps[0]) {
        SplitRow(ps, guid, t);
        RowRoundTrip(ps[0], guid, after);
        ReadOneRow(RowBytes(ps[0], guid) + after, Row(ps[0].id, ps[0].counter, guid, ps[0].date), after);
      } else {
        SkipRow(ps, guid, t);
      }
    }
  }

  /** The header of every packet: nothing for the player's own data, else the packed GUID. */
  function Header(guid: nat, inspected: bool): (r: seq<Byte>)
    requires guid < LONG
    ensures |r| <= 9
  {
    if inspected then PackGuid(guid) else []
  }

  lemma {:induction false} Regroup(h: seq<Byte>, a: seq<Byte>, s: seq<Byte>, p: seq<Byte>)
    ensures ((h + a) + s) + p + s == h + (a + (s + (p + (s + []))))
  {
  }

  lemma {:induction false} PageData(header: seq<Byte>, guid: nat, cs: seq<Completed>, ps: seq<Progress>)
    requires CompletedOk(cs) && ProgressOk(ps) && guid < LONG && |header| <= 9
    ensures var page := MakePage(header, guid, cs, ps);
      && page.completed <= |cs| && page.progress <= |ps|
      && page.data == header + (AllCompleted(cs[..page.completed]) + (Separator() + (AllProgress(ps[..page.progress], guid) + (Separator() + []))))
  {
    var page := MakePage(header, guid, cs, ps);
    var c := FillCompleted(header, cs);
    FillCompletedData(header, cs);
    if c.full {
      assert c.data + Separator() + AllProgress(ps[..0], guid) == c.data + Separator();
    } else {
      FillProgressData(c.data + Separator(), ps, guid);
    }
    Regroup(header, AllCompleted(cs[..page.completed]), Separator(), AllProgress(ps[..page.progress], guid));
  }

  lemma {:induction false} PageRoundTrip(guid: nat, inspected: bool, cs: seq<Completed>, ps: seq<Progress>)
    requires CompletedOk(cs) && ProgressOk(ps) && guid < LONG
    ensures var page := MakePage(Header(guid, inspected), guid, cs, ps);
      && page.completed <= |cs| && page.progress <= |ps|
      && ReadPacket(page.data, inspected) == Some(Content(ShownOf(cs[..page.completed]), SentOf(ps[..page.progress], guid)))
  {
    var header := Header(guid, inspected);
    var page := MakePage(header, guid, cs, ps);
    PageData(header, guid, cs, ps);
    var after := AllProgress(ps[..page.progress], guid) + (Separator() + []);
    var body := AllCompleted(cs[..page.completed]) + (Separator() + after);
    if inspected {
      GuidRoundTrip(guid, body);
    } else {
      assert header + body == body;
    }
    CompletedRoundTrip(cs[..page.completed], after);
    ProgressRoundTrip(ps[..page.progress], guid, []);
  }

  /**
   Reading the packets back gives every achievement that may be shown and every progress record that
   is sent, in map order and once each, whatever the sizes of the two maps.
   */
  lemma {:induction false} AllArrives(guid: nat, inspected: bool, cs: seq<Completed>, ps: seq<Progress>)
    requires CompletedOk(cs) && ProgressOk(ps) && guid < LONG
    ensures ReadAll(Packets(Header(guid, inspected), guid, cs, ps), inspected) == Some(Content(ShownOf(cs), SentOf(ps, guid)))
    decreases |cs| + |ps|
  {
    var header := Header(guid, inspected);
    var page := MakePage(header, guid, cs, ps);
    var k, m := page.completed, page.progress;
    PageTakes(header, guid, cs, ps);
    SuffixOk(cs, ps, k, m);
    PageRoundTrip(guid, inspected, cs, ps);
    Halves(guid, cs, ps, k, m);
    if k == |cs| && m == |ps| {
      LastPage(page.data, inspected);
    } else {
      AllArrives(guid, inspected, cs[k..], ps[m..]);
      MorePages(page.data, Packets(header, guid, cs[k..], ps[m..]), inspected);
    }
  }

  lemma {:induction false} Halves(guid: nat, cs: seq<Completed>, ps: seq<Progress>, k: nat, m: nat)
    requires k <= |cs| && m <= |ps|
    ensures ShownOf(cs) == ShownOf(cs[..k]) + ShownOf(cs[k..]) && SentOf(ps, guid) == SentOf(ps[..m], guid) + SentOf(ps[m..], guid)
    ensures k == |cs| ==> ShownOf(cs[..k]) == ShownOf(cs)
    ensures m == |ps| ==> SentOf(ps[..m], guid) == SentOf(ps, guid)
  {
    assert cs == cs[..k] + cs[k..] && ps == ps[..m] + ps[m..];
    ShownSplit(cs[..k], cs[k..]);
    SentSplit(ps[..m], ps[m..], guid);
  }

  lemma {:induction false} LastPage(data: seq<Byte>, inspected: bool)
    requires ReadPacket(data, inspected).Some?
    ensures ReadAll([data], inspected) == ReadPacket(data, inspected)
  {
    var c := ReadPacket(data, inspected).value;
    assert [data][1..] == [] && c.completed + [] == c.completed && c.progress + [] == c.progress;
  }

  lemma {:induction false} MorePages(data: seq<Byte>, rest: seq<seq<Byte>>, inspected: bool)
    requires ReadPacket(data, inspected).Some? && ReadAll(rest, inspected).Some?
    ensures var c, r := ReadPacket(data, inspected).value, ReadAll(rest, inspected).value;
      ReadAll([data] + rest, inspected) == Some(Content(c.completed + r.completed, c.progress + r.progress))
  {
    assert ([data] + rest)[1..] == rest;
  }

  // ---------- the loop ----------

  /** The loop over completed achievements so far: it ends either full here, or as it would end from here. */
  ghost predicate Listing(data: seq<Byte>, cs: seq<Completed>, from: nat, out: seq<Byte>, next: nat, full: bool)
    requires CompletedOk(cs) && from <= next <= |cs|
  {
    var r := FillCompleted(out, cs[next..]);
    FillCompleted(data, cs[from..]) == if full then Filled(out, next - from, true) else r.(taken := r.taken + (next - from))
  }

  lemma {:induction false} ListedOne(data: seq<Byte>, cs: seq<Completed>, from: nat, out: seq<Byte>, next: nat)
    requires CompletedOk(cs) && from <= next < |cs| && Listing(data, cs, from, out, next, false)
    ensures var out' := out + CompletedBytes(cs[next]); Listing(data, cs, from, out', next + 1, |out'| > FULL)
  {
    assert cs[next..][1..] == cs[next + 1..];
  }

  method WriteCompleted(data: seq<Byte>, cs: seq<Completed>, from: nat) returns (out: seq<Byte>, next: nat, full: bool)
    requires CompletedOk(cs) && from <= |cs|
    ensures from <= next <= |cs|
    ensures FillCompleted(data, cs[from..]) == Filled(out, next - from, full)
  {
    out, next, full := data, from, false;
    while next < |cs| && !full
      invariant from <= next <= |cs| && Listing(data, cs, from, out, next, full)
    {
      ListedOne(data, cs, from, out, next);
      if cs[next].shown {
        out := out + (Bytes4(cs[next].id) + Bytes4(cs[next].date));
      } else {
        assert out + [] == out;
      }
      full := |out| > FULL;
      next := next + 1;
    }
  }

  /** The loop over progress records so far: it ends either full here, or as it would end from here. */
  ghost predicate Writing(data: seq<Byte>, ps: seq<Progress>, guid: nat, from: nat, out: seq<Byte>, next: nat, full: bool)
    requires ProgressOk(ps) && guid < LONG && from <= next <= |ps|
  {
    var r := FillProgress(out, ps[next..], guid);
    FillProgress(data, ps[from..], guid) == if full then Filled(out, next - from, true) else r.(taken := r.taken + (next - from))
  }

  lemma {:induction false} WroteOne(data: seq<Byte>, ps: seq<Progress>, guid: nat, from: nat, out: seq<Byte>, next: nat)
    requires ProgressOk(ps) && guid < LONG && from <= next < |ps| && Writing(data, ps, guid, from, out, next, false)
    ensures var out' := out + ProgressBytes(ps[next], guid);
      Writing(data, ps, guid, from, out', next + 1, ps[next].known && |out'| > FULL)
  {
    assert ps[next..][1..] == ps[next + 1..];
  }

  lemma {:induction false} WroteNothing(data: seq<Byte>, ps: seq<Progress>, guid: nat, from: nat)
    requires ProgressOk(ps) && guid < LONG && from <= |ps|
    ensures Writing(data, ps, guid, from, data, from, false)
  {
  }

  lemma {:induction false} WroteAll(data: seq<Byte>, ps: seq<Progress>, guid: nat, from: nat, out: seq<Byte>, next: nat, full: bool)
    requires ProgressOk(ps) && guid < LONG && from <= next <= |ps| && Writing(data, ps, guid, from, out, next, full)
    requires next == |ps| || full
    ensures FillProgress(data, ps[from..], guid).data == out && FillProgress(data, ps[from..], guid).taken == next - from
  {
  }

  method WriteProgress(data: seq<Byte>, ps: seq<Progress>, guid: nat, from: nat) returns (out: seq<Byte>, next: nat)
    requires ProgressOk(ps) && guid < LONG && from <= |ps|
    ensures from <= next <= |ps|
    ensures FillProgress(data, ps[from..], guid).data == out && FillProgress(data, ps[from..], guid).taken == next - from
  {
    out, next := data, from;
    var full := false;
    WroteNothing(data, ps, guid, from);
    while next < |ps| && !full
      invariant from <= next <= |ps| && Writing(data, ps, guid, from, out, next, full)
    {
      WroteOne(data, ps, guid, from, out, next);
      out := WriteEntry(out, ps[next], guid);
      full := ps[next].known && |out| > FULL;
      next := next + 1;
    }
    WroteAll(data, ps, guid, from, out, next, full);
  }

  method WriteEntry(data: seq<Byte>, p: Progress, guid: nat) returns (out: seq<Byte>)
    requires p.id < END && p.counter < 0x8000_0000 && p.date < WORD && guid < LONG
    ensures out == data + ProgressBytes(p, guid)
  {
    if Sent(p) {
      out := WriteRow(data, p, guid);
    } else {
      out := data;
      assert data + [] == data;
    }
  }

  method WriteRow(data: seq<Byte>, p: Progress, guid: nat) returns (out: seq<Byte>)
    requires p.id < END && 0 <= p.counter < 0x8000_0000 && p.date < WORD && guid < LONG
    ensures out == data + RowBytes(p, guid)
  {
    out := data + Bytes4(p.id);
    out := AppendPackGuid(out, p.counter);
    out := AppendPackGuid(out, guid);
    out := out + Bytes4(0) + Bytes4(p.date) + Bytes4(0) + Bytes4(0);
  }

  /** SendAllAchievementData: packets are filled and sent until both maps are exhausted. */
  method SendAllAchievementData(guid: nat, inspected: bool, cs: seq<Completed>, ps: seq<Progress>) returns (packets: seq<seq<Byte>>)
    requires CompletedOk(cs) && ProgressOk(ps) && guid < LONG
    ensures packets == Packets(Header(guid, inspected), guid, cs, ps)
    ensures forall i :: 0 <= i < |packets| ==> |packets[i]| <= CLIENT_LIMIT
    ensures ReadAll(packets, inspected) == Some(Content(ShownOf(cs), SentOf(ps, guid)))
  {
    EveryPacketFits(Header(guid, inspected), guid, cs, ps);
    AllArrives(guid, inspected, cs, ps);
    packets := SendPackets(guid, inspected, cs, ps);
    assert cs[0..] == cs && ps[0..] == ps;
  }

  lemma {:induction false} PacketsStep(header: seq<Byte>, guid: nat, cs: seq<Completed>, ps: seq<Progress>, page: Page,
      csLeft: seq<Completed>, psLeft: seq<Progress>)
    requires CompletedOk(cs) && ProgressOk(ps) && guid < LONG && |header| <= 9
    requires page == MakePage(header, guid, cs, ps) && page.completed <= |cs| && page.progress <= |ps|
    requires csLeft == cs[page.completed..] && psLeft == ps[page.progress..] && CompletedOk(csLeft) && ProgressOk(psLeft)
    ensures csLeft == [] && psLeft == [] ==> Packets(header, guid, cs, ps) == [page.data]
    ensures csLeft != [] || psLeft != [] ==> Packets(header, guid, cs, ps) == [page.data] + Packets(header, guid, csLeft, psLeft)
  {
  }

  lemma {:induction false} Suffix<T>(s: seq<T>, i: nat, j: nat)
    requires i <= j <= |s|
    ensures s[i..][j - i..] == s[j..]
  {
  }

  /** The packets for what is left of both maps. */
  function Rest(guid: nat, inspected: bool, cs: seq<Completed>, ps: seq<Progress>, k: nat, m: nat): seq<seq<Byte>>
    requires CompletedOk(cs) && ProgressOk(ps) && guid < LONG && k <= |cs| && m <= |ps|
  {
    SuffixOk(cs, ps, k, m);
    Packets(Header(guid, inspected), guid, cs[k..], ps[m..])
  }

  lemma {:induction false} SliceStep(guid: nat, inspected: bool, cs: seq<Completed>, ps: seq<Progress>, k: nat, m: nat, data: seq<Byte>, k': nat, m': nat,
      csNow: seq<Completed>, psNow: seq<Progress>, csLeft: seq<Completed>, psLeft: seq<Progress>)
    requires CompletedOk(cs) && ProgressOk(ps) && guid < LONG && k <= k' <= |cs| && m <= m' <= |ps|
    requires csNow == cs[k..] && psNow == ps[m..] && CompletedOk(csNow) && ProgressOk(psNow)
    requires csLeft == cs[k'..] && psLeft == ps[m'..] && CompletedOk(csLeft) && ProgressOk(psLeft)
    requires Page(data, k' - k, m' - m) == MakePage(Header(guid, inspected), guid, csNow, psNow)
    ensures k' == |cs| && m' == |ps| ==> Packets(Header(guid, inspected), guid, csNow, psNow) == [data]
    ensures k' < |cs| || m' < |ps| ==>
      Packets(Header(guid, inspected), guid, csNow, psNow) == [data] + Packets(Header(guid, inspected), guid, csLeft, psLeft)
  {
    Suffix(cs, k, k');
    Suffix(ps, m, m');
    PacketsStep(Header(guid, inspected), guid, csNow, psNow, Page(data, k' - k, m' - m), csLeft, psLeft);
  }

  lemma {:induction false} RestStep(guid: nat, inspected: bool, cs: seq<Completed>, ps: seq<Progress>, k: nat, m: nat, data: seq<Byte>, k': nat, m': nat)
    requires CompletedOk(cs) && ProgressOk(ps) && guid < LONG && k <= k' <= |cs| && m <= m' <= |ps|
    requires CompletedOk(cs[k..]) && ProgressOk(ps[m..])
    requires Page(data, k' - k, m' - m) == MakePage(Header(guid, inspected), guid, cs[k..], ps[m..])
    ensures k' == |cs| && m' == |ps| ==> Rest(guid, inspected, cs, ps, k, m) == [data]
    ensures k' < |cs| || m' < |ps| ==> Rest(guid, inspected, cs, ps, k, m) == [data] + Rest(guid, inspected, cs, ps, k', m')
  {
    SuffixOk(cs, ps, k', m');
    SliceStep(guid, inspected, cs, ps, k, m, data, k', m', cs[k..], ps[m..], cs[k'..], ps[m'..]);
  }

  lemma {:induction false} OneMore(all: seq<seq<Byte>>, packets: seq<seq<Byte>>, rest: seq<seq<Byte>>, data: seq<Byte>, rest': seq<seq<Byte>>)
    requires all == packets + rest && rest == [data] + rest'
    ensures all == packets + [data] + rest'
  {
  }

  method SendPackets(guid: nat, inspected: bool, cs: seq<Completed>, ps: seq<Progress>) returns (packets: seq<seq<Byte>>)
    requires CompletedOk(cs) && ProgressOk(ps) && guid < LONG
    ensures packets == Rest(guid, inspected, cs, ps, 0, 0)
  {
    packets := [];
    var k, m, more := 0, 0, true;
    ghost var all, rest := Rest(guid, inspected, cs, ps, 0, 0), Rest(guid, inspected, cs, ps, 0, 0);
    while more
      invariant k <= |cs| && m <= |ps| && (more <==> packets == [] || k < |cs| || m < |ps|)
      invariant all == packets + rest && rest == if more then Rest(guid, inspected, cs, ps, k, m) else []
      decreases |cs| - k + |ps| - m, more
    {
      var data, k', m' := SendPacket(guid, inspected, cs, ps, k, m);
      RestStep(guid, inspected, cs, ps, k, m, data, k', m');
      SuffixOk(cs, ps, k, m);
      PageTakes(Header(guid, inspected), guid, cs[k..], ps[m..]);
      more := k' < |cs| || m' < |ps|;
      ghost var rest' := if more then Rest(guid, inspected, cs, ps, k', m') else [];
      OneMore(all, packets, rest, data, rest');
      packets, k, m, rest := packets + [data], k', m', rest';
    }
  }

  method SendPacket(guid: nat, inspected: bool, cs: seq<Completed>, ps: seq<Progress>, k: nat, m: nat)
    returns (data: seq<Byte>, k': nat, m': nat)
    requires CompletedOk(cs) && ProgressOk(ps) && guid < LONG && k <= |cs| && m <= |ps|
    ensures CompletedOk(cs[k..]) && ProgressOk(ps[m..]) && k <= k' <= |cs| && m <= m' <= |ps|
    ensures Page(data, k' - k, m' - m) == MakePage(Header(guid, inspected), guid, cs[k..], ps[m..])
  {
    SuffixOk(cs, ps, k, m);
    data := [];
    if inspected {
      data := AppendPackGuid(data, guid);
    }
    assert data == Header(guid, inspected);
    var full;
    data, k', full := WriteCompleted(data, cs, k);
    data := data + Separator();
    m' := m;
    if !full {
      data, m' := WriteProgress(data, ps, guid, m);
    }
    data := data + Separator();
  }
}
