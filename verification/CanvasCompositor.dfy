/**
  The compositor: the decoded tiles resident for the current image, which of them
  have been painted, and what leaves when the view, the image or a tile changes.

  The callbacks of the source touch nothing of the compositor, so every operation
  here returns the entries they are called for, in the order of the calls.
*/
module Compositors {
  import opened Budgets
  import opened Pyramid
  import opened Results

  datatype Key = Key(imageId: string, imageVersion: string, z: int, x: int, y: int)

  /** connectionId and the delivery in the header are what the callbacks of the entry close over. */
  datatype Entry = Entry(header: Header, connectionId: int, bitmap: int, bytes: int, kind: Kind, presented: bool)

  /** entries is a map in the order of insertion; frame says that a paint is scheduled. */
  datatype Compositor = Compositor(
    manifest: Option<Manifest>, layout: bool, view: bool, entries: seq<Entry>, currentEpoch: int, frame: bool)

  const BLANK := Compositor(None, false, false, [], 0, false)

  function CacheKey(h: Header): Key { Key(h.imageId, h.imageVersion, h.z, h.x, h.y) }

  /** The entries of level 0, which outlive an epoch. */
  function Coarse(entries: seq<Entry>): seq<Entry> {
    if entries == [] then []
    else
      var before := Coarse(entries[..|entries| - 1]);
      var e := entries[|entries| - 1];
      if e.header.z == 0 then before + [e] else before
  }

  function Fine(entries: seq<Entry>): seq<Entry> {
    if entries == [] then []
    else
      var before := Fine(entries[..|entries| - 1]);
      var e := entries[|entries| - 1];
      if e.header.z == 0 then before else before + [e]
  }

  function IndexOf(entries: seq<Entry>, key: Key): (i: nat)
    ensures i <= |entries| && (i < |entries| ==> CacheKey(entries[i].header) == key)
  {
    if entries == [] then 0
    else if CacheKey(entries[0].header) == key then 0
    else 1 + IndexOf(entries[1..], key)
  }

  function Present(e: Entry): Entry { e.(presented := true) }

  function PresentAll(entries: seq<Entry>): (r: seq<Entry>)
    ensures |r| == |entries| && forall i | 0 <= i < |r| :: r[i] == Present(entries[i])
  {
    seq(|entries|, i requires 0 <= i < |entries| => Present(entries[i]))
  }

  function Unpresented(entries: seq<Entry>): seq<Entry> {
    if entries == [] then []
    else
      var before := Unpresented(entries[..|entries| - 1]);
      var e := entries[|entries| - 1];
      if e.presented then before else before + [e]
  }

  // ----- the order of painting -----

  predicate PaintedBefore(a: Entry, b: Entry) {
    if a.kind != b.kind then a.kind.Context?
    else if a.header.z != b.header.z then a.header.z < b.header.z
    else if a.header.y != b.header.y then a.header.y < b.header.y
    else a.header.x < b.header.x
  }

  function Insert(sorted: seq<Entry>, e: Entry): seq<Entry> {
    if sorted == [] then [e]
    else
      var last := sorted[|sorted| - 1];
      if PaintedBefore(e, last) then Insert(sorted[..|sorted| - 1], e) + [last] else sorted + [e]
  }

  function InPaintOrder(entries: seq<Entry>): seq<Entry> {
    if entries == [] then [] else Insert(InPaintOrder(entries[..|entries| - 1]), entries[|entries| - 1])
  }

  // ----- the operations -----

  /** Every entry leaves; a scheduled paint is called off. */
  function Reset(k: Compositor): (Compositor, seq<Entry>) { (BLANK, k.entries) }

  function StartImage(k: Compositor, m: Manifest): (Compositor, seq<Entry>) {
    (Compositor(Some(m), true, true, [], 0, true), k.entries)
  }

  function SetLayout(k: Compositor): Compositor { k.(layout := true, frame := true) }

  function SetView(k: Compositor): Compositor { k.(view := true, frame := true) }

  function BeginEpoch(k: Compositor, epoch: int): (Compositor, seq<Entry>) {
    (k.(entries := Coarse(k.entries), currentEpoch := epoch, view := true, frame := true), Fine(k.entries))
  }

  predicate Accepts(k: Compositor, h: Header) {
    k.manifest.Some? && h.imageId == k.manifest.value.imageId && h.imageVersion == k.manifest.value.imageVersion
    && (h.z == 0 || h.epoch == k.currentEpoch)
  }

  /** A tile of the same place takes the place of the one before it, which leaves. */
  function Put(entries: seq<Entry>, e: Entry): seq<Entry> {
    var i := IndexOf(entries, CacheKey(e.header));
    if i < |entries| then entries[i := e] else entries + [e]
  }

  function Replaced(entries: seq<Entry>, key: Key): seq<Entry> {
    var i := IndexOf(entries, key);
    if i < |entries| then [entries[i]] else []
  }

  function Store(k: Compositor, e: Entry): (Compositor, seq<Entry>, bool) {
    if !Accepts(k, e.header) then (k, [], false)
    else (k.(entries := Put(k.entries, e), frame := true), Replaced(k.entries, CacheKey(e.header)), true)
  }

  predicate Paintable(k: Compositor, context: bool) { k.manifest.Some? && k.layout && k.view && context }

  /** What runs in the scheduled frame; the entries returned are those painted for the first time. */
  function Paint(k: Compositor, context: bool): (Compositor, seq<Entry>) {
    if !Paintable(k, context) then (k.(frame := false), [])
    else (k.(entries := PresentAll(k.entries), frame := false), Unpresented(InPaintOrder(k.entries)))
  }

  // ----- what an operation adds and takes away -----

  datatype Measure = Waiting | WaitingFor(delivery: int) | BytesOf(kind: Kind) | Holding(bitmap: int)

  function Weight(q: Measure, e: Entry): int {
    match q
    case Waiting => if e.presented then 0 else 1
    case WaitingFor(d) => if !e.presented && e.header.deliveryId == d then 1 else 0
    case BytesOf(kind) => if e.kind == kind then e.bytes else 0
    case Holding(bitmap) => if e.bitmap == bitmap then 1 else 0
  }

  function Sum(q: Measure, entries: seq<Entry>): int {
    if entries == [] then 0 else Sum(q, entries[..|entries| - 1]) + Weight(q, entries[|entries| - 1])
  }

  lemma SumPush(q: Measure, entries: seq<Entry>, e: Entry)
    ensures Sum(q, entries + [e]) == Sum(q, entries) + Weight(q, e)
  {
    assert (entries + [e])[..|entries|] == entries;
  }

  lemma {:induction false} SumConcat(q: Measure, a: seq<Entry>, b: seq<Entry>)
    ensures Sum(q, a + b) == Sum(q, a) + Sum(q, b)
    decreases |b|
  {
    if b == [] {
      assert a + b == a;
    } else {
      assert (a + b)[..|a + b| - 1] == a + b[..|b| - 1];
      SumConcat(q, a, b[..|b| - 1]);
    }
  }

  lemma {:induction false} SumByLevel(q: Measure, entries: seq<Entry>)
    ensures Sum(q, Coarse(entries)) + Sum(q, Fine(entries)) == Sum(q, entries)
    decreases |entries|
  {
    if entries != [] {
      var e := entries[|entries| - 1];
      SumByLevel(q, entries[..|entries| - 1]);
      SumPush(q, Coarse(entries[..|entries| - 1]), e);
      SumPush(q, Fine(entries[..|entries| - 1]), e);
    }
  }

  lemma {:induction false} SumUpdate(q: Measure, entries: seq<Entry>, i: nat, e: Entry)
    requires i < |entries|
    ensures Sum(q, entries[i := e]) == Sum(q, entries) - Weight(q, entries[i]) + Weight(q, e)
    decreases |entries|
  {
    var n := |entries| - 1;
    if i < n {
      assert entries[i := e][..n] == entries[..n][i := e];
      SumUpdate(q, entries[..n], i, e);
    } else {
      assert entries[i := e][..n] == entries[..n];
    }
  }

  lemma SumPut(q: Measure, entries: seq<Entry>, e: Entry)
    ensures Sum(q, Put(entries, e)) + Sum(q, Replaced(entries, CacheKey(e.header))) == Sum(q, entries) + Weight(q, e)
  {
    var i := IndexOf(entries, CacheKey(e.header));
    if i < |entries| {
      SumUpdate(q, entries, i, e);
      SumPush(q, [], entries[i]);
      assert [] + [entries[i]] == [entries[i]];
    } else {
      SumPush(q, entries, e);
    }
  }

  lemma {:induction false} SumInsert(q: Measure, sorted: seq<Entry>, e: Entry)
    ensures Sum(q, Insert(sorted, e)) == Sum(q, sorted) + Weight(q, e)
    decreases |sorted|
  {
    if sorted != [] {
      var n := |sorted| - 1;
      if PaintedBefore(e, sorted[n]) {
        SumInsert(q, sorted[..n], e);
        SumPush(q, Insert(sorted[..n], e), sorted[n]);
      } else {
        SumPush(q, sorted, e);
      }
    } else {
      SumPush(q, [], e);
      assert [] + [e] == [e];
    }
  }

  lemma {:induction false} SumInPaintOrder(q: Measure, entries: seq<Entry>)
    ensures Sum(q, InPaintOrder(entries)) == Sum(q, entries)
    decreases |entries|
  {
    if entries != [] {
      SumInPaintOrder(q, entries[..|entries| - 1]);
      SumInsert(q, InPaintOrder(entries[..|entries| - 1]), entries[|entries| - 1]);
    }
  }

  /** Painting takes every waiting entry off the list and changes neither bytes nor bitmaps. */
  lemma {:induction false} SumPresentAll(q: Measure, entries: seq<Entry>)
    ensures Sum(q, PresentAll(entries)) == if q.Waiting? || q.WaitingFor? then 0 else Sum(q, entries)
    decreases |entries|
  {
    if entries != [] {
      var n := |entries| - 1;
      assert PresentAll(entries)[..n] == PresentAll(entries[..n]);
      SumPresentAll(q, entries[..n]);
    }
  }

  lemma {:induction false} SumUnpresented(q: Measure, entries: seq<Entry>)
    requires q.Waiting? || q.WaitingFor?
    ensures Sum(q, Unpresented(entries)) == Sum(q, entries)
    decreases |entries|
  {
    if entries != [] {
      var n := |entries| - 1;
      SumUnpresented(q, entries[..n]);
      SumPush(q, Unpresented(entries[..n]), entries[n]);
    }
  }

  /** Exactly the waiting entries are reported by a paint, whatever the order. */
  lemma SumPainted(q: Measure, entries: seq<Entry>)
    requires q.Waiting? || q.WaitingFor?
    ensures Sum(q, Unpresented(InPaintOrder(entries))) == Sum(q, entries)
  {
    SumUnpresented(q, InPaintOrder(entries));
    SumInPaintOrder(q, entries);
  }

  lemma {:induction false} SumNotNegative(q: Measure, entries: seq<Entry>)
    requires q.BytesOf? ==> forall e | e in entries :: e.bytes >= 0
    ensures Sum(q, entries) >= 0
    decreases |entries|
  {
    if entries != [] { SumNotNegative(q, entries[..|entries| - 1]); }
  }

  // ----- back to front -----

  ghost predicate Ordered(entries: seq<Entry>) {
    forall i, j | 0 <= i < j < |entries| :: !PaintedBefore(entries[j], entries[i])
  }

  lemma {:induction false} InsertAdds(sorted: seq<Entry>, e: Entry)
    ensures multiset(Insert(sorted, e)) == multiset(sorted) + multiset{e}
    ensures forall x :: x in Insert(sorted, e) ==> x == e || x in sorted
    decreases |sorted|
  {
    hide PaintedBefore;
    if sorted != [] {
      var n := |sorted| - 1;
      assert sorted == sorted[..n] + [sorted[n]];
      InsertAdds(sorted[..n], e);
    }
  }

  lemma {:induction false} InsertOrders(sorted: seq<Entry>, e: Entry)
    requires Ordered(sorted)
    ensures Ordered(Insert(sorted, e))
    decreases |sorted|
  {
    if sorted != [] {
      var n := |sorted| - 1;
      if PaintedBefore(e, sorted[n]) {
        InsertOrders(sorted[..n], e);
        InsertAdds(sorted[..n], e);
        var r := Insert(sorted[..n], e);
        forall i | 0 <= i < |r| ensures !PaintedBefore(sorted[n], r[i]) {
          assert r[i] in r;
          if r[i] != e { assert r[i] in sorted[..n]; }
        }
      } else {
        forall i | 0 <= i < |sorted| ensures !PaintedBefore(e, sorted[i]) {
          if i < n { assert !PaintedBefore(sorted[n], sorted[i]); }
        }
      }
    }
  }

  /** The paint goes over every entry once, context before detail and coarse levels before fine ones. */
  lemma {:induction false} PaintsBackToFront(entries: seq<Entry>)
    ensures Ordered(InPaintOrder(entries)) && multiset(InPaintOrder(entries)) == multiset(entries)
    decreases |entries|
  {
    if entries != [] {
      var n := |entries| - 1;
      PaintsBackToFront(entries[..n]);
      InsertOrders(InPaintOrder(entries[..n]), entries[n]);
      InsertAdds(InPaintOrder(entries[..n]), entries[n]);
      assert entries == entries[..n] + [entries[n]];
    }
  }

  // ----- one entry for each place -----

  ghost predicate Distinct(entries: seq<Entry>) {
    forall i, j | 0 <= i < j < |entries| :: CacheKey(entries[i].header) != CacheKey(entries[j].header)
  }

  lemma {:induction false} IndexIsFirst(entries: seq<Entry>, key: Key)
    ensures forall i :: 0 <= i < IndexOf(entries, key) ==> CacheKey(entries[i].header) != key
    decreases |entries|
  {
    if entries != [] && CacheKey(entries[0].header) != key { IndexIsFirst(entries[1..], key); }
  }

  lemma PutKeepsDistinct(entries: seq<Entry>, e: Entry)
    requires Distinct(entries)
    ensures Distinct(Put(entries, e))
  {
    IndexIsFirst(entries, CacheKey(e.header));
  }

  lemma {:induction false} LevelsOf(entries: seq<Entry>)
    ensures forall e :: e in Coarse(entries) ==> e in entries && e.header.z == 0
    ensures forall e :: e in Fine(entries) ==> e in entries && e.header.z != 0
    decreases |entries|
  {
    if entries != [] {
      LevelsOf(entries[..|entries| - 1]);
      assert entries == entries[..|entries| - 1] + [entries[|entries| - 1]];
    }
  }

  lemma {:induction false} CoarseKeepsDistinct(entries: seq<Entry>)
    requires Distinct(entries)
    ensures Distinct(Coarse(entries))
    decreases |entries|
  {
    if entries != [] {
      var n := |entries| - 1;
      CoarseKeepsDistinct(entries[..n]);
      LevelsOf(entries[..n]);
      var kept := Coarse(entries[..n]);
      forall i | 0 <= i < |kept| ensures CacheKey(kept[i].header) != CacheKey(entries[n].header) {
        assert kept[i] in kept;
        assert kept[i] in entries[..n];
      }
    }
  }

  // ----- the compositor itself -----

  class CanvasCompositor {
    var manifest: Option<Manifest>
    var layout: bool
    var view: bool
    var entries: seq<Entry>
    var currentEpoch: int
    var frame: bool

    ghost function Model(): Compositor
      reads this
    {
      Compositor(manifest, layout, view, entries, currentEpoch, frame)
    }

    constructor ()
      ensures Model() == BLANK
    {
      manifest, layout, view, entries, currentEpoch, frame := None, false, false, [], 0, false;
    }

    method StartWith(m: Manifest) returns (gone: seq<Entry>)
      modifies this
      ensures (Model(), gone) == StartImage(old(Model()), m)
    {
      gone := ResetAll();
      manifest := Some(m);
      view := true;
      UseLayout();
    }

    method UseLayout()
      modifies this
      ensures Model() == SetLayout(old(Model()))
    {
      layout := true;
      SchedulePaint();
    }

    method UseView()
      modifies this
      ensures Model() == SetView(old(Model()))
    {
      view := true;
      SchedulePaint();
    }

    method SchedulePaint()
      modifies `frame
      ensures frame
    {
      if frame { return; }
      frame := true;
    }

    method StartEpoch(epoch: int) returns (gone: seq<Entry>)
      modifies this
      ensures (Model(), gone) == BeginEpoch(old(Model()), epoch)
    {
      currentEpoch := epoch;
      view := true;
      gone := [];
      var kept: seq<Entry> := [];
      var i := 0;
      while i < |entries|
        invariant 0 <= i <= |entries|
        invariant kept == Coarse(entries[..i]) && gone == Fine(entries[..i])
      {
        assert entries[..i + 1][..i] == entries[..i];
        if entries[i].header.z != 0 { gone := gone + [entries[i]]; } else { kept := kept + [entries[i]]; }
        i := i + 1;
      }
      assert entries[..i] == entries;
      entries := kept;
      SchedulePaint();
    }

    method StoreEntry(e: Entry) returns (gone: seq<Entry>, accepted: bool)
      modifies this
      ensures (Model(), gone, accepted) == Store(old(Model()), e)
      ensures !accepted ==> Model() == old(Model())
    {
      if manifest.None? || e.header.imageId != manifest.value.imageId
         || e.header.imageVersion != manifest.value.imageVersion {
        return [], false;
      }
      if e.header.z != 0 && e.header.epoch != currentEpoch { return [], false; }
      var at := IndexOf(entries, CacheKey(e.header));
      if at < |entries| {
        gone := [entries[at]];
        entries := entries[at := e];
      } else {
        gone := [];
        entries := entries + [e];
      }
      SchedulePaint();
      accepted := true;
    }

    method ResetAll() returns (gone: seq<Entry>)
      modifies this
      ensures (Model(), gone) == Reset(old(Model()))
    {
      frame := false;
      gone := entries;
      entries := [];
      manifest, layout, view, currentEpoch := None, false, false, 0;
    }

    /** Runs in the scheduled frame; drawing goes over the entries in paint order. */
    method PaintFrame(context: bool) returns (shown: seq<Entry>)
      modifies this
      ensures (Model(), shown) == Paint(old(Model()), context)
    {
      frame := false;
      if manifest.None? || !layout || !view || !context { return []; }
      var order := InPaintOrder(entries);
      ghost var before := entries;
      shown := [];
      var i := 0;
      while i < |order|
        invariant 0 <= i <= |order|
        invariant shown == Unpresented(order[..i])
        invariant entries == PresentThose(before, order[..i])
        invariant Model() == old(Model()).(frame := false, entries := entries)
      {
        assert order[..i + 1][..i] == order[..i];
        if !order[i].presented { shown := shown + [order[i]]; }
        PresentOneMore(before, order[..i], order[i]);
        entries := PresentThose(entries, [order[i]]);
        i := i + 1;
      }
      assert order[..i] == order;
      PresentedInPaintOrder(before);
    }
  }

  /** The entries with those of a list marked as painted. */
  function PresentThose(entries: seq<Entry>, those: seq<Entry>): (r: seq<Entry>)
    ensures |r| == |entries|
    ensures forall i | 0 <= i < |r| ::
              r[i] == if entries[i] in those then Present(entries[i]) else entries[i]
  {
    seq(|entries|, i requires 0 <= i < |entries| =>
      if entries[i] in those then Present(entries[i]) else entries[i])
  }

  lemma PresentOneMore(entries: seq<Entry>, those: seq<Entry>, e: Entry)
    ensures PresentThose(PresentThose(entries, those), [e]) == PresentThose(entries, those + [e])
  {
  }

  lemma PresentedInPaintOrder(entries: seq<Entry>)
    ensures PresentThose(entries, InPaintOrder(entries)) == PresentAll(entries)
    ensures PresentThose(entries, []) == entries
  {
    PaintsBackToFront(entries);
    forall i | 0 <= i < |entries| ensures entries[i] in InPaintOrder(entries) {
      assert entries[i] in multiset(entries);
    }
  }
}
