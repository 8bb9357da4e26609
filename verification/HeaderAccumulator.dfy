/**
  The accumulator that finds the end of an HTTP header block: the first empty
  line, CR LF CR LF (section 2.1 of RFC 9112), wherever the bytes are split
  between reads.
*/
module HeaderScan {
  import opened Arithmetic
  import opened Results

  const CR := 13
  const LF := 10
  const TERMINATOR: seq<int> := [CR, LF, CR, LF]

  datatype AppendResult = Incomplete | Complete | TooLarge

  /** headerEnd is -1 until the terminator has been seen; state is how much of it the last bytes match. */
  datatype Acc = Acc(bytes: seq<int>, headerEnd: int, state: int)

  const EMPTY := Acc([], -1, 0)

  function Advance(state: int, b: int): int {
    match state
    case 0 => if b == CR then 1 else 0
    case 1 => if b == LF then 2 else if b == CR then 1 else 0
    case 2 => if b == CR then 3 else 0
    case 3 => if b == LF then 4 else if b == CR then 1 else 0
    case _ => state
  }

  function Put(a: Acc, b: int): Acc {
    var bytes := a.bytes + [b];
    if a.headerEnd >= 0 then a.(bytes := bytes)
    else
      var state := Advance(a.state, b);
      Acc(bytes, if state == 4 then |bytes| else a.headerEnd, state)
  }

  function Append(a: Acc, input: seq<int>, max: int): (Acc, AppendResult)
    decreases |input|
  {
    if input == [] then (a, if a.headerEnd >= 0 then Complete else Incomplete)
    else
      var next := Put(a, input[0]);
      if next.headerEnd < 0 && |next.bytes| > max then (next, TooLarge) else Append(next, input[1..], max)
  }

  // ----- what the matcher means -----

  /** The terminator ends just before position k. */
  ghost predicate EndsAt(s: seq<int>, k: int) {
    4 <= k <= |s| && s[k - 4..k] == TERMINATOR
  }

  ghost predicate FirstEnd(s: seq<int>, k: int) {
    EndsAt(s, k) && forall j | j < k :: !EndsAt(s, j)
  }

  ghost predicate HasEnd(s: seq<int>) { exists k :: EndsAt(s, k) }

  /** The last k bytes are the first k of the terminator. */
  ghost predicate Matches(s: seq<int>, k: int) {
    0 <= k <= 4 && k <= |s| && s[|s| - k..] == TERMINATOR[..k]
  }

  /** The state is the longest part of the terminator that the bytes end with. */
  ghost predicate LongestMatch(s: seq<int>, k: int) {
    Matches(s, k) && forall j | k < j <= 4 :: !Matches(s, j)
  }

  /** The recorded end is the first one; before it, the state is the longest match. */
  ghost predicate Scanned(a: Acc) {
    if a.headerEnd >= 0 then FirstEnd(a.bytes, a.headerEnd)
    else a.headerEnd == -1 && !HasEnd(a.bytes) && 0 <= a.state <= 3 && LongestMatch(a.bytes, a.state)
  }

  lemma MatchesNext(s: seq<int>, b: int, k: int)
    requires 0 <= k <= 3
    ensures Matches(s + [b], k + 1) <==> Matches(s, k) && b == TERMINATOR[k]
  {
    var t := s + [b];
    if k <= |s| {
      assert t[|t| - (k + 1)..] == s[|s| - k..] + [b];
      assert TERMINATOR[..k + 1] == TERMINATOR[..k] + [TERMINATOR[k]];
      if Matches(t, k + 1) {
        assert t[|t| - (k + 1)..][..k] == s[|s| - k..] && TERMINATOR[..k + 1][..k] == TERMINATOR[..k];
        assert t[|t| - (k + 1)..][k] == b && TERMINATOR[..k + 1][k] == TERMINATOR[k];
      }
    }
  }

  /** Shorter matches inside the longest one: which of them depends only on the terminator. */
  lemma MatchesWithin(s: seq<int>, k: int, j: int)
    requires LongestMatch(s, k) && 0 <= j <= 4 && k <= 3
    ensures Matches(s, j) <==> j <= k && (j == k || j == 0 || (k == 3 && j == 1))
  {
    if j == 0 { NothingMatches(s); }
    if 0 < j < k {
      assert s[|s| - j..] == s[|s| - k..][k - j..];
      assert TERMINATOR[..k][k - j..] == TERMINATOR[k - j..k];
      BorderOfTerminator(k, j);
    }
  }

  /** Where the terminator repeats itself: only CR LF CR both starts and ends with CR. */
  lemma BorderOfTerminator(k: int, j: int)
    requires 0 < j < k <= 3
    ensures TERMINATOR[k - j..k] == TERMINATOR[..j] <==> k == 3 && j == 1
  {
    assert TERMINATOR[k - j..k][0] == TERMINATOR[k - j] && TERMINATOR[..j][0] == CR;
    assert k == 3 && j == 1 ==> TERMINATOR[2..3] == [CR] == TERMINATOR[..1];
  }

  lemma NextMatches(s: seq<int>, state: int, b: int, k: int)
    requires 0 <= state <= 3 && LongestMatch(s, state) && 0 <= k <= 3
    ensures Matches(s + [b], k + 1) <==>
            k <= state && (k == state || k == 0 || (state == 3 && k == 1)) && b == TERMINATOR[k]
  {
    MatchesNext(s, b, k);
    MatchesWithin(s, state, k);
  }

  lemma AdvanceIsLongest(s: seq<int>, state: int, b: int)
    requires 0 <= state <= 3 && LongestMatch(s, state)
    ensures LongestMatch(s + [b], Advance(state, b))
  {
    var t := s + [b];
    NextMatches(s, state, b, 0);
    NextMatches(s, state, b, 1);
    NextMatches(s, state, b, 2);
    NextMatches(s, state, b, 3);
    NothingMatches(t);
    LongestOf(t, Advance(state, b));
  }

  lemma LongestOf(t: seq<int>, k: int)
    requires 0 <= k <= 4 && Matches(t, k)
    requires k < 1 ==> !Matches(t, 1)
    requires k < 2 ==> !Matches(t, 2)
    requires k < 3 ==> !Matches(t, 3)
    requires k < 4 ==> !Matches(t, 4)
    ensures LongestMatch(t, k)
  {
    forall j | k < j <= 4 ensures !Matches(t, j) {
      if j <= 2 { assert j == 1 || j == 2; } else { assert j == 3 || j == 4; }
    }
  }

  lemma NothingMatches(t: seq<int>)
    ensures Matches(t, 0)
  {
    assert t[|t|..] == [] == TERMINATOR[..0];
  }

  lemma EndsAreKept(s: seq<int>, b: int, k: int)
    ensures k <= |s| ==> (EndsAt(s + [b], k) <==> EndsAt(s, k))
    ensures EndsAt(s + [b], |s| + 1) <==> Matches(s + [b], 4)
  {
    var t := s + [b];
    if 4 <= k <= |s| { assert t[k - 4..k] == s[k - 4..k]; }
    if |t| >= 4 { assert t[|t| - 4..|t|] == t[|t| - 4..]; }
    assert TERMINATOR[..4] == TERMINATOR;
  }

  lemma EndsGrow(s: seq<int>, b: int)
    ensures forall k | k <= |s| :: EndsAt(s + [b], k) <==> EndsAt(s, k)
  {
    forall k | k <= |s| ensures EndsAt(s + [b], k) <==> EndsAt(s, k) { EndsAreKept(s, b, k); }
  }

  /** With no end before, the next byte makes one exactly when it completes the terminator. */
  lemma EndAppears(s: seq<int>, state: int, b: int)
    requires !HasEnd(s) && 0 <= state <= 3 && LongestMatch(s, state)
    ensures if Advance(state, b) == 4 then FirstEnd(s + [b], |s| + 1)
            else !HasEnd(s + [b]) && LongestMatch(s + [b], Advance(state, b)) && 0 <= Advance(state, b) <= 3
  {
    hide LongestMatch, EndsAt;
    EndsGrow(s, b);
    EndsAreKept(s, b, |s| + 1);
    AdvanceIsLongest(s, state, b);
    assert Advance(state, b) == 4 <==> Matches(s + [b], 4) by { FullMatch(s + [b], Advance(state, b)); }
    assert forall k :: EndsAt(s + [b], k) ==> k <= |s| + 1 by { EndsInside(s + [b]); }
  }

  lemma FullMatch(s: seq<int>, k: int)
    requires LongestMatch(s, k)
    ensures k == 4 <==> Matches(s, 4)
  {
  }

  lemma EndsInside(s: seq<int>)
    ensures forall k :: EndsAt(s, k) ==> k <= |s|
  {
  }

  lemma PutKeepsScanned(a: Acc, b: int)
    requires Scanned(a)
    ensures Scanned(Put(a, b))
  {
    hide EndsAt, LongestMatch;
    if a.headerEnd >= 0 {
      EndsInside(a.bytes);
      EndsGrow(a.bytes, b);
    } else {
      EndAppears(a.bytes, a.state, b);
    }
  }

  lemma {:induction false} AppendKeepsScanned(a: Acc, input: seq<int>, max: int)
    requires Scanned(a)
    ensures Scanned(Append(a, input, max).0)
    decreases |input|
  {
    if input != [] {
      PutKeepsScanned(a, input[0]);
      var next := Put(a, input[0]);
      if !(next.headerEnd < 0 && |next.bytes| > max) { AppendKeepsScanned(next, input[1..], max); }
    }
  }

  // ----- the split into reads does not matter -----

  lemma {:induction false} AppendSplits(a: Acc, x: seq<int>, y: seq<int>, max: int)
    ensures Append(a, x + y, max) ==
            if Append(a, x, max).1.TooLarge? then Append(a, x, max) else Append(Append(a, x, max).0, y, max)
    decreases |x|
  {
    if x == [] {
      assert x + y == y;
    } else {
      assert (x + y)[0] == x[0] && (x + y)[1..] == x[1..] + y;
      var next := Put(a, x[0]);
      if !(next.headerEnd < 0 && |next.bytes| > max) { AppendSplits(next, x[1..], y, max); }
    }
  }

  /** One append per read, stopping at the first that answers TooLarge. */
  function AppendEach(a: Acc, chunks: seq<seq<int>>, max: int): (Acc, AppendResult)
    decreases |chunks|
  {
    if chunks == [] then Append(a, [], max)
    else
      var r := Append(a, chunks[0], max);
      if r.1.TooLarge? then r else AppendEach(r.0, chunks[1..], max)
  }

  lemma {:induction false} ReadsDoNotMatter(a: Acc, chunks: seq<seq<int>>, max: int)
    ensures AppendEach(a, chunks, max) == Append(a, Joined(chunks), max)
    decreases |chunks|
  {
    if chunks != [] {
      AppendSplits(a, chunks[0], Joined(chunks[1..]), max);
      var r := Append(a, chunks[0], max);
      if !r.1.TooLarge? { ReadsDoNotMatter(r.0, chunks[1..], max); }
    }
  }

  // ----- what an append answers -----

  /** Every byte is kept, except that nothing after byte max + 1 is read once the header is too large. */
  lemma {:induction false} AppendConsumes(a: Acc, input: seq<int>, max: nat)
    requires a.headerEnd < 0 ==> |a.bytes| <= max
    ensures var (b, result) := Append(a, input, max);
            match result
            case TooLarge => b.headerEnd < 0 && |a.bytes + input| > max && b.bytes == (a.bytes + input)[..max + 1]
            case Complete => b.headerEnd >= 0 && b.bytes == a.bytes + input
            case Incomplete => b.headerEnd < 0 && b.bytes == a.bytes + input && |b.bytes| <= max
    decreases |input|
  {
    if input == [] {
      assert a.bytes + input == a.bytes;
    } else {
      var next := Put(a, input[0]);
      assert next.bytes + input[1..] == a.bytes + input;
      if next.headerEnd < 0 && |next.bytes| > max {
        assert next.bytes == (a.bytes + input)[..max + 1];
      } else {
        AppendConsumes(next, input[1..], max);
      }
    }
  }

  /** An end once seen stays where it is; one seen by this append lies within its first max + 1 bytes. */
  lemma {:induction false} EndIsInTime(a: Acc, input: seq<int>, max: nat)
    requires a.headerEnd < 0 ==> |a.bytes| <= max
    requires a.headerEnd <= max + 1
    ensures Append(a, input, max).0.headerEnd <= max + 1
    decreases |input|
  {
    if input != [] {
      var next := Put(a, input[0]);
      if !(next.headerEnd < 0 && |next.bytes| > max) { EndIsInTime(next, input[1..], max); }
    }
  }

  lemma EndsInPrefix(s: seq<int>, n: nat, k: int)
    requires n <= |s| && k <= n
    ensures EndsAt(s[..n], k) <==> EndsAt(s, k)
  {
    if 4 <= k { assert s[..n][k - 4..k] == s[k - 4..k]; }
  }

  /**
    The whole contract, from an empty accumulator: COMPLETE exactly when the first
    empty line ends within max + 1 bytes, TOO_LARGE exactly when more than max bytes
    arrived and the first max + 1 of them hold no end.
  */
  lemma Outcome(s: seq<int>, max: nat)
    ensures Append(EMPTY, s, max).1.Complete? <==> exists e :: e <= max + 1 && FirstEnd(s, e)
    ensures Append(EMPTY, s, max).1.TooLarge? <==> |s| > max && !HasEnd(s[..max + 1])
    ensures Append(EMPTY, s, max).1.Incomplete? <==> |s| <= max && !HasEnd(s)
    ensures Append(EMPTY, s, max).1.Complete? ==> FirstEnd(s, Append(EMPTY, s, max).0.headerEnd)
  {
    var (b, result) := Append(EMPTY, s, max);
    assert Scanned(EMPTY) by { NothingMatches([]); }
    AppendKeepsScanned(EMPTY, s, max);
    AppendConsumes(EMPTY, s, max);
    EndIsInTime(EMPTY, s, max);
    assert EMPTY.bytes + s == s;
    forall n: nat, k | n <= |s| && k <= n ensures EndsAt(s[..n], k) <==> EndsAt(s, k) { EndsInPrefix(s, n, k); }
    if result.Complete? {
      assert FirstEnd(s, b.headerEnd);
      if |s| > max { assert EndsAt(s[..max + 1], b.headerEnd); }
    }
  }

  /** For every limit: a header one byte longer than it is accepted, if it ends with that byte. */
  lemma HeaderCanBeOneTooLong(max: nat)
    requires max >= 3
    ensures var s := seq(max - 3, i => 0) + TERMINATOR;
            |s| == max + 1 && Append(EMPTY, s, max).1.Complete? && Append(EMPTY, s, max).0.headerEnd == max + 1
  {
    var s := seq(max - 3, i => 0) + TERMINATOR;
    assert s[max - 3..max + 1] == TERMINATOR;
    assert EndsAt(s, max + 1);
    forall k | EndsAt(s, k) ensures k == max + 1 {
      assert s[k - 4..k][0] == CR;
      assert s[k - 4] == CR;
    }
    assert FirstEnd(s, max + 1);
    Outcome(s, max);
  }

  // ----- header and trailing data -----

  /** headerBytes throws while the header is incomplete. */
  function HeaderBytes(a: Acc): Option<seq<int>>
    requires a.headerEnd <= |a.bytes|
  {
    if a.headerEnd < 0 then None else Some(a.bytes[..a.headerEnd])
  }

  function TrailingData(a: Acc): seq<int>
    requires a.headerEnd <= |a.bytes|
  {
    if a.headerEnd < 0 then [] else a.bytes[a.headerEnd..]
  }

  /** Nothing is lost or invented: header and trailing data are the bytes read, cut at the first empty line. */
  lemma Lossless(s: seq<int>, max: nat)
    requires Append(EMPTY, s, max).1.Complete?
    ensures var b := Append(EMPTY, s, max).0;
            b.headerEnd <= |b.bytes| && HeaderBytes(b).Some? && HeaderBytes(b).value + TrailingData(b) == s &&
            EndsAt(HeaderBytes(b).value, |HeaderBytes(b).value|) &&
            forall j | j < |HeaderBytes(b).value| :: !EndsAt(s, j)
  {
    Outcome(s, max);
    AppendConsumes(EMPTY, s, max);
    var b := Append(EMPTY, s, max).0;
    assert EMPTY.bytes + s == s;
    EndsInPrefix(s, b.headerEnd, b.headerEnd);
  }

  // ----- the class -----

  class HeaderAccumulator {
    const maxHeaderBytes: nat
    var bytes: seq<int>
    var headerEnd: int
    var terminatorState: int

    ghost function Model(): Acc
      reads this
    {
      Acc(bytes, headerEnd, terminatorState)
    }

    /** What every append keeps. */
    ghost predicate Valid()
      reads this
    {
      Scanned(Model())
    }

    constructor (max: nat)
      ensures maxHeaderBytes == max && Model() == EMPTY && Valid()
    {
      maxHeaderBytes := max;
      bytes, headerEnd, terminatorState := [], -1, 0;
      new;
      NothingMatches([]);
    }

    /** Called for the byte just kept: a state that was longest without it is longest with it. */
    method AdvanceTerminator(b: int)
      requires bytes != [] && bytes[|bytes| - 1] == b
      requires 0 <= terminatorState <= 3 && LongestMatch(bytes[..|bytes| - 1], terminatorState)
      modifies `terminatorState
      ensures LongestMatch(bytes, terminatorState)
      ensures terminatorState == Advance(old(terminatorState), b)
    {
      hide LongestMatch;
      AdvanceIsLongest(bytes[..|bytes| - 1], terminatorState, b);
      assert bytes == bytes[..|bytes| - 1] + [b];
      match terminatorState
      case 0 => terminatorState := if b == CR then 1 else 0;
      case 1 => terminatorState := if b == LF then 2 else if b == CR then 1 else 0;
      case 2 => terminatorState := if b == CR then 3 else 0;
      case 3 => terminatorState := if b == LF then 4 else if b == CR then 1 else 0;
      case _ =>
    }

    /** Reads the buffer byte by byte; what follows the byte that made the header too large stays unread. */
    method AppendBuffer(input: seq<int>) returns (result: AppendResult, consumed: nat)
      requires Valid()
      modifies this
      ensures Valid()
      ensures match result
        case Complete => FirstEnd(bytes, headerEnd)
        case TooLarge => !HasEnd(bytes) && |bytes| > maxHeaderBytes
        case Incomplete => !HasEnd(bytes)
      ensures Model() == Append(old(Model()), input, maxHeaderBytes).0
      ensures result == Append(old(Model()), input, maxHeaderBytes).1
      ensures consumed <= |input| && bytes == old(bytes) + input[..consumed]
      ensures !result.TooLarge? ==> consumed == |input|
    {
      hide LongestMatch, FirstEnd, HasEnd;
      consumed := 0;
      while consumed < |input|
        invariant consumed <= |input| && Valid()
        invariant Append(Model(), input[consumed..], maxHeaderBytes) == Append(old(Model()), input, maxHeaderBytes)
        invariant bytes == old(bytes) + input[..consumed]
      {
        var b := input[consumed];
        ghost var was := Model();
        assert input[consumed..][0] == b && input[consumed..][1..] == input[consumed + 1..];
        assert input[..consumed + 1] == input[..consumed] + [b];
        PutKeepsScanned(was, b);
        assert bytes == (bytes + [b])[..|bytes|];
        bytes := bytes + [b];
        consumed := consumed + 1;
        if headerEnd < 0 {
          AdvanceTerminator(b);
          if terminatorState == 4 { headerEnd := |bytes|; }
          if headerEnd < 0 && |bytes| > maxHeaderBytes { return TooLarge, consumed; }
        }
      }
      result := if headerEnd >= 0 then Complete else Incomplete;
    }
  }
}
