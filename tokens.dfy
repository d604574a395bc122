/** The token budget ledger: a cost estimator over code points, and a
    manager that keeps a running token total against a ceiling and evicts
    payloads from its conversation history in two escalating tiers. */
module Tokens {
  import opened GoText
  import opened Types

  // ---------------------------------------------------------------------
  // Cost estimator
  // ---------------------------------------------------------------------

  /** A code point up to 255 weighs 1, every other weighs 2. */
  function Weight(c: char): (w: nat)
    ensures w == 1 <==> c as int <= 255
    ensures w == 1 || w == 2
  {
    if c as int <= 255 then 1 else 2
  }

  /** The summed weight of a text's code points. */
  function WeightSum(s: string): (w: nat)
    ensures |s| <= w <= 2 * |s|
  {
    if |s| == 0 then 0 else WeightSum(s[..|s| - 1]) + Weight(s[|s| - 1])
  }

  /** The estimated token count of a text: its weight divided by four. */
  function TokenEstimate(s: string): (t: nat)
    ensures |s| / 4 <= t <= |s| / 2
  {
    WeightSum(s) / 4
  }

  /** `TokenEstimator.Estimate`: the accumulating loop over code points. */
  method Estimate(text: string) returns (tokens: int)
    ensures tokens == TokenEstimate(text)
  {
    var total := 0;
    var i := 0;
    while i < |text|
      invariant 0 <= i <= |text|
      invariant total == WeightSum(text[..i])
    {
      if text[i] as int <= 255 {
        total := total + 1;
      } else {
        total := total + 2;
      }
      assert text[..i + 1][..i] == text[..i];
      i := i + 1;
    }
    assert text[..|text|] == text;
    tokens := total / 4;
  }

  lemma {:induction false} WeightSumLatin1(s: string)
    requires forall k :: 0 <= k < |s| ==> s[k] as int <= 255
    ensures WeightSum(s) == |s|
  {
    if |s| > 0 {
      WeightSumLatin1(s[..|s| - 1]);
    }
  }

  /** Text whose code points all fit in one byte costs a quarter of its
      length. */
  lemma EstimateLatin1(s: string)
    requires forall k :: 0 <= k < |s| ==> s[k] as int <= 255
    ensures TokenEstimate(s) == |s| / 4
  {
    WeightSumLatin1(s);
  }

  /** One wide code point costs nothing; four of them cost two. */
  lemma EstimateWide()
    ensures TokenEstimate("") == 0
    ensures TokenEstimate("中") == 0
    ensures TokenEstimate("中中中中") == 2
  {
    assert WeightSum("中") == 2;
    assert "中中中中"[..3] == "中中中";
    assert "中中中"[..2] == "中中";
    assert "中中"[..1] == "中";
    assert WeightSum("中中中中") == 8;
  }

  // ---------------------------------------------------------------------
  // Ledger records
  // ---------------------------------------------------------------------

  /** The operation slot of a record. `Op` holds the provider's operation;
      `Cleared` is the placeholder text the cleanups put in its place. */
  datatype OpSlot = Op(op: FileOperation) | Cleared(note: string)

  /** The action of the slot; a placeholder has none. */
  function ActionOf(slot: OpSlot): string
  {
    match slot
    case Op(o) => o.action
    case Cleared(_) => ""
  }

  /** The payload of the slot; a placeholder has none. */
  function ContentOf(slot: OpSlot): string
  {
    match slot
    case Op(o) => o.content
    case Cleared(_) => ""
  }

  datatype Record = Record(id: int, role: string, content: string, operation: OpSlot, tokenCount: int)

  /** The ledger's counter and its history, the state the cleanups act on. */
  datatype LedgerState = LedgerState(current: int, history: seq<Record>)

  datatype LedgerError =
    | TokenLimitExceeded(current: int, max: int)        // over the ceiling before cleanup
    | StillAbove(percent: nat, current: int, max: int)  // over a threshold after cleanup

  /** The cost AddRecord charges for a record: its text plus, when present,
      its operation's payload. */
  function Cost(r: Record): (c: nat)
    ensures c == TokenEstimate(r.content) + TokenEstimate(ContentOf(r.operation))
  {
    TokenEstimate(r.content) + if ContentOf(r.operation) != "" then TokenEstimate(ContentOf(r.operation)) else 0
  }

  /** The sum of the records' token counts. */
  function Sum(h: seq<Record>): int
  {
    if |h| == 0 then 0 else h[0].tokenCount + Sum(h[1..])
  }

  lemma {:induction false} SumAppend(a: seq<Record>, b: seq<Record>)
    ensures Sum(a + b) == Sum(a) + Sum(b)
  {
    if |a| == 0 {
      assert a + b == b;
    } else {
      assert (a + b)[1..] == a[1..] + b;
      SumAppend(a[1..], b);
    }
  }

  lemma {:induction false} SumUpdate(h: seq<Record>, i: nat, r: Record)
    requires i < |h|
    ensures Sum(h[i := r]) == Sum(h) - h[i].tokenCount + r.tokenCount
  {
    if i > 0 {
      assert h[i := r][1..] == h[1..][i - 1 := r];
      SumUpdate(h[1..], i - 1, r);
    }
  }

  /** How far the counter has drifted from the records it is meant to sum. */
  function Drift(s: LedgerState): int
  {
    s.current - Sum(s.history)
  }

  // ---------------------------------------------------------------------
  // Thresholds (Go's integer division truncates toward zero)
  // ---------------------------------------------------------------------

  function Quot(a: int, d: int): int
    requires d > 0
  {
    if a >= 0 then a / d else -((-a) / d)
  }

  function Half(max: int): int { Quot(max, 2) }

  function ThreeQuarters(max: int): int { Quot(max * 3, 4) }

  function ThreeFifths(max: int): int { Quot(max * 3, 5) }

  /** The threshold a percentage names. */
  function Threshold(max: int, percent: nat): int
  {
    if percent == 100 then max else if percent == 75 then ThreeQuarters(max) else Half(max)
  }

  /** `checkCleanupEffectiveness`: reports the highest of the 100%, 75% and
      50% thresholds the counter is above, or nothing when it is above none. */
  function CheckCleanupEffectiveness(max: int, cur: int): (e: Option<LedgerError>)
    ensures e.None? <==> cur <= max && cur <= ThreeQuarters(max) && cur <= Half(max)
    ensures e.Some? ==>
      && e.value.StillAbove?
      && e.value.current == cur && e.value.max == max
      && e.value.percent in {100, 75, 50}
      && cur > Threshold(max, e.value.percent)
      && (forall q :: q in {100, 75, 50} && q > e.value.percent ==> cur <= Threshold(max, q))
  {
    if cur > max then Some(StillAbove(100, cur, max))
    else if cur > ThreeQuarters(max) then Some(StillAbove(75, cur, max))
    else if cur > Half(max) then Some(StillAbove(50, cur, max))
    else None
  }

  /** For a non-negative ceiling the thresholds are ordered, so the check
      passes exactly when the counter is at most half the ceiling. */
  lemma EffectiveIffAtMostHalf(max: int, cur: int)
    requires max >= 0
    ensures CheckCleanupEffectiveness(max, cur).None? <==> cur <= Half(max)
  {
  }

  // ---------------------------------------------------------------------
  // Level 1: strip write payloads, tombstone, compact
  // ---------------------------------------------------------------------

  predicate IsWriteWithContent(r: Record)
  {
    r.operation.Op? && r.operation.op.action == "write" && r.operation.op.content != ""
  }

  function WriteNote(path: string): string { "已清理的写入操作: " + path }

  /** The tokens level 1 reclaims from one record. */
  function WriteSaving(r: Record): nat
  {
    if IsWriteWithContent(r) then TokenEstimate(r.operation.op.content) else 0
  }

  /** A record after level 1 visits it: a write carrying content loses its
      payload to a placeholder naming the path, and its count drops by the
      payload's cost; every other record is left as it is. */
  function StripWrite(r: Record): (r': Record)
    ensures r'.id == r.id && r'.role == r.role && r'.content == r.content
    ensures r'.tokenCount == r.tokenCount - WriteSaving(r)
    ensures IsWriteWithContent(r) ==> r'.operation == Cleared(WriteNote(r.operation.op.path))
    ensures !IsWriteWithContent(r) ==> r' == r
  {
    if IsWriteWithContent(r) then
      r.(operation := Cleared(WriteNote(r.operation.op.path)), tokenCount := r.tokenCount - WriteSaving(r))
    else r
  }

  function StripWrites(s: seq<Record>): (r: seq<Record>)
    ensures |r| == |s|
    ensures forall k :: 0 <= k < |s| ==> r[k] == StripWrite(s[k])
  {
    if |s| == 0 then [] else [StripWrite(s[0])] + StripWrites(s[1..])
  }

  function Savings(s: seq<Record>): nat
  {
    if |s| == 0 then 0 else WriteSaving(s[0]) + Savings(s[1..])
  }

  lemma {:induction false} SavingsAppend(a: seq<Record>, b: seq<Record>)
    ensures Savings(a + b) == Savings(a) + Savings(b)
  {
    if |a| == 0 {
      assert a + b == b;
    } else {
      assert (a + b)[1..] == a[1..] + b;
      SavingsAppend(a[1..], b);
    }
  }

  lemma SavingsFront(h: seq<Record>, i: nat)
    requires i < |h|
    ensures forall k :: i < k <= |h| ==> Savings(h[i..k]) == WriteSaving(h[i]) + Savings(h[i + 1..k])
  {
    forall k | i < k <= |h|
      ensures Savings(h[i..k]) == WriteSaving(h[i]) + Savings(h[i + 1..k])
    {
      assert h[i..k][1..] == h[i + 1..k];
    }
  }

  /** Stripping a run of records lowers their summed count by exactly what
      it reclaims. */
  lemma {:induction false} SumStripWrites(s: seq<Record>)
    ensures Sum(StripWrites(s)) == Sum(s) - Savings(s)
  {
    if |s| > 0 {
      assert StripWrites(s)[1..] == StripWrites(s[1..]);
      SumStripWrites(s[1..]);
    }
  }

  /** The walk of level 1 from index `i`: it visits records while the index
      is below `limit` and the counter is above `half`, and returns the
      index it stopped at with the counter at that point. */
  function Walk1(half: int, h: seq<Record>, limit: nat, i: nat, cur: int): (w: (nat, int))
    requires i <= limit <= |h|
    ensures i <= w.0 <= limit
    decreases limit - i
  {
    if i < limit && cur > half then Walk1(half, h, limit, i + 1, cur - WriteSaving(h[i]))
    else (i, cur)
  }

  /** Where the walk stops and what it leaves the counter at: the counter
      falls by exactly the write payloads of the visited records, the walk
      stops early only once the counter is at most `half`, and each visited
      record was reached while the counter was still above `half`. */
  lemma {:induction false} Walk1Facts(half: int, h: seq<Record>, limit: nat, i: nat, cur: int)
    requires i <= limit <= |h|
    ensures var w := Walk1(half, h, limit, i, cur);
      && w.1 == cur - Savings(h[i..w.0])
      && (w.0 < limit ==> w.1 <= half)
      && (forall k :: i <= k < w.0 ==> cur - Savings(h[i..k]) > half)
    decreases limit - i
  {
    if i < limit && cur > half {
      Walk1Facts(half, h, limit, i + 1, cur - WriteSaving(h[i]));
      SavingsFront(h, i);
    }
  }

  function Min(a: int, b: int): int { if a < b then a else b }

  /** How many of the most recent records level 1 protects. */
  function Keep(n: nat): nat { Min(2, n) }

  /** The index at which level 1's walk stops. */
  function Level1Stop(max: int, s: LedgerState): (j: nat)
    ensures j <= |s.history| - Keep(|s.history|)
  {
    var n := |s.history|;
    Walk1(Half(max), s.history, n - Keep(n), 0, s.current).0
  }

  /** `level1Cleanup` as a function of the ledger: the first two visited
      records are kept (stripped), the other visited records are dropped,
      and the unvisited rest is kept as it is, in order. */
  function Level1(max: int, s: LedgerState): LedgerState
  {
    var n := |s.history|;
    var w := Walk1(Half(max), s.history, n - Keep(n), 0, s.current);
    LedgerState(w.1, StripWrites(s.history[..Min(w.0, 2)]) + s.history[w.0..])
  }

  /** The slots of the history once the walk has visited the first `i`
      records: the first two visited are stripped, later visited ones are
      nil, unvisited ones are as they were. */
  function WalkedSlots(h: seq<Record>, i: nat): (slots: seq<Option<Record>>)
    requires i <= |h|
    ensures |slots| == |h|
  {
    seq(|h|, k requires 0 <= k < |h| =>
      if k >= i then Some(h[k]) else if k <= 1 then Some(StripWrite(h[k])) else None)
  }

  lemma WalkedSlotsStep(h: seq<Record>, i: nat)
    requires i < |h|
    ensures WalkedSlots(h, i + 1) == WalkedSlots(h, i)[i := if i <= 1 then Some(StripWrite(h[i])) else None]
  {
  }

  /** The compacted history once the first `k` slots are processed, when the
      walk stopped at `j`. */
  function Compacted(h: seq<Record>, j: nat, k: nat): seq<Record>
    requires j <= |h| && k <= |h|
  {
    StripWrites(h[..Min(Min(k, j), 2)]) + h[j..if k < j then j else k]
  }

  lemma CompactedStep(h: seq<Record>, j: nat, k: nat)
    requires j <= |h| && k < |h|
    ensures var slot := WalkedSlots(h, j)[k];
      Compacted(h, j, k + 1) == Compacted(h, j, k) + if slot.Some? then [slot.value] else []
  {
    if k < j {
      if k <= 1 {
        assert h[..k + 1] == h[..k] + [h[k]];
        assert StripWrites(h[..k + 1]) == StripWrites(h[..k]) + [StripWrite(h[k])];
      }
    } else {
      assert h[j..k + 1] == h[j..k] + [h[k]];
    }
  }

  /** The records of the non-nil slots, in order. */
  function Live(slots: seq<Option<Record>>): (r: seq<Record>)
    ensures |r| <= |slots|
  {
    if |slots| == 0 then []
    else Live(slots[..|slots| - 1]) + if slots[|slots| - 1].Some? then [slots[|slots| - 1].value] else []
  }

  /** The compaction loop of `level1Cleanup`: keep the non-nil slots. */
  method CompactSlots(slots: seq<Option<Record>>) returns (compacted: seq<Record>)
    ensures compacted == Live(slots)
  {
    compacted := [];
    var k := 0;
    while k < |slots|
      invariant 0 <= k <= |slots|
      invariant compacted == Live(slots[..k])
    {
      assert slots[..k + 1][..k] == slots[..k];
      if slots[k].Some? {
        compacted := compacted + [slots[k].value];
      }
      k := k + 1;
    }
    assert slots[..|slots|] == slots;
  }

  /** Compacting the walked slots gives the survivors of level 1. */
  lemma LiveWalkedSlots(h: seq<Record>, j: nat)
    requires j <= |h|
    ensures Live(WalkedSlots(h, j)) == Compacted(h, j, |h|)
  {
    var slots := WalkedSlots(h, j);
    var k := 0;
    assert slots[..0] == [];
    while k < |h|
      invariant 0 <= k <= |h|
      invariant Live(slots[..k]) == Compacted(h, j, k)
    {
      CompactedStep(h, j, k);
      assert slots[..k + 1][..k] == slots[..k];
      k := k + 1;
    }
    assert slots[..|h|] == slots;
  }

  /** Once the walk is known to stop at `j` with counter `cur`, level 1's
      result is the compaction of all the slots. */
  lemma Level1Closed(max: int, s: LedgerState, j: nat, cur: int)
    requires j <= |s.history|
    requires Walk1(Half(max), s.history, |s.history| - Keep(|s.history|), 0, s.current) == (j, cur)
    ensures Level1(max, s) == LedgerState(cur, Compacted(s.history, j, |s.history|))
  {
    assert s.history[j..|s.history|] == s.history[j..];
  }

  /** Level 1 never strips, drops or reorders the two most recent records. */
  lemma Level1KeepsRecent(max: int, s: LedgerState)
    ensures var h' := Level1(max, s).history;
      var keep := Keep(|s.history|);
      |h'| >= keep && h'[|h'| - keep..] == s.history[|s.history| - keep..]
  {
    var n := |s.history|;
    var j := Level1Stop(max, s);
    var h' := Level1(max, s).history;
    var m := Min(j, 2);
    assert h' == StripWrites(s.history[..m]) + s.history[j..];
    assert h'[|h'| - Keep(n)..] == s.history[j..][|s.history[j..]| - Keep(n)..];
  }

  /** What level 1 does to the ledger, in terms of where its walk stopped:
      survivors are the stripped first two visited records followed by the
      unvisited ones; the counter falls by exactly the write payloads it
      stripped; the walk only stops early once the counter is at most half
      the ceiling; and every visited record was visited while it was above. */
  lemma Level1Effect(max: int, s: LedgerState)
    ensures var j := Level1Stop(max, s);
      var r := Level1(max, s);
      var n := |s.history|;
      && r.history == StripWrites(s.history[..Min(j, 2)]) + s.history[j..]
      && |r.history| == n - (j - Min(j, 2))
      && r.current == s.current - Savings(s.history[..j])
      && r.current <= s.current
      && (j < n - Keep(n) ==> r.current <= Half(max))
      && (forall k :: 0 <= k < j ==> s.current - Savings(s.history[0..k]) > Half(max))
  {
    var n := |s.history|;
    Walk1Facts(Half(max), s.history, n - Keep(n), 0, s.current);
    assert s.history[0..Level1Stop(max, s)] == s.history[..Level1Stop(max, s)];
  }

  /** Level 1 keeps the counter in step with what it strips, but drops the
      tombstoned records without deducting what they still cost: the drift
      between the counter and the surviving records grows by exactly the
      remaining count of the dropped records. */
  lemma Level1Drift(max: int, s: LedgerState)
    ensures var j := Level1Stop(max, s);
      Drift(Level1(max, s)) == Drift(s) + Sum(StripWrites(s.history[Min(j, 2)..j]))
  {
    var h := s.history;
    var j := Level1Stop(max, s);
    var m := Min(j, 2);
    var r := Level1(max, s);
    Level1Effect(max, s);
    assert h[..j] == h[..m] + h[m..j];
    assert h == h[..m] + h[m..j] + h[j..];
    SavingsAppend(h[..m], h[m..j]);
    SumAppend(h[..m] + h[m..j], h[j..]);
    SumAppend(h[..m], h[m..j]);
    SumAppend(StripWrites(h[..m]), h[j..]);
    SumStripWrites(h[..m]);
    SumStripWrites(h[m..j]);
  }

  // ---------------------------------------------------------------------
  // Level 2: level 1, then strip read payloads, then summarize
  // ---------------------------------------------------------------------

  predicate IsRead(r: Record) { ActionOf(r.operation) == "read" }

  function ReadNote(path: string): string { "已清理的文件读取记录: " + path }

  /** One step of the read-stripping pass at index `i`. */
  function ReadStep(half: int, i: nat, cur: int, r: Record): (step: (int, Record))
    ensures step.0 - step.1.tokenCount == cur - r.tokenCount
    ensures step.1.id == r.id && step.1.role == r.role && step.1.content == r.content
    ensures step != (cur, r) <==> i > 0 && IsRead(r) && cur > half
    ensures i > 0 && IsRead(r) && cur > half ==>
      && step.1.operation == Cleared(ReadNote(r.operation.op.path))
      && step.0 == cur - TokenEstimate(ContentOf(r.operation))
  {
    if i > 0 && IsRead(r) && cur > half then
      var save := TokenEstimate(ContentOf(r.operation));
      (cur - save, r.(operation := Cleared(ReadNote(r.operation.op.path)), tokenCount := r.tokenCount - save))
    else
      (cur, r)
  }

  /** The read-stripping pass from index `i` to the end. */
  function ReadPass(half: int, h: seq<Record>, i: nat, cur: int): (p: (int, seq<Record>))
    requires i <= |h|
    ensures |p.1| == |h|
    decreases |h| - i
  {
    if i == |h| then (cur, h)
    else
      var step := ReadStep(half, i, cur, h[i]);
      ReadPass(half, h[i := step.1], i + 1, step.0)
  }

  lemma ReadPassStep(half: int, h: seq<Record>, i: nat, cur: int)
    requires i < |h|
    ensures var step := ReadStep(half, i, cur, h[i]);
      ReadPass(half, h, i, cur) == ReadPass(half, h[i := step.1], i + 1, step.0)
  {
  }

  /** The read pass keeps every record's text, identity and role, never touches
      the records before `i` nor the first record, leaves records that are
      not reads as they are, and changes the counter by exactly what it
      changes the records' counts by. */
  lemma {:induction false} ReadPassFacts(half: int, h: seq<Record>, i: nat, cur: int)
    requires i <= |h|
    ensures var p := ReadPass(half, h, i, cur);
      && p.0 - Sum(p.1) == cur - Sum(h)
      && (forall k :: 0 <= k < |h| && (k < i || k == 0) ==> p.1[k] == h[k])
      && (forall k :: 0 <= k < |h| ==>
            p.1[k].content == h[k].content && p.1[k].id == h[k].id && p.1[k].role == h[k].role)
      && (forall k :: 0 <= k < |h| && !IsRead(h[k]) ==> p.1[k] == h[k])
    decreases |h| - i
  {
    if i < |h| {
      var step := ReadStep(half, i, cur, h[i]);
      SumUpdate(h, i, step.1);
      ReadPassFacts(half, h[i := step.1], i + 1, step.0);
    }
  }

  /** Once the counter is at most half the ceiling the read pass changes
      nothing more. */
  lemma {:induction false} ReadPassIdle(half: int, h: seq<Record>, i: nat, cur: int)
    requires i <= |h| && cur <= half
    ensures ReadPass(half, h, i, cur) == (cur, h)
    decreases |h| - i
  {
    if i < |h| {
      assert h[i := h[i]] == h;
      ReadPassIdle(half, h, i + 1, cur);
    }
  }

  /** The record a read becomes when its payload is stripped. */
  function ReadStripped(r: Record): Record
    requires IsRead(r)
  {
    r.(operation := Cleared(ReadNote(r.operation.op.path)),
       tokenCount := r.tokenCount - TokenEstimate(ContentOf(r.operation)))
  }

  /** The read pass either strips every read it reaches after the first
      record or ends with the counter at most half the ceiling. */
  lemma {:induction false} ReadPassStrips(half: int, h: seq<Record>, i: nat, cur: int)
    requires i <= |h|
    ensures var p := ReadPass(half, h, i, cur);
      p.0 > half ==>
        forall k :: i <= k < |h| && k > 0 && IsRead(h[k]) ==> p.1[k] == ReadStripped(h[k])
    decreases |h| - i
  {
    if i < |h| {
      if cur <= half {
        ReadPassIdle(half, h, i, cur);
      } else {
        var step := ReadStep(half, i, cur, h[i]);
        var h' := h[i := step.1];
        ReadPassStrips(half, h', i + 1, step.0);
        ReadPassFacts(half, h', i + 1, step.0);
      }
    }
  }

  const CriticalMarker: string := "[关键]"

  predicate IsCritical(r: Record) { HasPrefix(r.content, CriticalMarker) }

  /** The text a summarized record is left with. */
  function Summary(id: int, action: string): string
  {
    "[精简] 记录 #" + IntToDecimal(id) + " (" + action + ")"
  }

  /** A summary is not itself marked critical. */
  lemma SummaryNotCritical(id: int, action: string)
    ensures !HasPrefix(Summary(id, action), CriticalMarker)
  {
    assert Summary(id, action)[1] == '精';
  }

  /** The record a summarized record becomes: its text a summary, its
      operation empty, its cost 10. */
  function Summarized(r: Record): Record
  {
    r.(content := Summary(r.id, ActionOf(r.operation)), operation := Op(EmptyOperation), tokenCount := 10)
  }

  /** One step of the summarizing pass at index `i`. */
  function SummaryStep(limit: int, i: nat, cur: int, r: Record): (step: (int, Record))
    ensures step.0 - step.1.tokenCount == cur - r.tokenCount
    ensures step.1.id == r.id && step.1.role == r.role
    ensures step != (cur, r) ==> i > 0 && cur > limit && !IsCritical(r)
    ensures step != (cur, r) ==>
      && step.1.tokenCount == 10
      && step.1.operation == Op(EmptyOperation)
      && step.1.content == Summary(r.id, ActionOf(r.operation))
    ensures i > 0 && cur > limit && !IsCritical(r) ==>
      step == (cur - (r.tokenCount - 10), Summarized(r))
  {
    if i > 0 && cur > limit && !IsCritical(r) then
      var tokenSave := r.tokenCount - 10;
      (cur - tokenSave, r.(content := Summary(r.id, ActionOf(r.operation)), operation := Op(EmptyOperation), tokenCount := 10))
    else
      (cur, r)
  }

  /** The summarizing pass from index `i` to the end. */
  function SummaryPass(limit: int, h: seq<Record>, i: nat, cur: int): (p: (int, seq<Record>))
    requires i <= |h|
    ensures |p.1| == |h|
    decreases |h| - i
  {
    if i == |h| then (cur, h)
    else
      var step := SummaryStep(limit, i, cur, h[i]);
      SummaryPass(limit, h[i := step.1], i + 1, step.0)
  }

  lemma SummaryPassStep(limit: int, h: seq<Record>, i: nat, cur: int)
    requires i < |h|
    ensures var step := SummaryStep(limit, i, cur, h[i]);
      SummaryPass(limit, h, i, cur) == SummaryPass(limit, h[i := step.1], i + 1, step.0)
  {
  }

  /** The summarizing pass never touches the records before `i`, the first
      record or a critical record; every record it changes is a summary of
      the original with a fixed count of 10; and it changes the counter by
      exactly what it changes the records' counts by. */
  lemma {:induction false} SummaryPassFacts(limit: int, h: seq<Record>, i: nat, cur: int)
    requires i <= |h|
    ensures var p := SummaryPass(limit, h, i, cur);
      && p.0 - Sum(p.1) == cur - Sum(h)
      && (forall k :: 0 <= k < |h| && (k < i || k == 0) ==> p.1[k] == h[k])
      && (forall k :: 0 <= k < |h| && IsCritical(h[k]) ==> p.1[k] == h[k])
      && (forall k :: 0 <= k < |h| && p.1[k] != h[k] ==>
            && p.1[k].id == h[k].id
            && p.1[k].tokenCount == 10
            && p.1[k].operation == Op(EmptyOperation)
            && p.1[k].content == Summary(h[k].id, ActionOf(h[k].operation)))
    decreases |h| - i
  {
    if i < |h| {
      var step := SummaryStep(limit, i, cur, h[i]);
      SumUpdate(h, i, step.1);
      SummaryPassFacts(limit, h[i := step.1], i + 1, step.0);
    }
  }

  /** Once the counter is at most three fifths of the ceiling the
      summarizing pass changes nothing more. */
  lemma {:induction false} SummaryPassIdle(limit: int, h: seq<Record>, i: nat, cur: int)
    requires i <= |h| && cur <= limit
    ensures SummaryPass(limit, h, i, cur) == (cur, h)
    decreases |h| - i
  {
    if i < |h| {
      assert h[i := h[i]] == h;
      SummaryPassIdle(limit, h, i + 1, cur);
    }
  }

  /** The summarizing pass either summarizes every non-critical record it
      reaches after the first or ends with the counter at most the bar. */
  lemma {:induction false} SummaryPassSummarizes(limit: int, h: seq<Record>, i: nat, cur: int)
    requires i <= |h|
    ensures var p := SummaryPass(limit, h, i, cur);
      p.0 > limit ==>
        forall k :: i <= k < |h| && k > 0 && !IsCritical(h[k]) ==> p.1[k] == Summarized(h[k])
    decreases |h| - i
  {
    if i < |h| {
      if cur <= limit {
        SummaryPassIdle(limit, h, i, cur);
      } else {
        var step := SummaryStep(limit, i, cur, h[i]);
        var h' := h[i := step.1];
        SummaryPassSummarizes(limit, h', i + 1, step.0);
        SummaryPassFacts(limit, h', i + 1, step.0);
      }
    }
  }

  /** `level2Cleanup` as a function of the ledger. */
  function Level2(max: int, s: LedgerState): LedgerState
  {
    var t := ReadStage(max, s);
    var q := SummaryPass(ThreeFifths(max), t.history, 0, t.current);
    LedgerState(q.0, q.1)
  }

  /** The ledger between level 2's read pass and its summarizing pass. */
  function ReadStage(max: int, s: LedgerState): LedgerState
  {
    var s1 := Level1(max, s);
    var p := ReadPass(Half(max), s1.history, 0, s1.current);
    LedgerState(p.0, p.1)
  }

  /** After its level-1 step, level 2 removes nothing, never touches the
      first record, keeps every critical record's text, leaves each record
      it changes either read-stripped or summarized to a fixed cost of 10,
      and keeps the counter in step with every change it makes. What it
      reclaims: the read pass strips every read after the first record
      unless the counter has come down to half the ceiling, and the
      summarizing pass then summarizes every non-critical record after the
      first unless the counter has come down to three fifths. */
  lemma Level2Effect(max: int, s: LedgerState)
    ensures var s1 := Level1(max, s);
      var t := ReadStage(max, s);
      var r := Level2(max, s);
      && |r.history| == |s1.history|
      && (|s1.history| > 0 ==> r.history[0] == s1.history[0])
      && Drift(r) == Drift(s1)
      && (forall k :: 0 <= k < |s1.history| && IsCritical(s1.history[k]) ==>
            r.history[k].content == s1.history[k].content)
      && (forall k :: 0 <= k < |s1.history| && r.history[k].content != s1.history[k].content ==>
            r.history[k].tokenCount == 10 && r.history[k].operation == Op(EmptyOperation))
      && (t.current > Half(max) ==>
            forall k :: 0 < k < |s1.history| && IsRead(s1.history[k]) ==>
              t.history[k] == ReadStripped(s1.history[k]))
      && (r.current > ThreeFifths(max) ==>
            forall k :: 0 < k < |s1.history| && !IsCritical(s1.history[k]) ==>
              r.history[k] == Summarized(t.history[k]))
  {
    var s1 := Level1(max, s);
    var t := ReadStage(max, s);
    var q := SummaryPass(ThreeFifths(max), t.history, 0, t.current);
    ReadPassFacts(Half(max), s1.history, 0, s1.current);
    ReadPassStrips(Half(max), s1.history, 0, s1.current);
    SummaryPassFacts(ThreeFifths(max), t.history, 0, t.current);
    SummaryPassSummarizes(ThreeFifths(max), t.history, 0, t.current);
    forall k | 0 <= k < |s1.history| && IsCritical(s1.history[k])
      ensures q.1[k].content == s1.history[k].content
    {
      assert t.history[k].content == s1.history[k].content;
      assert IsCritical(t.history[k]);
    }
    forall k | 0 <= k < |s1.history| && !IsCritical(s1.history[k])
      ensures !IsCritical(t.history[k])
    {
      assert t.history[k].content == s1.history[k].content;
    }
  }

  // ---------------------------------------------------------------------
  // The strategy
  // ---------------------------------------------------------------------

  /** `applyCleanupStrategy` as a function of the ledger. */
  function ApplyCleanup(max: int, s: LedgerState): (r: (LedgerState, Option<LedgerError>))
    ensures |r.0.history| <= |s.history|
  {
    if s.current > max then (s, Some(TokenLimitExceeded(s.current, max)))
    else
      var s' := if s.current > ThreeQuarters(max) then Level2(max, s)
                else if s.current > Half(max) then Level1(max, s)
                else s;
      (s', CheckCleanupEffectiveness(max, s'.current))
  }

  /** Above the ceiling nothing is cleaned and the call fails; otherwise the
      tier follows the thresholds and the outcome is the effectiveness check
      of the cleaned ledger. A success always leaves the counter at most
      half the ceiling. */
  lemma ApplyCleanupTiers(max: int, s: LedgerState)
    ensures var r := ApplyCleanup(max, s);
      && (s.current > max ==> r.0 == s && r.1 == Some(TokenLimitExceeded(s.current, max)))
      && (s.current <= max && s.current > ThreeQuarters(max) ==> r.0 == Level2(max, s))
      && (s.current <= ThreeQuarters(max) && s.current > Half(max) ==> r.0 == Level1(max, s))
      && (s.current <= Half(max) ==> r.0 == s)
      && (r.1.None? ==> r.0.current <= Half(max))
  {
  }

  // ---------------------------------------------------------------------
  // The manager
  // ---------------------------------------------------------------------

  class TokenManager {
    const maxTokens: int
    var currentToken: int
    var history: seq<Record>

    function State(): LedgerState
      reads this
    {
      LedgerState(currentToken, history)
    }

    /** `NewTokenManager`: an empty ledger. */
    constructor (maxTokens: int)
      ensures this.maxTokens == maxTokens && currentToken == 0 && history == []
    {
      this.maxTokens := maxTokens;
      currentToken := 0;
      history := [];
    }

    /** A ledger in an arbitrary state, since AddRecord never fills the
        history itself. */
    constructor WithHistory(maxTokens: int, currentToken: int, history: seq<Record>)
      ensures this.maxTokens == maxTokens && this.currentToken == currentToken && this.history == history
    {
      this.maxTokens := maxTokens;
      this.currentToken := currentToken;
      this.history := history;
    }

    /** Costs the record, charges the cost to the counter and runs the
        strategy. The record itself is not put into the history. */
    method AddRecord(record: Record) returns (costed: Record, err: Option<LedgerError>)
      modifies this
      ensures costed == record.(tokenCount := Cost(record))
      ensures (State(), err) == ApplyCleanup(maxTokens, LedgerState(old(currentToken) + Cost(record), old(history)))
      ensures |history| <= |old(history)|
    {
      var tokens := Estimate(record.content);
      if ContentOf(record.operation) != "" {
        var more := Estimate(ContentOf(record.operation));
        tokens := tokens + more;
      }
      costed := record.(tokenCount := tokens);
      currentToken := currentToken + tokens;
      err := ApplyCleanupStrategy();
    }

    method ApplyCleanupStrategy() returns (err: Option<LedgerError>)
      modifies this
      ensures (State(), err) == ApplyCleanup(maxTokens, old(State()))
    {
      if currentToken > maxTokens {
        return Some(TokenLimitExceeded(currentToken, maxTokens));
      } else if currentToken > ThreeQuarters(maxTokens) {
        Level2Cleanup();
      } else if currentToken > Half(maxTokens) {
        Level1Cleanup();
      }
      err := CheckCleanupEffectiveness(maxTokens, currentToken);
    }

    method Level1Cleanup()
      modifies this
      ensures State() == Level1(maxTokens, old(State()))
    {
      var h := history;
      var stop, slots := WalkOlderRecords();
      var newHistory := CompactSlots(slots);
      LiveWalkedSlots(h, stop);
      Level1Closed(maxTokens, old(State()), stop, currentToken);
      history := newHistory;
    }

    /** The walk of `level1Cleanup` over the history seen as a slice of
        pointers: strip write payloads while the counter is above half the
        ceiling, outside the two most recent records, and set every visited
        slot past the second to nil. */
    method WalkOlderRecords() returns (stop: nat, slots: seq<Option<Record>>)
      modifies this
      ensures history == old(history) && stop <= |history|
      ensures (stop, currentToken)
           == Walk1(Half(maxTokens), history, |history| - Keep(|history|), 0, old(currentToken))
      ensures slots == WalkedSlots(history, stop)
    {
      var h := history;
      var n := |h|;
      var keep := Min(2, n);
      slots := seq(n, k requires 0 <= k < n => Some(h[k]));
      var i := 0;
      while i < n - keep && currentToken > Half(maxTokens)
        invariant 0 <= i <= n - keep
        invariant history == h
        invariant slots == WalkedSlots(h, i)
        invariant Walk1(Half(maxTokens), h, n - keep, i, currentToken)
               == Walk1(Half(maxTokens), h, n - keep, 0, old(currentToken))
      {
        WalkedSlotsStep(h, i);
        var rec := slots[i].value;
        if rec.operation.Op? && rec.operation.op.action == "write" && rec.operation.op.content != "" {
          var tokenSave := Estimate(rec.operation.op.content);
          rec := rec.(operation := Cleared(WriteNote(rec.operation.op.path)), tokenCount := rec.tokenCount - tokenSave);
          currentToken := currentToken - tokenSave;
        }
        slots := slots[i := Some(rec)];
        if i > 1 {
          slots := slots[i := None];
        }
        i := i + 1;
      }
      stop := i;
    }

    /** `level2Cleanup`: level 1, then its two passes over the compacted
        history (kept as separate methods below, one per loop). */
    method Level2Cleanup()
      modifies this
      ensures State() == Level2(maxTokens, old(State()))
    {
      Level1Cleanup();
      StripReadPayloads();
      SummarizeHistory();
    }

    /** The first loop of `level2Cleanup`: strip the payload of every read
        after the first record while the counter is above half the ceiling. */
    method StripReadPayloads()
      modifies this
      ensures var p := ReadPass(Half(maxTokens), old(history), 0, old(currentToken));
        State() == LedgerState(p.0, p.1)
    {
      var i := 0;
      while i < |history|
        invariant 0 <= i <= |history| == |old(history)|
        invariant ReadPass(Half(maxTokens), history, i, currentToken)
               == ReadPass(Half(maxTokens), old(history), 0, old(currentToken))
      {
        ReadPassStep(Half(maxTokens), history, i, currentToken);
        ghost var step := ReadStep(Half(maxTokens), i, currentToken, history[i]);
        var rec := history[i];
        if i > 0 && ActionOf(rec.operation) == "read" && currentToken > Half(maxTokens) {
          var tokenSave := Estimate(ContentOf(rec.operation));
          rec := rec.(operation := Cleared(ReadNote(rec.operation.op.path)), tokenCount := rec.tokenCount - tokenSave);
          currentToken := currentToken - tokenSave;
          assert (currentToken, rec) == step;
          history := history[i := rec];
        } else {
          assert (currentToken, rec) == step;
          assert history[i := rec] == history;
        }
        i := i + 1;
      }
    }

    /** The second loop of `level2Cleanup`: collapse every non-critical
        record after the first to a summary costing 10 while the counter is
        above three fifths of the ceiling. */
    method SummarizeHistory()
      modifies this
      ensures var p := SummaryPass(ThreeFifths(maxTokens), old(history), 0, old(currentToken));
        State() == LedgerState(p.0, p.1)
    {
      var i := 0;
      while i < |history|
        invariant 0 <= i <= |history| == |old(history)|
        invariant SummaryPass(ThreeFifths(maxTokens), history, i, currentToken)
               == SummaryPass(ThreeFifths(maxTokens), old(history), 0, old(currentToken))
      {
        SummaryPassStep(ThreeFifths(maxTokens), history, i, currentToken);
        ghost var step := SummaryStep(ThreeFifths(maxTokens), i, currentToken, history[i]);
        var rec := history[i];
        if i > 0 && currentToken > ThreeFifths(maxTokens) && !HasPrefix(rec.content, CriticalMarker) {
          var tokenSave := rec.tokenCount - 10;
          rec := rec.(content := Summary(rec.id, ActionOf(rec.operation)), operation := Op(EmptyOperation), tokenCount := 10);
          currentToken := currentToken - tokenSave;
          assert (currentToken, rec) == step;
          history := history[i := rec];
        } else {
          assert (currentToken, rec) == step;
          assert history[i := rec] == history;
        }
        i := i + 1;
      }
    }

    /** `GetTokenUsage`: the counter and the ceiling, as stored. */
    method GetTokenUsage() returns (current: int, max: int)
      ensures current == currentToken && max == maxTokens
    {
      return currentToken, maxTokens;
    }
  }
}
