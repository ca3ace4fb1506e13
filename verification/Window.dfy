/** Bounding a conversation by age and by count, and the part of it a background run may see. */
module Window {
  import opened Wrappers
  import opened Messages

  function PastTools(s: seq<Message>, cut: nat): (end: nat)
    requires cut <= |s|
    ensures cut <= end <= |s|
    ensures end < |s| ==> s[end].role != Tool
    decreases |s| - cut
  {
    if cut < |s| && s[cut].role == Tool then PastTools(s, cut + 1) else cut
  }

  method PastOrphanTools(s: seq<Message>, start: nat) returns (cut: nat)
    requires start <= |s|
    ensures cut == PastTools(s, start)
  {
    cut := start;
    while cut < |s| && s[cut].role == Tool
      invariant start <= cut <= |s|
      invariant PastTools(s, start) == PastTools(s, cut)
    {
      cut := cut + 1;
    }
  }

  function Without(s: seq<Message>, cut: nat): seq<Message>
    requires 1 <= cut <= |s|
  {
    s[..1] + s[cut..]
  }

  function Trimmed(s: seq<Message>, keep: nat): seq<Message> {
    if |s| <= keep + 1 then s else Without(s, PastTools(s, |s| - keep))
  }

  method SafeTrim(messages: MessageList, keep: nat)
    modifies messages
    ensures messages.items == Trimmed(old(messages.items), keep)
  {
    hide PastTools;
    if |messages.items| <= keep + 1 {
      return;
    }
    var cut := |messages.items| - keep;
    if cut < 1 {
      cut := 1;
    }
    cut := PastOrphanTools(messages.items, cut);
    messages.items := messages.items[..1] + messages.items[cut..];
  }

  predicate Recent(m: Message, cutoff: Time) {
    m.createdAt.None? || m.createdAt.value >= cutoff
  }

  function FirstRecent(s: seq<Message>, cut: nat, cutoff: Time): (first: nat)
    requires cut <= |s|
    ensures cut <= first <= |s|
    ensures first < |s| ==> Recent(s[first], cutoff)
    decreases |s| - cut
  {
    if cut < |s| && !Recent(s[cut], cutoff) then FirstRecent(s, cut + 1, cutoff) else cut
  }

  function Fresh(s: seq<Message>, cutoff: Time): seq<Message> {
    if |s| <= 1 then s else Without(s, PastTools(s, FirstRecent(s, 1, cutoff)))
  }

  method TrimOlderThan(messages: MessageList, cutoff: Time)
    modifies messages
    ensures messages.items == Fresh(old(messages.items), cutoff)
  {
    var s := messages.items;
    if |s| <= 1 {
      return;
    }
    var cut := 1;
    while cut < |s| && !Recent(s[cut], cutoff)
      invariant 1 <= cut <= |s|
      invariant FirstRecent(s, 1, cutoff) == FirstRecent(s, cut, cutoff)
    {
      cut := cut + 1;
    }
    if cut == |s| {
      messages.items := s[..1];
      assert s[..1] == Without(s, |s|);
      return;
    }
    cut := PastOrphanTools(s, cut);
    if cut > 1 {
      messages.items := s[..1] + s[cut..];
    }
    assert s == Without(s, 1);
  }

  function Windowed(s: seq<Message>, keep: nat, cutoff: Time): seq<Message> {
    Trimmed(Fresh(s, cutoff), keep)
  }

  method ApplyWindow(messages: MessageList, keep: nat, maxAge: real, now: Time)
    modifies messages
    ensures messages.items == Windowed(old(messages.items), keep, now - maxAge)
  {
    hide PastTools, Fresh, Trimmed;
    TrimOlderThan(messages, now - maxAge);
    SafeTrim(messages, keep);
  }

  // ------------------------------------------------------------------ what the window keeps

  predicate Chronological(s: seq<Message>) {
    && (forall i :: 0 < i < |s| ==> s[i].createdAt.Some?)
    && (forall i, k :: 0 < i < k < |s| ==> s[i].createdAt.value <= s[k].createdAt.value)
  }

  /** The rest of the conversation from here on fits the window and does not begin inside an exchange. */
  predicate Fits(s: seq<Message>, cut: nat, keep: nat, cutoff: Time) {
    && 1 <= cut <= |s|
    && |s| - cut <= keep
    && (forall i :: cut <= i < |s| ==> Recent(s[i], cutoff))
    && (cut < |s| ==> s[cut].role != Tool)
  }

  lemma {:induction false} SkipsOnlyTools(s: seq<Message>, cut: nat, i: nat)
    requires cut <= |s| && cut <= i < PastTools(s, cut)
    ensures i < |s| && s[i].role == Tool
    decreases |s| - cut
  {
    if cut < i {
      SkipsOnlyTools(s, cut + 1, i);
    }
  }

  lemma {:induction false} SkipsOnlyOld(s: seq<Message>, cut: nat, cutoff: Time, i: nat)
    requires cut <= |s| && cut <= i < FirstRecent(s, cut, cutoff)
    ensures i < |s| && !Recent(s[i], cutoff)
    decreases |s| - cut
  {
    if cut < i {
      SkipsOnlyOld(s, cut + 1, cutoff, i);
    }
  }

  lemma {:induction false} PastToolsIsFirst(s: seq<Message>, a: nat, b: nat)
    requires a <= b <= |s|
    ensures PastTools(s, a) <= b ==> PastTools(s, b) == PastTools(s, PastTools(s, b))
    ensures b <= PastTools(s, a) ==> PastTools(s, b) == PastTools(s, a)
    decreases b - a
  {
    if a < b && s[a].role == Tool {
      PastToolsIsFirst(s, a + 1, b);
    }
  }

  lemma {:induction false} PastToolsAfterCut(s: seq<Message>, t: seq<Message>, cut: nat, k: nat)
    requires 1 <= cut <= |s| && t == Without(s, cut) && 1 <= k <= |t|
    ensures PastTools(t, k) == PastTools(s, k + cut - 1) - cut + 1
    decreases |t| - k
  {
    if k < |t| {
      assert t[k] == s[k + cut - 1];
      if t[k].role == Tool {
        PastToolsAfterCut(s, t, cut, k + 1);
      }
    }
  }

  function Max(a: int, b: int): int { if a >= b then a else b }

  /** Where the kept rest begins: past everything old and everything over the count, then past orphan results. */
  function WindowCut(s: seq<Message>, keep: nat, cutoff: Time): (cut: nat)
    requires s != []
    ensures 1 <= cut <= |s|
  {
    PastTools(s, Max(FirstRecent(s, 1, cutoff), |s| - keep))
  }

  lemma CutTwice(s: seq<Message>, t: seq<Message>, a: nat, b: nat)
    requires 1 <= a <= |s| && t == Without(s, a) && 1 <= b <= |t|
    ensures Without(t, b) == Without(s, a + b - 1)
  {
    assert t[b..] == s[a + b - 1..];
  }

  lemma TrimOverCount(s: seq<Message>, t: seq<Message>, cut: nat, keep: nat)
    requires 1 <= cut <= |s| && t == Without(s, cut) && |t| == |s| - cut + 1 && |t| > keep + 1
    ensures Trimmed(t, keep) == Without(s, PastTools(s, |s| - keep))
  {
    hide Without, PastTools;
    var k: nat := |t| - keep;
    var again := PastTools(t, k);
    assert again == PastTools(s, k + cut - 1) - cut + 1 by { PastToolsAfterCut(s, t, cut, k); }
    assert Without(t, again) == Without(s, cut + again - 1) by { CutTwice(s, t, cut, again); }
  }

  lemma TrimAfterCut(s: seq<Message>, cut: nat, keep: nat)
    requires 1 <= cut <= |s| && (cut < |s| ==> s[cut].role != Tool)
    ensures Trimmed(Without(s, cut), keep) == Without(s, PastTools(s, Max(cut, |s| - keep)))
  {
    if |s| - cut > keep {
      TrimOverCount(s, Without(s, cut), cut, keep);
    } else {
      PastToolsStops(s, cut);
    }
  }

  lemma PastToolsStops(s: seq<Message>, cut: nat)
    requires cut <= |s| && (cut < |s| ==> s[cut].role != Tool)
    ensures PastTools(s, cut) == cut
  {
  }

  lemma WindowIsOneCut(s: seq<Message>, keep: nat, cutoff: Time)
    requires Conversation(s)
    ensures Windowed(s, keep, cutoff) == s[..1] + s[WindowCut(s, keep, cutoff)..]
  {
    if |s| > 1 {
      var first := FirstRecent(s, 1, cutoff);
      var cut := PastTools(s, first);
      TrimAfterCut(s, cut, keep);
      PastToolsIsFirst(s, first, Max(first, |s| - keep));
      assert PastTools(s, Max(cut, |s| - keep)) == WindowCut(s, keep, cutoff);
    }
  }

  lemma OldOnesComeFirst(s: seq<Message>, i: nat, cutoff: Time)
    requires s != [] && Chronological(s) && FirstRecent(s, 1, cutoff) <= i < |s|
    ensures Recent(s[i], cutoff)
  {
    assert s[FirstRecent(s, 1, cutoff)].createdAt.value <= s[i].createdAt.value
           || FirstRecent(s, 1, cutoff) == i;
  }

  /** The window keeps the system message and the longest rest that fits. */
  lemma WindowKeepsTheLongestRest(s: seq<Message>, keep: nat, cutoff: Time)
    requires Conversation(s) && Chronological(s)
    ensures var cut := WindowCut(s, keep, cutoff);
            && Windowed(s, keep, cutoff) == s[..1] + s[cut..]
            && Fits(s, cut, keep, cutoff)
            && forall c :: 1 <= c < cut ==> !Fits(s, c, keep, cutoff)
  {
    WindowIsOneCut(s, keep, cutoff);
    var cut, first := WindowCut(s, keep, cutoff), FirstRecent(s, 1, cutoff);
    forall i | cut <= i < |s| ensures Recent(s[i], cutoff) {
      OldOnesComeFirst(s, i, cutoff);
    }
    forall c | 1 <= c < cut ensures !Fits(s, c, keep, cutoff) {
      if c < first {
        SkipsOnlyOld(s, 1, cutoff, c);
      } else if Max(first, |s| - keep) <= c {
        SkipsOnlyTools(s, Max(first, |s| - keep), c);
      }
    }
  }

  lemma {:induction false} RestOfDialogue(s: seq<Message>, c: nat)
    requires Dialogue(s) && c <= |s| && (c < |s| ==> s[c].role != Tool)
    ensures Dialogue(s[c..])
    decreases |s|
  {
    if c > 0 {
      var n := if IsCall(s[0]) then |s[0].toolCalls| + 1 else 1;
      assert forall i :: 0 <= i < n - 1 ==> s[1..n][i].role == Tool && s[1..n][i] == s[i+1];
      assert forall i :: 1 <= i < n ==> s[i] == s[1..n][i-1];
      if c >= n {
        RestOfDialogue(s[n..], c - n);
        assert s[n..][c-n..] == s[c..];
      }
    }
  }

  /** The window never splits an exchange: what is left is again a conversation. */
  lemma WindowKeepsTheGrammar(s: seq<Message>, keep: nat, cutoff: Time)
    requires Conversation(s)
    ensures Conversation(Windowed(s, keep, cutoff))
  {
    var cut := WindowCut(s, keep, cutoff);
    WindowIsOneCut(s, keep, cutoff);
    RestOfDialogue(s[1..], cut - 1);
    assert (s[..1] + s[cut..])[1..] == s[1..][cut-1..];
  }

  lemma NothingOldNothingCut(s: seq<Message>, keep: nat, cutoff: Time)
    requires Conversation(s) && |s| <= keep + 1 && (|s| > 1 ==> Recent(s[1], cutoff))
    ensures Windowed(s, keep, cutoff) == s
  {
    if |s| > 1 {
      if IsCall(s[1..][0]) {}
      assert s[1].role != Tool;
      assert Without(s, 1) == s;
    }
  }

  lemma {:induction false} CutsBeforeLast(s: seq<Message>, cut: nat, cutoff: Time)
    requires cut < |s| && Recent(s[|s|-1], cutoff)
    ensures FirstRecent(s, cut, cutoff) < |s|
    decreases |s| - cut
  {
    if cut < |s| - 1 {
      CutsBeforeLast(s, cut + 1, cutoff);
    }
  }

  lemma {:induction false} ToolsEndBeforeLast(s: seq<Message>, cut: nat)
    requires cut < |s| && s[|s|-1].role != Tool
    ensures PastTools(s, cut) < |s|
    decreases |s| - cut
  {
    if cut < |s| - 1 {
      ToolsEndBeforeLast(s, cut + 1);
    }
  }

  /** The newest message stays, unless it is a tool result. */
  lemma WindowKeepsTheNewest(s: seq<Message>, keep: nat, cutoff: Time)
    requires |s| > 1 && keep > 0 && Recent(s[|s|-1], cutoff) && s[|s|-1].role != Tool
    ensures var w := Windowed(s, keep, cutoff); |w| > 1 && w[|w|-1] == s[|s|-1]
  {
    CutsBeforeLast(s, 1, cutoff);
    ToolsEndBeforeLast(s, FirstRecent(s, 1, cutoff));
    var t := Fresh(s, cutoff);
    if |t| > keep + 1 {
      ToolsEndBeforeLast(t, |t| - keep);
    }
  }

  /** Bounding twice at the same instant changes nothing. */
  lemma WindowIsIdempotent(s: seq<Message>, keep: nat, cutoff: Time)
    requires Conversation(s) && Chronological(s)
    ensures Windowed(Windowed(s, keep, cutoff), keep, cutoff) == Windowed(s, keep, cutoff)
  {
    WindowKeepsTheLongestRest(s, keep, cutoff);
    WindowKeepsTheGrammar(s, keep, cutoff);
    NothingOldNothingCut(Windowed(s, keep, cutoff), keep, cutoff);
  }
}
