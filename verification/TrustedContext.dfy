/** The part of a conversation a background run may see. */
module TrustedContext {
  import opened Wrappers
  import opened Messages
  import W = Window

  /** The end of the block at `i`: one message, or an assistant call with the results right behind it. */
  function BlockEnd(s: seq<Message>, i: nat): (end: nat)
    requires i < |s|
    ensures i < end <= |s|
  {
    if IsCall(s[i]) then W.PastTools(s, i + 1) else i + 1
  }

  function TrustedFrom(s: seq<Message>, i: nat): seq<Message>
    requires i <= |s|
    decreases |s| - i
  {
    if i == |s| then []
    else
      var end := BlockEnd(s, i);
      (if Tainted(s[i..end]) then [] else s[i..end]) + TrustedFrom(s, end)
  }

  lemma BlockIsKeptOrDropped(s: seq<Message>, i: nat, kept: seq<Message>)
    requires i < |s|
    ensures var end := BlockEnd(s, i);
            kept + TrustedFrom(s, i) == (if Tainted(s[i..end]) then kept else kept + s[i..end]) + TrustedFrom(s, end)
  {
    var end := BlockEnd(s, i);
    var rest := TrustedFrom(s, end);
    if Tainted(s[i..end]) {
      assert TrustedFrom(s, i) == [] + rest == rest;
    } else {
      assert TrustedFrom(s, i) == s[i..end] + rest;
      assert kept + (s[i..end] + rest) == kept + s[i..end] + rest;
    }
  }

  /** The loop over the stored conversation. */
  method Build(messages: seq<Message>) returns (kept: seq<Message>)
    ensures kept == TrustedFrom(messages, 0)
  {
    hide TrustedFrom;
    kept := [];
    var i := 0;
    while i < |messages|
      invariant 0 <= i <= |messages|
      invariant kept + TrustedFrom(messages, i) == TrustedFrom(messages, 0)
    {
      var message := messages[i];
      BlockIsKeptOrDropped(messages, i, kept);
      if IsCall(message) {
        var end := W.PastOrphanTools(messages, i + 1);
        var exchange := messages[i..end];
        if !Tainted(exchange) {
          kept := kept + exchange;
        }
        i := end;
        continue;
      }
      assert messages[i..i+1] == [message];
      assert Tainted([message]) == [message][0].untrusted;
      if !message.untrusted {
        kept := kept + [message];
      }
      i := i + 1;
    }
    assert TrustedFrom(messages, |messages|) == [] by { NothingLeft(messages); }
  }

  lemma NothingLeft(s: seq<Message>)
    ensures TrustedFrom(s, |s|) == []
  {
  }

  // ------------------------------------------------------------------ what the filter keeps

  /** A choice of messages. */
  function Select(s: seq<Message>, keep: seq<bool>): seq<Message>
    requires |keep| == |s|
  {
    if s == [] then [] else (if keep[0] then [s[0]] else []) + Select(s[1..], keep[1..])
  }

  /** Only trusted messages, and each exchange as a whole or not at all. */
  predicate Admissible(s: seq<Message>, keep: seq<bool>) {
    && |keep| == |s|
    && (forall i :: 0 <= i < |s| && keep[i] ==> !s[i].untrusted)
    && (forall i :: 0 < i < |s| && s[i].role == Tool ==> keep[i] == keep[i-1])
  }

  function Repeat(b: bool, n: nat): seq<bool> { seq(n, _ => b) }

  function MaskFrom(s: seq<Message>, i: nat): (mask: seq<bool>)
    requires i <= |s|
    ensures |mask| == |s| - i
    decreases |s| - i
  {
    if i == |s| then []
    else
      var end := BlockEnd(s, i);
      Repeat(!Tainted(s[i..end]), end - i) + MaskFrom(s, end)
  }

  lemma {:induction false} SelectJoins(a: seq<Message>, b: seq<Message>, keepA: seq<bool>, keepB: seq<bool>)
    requires |a| == |keepA| && |b| == |keepB|
    ensures Select(a + b, keepA + keepB) == Select(a, keepA) + Select(b, keepB)
    decreases |a|
  {
    if a == [] {
      assert a + b == b && keepA + keepB == keepB;
    } else {
      var s, keep := a + b, keepA + keepB;
      assert s[0] == a[0] && keep[0] == keepA[0];
      assert s[1..] == a[1..] + b && keep[1..] == keepA[1..] + keepB;
      SelectJoins(a[1..], b, keepA[1..], keepB);
    }
  }

  lemma {:induction false} SelectAll(s: seq<Message>, all: bool)
    ensures Select(s, Repeat(all, |s|)) == if all then s else []
    decreases |s|
  {
    if s != [] {
      assert Repeat(all, |s|)[1..] == Repeat(all, |s[1..]|);
      SelectAll(s[1..], all);
    }
  }

  lemma {:induction false} MaskSelectsTrusted(s: seq<Message>, i: nat)
    requires i <= |s|
    ensures Select(s[i..], MaskFrom(s, i)) == TrustedFrom(s, i)
    decreases |s| - i
  {
    if i < |s| {
      var end := BlockEnd(s, i);
      var trusted := !Tainted(s[i..end]);
      assert s[i..] == s[i..end] + s[end..];
      SelectJoins(s[i..end], s[end..], Repeat(trusted, end - i), MaskFrom(s, end));
      SelectAll(s[i..end], trusted);
      MaskSelectsTrusted(s, end);
    }
  }

  /** Every tool result stands right behind its call or another result. */
  predicate NoOrphans(s: seq<Message>) {
    forall i :: 0 <= i < |s| && s[i].role == Tool ==> i > 0 && (s[i-1].role == Tool || IsCall(s[i-1]))
  }

  lemma {:induction false} DialogueHasNoOrphans(s: seq<Message>)
    requires Dialogue(s)
    ensures NoOrphans(s)
    decreases |s|
  {
    if s != [] {
      var n := if IsCall(s[0]) then |s[0].toolCalls| + 1 else 1;
      assert forall i :: 0 <= i < n - 1 ==> s[1..n][i].role == Tool && s[1..n][i] == s[i+1];
      assert forall i :: 1 <= i < n ==> s[i] == s[1..n][i-1];
      DialogueHasNoOrphans(s[n..]);
      forall i | 0 <= i < |s| && s[i].role == Tool ensures i > 0 && (s[i-1].role == Tool || IsCall(s[i-1])) {
        if i >= n {
          assert s[n..][i-n] == s[i];
          assert i > n && s[n..][i-n-1] == s[i-1];
        }
      }
    }
  }

  lemma ConversationHasNoOrphans(s: seq<Message>)
    requires Conversation(s)
    ensures NoOrphans(s)
  {
    DialogueHasNoOrphans(s[1..]);
    forall i | 0 <= i < |s| && s[i].role == Tool ensures i > 0 && (s[i-1].role == Tool || IsCall(s[i-1])) {
      assert s[1..][i-1] == s[i];
      assert i > 1 && s[1..][i-2] == s[i-1];
    }
  }

  /** A block ends where the next one begins, never inside an exchange. */
  lemma BlockEndsClean(s: seq<Message>, i: nat)
    requires NoOrphans(s) && i < |s| && s[i].role != Tool
    ensures BlockEnd(s, i) < |s| ==> s[BlockEnd(s, i)].role != Tool
    ensures forall k :: i < k < BlockEnd(s, i) ==> s[k].role == Tool
  {
    forall k | i < k < BlockEnd(s, i) ensures s[k].role == Tool {
      W.SkipsOnlyTools(s, i + 1, k);
    }
  }

  lemma {:induction false} MaskIsBest(s: seq<Message>, i: nat, keep: seq<bool>)
    requires NoOrphans(s) && i <= |s| && (i < |s| ==> s[i].role != Tool)
    requires Admissible(s, keep)
    ensures forall k :: i <= k < |s| && keep[k] ==> MaskFrom(s, i)[k-i]
    decreases |s| - i
  {
    if i < |s| {
      var end := BlockEnd(s, i);
      BlockEndsClean(s, i);
      MaskIsBest(s, end, keep);
      SameThroughout(s, keep, i, end);
      forall k | i <= k < |s| && keep[k] ensures MaskFrom(s, i)[k-i] {
        if k < end {
          assert !Tainted(s[i..end]);
        } else {
          assert MaskFrom(s, i)[k-i] == MaskFrom(s, end)[k-end];
        }
      }
    }
  }

  lemma {:induction false} SameThroughout(s: seq<Message>, keep: seq<bool>, i: nat, end: nat)
    requires Admissible(s, keep) && i < end <= |s|
    requires forall k :: i < k < end ==> s[k].role == Tool
    ensures forall k :: i <= k < end ==> keep[k] == keep[i]
    decreases end - i
  {
    if i + 1 < end {
      SameThroughout(s, keep, i, end - 1);
      var last := end - 1;
      assert s[last].role == Tool && keep[last] == keep[last-1];
    }
  }

  lemma {:induction false} MaskIsAdmissible(s: seq<Message>, i: nat)
    requires NoOrphans(s) && i <= |s| && (i < |s| ==> s[i].role != Tool)
    ensures forall k :: i <= k < |s| && MaskFrom(s, i)[k-i] ==> !s[k].untrusted
    ensures forall k :: i < k < |s| && s[k].role == Tool ==> MaskFrom(s, i)[k-i] == MaskFrom(s, i)[k-i-1]
    decreases |s| - i
  {
    if i < |s| {
      var end := BlockEnd(s, i);
      BlockEndsClean(s, i);
      MaskIsAdmissible(s, end);
      forall k | i <= k < |s| && MaskFrom(s, i)[k-i] ensures !s[k].untrusted {
        if k < end {
          assert s[i..end][k-i] == s[k];
        } else {
          assert MaskFrom(s, i)[k-i] == MaskFrom(s, end)[k-end];
        }
      }
      forall k | i < k < |s| && s[k].role == Tool ensures MaskFrom(s, i)[k-i] == MaskFrom(s, i)[k-i-1] {
        if k > end {
          assert MaskFrom(s, i)[k-i] == MaskFrom(s, end)[k-end];
          assert MaskFrom(s, i)[k-i-1] == MaskFrom(s, end)[k-end-1];
        }
      }
    }
  }

  /**
   The background run sees a choice of the stored messages that is trusted throughout and keeps each exchange
   whole or not at all, and no such choice keeps any message this one drops.
   */
  lemma TrustedContextIsTheLargestTrustedPart(s: seq<Message>)
    requires Conversation(s)
    ensures var mask := MaskFrom(s, 0);
            && Admissible(s, mask)
            && TrustedFrom(s, 0) == Select(s, mask)
            && forall keep: seq<bool>, k: nat :: k < |s| && Admissible(s, keep) && keep[k] ==> mask[k]
  {
    ConversationHasNoOrphans(s);
    MaskSelectsTrusted(s, 0);
    assert s[0..] == s;
    MaskIsAdmissible(s, 0);
    forall keep: seq<bool>, k: nat | k < |s| && Admissible(s, keep) && keep[k] ensures MaskFrom(s, 0)[k] {
      MaskIsBest(s, 0, keep);
    }
  }

  lemma {:induction false} NothingUntrustedIsLeft(s: seq<Message>, i: nat)
    requires i <= |s|
    ensures !Tainted(TrustedFrom(s, i))
    decreases |s| - i
  {
    if i < |s| {
      NothingUntrustedIsLeft(s, BlockEnd(s, i));
    }
  }

  lemma {:induction false} DialogueJoins(a: seq<Message>, b: seq<Message>)
    requires Dialogue(a) && Dialogue(b)
    ensures Dialogue(a + b)
    decreases |a|
  {
    if a == [] {
      assert a + b == b;
    } else {
      var n := if IsCall(a[0]) then |a[0].toolCalls| + 1 else 1;
      assert (a + b)[n..] == a[n..] + b;
      assert (a + b)[1..n] == a[1..n];
      DialogueJoins(a[n..], b);
    }
  }

  lemma {:induction false} FilterKeepsDialogue(s: seq<Message>, i: nat)
    requires i <= |s| && Dialogue(s[i..])
    ensures Dialogue(TrustedFrom(s, i))
    decreases |s| - i
  {
    if i < |s| {
      var end := BlockEnd(s, i);
      BlockIsDialogue(s, i);
      FilterKeepsDialogue(s, end);
      DialogueJoins(if Tainted(s[i..end]) then [] else s[i..end], TrustedFrom(s, end));
    }
  }

  lemma BlockIsDialogue(s: seq<Message>, i: nat)
    requires i < |s| && Dialogue(s[i..])
    ensures Dialogue(s[i..BlockEnd(s, i)]) && Dialogue(s[BlockEnd(s, i)..])
  {
    var t := s[i..];
    if IsCall(t[0]) {
      var n := |t[0].toolCalls| + 1;
      CallEnds(s, i, n);
      assert t[n..] == s[i+n..];
      assert t[1..n] == s[i+1..i+n] && s[i..i+n][1..n] == s[i+1..i+n];
      ExchangeIsDialogue(s[i..i+n]);
    } else {
      assert t[1..] == s[i+1..] && s[i..i+1][1..] == [];
    }
  }

  lemma ExchangeIsDialogue(s: seq<Message>)
    requires s != [] && IsCall(s[0]) && |s| == |s[0].toolCalls| + 1 && Answers(s[1..|s|], s[0].toolCalls)
    ensures Dialogue(s)
  {
    assert s[|s|..] == [];
  }

  /** The results of a call end where its block does. */
  lemma CallEnds(s: seq<Message>, i: nat, n: nat)
    requires i < |s| && Dialogue(s[i..]) && IsCall(s[i]) && n == |s[i].toolCalls| + 1
    ensures i + n <= |s| && BlockEnd(s, i) == i + n
  {
    var t := s[i..];
    forall k | i + 1 <= k < i + n ensures s[k].role == Tool {
      assert t[1..n][k - i - 1] == s[k];
    }
    if i + n < |s| {
      assert t[n..][0] == s[i+n];
      StartsWithNoTool(t[n..]);
    }
    ToolsRun(s, i + 1, i + n);
  }

  lemma StartsWithNoTool(s: seq<Message>)
    requires Dialogue(s) && s != []
    ensures s[0].role != Tool
  {
  }

  lemma {:induction false} ToolsRun(s: seq<Message>, a: nat, b: nat)
    requires a <= b <= |s| && (forall k :: a <= k < b ==> s[k].role == Tool) && (b < |s| ==> s[b].role != Tool)
    ensures W.PastTools(s, a) == b
    decreases b - a
  {
    if a < b {
      ToolsRun(s, a + 1, b);
    }
  }

  /** What a background run is given is itself a conversation, with nothing untrusted in it. */
  lemma TrustedContextIsAConversation(s: seq<Message>)
    requires Conversation(s) && !s[0].untrusted
    ensures Conversation(TrustedFrom(s, 0)) && !Tainted(TrustedFrom(s, 0))
  {
    FilterKeepsDialogue(s, 1);
    NothingUntrustedIsLeft(s, 0);
    assert s[0..1] == [s[0]];
    assert TrustedFrom(s, 0) == [s[0]] + TrustedFrom(s, 1);
  }
}
