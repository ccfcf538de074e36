/**
 * The per-user conversation history: turns, the two window sizes, and the
 * bounded sliding window that each reply step leaves behind.
 */
module Conversation {

  /** Platform-supplied user identifier (an int in the bot). */
  type UserId = int

  datatype Role = User | Assistant

  /** One message of a conversation, tagged with its speaker. */
  datatype Turn = Turn(role: Role, content: string)

  /** Number of turns kept per user once a reply step has finished. */
  const HistoryCap: nat := 20

  /** Number of most recent turns rendered into the prompt. */
  const ContextWindow: nat := 10

  function Min(a: nat, b: nat): nat { if a < b then a else b }

  /**
   * Python's slice `s[-n:]` for a positive `n`: the last `n` elements,
   * or all of `s` when it is shorter.
   */
  function LastN<T>(s: seq<T>, n: nat): (r: seq<T>)
    requires 0 < n
    ensures |r| == Min(n, |s|)
    ensures r == s[|s| - |r|..]
  {
    if |s| <= n then s else s[|s| - n..]
  }

  /** Keeping the last `n` before appending more changes nothing about the last `n` after. */
  lemma LastNOfLastN<T>(s: seq<T>, t: seq<T>, n: nat)
    requires 0 < n
    ensures LastN(LastN(s, n) + t, n) == LastN(s + t, n)
  {
    var a := LastN(s, n);
    assert a == s[|s| - |a|..];
    var l, r := LastN(a + t, n), LastN(s + t, n);
    assert |l| == |r|;
    forall i | 0 <= i < |l| ensures l[i] == r[i] {
      var j := |a| + |t| - |l| + i;
      if j < |a| {
        assert l[i] == a[j] == s[|s| - |a| + j];
      } else {
        assert l[i] == t[j - |a|];
      }
    }
  }

  /** The last `n` after appending `x` are the last `n - 1` before it, then `x`. */
  lemma LastNSnoc<T>(s: seq<T>, x: T, n: nat)
    requires 1 < n
    ensures LastN(s + [x], n) == LastN(s, n - 1) + [x]
  {
    var l := LastN(s + [x], n);
    var r := LastN(s, n - 1) + [x];
    assert |l| == |r|;
    forall i | 0 <= i < |l| ensures l[i] == r[i] {
      if i < |l| - 1 {
        assert l[i] == s[|s| + 1 - |l| + i];
      }
    }
  }

  /**
   * The history left after one reply step: the user turn and then the
   * assistant turn appended to `h`, and the result cut to its last
   * `HistoryCap` turns.
   */
  function NextHistory(h: seq<Turn>, message: string, reply: string): (r: seq<Turn>)
    ensures |r| == Min(HistoryCap, |h| + 2)
    ensures r == (h + [Turn(User, message), Turn(Assistant, reply)])[|h| + 2 - |r|..]
    ensures r[|r| - 1] == Turn(Assistant, reply) && r[|r| - 2] == Turn(User, message)
  {
    var grown := h + [Turn(User, message), Turn(Assistant, reply)];
    var r := LastN(grown, HistoryCap);
    assert r == grown[|grown| - |r|..];
    r
  }

  /** The two appends of a reply step, one after the other, then the cut, give `NextHistory`. */
  lemma AppendTwiceThenCut(h: seq<Turn>, message: string, reply: string)
    ensures LastN(h + [Turn(User, message)] + [Turn(Assistant, reply)], HistoryCap)
            == NextHistory(h, message, reply)
  {
    assert h + [Turn(User, message)] + [Turn(Assistant, reply)]
        == h + [Turn(User, message), Turn(Assistant, reply)];
  }

  /** One completed message/reply pair. */
  datatype Exchange = Exchange(message: string, reply: string)

  /** Every turn of a series of exchanges, in arrival order. */
  function Transcript(ex: seq<Exchange>): (r: seq<Turn>)
    ensures |r| == 2 * |ex|
    ensures forall k :: 0 <= k < |ex| ==>
              r[2 * k] == Turn(User, ex[k].message) && r[2 * k + 1] == Turn(Assistant, ex[k].reply)
  {
    if ex == [] then []
    else
      var rest := Transcript(ex[1..]);
      assert forall k :: 1 <= k < |ex| ==> ex[k] == ex[1..][k - 1];
      [Turn(User, ex[0].message), Turn(Assistant, ex[0].reply)] + rest
  }

  /** The history after the reply steps `ex`, one after the other, starting from `h`. */
  function Replay(h: seq<Turn>, ex: seq<Exchange>): (r: seq<Turn>)
    ensures ex != [] ==> |r| <= HistoryCap
    ensures ex == [] ==> r == h
    decreases |ex|
  {
    if ex == [] then h
    else Replay(NextHistory(h, ex[0].message, ex[0].reply), ex[1..])
  }

  /** Two reply steps, one after the other. */
  lemma ReplayTwo(h: seq<Turn>, e1: Exchange, e2: Exchange)
    ensures Replay(h, [e1, e2])
            == NextHistory(NextHistory(h, e1.message, e1.reply), e2.message, e2.reply)
  {
    assert [e1, e2][1..] == [e2];
    assert [e2][1..] == [];
  }

  /** `NextHistory` is the window over the history with both turns appended. */
  lemma NextHistoryIsWindow(h: seq<Turn>, message: string, reply: string)
    ensures NextHistory(h, message, reply)
            == LastN(h + [Turn(User, message), Turn(Assistant, reply)], HistoryCap)
  {
  }

  /** The transcript of a non-empty series starts with the first exchange's two turns. */
  lemma TranscriptAppend(h: seq<Turn>, ex: seq<Exchange>)
    requires ex != []
    ensures h + Transcript(ex)
            == (h + [Turn(User, ex[0].message), Turn(Assistant, ex[0].reply)]) + Transcript(ex[1..])
  {
  }

  /**
   * FIFO eviction: from any history within the cap, a series of reply
   * steps leaves exactly the last `HistoryCap` turns of everything seen.
   */
  lemma {:induction false} ReplayIsWindow(h: seq<Turn>, ex: seq<Exchange>)
    requires |h| <= HistoryCap
    ensures Replay(h, ex) == LastN(h + Transcript(ex), HistoryCap)
    decreases |ex|
  {
    if ex == [] {
      assert h + Transcript(ex) == h;
    } else {
      var e := ex[0];
      var pair := [Turn(User, e.message), Turn(Assistant, e.reply)];
      var next := NextHistory(h, e.message, e.reply);
      ReplayIsWindow(next, ex[1..]);
      NextHistoryIsWindow(h, e.message, e.reply);
      LastNOfLastN(h + pair, Transcript(ex[1..]), HistoryCap);
      TranscriptAppend(h, ex);
    }
  }

  /** A new user after `k` exchanges holds `Min(2k, HistoryCap)` turns, the most recent ones. */
  lemma FreshUserWindow(ex: seq<Exchange>)
    ensures Replay([], ex) == LastN(Transcript(ex), HistoryCap)
    ensures |Replay([], ex)| == Min(HistoryCap, 2 * |ex|)
  {
    ReplayIsWindow([], ex);
    assert [] + Transcript(ex) == Transcript(ex);
  }
}
