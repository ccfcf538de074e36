/**
 * The bot's process-wide conversation store and the reply step that
 * reads and updates it.
 */
module Bot {
  import opened Wrappers
  import opened Conversation
  import opened Prompting

  /** The history stored for `uid` in `m`, or none. */
  function Lookup(m: map<UserId, seq<Turn>>, uid: UserId): seq<Turn> {
    if uid in m then m[uid] else []
  }

  /** A second store to the same user replaces the first. */
  lemma UpdateTwice(m: map<UserId, seq<Turn>>, uid: UserId, first: seq<Turn>, second: seq<Turn>)
    ensures m[uid := first][uid := second] == m[uid := second]
  {
  }

  /** Storing one user's history leaves every other user's alone. */
  lemma UpdateFrame(m: map<UserId, seq<Turn>>, uid: UserId, h: seq<Turn>)
    ensures Lookup(m[uid := h], uid) == h
    ensures forall u :: u != uid ==> Lookup(m[uid := h], u) == Lookup(m, u)
  {
  }

  /** Every history in `m` is within the cap. */
  ghost predicate WithinCap(m: map<UserId, seq<Turn>>) {
    forall u :: u in m ==> |m[u]| <= HistoryCap
  }

  /** In a store within the cap, each user's history is within the cap. */
  lemma WithinCapAt(m: map<UserId, seq<Turn>>, uid: UserId)
    requires WithinCap(m)
    ensures |Lookup(m, uid)| <= HistoryCap
  {
  }

  /** Storing a history within the cap keeps every history within the cap. */
  lemma UpdateKeepsCap(m: map<UserId, seq<Turn>>, uid: UserId, h: seq<Turn>)
    requires WithinCap(m)
    requires |h| <= HistoryCap
    ensures WithinCap(m[uid := h])
  {
  }

  /** The `conversations` dictionary: user id to that user's list of turns. */
  class ConversationStore {
    var conversations: map<UserId, seq<Turn>>

    /**
     * Between calls every stored history is within the cap. Inside a reply
     * step a history briefly holds up to two turns more; the cap is
     * restored before the step returns.
     */
    ghost predicate Valid()
      reads this
    {
      WithinCap(conversations)
    }

    /** A user's history, where a user without an entry has none. */
    function HistoryOf(uid: UserId): (h: seq<Turn>)
      reads this
      ensures uid in conversations ==> h == conversations[uid]
      ensures uid !in conversations ==> h == []
    {
      Lookup(conversations, uid)
    }

    /** The store as the process starts: no user has an entry. */
    constructor ()
      ensures conversations == map[]
      ensures Valid()
    {
      conversations := map[];
    }

    /** The store update of the /start command: the user's history becomes empty. */
    method Start(uid: UserId)
      modifies this
      ensures conversations == old(conversations)[uid := []]
      ensures HistoryOf(uid) == []
      ensures forall u :: u != uid ==> HistoryOf(u) == old(HistoryOf(u))
      ensures old(Valid()) ==> Valid()
    {
      conversations := conversations[uid := []];
    }

    /** The store update of the /reset command: the user's history becomes empty. */
    method Reset(uid: UserId)
      modifies this
      ensures conversations == old(conversations)[uid := []]
      ensures HistoryOf(uid) == []
      ensures forall u :: u != uid ==> HistoryOf(u) == old(HistoryOf(u))
      ensures old(Valid()) ==> Valid()
    {
      conversations := conversations[uid := []];
    }

    /**
     * One reply step. `callApi` stands for the remote text-generation call:
     * given the prompt, it yields the stripped response text, or `None`
     * for a failed call. The prompt it receives is built from the history
     * with the new user turn already appended.
     */
    method GetAiResponse(uid: UserId, message: string, callApi: string -> Option<string>)
      returns (reply: string)
      modifies this
      ensures reply == ChooseReply(callApi(Prompt(Context(Lookup(old(conversations), uid) + [Turn(User, message)]))))
      ensures reply != ""
      ensures conversations == old(conversations)[uid := NextHistory(Lookup(old(conversations), uid), message, reply)]
      ensures forall u :: u != uid ==> Lookup(conversations, u) == Lookup(old(conversations), u)
      ensures old(Valid()) ==> Valid()
    {
      ghost var before := Lookup(conversations, uid);
      if uid !in conversations {
        conversations := conversations[uid := []];
      }
      var withUser := conversations[uid] + [Turn(User, message)];
      UpdateTwice(old(conversations), uid, before, withUser);
      conversations := conversations[uid := withUser];

      var fullPrompt := Prompt(Context(conversations[uid]));

      var response := callApi(fullPrompt);
      reply := ChooseReply(response);

      var grown := conversations[uid] + [Turn(Assistant, reply)];
      UpdateTwice(old(conversations), uid, withUser, grown);
      conversations := conversations[uid := grown];

      ghost var final := NextHistory(before, message, reply);
      AppendTwiceThenCut(before, message, reply);
      if |grown| > HistoryCap {
        var kept := grown[|grown| - HistoryCap..];
        UpdateTwice(old(conversations), uid, grown, kept);
        conversations := conversations[uid := kept];
      }
      UpdateFrame(old(conversations), uid, final);
      if old(Valid()) {
        // Mid-call the history held one, then two, turns beyond the old one.
        WithinCapAt(old(conversations), uid);
        assert |withUser| <= HistoryCap + 1 && |grown| <= HistoryCap + 2;
        UpdateKeepsCap(old(conversations), uid, final);
      }
    }
  }

  /** A new user says "Oi" and the service answers "Ola!". */
  method ScenarioFirstMessage() {
    var store := new ConversationStore();
    var reply := store.GetAiResponse(7, "Oi", _ => Some("Ola!"));
    assert reply == "Ola!";
    assert store.HistoryOf(7) == [Turn(User, "Oi"), Turn(Assistant, "Ola!")];
  }

  /** A service that echoes its input shows the exact prompt of a first message. */
  method ScenarioPromptOfFirstMessage(message: string) {
    var store := new ConversationStore();
    var reply := store.GetAiResponse(7, message, p => Some(p));
    ContextAfterReset(message);
    assert [] + [Turn(User, message)] == [Turn(User, message)];
    assert reply == Prompt("User: " + message);
  }

  /** A failed call is answered with the apology, and the apology is stored. */
  method ScenarioServiceDown() {
    var store := new ConversationStore();
    var reply := store.GetAiResponse(7, "Oi", _ => None);
    assert reply == Apology;
    assert store.HistoryOf(7)[1] == Turn(Assistant, Apology);
  }

  /** After a reset, the next prompt carries only the new message. */
  method ScenarioReset(earlier: string, message: string) {
    var store := new ConversationStore();
    var first := store.GetAiResponse(7, earlier, p => Some(p));
    store.Reset(7);
    var reply := store.GetAiResponse(7, message, p => Some(p));
    ContextAfterReset(message);
    assert [] + [Turn(User, message)] == [Turn(User, message)];
    assert reply == Prompt("User: " + message);
  }

  /**
   * Two successive reply steps on the store leave the user with the fold
   * of `NextHistory` over both exchanges, and so, from a history within
   * the cap, with the last `HistoryCap` turns of the old history and of
   * both exchanges, oldest evicted first.
   */
  method TwoReplies(store: ConversationStore, uid: UserId, m1: string, m2: string,
                    api1: string -> Option<string>, api2: string -> Option<string>)
    returns (r1: string, r2: string)
    modifies store
    ensures store.HistoryOf(uid) == Replay(old(store.HistoryOf(uid)), [Exchange(m1, r1), Exchange(m2, r2)])
    ensures old(store.Valid()) ==>
              store.HistoryOf(uid)
              == LastN(old(store.HistoryOf(uid)) + Transcript([Exchange(m1, r1), Exchange(m2, r2)]), HistoryCap)
  {
    ghost var h0 := Lookup(store.conversations, uid);
    if store.Valid() {
      WithinCapAt(store.conversations, uid);
    }
    r1 := store.GetAiResponse(uid, m1, api1);
    UpdateFrame(old(store.conversations), uid, NextHistory(h0, m1, r1));
    ghost var mid := store.conversations;
    ghost var h1 := Lookup(mid, uid);
    r2 := store.GetAiResponse(uid, m2, api2);
    UpdateFrame(mid, uid, NextHistory(h1, m2, r2));
    ReplayTwo(h0, Exchange(m1, r1), Exchange(m2, r2));
    if old(store.Valid()) {
      ReplayIsWindow(h0, [Exchange(m1, r1), Exchange(m2, r2)]);
    }
  }
}
