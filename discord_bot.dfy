/**
 * The Discord front end (discord_bot.py): one chat session per user, created
 * on a user's first `!ask` and dropped by `!newchat`, and long answers sent in
 * slices that fit a Discord message.
 *
 * The channel is the sequence of messages the bot has sent; the model call
 * behind `!ask` is a function handed in by the caller.
 */
module DiscordBot {
  import opened Text
  import Rag

  /** Longest slice of an answer sent as one message. */
  const ChunkSize: nat := 1950

  /** What the model call behind `!ask` leaves: the answer and the session's history after it, or an exception. */
  datatype RagResult = Answer(text: string, history: seq<Rag.Message>) | Raised

  // ---------------------------------------------------------------------------
  // Replies
  // ---------------------------------------------------------------------------

  function NotReadyReply(): string {
    "\U{26A0}\U{FE0F} The AI model isn't ready." + " Please tell the admin" + " to check the bot console."
  }
  function ThinkingReply(): string { "\U{1F50D} Thinking..." }
  function ErrorReply(): string {
    "\U{26A0}\U{FE0F} An unexpected error occurred." + " Please try again" + " or contact an admin."
  }
  function NoSessionReply(): string { "You don't have" + " an active conversation" + " to reset." }
  function ResetReply(botName: string): string {
    "\U{2728} Your conversation history with " + botName + " has been reset!"
  }
  function AnswerHeader(botName: string): string { "\U{1F9E0} **" + botName + " says:**\n" }
  function LongAnswerNotice(): string { "The answer is long," + " sending in parts:" }

  // ---------------------------------------------------------------------------
  // Splitting a long answer
  // ---------------------------------------------------------------------------

  /** `text[i:i + 1950]` for `i` in `range(0, len(text), 1950)`. */
  function Chunks(text: string): seq<string>
    decreases |text|
  {
    if text == [] then []
    else if |text| <= ChunkSize then [text]
    else [text[..ChunkSize]] + Chunks(text[ChunkSize..])
  }

  /** The slices put back together are the answer. */
  lemma {:induction false} ChunksConcat(text: string)
    ensures Concat(Chunks(text)) == text
    decreases |text|
  {
    if |text| > ChunkSize {
      ChunksConcat(text[ChunkSize..]);
      ConcatMapAppend(Piece, [text[..ChunkSize]], Chunks(text[ChunkSize..]));
      assert [text[..ChunkSize]][..0] == [];
      assert text == text[..ChunkSize] + text[ChunkSize..];
    } else if text != [] {
      assert [text][..0] == [];
      assert Concat([text]) == Concat([]) + text;
    }
  }

  /** Every slice is non-empty and fits one message; all but the last are full; there are ⌈len/1950⌉ of them. */
  lemma {:induction false} ChunksSizes(text: string)
    ensures |Chunks(text)| == (|text| + ChunkSize - 1) / ChunkSize
    ensures forall k | 0 <= k < |Chunks(text)| :: 0 < |Chunks(text)[k]| <= ChunkSize
    ensures forall k | 0 <= k < |Chunks(text)| - 1 :: |Chunks(text)[k]| == ChunkSize
    decreases |text|
  {
    if |text| > ChunkSize {
      ChunksSizes(text[ChunkSize..]);
      var rest := Chunks(text[ChunkSize..]);
      assert Chunks(text) == [text[..ChunkSize]] + rest;
      forall k | 1 <= k < |Chunks(text)|
        ensures Chunks(text)[k] == rest[k - 1]
      {
      }
    }
  }

  /** The slices are the answer's consecutive pieces: slice `k` starts at `k * 1950`. */
  lemma {:induction false} ChunksAreSlices(text: string)
    ensures forall k | 0 <= k < |Chunks(text)| ::
      k * ChunkSize < |text| && Chunks(text)[k] == text[k * ChunkSize..Min(k * ChunkSize + ChunkSize, |text|)]
    decreases |text|
  {
    if |text| > ChunkSize {
      ChunksAreSlices(text[ChunkSize..]);
      var rest := text[ChunkSize..];
      forall k | 1 <= k < |Chunks(text)|
        ensures k * ChunkSize < |text| && Chunks(text)[k] == text[k * ChunkSize..Min(k * ChunkSize + ChunkSize, |text|)]
      {
        assert Chunks(text)[k] == Chunks(rest)[k - 1];
        var a := (k - 1) * ChunkSize;
        assert a + ChunkSize == k * ChunkSize;
        var b := Min(a + ChunkSize, |rest|);
        assert ChunkSize + b == Min(k * ChunkSize + ChunkSize, |text|);
        assert rest[a..b] == text[ChunkSize + a..ChunkSize + b];
      }
    }
  }

  /** The messages `!ask` sends after "Thinking...", for the outcome of the model call. */
  function Replies(botName: string, result: RagResult): seq<string> {
    match result
    case Raised => [ErrorReply()]
    case Answer(text, _) => AnswerReplies(botName, text)
  }

  /** The messages carrying an answer: one message, or a notice and then the slices. */
  function AnswerReplies(botName: string, text: string): seq<string> {
    if |text| > ChunkSize then [AnswerHeader(botName) + LongAnswerNotice()] + Chunks(text)
    else [AnswerHeader(botName) + text]
  }

  /** A long answer reaches the channel whole, in order, with no message over the limit. */
  lemma LongAnswerArrivesWhole(botName: string, text: string, history: seq<Rag.Message>)
    requires |text| > ChunkSize
    ensures var sent := Replies(botName, Answer(text, history));
      Concat(sent[1..]) == text && forall k | 1 <= k < |sent| :: |sent[k]| <= ChunkSize
  {
    var sent := Replies(botName, Answer(text, history));
    assert sent[1..] == Chunks(text);
    ChunksConcat(text);
    ChunksSizes(text);
  }

  // ---------------------------------------------------------------------------
  // Sessions
  // ---------------------------------------------------------------------------

  /** A model chat session; the model call reads and extends its history. */
  class ChatSession {
    var history: seq<Rag.Message>

    /** `start_chat(history=[])`. */
    constructor ()
      ensures history == []
    {
      history := [];
    }
  }

  /** The bot's global state: the per-user sessions, whether the model came up, and what it has sent. */
  class Bot {
    const name: string
    var modelReady: bool
    var sessions: map<int, ChatSession>
    var sent: seq<string>

    /** No two users share a session object. */
    predicate Valid()
      reads this
    {
      forall u, v | u in sessions && v in sessions && u != v :: sessions[u] != sessions[v]
    }

    constructor (name: string, modelReady: bool)
      ensures this.name == name && this.modelReady == modelReady
      ensures sessions == map[] && sent == []
      ensures Valid()
    {
      this.name := name;
      this.modelReady := modelReady;
      sessions := map[];
      sent := [];
    }

    /** The send loop of a long answer. */
    method SendInParts(text: string)
      modifies this
      ensures sent == old(sent) + Chunks(text)
      ensures sessions == old(sessions) && modelReady == old(modelReady)
    {
      var i := 0;
      while i < |text|
        invariant 0 <= i && (i < |text| ==> i % ChunkSize == 0)
        invariant i < |text| ==> sent + Chunks(text[i..]) == old(sent) + Chunks(text)
        invariant i >= |text| ==> sent == old(sent) + Chunks(text)
        invariant sessions == old(sessions) && modelReady == old(modelReady)
        decreases |text| - i
      {
        var piece := text[i..Min(i + ChunkSize, |text|)];
        assert text[i..] != [];
        if |text[i..]| > ChunkSize {
          assert text[i..][ChunkSize..] == text[i + ChunkSize..];
          assert piece == text[i..][..ChunkSize];
        } else {
          assert piece == text[i..];
          assert Chunks(text[i..]) == [piece];
        }
        sent := sent + [piece];
        i := i + ChunkSize;
      }
    }

    /** The part of `!ask` after the session is chosen: the model call on it and the replies. */
    method Respond(session: ChatSession, query: string, rag: (string, seq<Rag.Message>) -> RagResult)
      modifies this, session
      ensures sessions == old(sessions) && modelReady == old(modelReady)
      ensures var result := rag(query, old(session.history));
        && sent == old(sent) + [ThinkingReply()] + Replies(name, result)
        && session.history == (if result.Answer? then result.history else old(session.history))
    {
      sent := sent + [ThinkingReply()];
      var result := rag(query, session.history);
      match result {
        case Raised =>
          sent := sent + [ErrorReply()];
        case Answer(text, history) =>
          session.history := history;
          SendAnswer(text);
      }
    }

    /** Sends an answer: whole when it fits, otherwise a notice and then the slices. */
    method SendAnswer(text: string)
      modifies this
      ensures sent == old(sent) + AnswerReplies(name, text)
      ensures sessions == old(sessions) && modelReady == old(modelReady)
    {
      ghost var replies := AnswerReplies(name, text);
      if |text| > ChunkSize {
        var notice := AnswerHeader(name) + LongAnswerNotice();
        assert replies == [notice] + Chunks(text);
        sent := sent + [notice];
        ghost var afterNotice := sent;
        SendInParts(text);
        assert sent == afterNotice + Chunks(text);
      } else {
        var whole := AnswerHeader(name) + text;
        assert replies == [whole];
        sent := sent + [whole];
      }
    }

    /**
     * `!ask`: without a model the bot only warns. Otherwise the user's session
     * is fetched or, for a user without one, started empty; the model call runs
     * on it and its answer is sent, in parts when long. Other users' sessions
     * are left alone.
     */
    method Ask(user: int, query: string, rag: (string, seq<Rag.Message>) -> RagResult)
      requires Valid()
      modifies this, sessions.Values
      ensures Valid() && modelReady == old(modelReady)
      ensures !old(modelReady) ==> sessions == old(sessions) && sent == old(sent) + [NotReadyReply()]
      ensures !old(modelReady) ==> forall u | u in sessions :: sessions[u].history == old(sessions[u].history)
      ensures old(modelReady) ==> user in sessions && sessions.Keys == old(sessions.Keys) + {user}
      ensures old(modelReady) && user in old(sessions) ==> sessions[user] == old(sessions[user])
      ensures old(modelReady) && user !in old(sessions) ==> fresh(sessions[user])
      ensures forall u | u in old(sessions) && u != user ::
        sessions[u] == old(sessions[u]) && sessions[u].history == old(sessions[u].history)
      ensures old(modelReady) ==>
        var history := if user in old(sessions) then old(sessions[user].history) else [];
        var result := rag(query, history);
        && sent == old(sent) + [ThinkingReply()] + Replies(name, result)
        && sessions[user].history == (if result.Answer? then result.history else history)
    {
      if !modelReady {
        sent := sent + [NotReadyReply()];
        return;
      }
      if user !in sessions {
        var started := new ChatSession();
        sessions := sessions[user := started];
      }
      Respond(sessions[user], query, rag);
    }

    /** `!newchat`: drops the caller's session if there is one, and says which happened. */
    method NewChat(user: int)
      requires Valid()
      modifies this
      ensures Valid() && modelReady == old(modelReady)
      ensures user in old(sessions) ==> sessions == old(sessions) - {user} && sent == old(sent) + [ResetReply(name)]
      ensures user !in old(sessions) ==> sessions == old(sessions) && sent == old(sent) + [NoSessionReply()]
    {
      if user in sessions {
        sessions := sessions - {user};
        sent := sent + [ResetReply(name)];
      } else {
        sent := sent + [NoSessionReply()];
      }
    }

    /** After `!newchat`, the user's next `!ask` runs on a new session with an empty history. */
    method NewChatThenAsk(user: int, query: string, rag: (string, seq<Rag.Message>) -> RagResult)
      requires Valid() && modelReady
      modifies this, sessions.Values
      ensures user in sessions && fresh(sessions[user])
      ensures user in old(sessions) ==> sessions[user] != old(sessions[user])
      ensures sent == old(sent) + [if user in old(sessions) then ResetReply(name) else NoSessionReply(), ThinkingReply()]
                      + Replies(name, rag(query, []))
    {
      ghost var resetReply := if user in sessions then ResetReply(name) else NoSessionReply();
      NewChat(user);
      assert user !in sessions && modelReady && Valid();
      assert sent == old(sent) + [resetReply];
      ghost var afterReset := sent;
      Ask(user, query, rag);
      assert sent == afterReset + [ThinkingReply()] + Replies(name, rag(query, []));
      assert fresh(sessions[user]);
    }
  }
}
