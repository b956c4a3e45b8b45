/**
 * The conversation log of the chat client and the pure updates that the
 * send and clear handlers of App.tsx apply to it: appending the user
 * message and the streaming placeholder, rewriting entries by id with
 * `prev.map`, accumulating the streamed chunks and settling the
 * placeholder on completion or failure.
 */
module Conversation {
  import opened Wrappers

  datatype Role = USER | MODEL

  /**
   * Message ids are strings in the source, built in three shapes: the
   * literal 'welcome', 'welcome-' followed by a clock reading, and a clock
   * reading (possibly plus one) turned into decimal digits. Decimal
   * rendering is injective on integers and neither welcome form is a
   * numeral, so two ids are equal exactly when these values are.
   */
  datatype MessageId = Welcome | WelcomeAt(ms: nat) | Stamp(ms: nat)

  /** One entry of the log; the optional flags of the source read `false` when absent. */
  datatype Message = Message(
    id: MessageId,
    role: Role,
    text: string,
    timestamp: nat,
    isStreaming: bool,
    isError: bool)

  const WELCOME_MESSAGE: string :=
    "Hello! I am a chatbot powered by Google's Gemini 3 Flash model. How can I assist you today?"

  /** The error message that selects the configuration-specific text. */
  const MISSING_KEY_ERROR: string := "API_KEY is missing"

  const GENERIC_ERROR_TEXT: string :=
    "I'm sorry, I encountered an error while processing your request. Please try again."

  const CONFIG_ERROR_TEXT: string :=
    "Configuration Error: API Key is missing. Please add VITE_API_KEY to your Vercel Environment Variables and redeploy."

  /** The four clock readings a send takes, in program order. */
  datatype Clock = Clock(userIdAt: nat, userStampAt: nat, botIdAt: nat, botStampAt: nat) {
    /** The wall clock did not run backwards during the send. */
    predicate Monotone() {
      userIdAt <= userStampAt <= botIdAt <= botStampAt
    }
  }

  /**
   * What the model's streaming call delivers: the chunks in arrival order
   * (a chunk without text is `None`) and, when the call throws after them,
   * the message of the thrown error.
   */
  datatype ChunkStream = ChunkStream(chunks: seq<Option<string>>, failure: Option<string>)

  /** The log the page shows when it is first mounted. */
  function InitialLog(now: nat): (r: seq<Message>)
    ensures |r| == 1 && r[0].id == Welcome && r[0].role == MODEL && r[0].text == WELCOME_MESSAGE
    ensures !r[0].isStreaming && !r[0].isError
  {
    [Message(Welcome, MODEL, WELCOME_MESSAGE, now, false, false)]
  }

  /** The log after a confirmed clear: a single welcome entry with a clock-derived id. */
  function ClearedLog(idAt: nat, stampAt: nat): (r: seq<Message>)
    ensures |r| == 1 && r[0].role == MODEL && r[0].text == WELCOME_MESSAGE
    ensures !r[0].isStreaming && !r[0].isError
    ensures forall i :: 0 <= i < |r| ==> !r[i].id.Stamp?
  {
    [Message(WelcomeAt(idAt), MODEL, WELCOME_MESSAGE, stampAt, false, false)]
  }

  function UserMessage(text: string, clock: Clock): (r: Message)
    ensures r.role == USER && r.text == text && r.timestamp == clock.userStampAt
    ensures !r.isStreaming && !r.isError
  {
    Message(Stamp(clock.userIdAt), USER, text, clock.userStampAt, false, false)
  }

  /** The placeholder's id: the third clock reading plus one. */
  function BotId(clock: Clock): (r: MessageId)
    ensures r.Stamp?
    ensures clock.userIdAt <= clock.botIdAt ==> r != UserMessage("", clock).id
  {
    Stamp(clock.botIdAt + 1)
  }

  function Placeholder(clock: Clock): (r: Message)
    ensures r.id == BotId(clock) && r.role == MODEL && r.text == "" && r.timestamp == clock.botStampAt
    ensures r.isStreaming && !r.isError
  {
    Message(BotId(clock), MODEL, "", clock.botStampAt, true, false)
  }

  /** The log once a send has appended its user message and its placeholder. */
  function Opened(prev: seq<Message>, text: string, clock: Clock): (r: seq<Message>)
    ensures |r| == |prev| + 2 && r[..|prev|] == prev
    ensures r[|prev|].role == USER && r[|prev|].text == text && r[|prev|].id == Stamp(clock.userIdAt)
    ensures r[|prev| + 1].role == MODEL && r[|prev| + 1].id == BotId(clock)
    ensures r[|prev| + 1].text == "" && r[|prev| + 1].isStreaming && !r[|prev| + 1].isError
    ensures clock.Monotone() ==> r[|prev|].id != r[|prev| + 1].id
  {
    prev + [UserMessage(text, clock), Placeholder(clock)]
  }

  /** The three object spreads the send handler applies to the placeholder. */
  datatype Patch = SetText(text: string) | EndStreaming | MarkFailed(errorText: string)

  function ApplyPatch(m: Message, p: Patch): (r: Message)
    ensures r.id == m.id && r.role == m.role && r.timestamp == m.timestamp
  {
    match p
    case SetText(t) => m.(text := t)
    case EndStreaming => m.(isStreaming := false)
    case MarkFailed(t) => m.(text := t, isStreaming := false, isError := true)
  }

  /** The `prev.map` update: every entry carrying `id` is patched, every other entry is kept. */
  function UpdateById(msgs: seq<Message>, id: MessageId, p: Patch): (r: seq<Message>)
    ensures |r| == |msgs|
    ensures forall i :: 0 <= i < |msgs| && msgs[i].id == id ==> r[i] == ApplyPatch(msgs[i], p)
    ensures forall i :: 0 <= i < |msgs| && msgs[i].id != id ==> r[i] == msgs[i]
  {
    if msgs == [] then []
    else [if msgs[0].id == id then ApplyPatch(msgs[0], p) else msgs[0]] + UpdateById(msgs[1..], id, p)
  }

  /** The text a chunk contributes: its text, or "" when it has none. */
  function ChunkText(c: Option<string>): (r: string)
    ensures r == "" <==> c.None? || c.value == ""
    ensures c.Some? ==> r == c.value
  {
    if c.Some? then c.value else ""
  }

  /** The running `fullText` after the given chunks, built left to right as the loop does. */
  function Accumulate(chunks: seq<Option<string>>): (r: string)
    ensures chunks == [] ==> r == ""
    ensures |chunks| == 1 ==> r == ChunkText(chunks[0])
  {
    if chunks == [] then ""
    else Accumulate(chunks[..|chunks| - 1]) + ChunkText(chunks[|chunks| - 1])
  }

  /** The log after the per-chunk updates for the given chunks (none before the first chunk). */
  function Streamed(base: seq<Message>, id: MessageId, chunks: seq<Option<string>>): (r: seq<Message>)
    ensures |r| == |base|
    ensures chunks == [] ==> r == base
    ensures forall i :: 0 <= i < |base| && base[i].id != id ==> r[i] == base[i]
    ensures forall i :: 0 <= i < |base| && base[i].id == id && chunks != [] ==>
      r[i] == base[i].(text := Accumulate(chunks))
  {
    if chunks == [] then base else UpdateById(base, id, SetText(Accumulate(chunks)))
  }

  /** The placeholder text chosen for a thrown error. */
  function ErrorText(message: string): (r: string)
    ensures r == CONFIG_ERROR_TEXT <==> message == MISSING_KEY_ERROR
    ensures r == CONFIG_ERROR_TEXT || r == GENERIC_ERROR_TEXT
  {
    if message == MISSING_KEY_ERROR then CONFIG_ERROR_TEXT else GENERIC_ERROR_TEXT
  }

  /** The final update: finish streaming, or replace the text by the error text. */
  function Settlement(failure: Option<string>): (r: Patch)
    ensures failure.None? ==> r == EndStreaming
    ensures failure.Some? ==> r.MarkFailed? && r.errorText == ErrorText(failure.value)
  {
    if failure.None? then EndStreaming else MarkFailed(ErrorText(failure.value))
  }

  /** The log after a whole send whose model call delivered `reply`. */
  function SendResult(prev: seq<Message>, text: string, clock: Clock, reply: ChunkStream): (r: seq<Message>)
    ensures |r| == |prev| + 2
    ensures r[|prev| + 1].id == BotId(clock) && r[|prev| + 1].role == MODEL && !r[|prev| + 1].isStreaming
  {
    var id := BotId(clock);
    UpdateById(Streamed(Opened(prev, text, clock), id, reply.chunks), id, Settlement(reply.failure))
  }

  // ---------------------------------------------------------------------
  // Update by id
  // ---------------------------------------------------------------------

  /** An update whose id no entry carries leaves the log as it was. */
  lemma UpdateByMissingIdIsNoOp(msgs: seq<Message>, id: MessageId, p: Patch)
    requires forall i :: 0 <= i < |msgs| ==> msgs[i].id != id
    ensures UpdateById(msgs, id, p) == msgs
  {
  }

  /** Updating a concatenation updates each part. */
  lemma UpdateByIdDistributes(a: seq<Message>, b: seq<Message>, id: MessageId, p: Patch)
    ensures UpdateById(a + b, id, p) == UpdateById(a, id, p) + UpdateById(b, id, p)
  {
    var l, r := UpdateById(a + b, id, p), UpdateById(a, id, p) + UpdateById(b, id, p);
    assert |l| == |r|;
    forall i | 0 <= i < |l| ensures l[i] == r[i] {
      if i < |a| {
        assert (a + b)[i] == a[i];
      } else {
        assert (a + b)[i] == b[i - |a|];
      }
    }
  }

  /** A later text update by the same id overwrites an earlier one. */
  lemma SetTextOverwrites(msgs: seq<Message>, id: MessageId, earlier: string, later: string)
    ensures UpdateById(UpdateById(msgs, id, SetText(earlier)), id, SetText(later))
         == UpdateById(msgs, id, SetText(later))
  {
  }

  // ---------------------------------------------------------------------
  // Accumulating chunks
  // ---------------------------------------------------------------------

  /** The accumulated text of two consecutive runs of chunks is the concatenation of theirs. */
  lemma {:induction false} AccumulateAppend(a: seq<Option<string>>, b: seq<Option<string>>)
    ensures Accumulate(a + b) == Accumulate(a) + Accumulate(b)
    decreases |b|
  {
    if b == [] {
      assert a + b == a;
    } else {
      var b' := b[..|b| - 1];
      assert (a + b)[..|a + b| - 1] == a + b';
      assert (a + b)[|a + b| - 1] == b[|b| - 1];
      AccumulateAppend(a, b');
    }
  }

  /** The accumulated text is empty exactly when no chunk carries text. */
  lemma {:induction false} AccumulateIsEmptyIff(chunks: seq<Option<string>>)
    ensures Accumulate(chunks) == "" <==> forall k :: 0 <= k < |chunks| ==> ChunkText(chunks[k]) == ""
    decreases |chunks|
  {
    if chunks != [] {
      var init := chunks[..|chunks| - 1];
      AccumulateIsEmptyIff(init);
      assert forall k :: 0 <= k < |init| ==> init[k] == chunks[k];
    }
  }

  /** Accumulating one more chunk appends that chunk's text. */
  lemma AccumulateStep(chunks: seq<Option<string>>, i: nat)
    requires i < |chunks|
    ensures Accumulate(chunks[..i + 1]) == Accumulate(chunks[..i]) + ChunkText(chunks[i])
  {
    assert chunks[..i + 1][..i] == chunks[..i];
  }

  /** Splitting one chunk's text across two chunks does not change the accumulated text. */
  lemma SplitChunkInvariance(before: seq<Option<string>>, after: seq<Option<string>>, x: string, y: string)
    ensures Accumulate(before + [Some(x + y)] + after) == Accumulate(before + [Some(x), Some(y)] + after)
  {
    AccumulateAppend(before + [Some(x + y)], after);
    AccumulateAppend(before + [Some(x), Some(y)], after);
    AccumulateAppend(before, [Some(x + y)]);
    AccumulateAppend(before, [Some(x), Some(y)]);
    assert [Some(x), Some(y)][..1] == [Some(x)];
    assert Accumulate([Some(x)]) == x by {
      assert [Some(x)][..0] == [];
    }
  }

  /** The per-chunk update after chunk `i` takes the log from its state after `i` chunks to the one after `i + 1`. */
  lemma StreamedStep(base: seq<Message>, id: MessageId, chunks: seq<Option<string>>, i: nat)
    requires i < |chunks|
    ensures UpdateById(Streamed(base, id, chunks[..i]), id, SetText(Accumulate(chunks[..i + 1])))
         == Streamed(base, id, chunks[..i + 1])
  {
  }

  // ---------------------------------------------------------------------
  // Whole sends
  // ---------------------------------------------------------------------

  /**
   * The placeholder ends up after the user message, no longer streaming,
   * holding either the concatenated chunks or, when the call failed, only
   * the error text.
   */
  lemma SendSettlesPlaceholder(prev: seq<Message>, text: string, clock: Clock, reply: ChunkStream)
    ensures var r := SendResult(prev, text, clock, reply);
      && |r| == |prev| + 2
      && r[|prev| + 1].id == BotId(clock)
      && r[|prev| + 1].role == MODEL
      && r[|prev| + 1].timestamp == clock.botStampAt
      && !r[|prev| + 1].isStreaming
      && (reply.failure.None? ==> r[|prev| + 1].text == Accumulate(reply.chunks) && !r[|prev| + 1].isError)
      && (reply.failure.Some? ==> r[|prev| + 1].text == ErrorText(reply.failure.value) && r[|prev| + 1].isError)
  {
  }

  /** With a clock that does not run backwards, the user message comes through the send unchanged. */
  lemma SendKeepsUserMessage(prev: seq<Message>, text: string, clock: Clock, reply: ChunkStream)
    requires clock.Monotone()
    ensures var r := SendResult(prev, text, clock, reply);
      |r| == |prev| + 2 && r[|prev|] == UserMessage(text, clock)
  {
  }

  /** When no earlier entry carries the placeholder's id, every earlier entry is kept, in order. */
  lemma SendKeepsHistory(prev: seq<Message>, text: string, clock: Clock, reply: ChunkStream)
    requires forall i :: 0 <= i < |prev| ==> prev[i].id != BotId(clock)
    ensures var r := SendResult(prev, text, clock, reply);
      |r| == |prev| + 2 && r[..|prev|] == prev
  {
  }

  /** The chunk updates only ever write text: every entry keeps its streaming flag. */
  lemma StreamedKeepsStreamingFlags(base: seq<Message>, id: MessageId, chunks: seq<Option<string>>)
    ensures var st := Streamed(base, id, chunks);
      forall i :: 0 <= i < |base| ==> st[i].isStreaming == base[i].isStreaming
  {
  }

  /** After a send, no entry is streaming any more if none was before. */
  lemma SendLeavesNothingStreaming(prev: seq<Message>, text: string, clock: Clock, reply: ChunkStream)
    requires forall i :: 0 <= i < |prev| ==> !prev[i].isStreaming
    ensures var r := SendResult(prev, text, clock, reply);
      forall i :: 0 <= i < |r| ==> !r[i].isStreaming
  {
    var id := BotId(clock);
    var base := Opened(prev, text, clock);
    var st := Streamed(base, id, reply.chunks);
    var fin := Settlement(reply.failure);
    var r := SendResult(prev, text, clock, reply);
    assert r == UpdateById(st, id, fin);
    StreamedKeepsStreamingFlags(base, id, reply.chunks);
    forall i | 0 <= i < |r| ensures !r[i].isStreaming {
      assert r[i] == (if st[i].id == id then ApplyPatch(st[i], fin) else st[i]);
      if st[i].id != id {
        assert st[i].id == base[i].id;
        assert i < |prev| || i == |prev|;
        if i < |prev| {
          assert base[i] == prev[i];
        }
      }
    }
  }

  /**
   * Under a monotone clock and a fresh placeholder id, the result depends on
   * the chunks only through their concatenation.
   */
  lemma ChunkBoundaryInvariance(prev: seq<Message>, text: string, clock: Clock,
                                c1: seq<Option<string>>, c2: seq<Option<string>>, failure: Option<string>)
    requires clock.Monotone()
    requires forall i :: 0 <= i < |prev| ==> prev[i].id != BotId(clock)
    requires Accumulate(c1) == Accumulate(c2)
    ensures SendResult(prev, text, clock, ChunkStream(c1, failure))
         == SendResult(prev, text, clock, ChunkStream(c2, failure))
  {
    StreamedOnFreshId(prev, text, clock, c1);
    StreamedOnFreshId(prev, text, clock, c2);
  }

  /** With a fresh placeholder id the per-chunk updates touch the placeholder alone. */
  lemma StreamedOnFreshId(prev: seq<Message>, text: string, clock: Clock, chunks: seq<Option<string>>)
    requires clock.Monotone()
    requires forall i :: 0 <= i < |prev| ==> prev[i].id != BotId(clock)
    ensures Streamed(Opened(prev, text, clock), BotId(clock), chunks)
         == prev + [UserMessage(text, clock), Placeholder(clock).(text := Accumulate(chunks))]
  {
    var id := BotId(clock);
    var base := Opened(prev, text, clock);
    var st := Streamed(base, id, chunks);
    var want := prev + [UserMessage(text, clock), Placeholder(clock).(text := Accumulate(chunks))];
    assert |st| == |want|;
    forall i | 0 <= i < |st| ensures st[i] == want[i] {
      if i < |prev| {
        assert base[i] == prev[i] && want[i] == prev[i];
      } else if i == |prev| {
        assert base[i] == UserMessage(text, clock) && base[i].id != id;
      } else {
        assert base[i] == Placeholder(clock);
      }
    }
  }

  /**
   * A clear between chunks detaches the send. `before` are the chunks that
   * arrived before the clear and `rest` the reply still to come. Every later
   * chunk update writes the running text over all chunks so far and leaves
   * the cleared log unchanged, and so does the final update.
   */
  lemma UpdatesAfterClearAreNoOps(idAt: nat, stampAt: nat, clock: Clock,
                                  before: seq<Option<string>>, rest: ChunkStream)
    ensures forall j :: 0 <= j <= |rest.chunks| ==>
      UpdateById(ClearedLog(idAt, stampAt), BotId(clock), SetText(Accumulate(before + rest.chunks[..j])))
        == ClearedLog(idAt, stampAt)
    ensures UpdateById(ClearedLog(idAt, stampAt), BotId(clock), Settlement(rest.failure)) == ClearedLog(idAt, stampAt)
  {
  }
}
