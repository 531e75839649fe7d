/**
 * The list operations `sendMessage` performs on the chat transcript
 * (context/ChatContext.tsx): the two appends that open a send, the rewrite of
 * the placeholder by id on every streamed chunk and at completion, and the
 * appended error message. `Sent` is the transcript a whole send leaves behind.
 */
module Transcript {
  import opened Types

  /** The fixed text of the message appended when a send fails. */
  const ConnectionError: string := "Connection error. Please try again."

  /** How the provider's stream ended: every chunk delivered, or a failure after some chunks. */
  datatype Reply = Completed(chunks: seq<string>) | Broken(chunks: seq<string>)

  function UserMessage(id: string, text: string): Message
  {
    Message(id, User, text, false)
  }

  function Placeholder(id: string): Message
  {
    Message(id, Model, "", true)
  }

  function ErrorMessage(id: string): Message
  {
    Message(id, Model, ConnectionError, false)
  }

  /** `fullText += chunk.text()` over the chunks received so far. */
  function Concat(chunks: seq<string>): string
  {
    if chunks == [] then "" else Concat(chunks[..|chunks| - 1]) + chunks[|chunks| - 1]
  }

  /** `prev.map(m => m.id === id ? { ...m, text } : m)` */
  function SetText(ms: seq<Message>, id: string, text: string): seq<Message>
  {
    if ms == [] then []
    else [if ms[0].id == id then ms[0].(text := text) else ms[0]] + SetText(ms[1..], id, text)
  }

  /** `prev.map(m => m.id === id ? { ...m, isStreaming: false } : m)` */
  function EndStream(ms: seq<Message>, id: string): seq<Message>
  {
    if ms == [] then []
    else [if ms[0].id == id then ms[0].(isStreaming := false) else ms[0]] + EndStream(ms[1..], id)
  }

  /** A chunk rewrites only the messages with the placeholder's id, and keeps the length. */
  lemma {:induction false} SetTextAt(ms: seq<Message>, id: string, text: string, i: int)
    requires 0 <= i < |ms|
    ensures |SetText(ms, id, text)| == |ms|
    ensures SetText(ms, id, text)[i] == if ms[i].id == id then ms[i].(text := text) else ms[i]
  {
    if i > 0 {
      SetTextAt(ms[1..], id, text, i - 1);
    } else if |ms| > 1 {
      SetTextAt(ms[1..], id, text, 0);
    }
  }

  /** Completion clears the flag only on the messages with the placeholder's id. */
  lemma {:induction false} EndStreamAt(ms: seq<Message>, id: string, i: int)
    requires 0 <= i < |ms|
    ensures |EndStream(ms, id)| == |ms|
    ensures EndStream(ms, id)[i] == if ms[i].id == id then ms[i].(isStreaming := false) else ms[i]
  {
    if i > 0 {
      EndStreamAt(ms[1..], id, i - 1);
    } else if |ms| > 1 {
      EndStreamAt(ms[1..], id, 0);
    }
  }

  /** Each chunk overwrites the previous text: only the latest accumulated text counts. */
  lemma {:induction false} SetTextTwice(ms: seq<Message>, id: string, a: string, b: string)
    ensures SetText(SetText(ms, id, a), id, b) == SetText(ms, id, b)
  {
    if ms != [] {
      SetTextTwice(ms[1..], id, a, b);
    }
  }

  /** Rewriting with the text the matching messages already carry changes nothing. */
  lemma {:induction false} SetTextSame(ms: seq<Message>, id: string, text: string)
    requires forall i :: 0 <= i < |ms| && ms[i].id == id ==> ms[i].text == text
    ensures SetText(ms, id, text) == ms
  {
    if ms != [] {
      SetTextSame(ms[1..], id, text);
    }
  }

  lemma {:induction false} SetTextConcat(a: seq<Message>, b: seq<Message>, id: string, text: string)
    ensures SetText(a + b, id, text) == SetText(a, id, text) + SetText(b, id, text)
  {
    if a == [] {
      assert a + b == b;
    } else {
      assert (a + b)[1..] == a[1..] + b;
      SetTextConcat(a[1..], b, id, text);
    }
  }

  lemma {:induction false} EndStreamConcat(a: seq<Message>, b: seq<Message>, id: string)
    ensures EndStream(a + b, id) == EndStream(a, id) + EndStream(b, id)
  {
    if a == [] {
      assert a + b == b;
    } else {
      assert (a + b)[1..] == a[1..] + b;
      EndStreamConcat(a[1..], b, id);
    }
  }

  lemma {:induction false} EndStreamAbsent(ms: seq<Message>, id: string)
    requires forall i :: 0 <= i < |ms| ==> ms[i].id != id
    ensures EndStream(ms, id) == ms
  {
    if ms != [] {
      EndStreamAbsent(ms[1..], id);
    }
  }

  /** `text` was read `k` chunks into the stream. */
  lemma ConcatStep(chunks: seq<string>, k: int)
    requires 0 <= k < |chunks|
    ensures Concat(chunks[..k + 1]) == Concat(chunks[..k]) + chunks[k]
  {
    assert chunks[..k + 1][..k] == chunks[..k];
  }

  /** A send opens with the user message and then the empty streaming placeholder. */
  function Begin(ms: seq<Message>, text: string, userId: string, botId: string): seq<Message>
  {
    ms + [UserMessage(userId, text), Placeholder(botId)]
  }

  /** The transcript after `chunks` have been applied to the placeholder. */
  function Streamed(ms: seq<Message>, text: string, userId: string, botId: string, chunks: seq<string>): seq<Message>
  {
    SetText(Begin(ms, text, userId, botId), botId, Concat(chunks))
  }

  /** The transcript a whole send leaves: completion ends the stream, failure appends the error. */
  function Sent(ms: seq<Message>, text: string, userId: string, botId: string, errorId: string, reply: Reply): seq<Message>
  {
    var streamed := Streamed(ms, text, userId, botId, reply.chunks);
    match reply
    case Completed(_) => EndStream(streamed, botId)
    case Broken(_) => streamed + [ErrorMessage(errorId)]
  }

  /** A fresh placeholder id: no message carries it and the user message gets another id. */
  predicate FreshIds(ms: seq<Message>, userId: string, botId: string)
  {
    userId != botId && forall i :: 0 <= i < |ms| ==> ms[i].id != botId
  }

  /**
   * While streaming, the earlier messages and the user message are untouched and
   * the placeholder, still last and still streaming, holds the chunks so far.
   */
  lemma StreamedShape(ms: seq<Message>, text: string, userId: string, botId: string, chunks: seq<string>)
    requires FreshIds(ms, userId, botId)
    ensures Streamed(ms, text, userId, botId, chunks)
         == ms + [UserMessage(userId, text), Message(botId, Model, Concat(chunks), true)]
  {
    var pair := [UserMessage(userId, text), Placeholder(botId)];
    SetTextConcat(ms, pair, botId, Concat(chunks));
    SetTextSame(ms, botId, Concat(chunks));
    assert pair[1..] == [Placeholder(botId)];
    assert SetText([Placeholder(botId)], botId, Concat(chunks)) == [Message(botId, Model, Concat(chunks), true)];
    assert SetText(pair, botId, Concat(chunks)) == [UserMessage(userId, text), Message(botId, Model, Concat(chunks), true)];
  }

  /**
   * A completed send appends exactly two messages: the user's and the model's
   * reply, whose text is the concatenation of every chunk and which no longer streams.
   */
  lemma CompletedSend(ms: seq<Message>, text: string, userId: string, botId: string, errorId: string, chunks: seq<string>)
    requires FreshIds(ms, userId, botId)
    ensures Sent(ms, text, userId, botId, errorId, Completed(chunks))
         == ms + [UserMessage(userId, text), Message(botId, Model, Concat(chunks), false)]
  {
    StreamedShape(ms, text, userId, botId, chunks);
    var pair := [UserMessage(userId, text), Message(botId, Model, Concat(chunks), true)];
    EndStreamConcat(ms, pair, botId);
    EndStreamAbsent(ms, botId);
    assert pair[1..] == [Message(botId, Model, Concat(chunks), true)];
    assert EndStream(pair[1..], botId) == [Message(botId, Model, Concat(chunks), false)];
    assert EndStream(pair, botId) == [UserMessage(userId, text), Message(botId, Model, Concat(chunks), false)];
  }

  /**
   * A failed send appends exactly three messages: the user's, the placeholder
   * left streaming with the partial text, and the fixed error message.
   */
  lemma BrokenSend(ms: seq<Message>, text: string, userId: string, botId: string, errorId: string, chunks: seq<string>)
    requires FreshIds(ms, userId, botId)
    ensures Sent(ms, text, userId, botId, errorId, Broken(chunks))
         == ms + [UserMessage(userId, text), Message(botId, Model, Concat(chunks), true), ErrorMessage(errorId)]
  {
    StreamedShape(ms, text, userId, botId, chunks);
  }

  /** The number of messages flagged as streaming. */
  function CountStreaming(ms: seq<Message>): nat
  {
    if ms == [] then 0 else (if ms[0].isStreaming then 1 else 0) + CountStreaming(ms[1..])
  }

  lemma {:induction false} CountStreamingConcat(a: seq<Message>, b: seq<Message>)
    ensures CountStreaming(a + b) == CountStreaming(a) + CountStreaming(b)
  {
    if a == [] {
      assert a + b == b;
    } else {
      assert (a + b)[1..] == a[1..] + b;
      CountStreamingConcat(a[1..], b);
    }
  }

  /**
   * Starting from a transcript where nothing streams, exactly one message streams
   * at every point of a send; after completion none does, after a failure the
   * placeholder is left streaming.
   */
  lemma StreamingDuringSend(ms: seq<Message>, text: string, userId: string, botId: string, errorId: string, chunks: seq<string>)
    requires FreshIds(ms, userId, botId) && CountStreaming(ms) == 0
    ensures forall k :: 0 <= k <= |chunks| ==> CountStreaming(Streamed(ms, text, userId, botId, chunks[..k])) == 1
    ensures CountStreaming(Sent(ms, text, userId, botId, errorId, Completed(chunks))) == 0
    ensures CountStreaming(Sent(ms, text, userId, botId, errorId, Broken(chunks))) == 1
  {
    var u := UserMessage(userId, text);
    forall k | 0 <= k <= |chunks|
      ensures CountStreaming(Streamed(ms, text, userId, botId, chunks[..k])) == 1
    {
      var p := Message(botId, Model, Concat(chunks[..k]), true);
      StreamedShape(ms, text, userId, botId, chunks[..k]);
      CountStreamingConcat(ms, [u, p]);
      assert [u, p][1..] == [p] && [p][1..] == [];
      assert CountStreaming([p]) == 1;
      assert CountStreaming([u, p]) == 1;
    }
    var done := Message(botId, Model, Concat(chunks), false);
    CompletedSend(ms, text, userId, botId, errorId, chunks);
    CountStreamingConcat(ms, [u, done]);
    assert [u, done][1..] == [done] && [done][1..] == [];
    assert CountStreaming([done]) == 0;
    assert CountStreaming([u, done]) == 0;
    var partial := Message(botId, Model, Concat(chunks), true);
    var e := ErrorMessage(errorId);
    BrokenSend(ms, text, userId, botId, errorId, chunks);
    CountStreamingConcat(ms, [u, partial, e]);
    assert [u, partial, e][1..] == [partial, e];
    assert [partial, e][1..] == [e] && [e][1..] == [];
    assert CountStreaming([e]) == 0;
    assert CountStreaming([partial, e]) == 1;
    assert CountStreaming([u, partial, e]) == 1;
  }

  /**
   * A failed send leaves its placeholder streaming, so the next send's placeholder
   * is a second streaming message for as long as that send runs.
   */
  lemma StreamingAfterFailedSend(ms: seq<Message>, text1: string, userId1: string, botId1: string, errorId1: string,
                                 chunks1: seq<string>, text2: string, userId2: string, botId2: string, chunks2: seq<string>)
    requires FreshIds(ms, userId1, botId1) && CountStreaming(ms) == 0
    requires FreshIds(Sent(ms, text1, userId1, botId1, errorId1, Broken(chunks1)), userId2, botId2)
    ensures CountStreaming(Streamed(Sent(ms, text1, userId1, botId1, errorId1, Broken(chunks1)), text2, userId2, botId2, chunks2)) == 2
  {
    var after := Sent(ms, text1, userId1, botId1, errorId1, Broken(chunks1));
    StreamingDuringSend(ms, text1, userId1, botId1, errorId1, chunks1);
    StreamedShape(after, text2, userId2, botId2, chunks2);
    var u := UserMessage(userId2, text2);
    var p := Message(botId2, Model, Concat(chunks2), true);
    CountStreamingConcat(after, [u, p]);
    assert [u, p][1..] == [p] && [p][1..] == [];
    assert CountStreaming([p]) == 1;
    assert CountStreaming([u, p]) == 1;
  }
}
