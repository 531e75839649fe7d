/**
 * The chat provider's state (context/ChatContext.tsx): the transcript, the chat
 * session handle, `isLoading` and `isInitializing`, driven by the sign-in effect
 * and by `sendMessage`. The record store's two queries, the session factory and
 * the provider's stream are parameters giving each call's outcome.
 */
module ChatContext {
  import opened Wrappers
  import opened Types
  import opened Ledger
  import opened Transcript

  /** The figures a session is seeded with. */
  datatype Summary = Summary(totalIncome: int, totalExpenses: int, balance: int)

  /** What awaiting one `select('*')` gives: rows, a `null` data field, or a thrown error. */
  datatype Query = Rows(rows: seq<Entry>) | NoData | Threw

  /** The chat session, seen through the figures its system instruction embeds. */
  datatype Session = Session(seed: Summary)

  /** `data || []`: a query without data counts as an empty list. */
  function RowsOrEmpty(q: Query): seq<Entry>
  {
    if q.Rows? then q.rows else []
  }

  /** The totals of the session's seed: income from savings, expenses, and their difference. */
  function Summarize(expenses: seq<Entry>, savings: seq<Entry>): (s: Summary)
    ensures s.balance == s.totalIncome - s.totalExpenses
  {
    Summary(Total(savings), Total(expenses), Balance(savings, expenses))
  }

  /** Income [100, 50] and expenses [30] give income 150, expenses 30 and balance 120. */
  lemma SummaryExample(a: Entry, b: Entry, c: Entry)
    requires a.amount == 100 && b.amount == 50 && c.amount == 30
    ensures Summarize([c], [a, b]) == Summary(150, 30, 120)
  {
    assert [a, b][..1] == [a] && [a][..0] == [] && [c][..0] == [];
    assert Total([a]) == Total([a][..0]) + a.amount == 100;
    assert Total([c]) == Total([c][..0]) + c.amount == 30;
    assert Total([a, b]) == Total([a]) + b.amount == 150;
  }

  /** Every expense in the seed lowers the balance by its amount. */
  lemma SummaryOfOneMoreExpense(e: Entry, expenses: seq<Entry>, savings: seq<Entry>)
    ensures Summarize([e] + expenses, savings).balance == Summarize(expenses, savings).balance - e.amount
    ensures Summarize([e] + expenses, savings).totalIncome == Summarize(expenses, savings).totalIncome
  {
    BalanceAfterAdd(e, savings, expenses);
  }

  function DigitChar(d: nat): char
    requires d < 10
  {
    "0123456789"[d]
  }

  function Digits(n: nat): string
  {
    if n < 10 then [DigitChar(n)] else Digits(n / 10) + [DigitChar(n % 10)]
  }

  /** `(cents / 100).toFixed(2)` for a whole number of cents. */
  function FormatCents(cents: int): string
  {
    var m := if cents < 0 then -cents else cents;
    (if cents < 0 then "-" else "") + Digits(m / 100) + "." + [DigitChar(m % 100 / 10), DigitChar(m % 10)]
  }

  /** The single message a successful initialisation installs. */
  function Welcome(balance: int): Message
  {
    Message("welcome", Model,
            "Hello. I have loaded your financial profile (Net Balance: $" + FormatCents(balance)
            + "). I am ready to advise you.", false)
  }

  class ChatProvider {
    var messages: seq<Message>
    var session: Option<Session>
    var isLoading: bool
    var isInitializing: bool

    constructor ()
      ensures messages == [] && session == None && !isLoading && isInitializing
    {
      messages := [];
      session := None;
      isLoading := false;
      isInitializing := true;
    }

    /** The user became absent: empty the transcript and drop the session. */
    method SignOut()
      modifies this`messages, this`session
      ensures messages == [] && session == None
    {
      messages := [];
      session := None;
    }

    /**
     * `initSession`: read both lists, seed a new session with their totals and
     * replace the transcript by the welcome message. A thrown query or a failing
     * session factory leaves the transcript and the session as they were.
     * `isInitializing` ends false either way.
     */
    method Init(expenses: Query, savings: Query, created: bool)
      modifies this`messages, this`session, this`isInitializing
      ensures !isInitializing
      ensures (expenses.Threw? || savings.Threw? || !created) ==>
                messages == old(messages) && session == old(session)
      ensures !expenses.Threw? && !savings.Threw? && created ==>
                var s := Summarize(RowsOrEmpty(expenses), RowsOrEmpty(savings));
                session == Some(Session(s)) && messages == [Welcome(s.balance)]
    {
      isInitializing := true;
      if expenses.Threw? || savings.Threw? {
        isInitializing := false;
        return;
      }
      var summary := Summarize(RowsOrEmpty(expenses), RowsOrEmpty(savings));
      if !created {
        isInitializing := false;
        return;
      }
      session := Some(Session(summary));
      messages := [Welcome(summary.balance)];
      isInitializing := false;
    }

    /**
     * The effect that runs when the signed-in user changes: sign out on absence,
     * keep everything when a session already exists, initialise otherwise.
     */
    method OnUserChange(signedIn: bool, expenses: Query, savings: Query, created: bool)
      modifies this
      ensures isLoading == old(isLoading)
      ensures !signedIn ==> messages == [] && session == None && isInitializing == old(isInitializing)
      ensures signedIn && old(session).Some? ==>
                messages == old(messages) && session == old(session) && isInitializing == old(isInitializing)
      ensures signedIn && old(session).None? ==> !isInitializing
      ensures signedIn && old(session).None? && (expenses.Threw? || savings.Threw? || !created) ==>
                messages == old(messages) && session == None
      ensures signedIn && old(session).None? && !expenses.Threw? && !savings.Threw? && created ==>
                var s := Summarize(RowsOrEmpty(expenses), RowsOrEmpty(savings));
                session == Some(Session(s)) && messages == [Welcome(s.balance)]
    {
      if !signedIn {
        SignOut();
        return;
      }
      if session.Some? {
        return;
      }
      Init(expenses, savings, created);
    }

    /**
     * The start of `sendMessage`: without a session nothing happens; otherwise the
     * user message and then the empty streaming placeholder are appended.
     */
    method BeginSend(text: string, userId: string, botId: string) returns (started: bool)
      modifies this`messages, this`isLoading
      ensures started == old(session).Some?
      ensures started ==> messages == Begin(old(messages), text, userId, botId) && isLoading
      ensures !started ==> messages == old(messages) && isLoading == old(isLoading)
    {
      if session.None? {
        return false;
      }
      messages := messages + [UserMessage(userId, text)];
      isLoading := true;
      messages := messages + [Placeholder(botId)];
      started := true;
    }

    /** One chunk: the messages carrying the placeholder's id get the accumulated text. */
    method ApplyChunk(botId: string, fullText: string)
      modifies this`messages
      ensures messages == SetText(old(messages), botId, fullText)
    {
      messages := SetText(messages, botId, fullText);
    }

    /** The `for await` loop: accumulate the chunks and rewrite the placeholder after each one. */
    method Stream(botId: string, chunks: seq<string>)
      requires forall i :: 0 <= i < |messages| && messages[i].id == botId ==> messages[i].text == ""
      modifies this`messages
      ensures messages == SetText(old(messages), botId, Concat(chunks))
    {
      SetTextSame(messages, botId, "");
      var fullText := "";
      var k := 0;
      while k < |chunks|
        invariant 0 <= k <= |chunks|
        invariant fullText == Concat(chunks[..k])
        invariant messages == SetText(old(messages), botId, fullText)
      {
        ConcatStep(chunks, k);
        fullText := fullText + chunks[k];
        SetTextTwice(old(messages), botId, Concat(chunks[..k]), fullText);
        ApplyChunk(botId, fullText);
        k := k + 1;
      }
      assert chunks[..k] == chunks;
    }

    /** Normal completion: the placeholder stops streaming. */
    method Finish(botId: string)
      modifies this`messages
      ensures messages == EndStream(old(messages), botId)
    {
      messages := EndStream(messages, botId);
    }

    /** Failure: the fixed error message is appended; the placeholder is left as it is. */
    method Fail(errorId: string)
      modifies this`messages
      ensures messages == old(messages) + [ErrorMessage(errorId)]
    {
      messages := messages + [ErrorMessage(errorId)];
    }

    /**
     * `sendMessage` as a whole. Without a session it is a no-op; otherwise the
     * transcript becomes `Sent(...)` for the provider's reply and `isLoading`
     * ends false.
     */
    method SendMessage(text: string, userId: string, botId: string, errorId: string, reply: Reply)
      requires FreshIds(messages, userId, botId)
      modifies this`messages, this`isLoading
      ensures old(session).None? ==> messages == old(messages) && isLoading == old(isLoading)
      ensures old(session).Some? ==> messages == Sent(old(messages), text, userId, botId, errorId, reply) && !isLoading
    {
      var started := BeginSend(text, userId, botId);
      if !started {
        return;
      }
      assert messages[|messages| - 2].id != botId;
      Stream(botId, reply.chunks);
      if reply.Completed? {
        Finish(botId);
      } else {
        Fail(errorId);
      }
      isLoading := false;
    }
  }
}
