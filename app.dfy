/** The chat view's state and its message-handling logic (App.tsx): the
    welcome message set up on mount, and one turn of `handleSendMessage`
    split at its suspension points into the steps a turn runs through. */
module App {
  import opened Types
  import opened JsString
  import opened MessageList
  import opened Stream

  const WelcomeId: string := "init-1"
  const WelcomeText: string :=
    "Hello! \U{1F44B} I'm the GDSC Gemini Assistant.\n\nAsk me anything about Google technologies, coding, or upcoming club events!"
  /** Shown when the chat session cannot be created. */
  const InitError: string := "Failed to connect to Gemini services."
  /** Shown when sending or streaming a reply fails. */
  const TurnError: string := "Something went wrong. Please try again."

  /** The assistant's greeting placed in the list on mount. */
  function Welcome(now: Timestamp): Message {
    Message(WelcomeId, Model, WelcomeText, now, None)
  }

  /** The record of what the user sent. */
  function UserMessage(id: string, text: string, now: Timestamp): Message {
    Message(id, User, text, now, None)
  }

  /** The empty assistant message the stream will fill. */
  function Placeholder(id: string, now: Timestamp): Message {
    Message(id, Model, "", now, Some(true))
  }

  /** The guard of `handleSendMessage`: something other than white space
      was typed, no turn is running and a chat session exists. */
  predicate CanSend(inputText: string, isLoading: bool, hasSession: bool) {
    Trim(inputText) != "" && !isLoading && hasSession
  }

  /** The locals of one running `handleSendMessage`: the placeholder's
      identifier and the text accumulated from the stream so far. */
  datatype Turn = Turn(botId: string, fullContent: string)

  class ChatApp {
    var messages: seq<Message>
    var inputText: string
    var isLoading: bool
    var error: Option<string>
    /** Whether the chat session reference is set. */
    var hasSession: bool

    /** Identifiers are never reused within the list. */
    ghost predicate Valid()
      reads this
    {
      UniqueIds(messages)
    }

    /** The initial state of every `useState` and of the session reference. */
    constructor ()
      ensures Valid()
      ensures messages == [] && inputText == "" && !isLoading && error == None && !hasSession
    {
      messages := [];
      inputText := "";
      isLoading := false;
      error := None;
      hasSession := false;
    }

    /** The mount effect. `sessionCreated` says whether creating the chat
        session succeeded; on success the list becomes the welcome message
        alone, on failure the error is set and nothing else changes. */
    method Mount(sessionCreated: bool, now: Timestamp)
      requires Valid()
      modifies this
      ensures Valid()
      ensures sessionCreated ==> hasSession && messages == [Welcome(now)] && error == old(error)
      ensures !sessionCreated ==>
        hasSession == old(hasSession) && messages == old(messages) && error == Some(InitError)
      ensures inputText == old(inputText) && isLoading == old(isLoading)
    {
      if sessionCreated {
        hasSession := true;
        messages := [Welcome(now)];
      } else {
        error := Some(InitError);
      }
    }

    /** The text area's change handler. */
    method SetInput(text: string)
      modifies this`inputText
      ensures inputText == text
    {
      inputText := text;
    }

    /** The synchronous start of `handleSendMessage`. If the guard fails,
        nothing changes. Otherwise the input is cleared, the error cleared,
        `isLoading` set, and the user message (holding the trimmed input)
        and an empty streaming placeholder are appended, in that order.
        `userId` and `botId` stand for the two fresh identifiers the source
        generates: distinct from each other and from every listed one. */
    method BeginSend(userId: string, botId: string, now: Timestamp) returns (turn: Option<Turn>)
      requires Valid()
      requires userId != botId && !HasId(messages, userId) && !HasId(messages, botId)
      modifies this
      ensures Valid()
      ensures turn.Some? <==> CanSend(old(inputText), old(isLoading), old(hasSession))
      ensures turn.None? ==>
        messages == old(messages) && error == old(error) && isLoading == old(isLoading)
        && inputText == old(inputText)
      ensures turn.Some? ==>
        turn.value == Turn(botId, "")
        && messages == old(messages) + [UserMessage(userId, Trim(old(inputText)), now)] + [Placeholder(botId, now)]
        && inputText == "" && error == None && isLoading
      ensures hasSession == old(hasSession)
    {
      if !CanSend(inputText, isLoading, hasSession) {
        return None;
      }
      var content := Trim(inputText);
      inputText := "";
      error := None;
      isLoading := true;
      var user := UserMessage(userId, content, now);
      var bot := Placeholder(botId, now);
      UniqueAfterAppend(messages, user);
      FreshAfterAppend(messages, user, botId);
      UniqueAfterAppend(messages + [user], bot);
      messages := messages + [user] + [bot];
      return Some(Turn(botId, ""));
    }

    /** One iteration of the `for await` loop. A chunk without text changes
        nothing; otherwise its text is appended to the accumulator and the
        accumulator is written into every message carrying the turn's id. */
    method OnChunk(turn: Turn, chunk: Chunk) returns (next: Turn)
      requires Valid()
      modifies this`messages
      ensures Valid()
      ensures next == Turn(turn.botId, turn.fullContent + (if Carries(chunk) then ChunkText(chunk) else ""))
      ensures messages ==
        if Carries(chunk) then MapById(old(messages), turn.botId, SetContent(next.fullContent))
        else old(messages)
    {
      next := turn;
      if Carries(chunk) {
        next := turn.(fullContent := turn.fullContent + ChunkText(chunk));
        MapByIdUnique(messages, turn.botId, SetContent(next.fullContent));
        messages := MapById(messages, turn.botId, SetContent(next.fullContent));
      }
    }

    /** The stream ended normally: the placeholder stops streaming. */
    method Finalize(turn: Turn)
      requires Valid()
      modifies this`messages
      ensures Valid()
      ensures messages == MapById(old(messages), turn.botId, StopStreaming)
    {
      MapByIdUnique(messages, turn.botId, StopStreaming);
      messages := MapById(messages, turn.botId, StopStreaming);
    }

    /** The send or the stream failed: the error is set and the placeholder
        is removed, whatever it had accumulated. */
    method Fail(turn: Turn)
      requires Valid()
      modifies this`messages, this`error
      ensures Valid()
      ensures error == Some(TurnError)
      ensures messages == RemoveById(old(messages), turn.botId)
    {
      error := Some(TurnError);
      RemoveByIdUnique(messages, turn.botId);
      messages := RemoveById(messages, turn.botId);
    }

    /** The `finally` block: the turn is over. */
    method Finish()
      modifies this`isLoading
      ensures !isLoading
    {
      isLoading := false;
    }

    /** The `for await` loop over the stream, with the placeholder last in
        the list. After it, the accumulator holds the concatenated texts of
        the chunks read, the placeholder holds the accumulator, and every
        earlier message is as it was. */
    method ReadStream(turn: Turn, chunks: seq<Chunk>, ghost head: seq<Message>, ghost now: Timestamp)
      returns (done: Turn)
      requires Valid()
      requires turn.fullContent == "" && !HasId(head, turn.botId)
      requires messages == head + [Placeholder(turn.botId, now)]
      modifies this`messages
      ensures Valid()
      ensures done == Turn(turn.botId, Accumulated(chunks))
      ensures messages == head + [Placeholder(turn.botId, now).(content := done.fullContent)]
    {
      done := turn;
      assert Placeholder(turn.botId, now).(content := "") == Placeholder(turn.botId, now);
      for i := 0 to |chunks|
        invariant Valid()
        invariant done == Turn(turn.botId, Accumulated(chunks[..i]))
        invariant messages == head + [Placeholder(turn.botId, now).(content := done.fullContent)]
      {
        ghost var p := Placeholder(turn.botId, now).(content := done.fullContent);
        ghost var c := done.fullContent + ChunkText(chunks[i]);
        AccumulatedStep(chunks, i);
        if Carries(chunks[i]) {
          MapByIdLast(head, p, SetContent(c));
          assert Apply(SetContent(c), p) == p.(content := c);
        } else {
          assert done.fullContent + "" == done.fullContent;
        }
        done := OnChunk(done, chunks[i]);
      }
      assert chunks[..|chunks|] == chunks;
    }

    /** What follows the loop: `Finalize` when the stream ended normally,
        `Fail` when it threw. With the placeholder last in the list, the
        reply either stays there, finished, or is gone. */
    method EndStream(turn: Turn, streamOk: bool, ghost head: seq<Message>, ghost now: Timestamp)
      requires Valid()
      requires !HasId(head, turn.botId)
      requires messages == head + [Placeholder(turn.botId, now).(content := turn.fullContent)]
      modifies this`messages, this`error
      ensures Valid()
      ensures streamOk ==>
        messages == head + [Message(turn.botId, Model, turn.fullContent, now, Some(false))]
        && error == old(error)
      ensures !streamOk ==> messages == head && error == Some(TurnError)
    {
      var last := Placeholder(turn.botId, now).(content := turn.fullContent);
      if streamOk {
        MapByIdLast(head, last, StopStreaming);
        Finalize(turn);
      } else {
        RemoveByIdLast(head, last);
        Fail(turn);
      }
    }

    /** The `try` block after the two messages are appended: read the stream,
        then finalize the reply or, if the stream failed, remove it. */
    method Respond(turn: Turn, chunks: seq<Chunk>, streamOk: bool, ghost head: seq<Message>, ghost now: Timestamp)
      requires Valid()
      requires turn.fullContent == "" && !HasId(head, turn.botId)
      requires messages == head + [Placeholder(turn.botId, now)]
      modifies this`messages, this`error
      ensures Valid()
      ensures messages ==
        head + (if streamOk then [Message(turn.botId, Model, Accumulated(chunks), now, Some(false))] else [])
      ensures error == if streamOk then old(error) else Some(TurnError)
    {
      var done := ReadStream(turn, chunks, head, now);
      EndStream(done, streamOk, head, now);
      if !streamOk {
        assert messages == head + [];
      }
    }

    /** One whole `handleSendMessage`, run sequentially. `chunks` are the
        chunks the stream delivers, in order; `streamOk` says whether it
        then ends normally or fails (a failure before any chunk is
        `chunks == []`). When the guard passes, the list ends with the user
        message followed, on success, by a finished reply holding the
        concatenated chunk texts; on failure the reply is gone but the user
        message stays. Either way the turn ends with `isLoading` false. */
    method HandleSendMessage(userId: string, botId: string, now: Timestamp,
                             chunks: seq<Chunk>, streamOk: bool) returns (started: bool)
      requires Valid()
      requires userId != botId && !HasId(messages, userId) && !HasId(messages, botId)
      modifies this
      ensures Valid()
      ensures started == CanSend(old(inputText), old(isLoading), old(hasSession))
      ensures !started ==>
        messages == old(messages) && error == old(error) && isLoading == old(isLoading)
        && inputText == old(inputText)
      ensures started ==>
        messages == old(messages) + [UserMessage(userId, Trim(old(inputText)), now)]
          + (if streamOk then [Message(botId, Model, Accumulated(chunks), now, Some(false))] else [])
        && error == (if streamOk then None else Some(TurnError))
        && !isLoading && inputText == ""
      ensures hasSession == old(hasSession)
    {
      var begun := BeginSend(userId, botId, now);
      if begun.None? {
        return false;
      }
      started := true;
      ghost var before := old(messages) + [UserMessage(userId, Trim(old(inputText)), now)];
      FreshAfterAppend(old(messages), UserMessage(userId, Trim(old(inputText)), now), botId);
      Respond(begun.value, chunks, streamOk, before, now);
      Finish();
    }
  }

  /** No message of a list is streaming. */
  predicate AtRest(ms: seq<Message>) {
    forall i :: 0 <= i < |ms| ==> !Streaming(ms[i])
  }

  /** Whatever the stream does, a completed turn leaves no message
      streaming if none was before: at most one reply is ever in progress,
      and only while its turn runs. */
  lemma TurnLeavesListAtRest(before: seq<Message>, user: Message, reply: seq<Message>)
    requires AtRest(before) && !Streaming(user)
    requires forall k :: 0 <= k < |reply| ==> reply[k].isStreaming == Some(false)
    ensures AtRest(before + [user] + reply)
  {
    var ms := before + [user] + reply;
    forall i | 0 <= i < |ms| ensures !Streaming(ms[i]) {
      if i < |before| { assert ms[i] == before[i]; }
      else if i == |before| { assert ms[i] == user; }
      else { assert ms[i] == reply[i - |before| - 1]; }
    }
  }

  /** A client of the class: a first question answered in chunks, with a
      second send attempted while the turn is still running. */
  method HelloConversation() {
    var app := new ChatApp();
    app.Mount(true, 0);
    app.SetInput("hi");
    assert Trim("hi") != "" by { assert !IsWhiteSpace("hi"[0]); }
    var turn := app.BeginSend("u-1", "b-1", 1);
    assert turn.Some? && app.isLoading && |app.messages| == 3;

    // A second send during the turn is refused and changes nothing.
    app.SetInput("again");
    var refused := app.BeginSend("u-2", "b-2", 2);
    assert refused == None && |app.messages| == 3;
  }
}
