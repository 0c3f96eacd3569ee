/** The chat screen: the conversation under way (`messages`), the text box
    (`input`) and whether the rating dialog is open (`showModal`), with the
    handlers that change them, and the rating dialog itself. */
module ChatInterface {
  import opened Records
  import App

  /** `Date.now()`: each reading is at least the one before. */
  class Clock {
    var now: int

    constructor (start: int)
      ensures now == start
    {
      now := start;
    }

    method Now() returns (t: int)
      modifies this
      ensures old(now) <= t && now == t
    {
      var next :| next >= now;
      now := next;
      t := next;
    }
  }

  /** The shape asks give the conversation: (user, AI) pairs in that order;
      in each pair the AI text is the responder's answer to the user text
      and the AI id is larger than the user id; an AI message always has a
      likes field. */
  ghost predicate Conversation(ms: seq<Message>, respond: string -> string) {
    && |ms| % 2 == 0
    && (forall i :: 0 <= i < |ms| ==> ms[i].role == (if i % 2 == 0 then User else Ai))
    && (forall i :: 0 <= i < |ms| && i % 2 == 1 ==>
          ms[i].text == respond(ms[i - 1].text) && ms[i - 1].id < ms[i].id)
    && (forall i :: 0 <= i < |ms| && ms[i].role == Ai ==> ms[i].likes != Undefined)
  }

  /** Appending one ask's pair keeps the conversation's shape. */
  lemma AskKeepsConversation(ms: seq<Message>, respond: string -> string,
                              userMsg: Message, aiMsg: Message)
    requires Conversation(ms, respond)
    requires userMsg.role == User && aiMsg.role == Ai && aiMsg.likes == Null
    requires aiMsg.text == respond(userMsg.text) && userMsg.id < aiMsg.id
    ensures Conversation(ms + [userMsg, aiMsg], respond)
  {
  }

  /** `handleLikeDislike`'s map: every message whose id is `msgId` gets the
      verdict; nothing else about any message changes. */
  function SetLikes(ms: seq<Message>, msgId: int, verdict: Verdict): (r: seq<Message>)
    ensures |r| == |ms|
    ensures forall i :: 0 <= i < |ms| ==>
              && r[i].role == ms[i].role && r[i].text == ms[i].text
              && r[i].id == ms[i].id && r[i].timestamp == ms[i].timestamp
    ensures forall i :: 0 <= i < |ms| && ms[i].id == msgId ==> r[i].likes == Given(verdict)
    ensures forall i :: 0 <= i < |ms| && ms[i].id != msgId ==> r[i] == ms[i]
  {
    if ms == [] then []
    else
      var head := if ms[0].id == msgId then ms[0].(likes := Given(verdict)) else ms[0];
      [head] + SetLikes(ms[1..], msgId, verdict)
  }

  /** An id that no message carries leaves the conversation identical. */
  lemma SetLikesAbsent(ms: seq<Message>, msgId: int, verdict: Verdict)
    requires forall i :: 0 <= i < |ms| ==> ms[i].id != msgId
    ensures SetLikes(ms, msgId, verdict) == ms
  {
  }

  /** A later verdict on the same id replaces an earlier one. */
  lemma SetLikesLastWins(ms: seq<Message>, msgId: int, first: Verdict, second: Verdict)
    ensures SetLikes(SetLikes(ms, msgId, first), msgId, second) == SetLikes(ms, msgId, second)
  {
  }

  /** Clicking the same thumb twice is the same as clicking it once. */
  lemma SetLikesIdempotent(ms: seq<Message>, msgId: int, verdict: Verdict)
    ensures SetLikes(SetLikes(ms, msgId, verdict), msgId, verdict) == SetLikes(ms, msgId, verdict)
  {
    SetLikesLastWins(ms, msgId, verdict, verdict);
  }

  /** Up, then down on the same id: no message with that id is left up;
      every one of them is down. */
  lemma UpThenDown(ms: seq<Message>, msgId: int)
    ensures forall i :: 0 <= i < |ms| && ms[i].id == msgId ==>
              SetLikes(SetLikes(ms, msgId, Up), msgId, Down)[i].likes == Given(Down)
    ensures forall i :: 0 <= i < |ms| && ms[i].likes != Given(Up) ==>
              SetLikes(SetLikes(ms, msgId, Up), msgId, Down)[i].likes != Given(Up)
  {
    SetLikesLastWins(ms, msgId, Up, Down);
  }

  /** Verdicts on two different ids do not interfere. */
  lemma SetLikesCommute(ms: seq<Message>, a: int, va: Verdict, b: int, vb: Verdict)
    requires a != b
    ensures SetLikes(SetLikes(ms, a, va), b, vb) == SetLikes(SetLikes(ms, b, vb), a, va)
  {
  }

  /** A verdict keeps the conversation's shape: it touches only likes. */
  lemma SetLikesKeepsConversation(ms: seq<Message>, respond: string -> string, msgId: int, verdict: Verdict)
    requires Conversation(ms, respond)
    ensures Conversation(SetLikes(ms, msgId, verdict), respond)
  {
    var r := SetLikes(ms, msgId, verdict);
    forall i | 0 <= i < |r| && r[i].role == Ai ensures r[i].likes != Undefined {
      if ms[i].id != msgId { assert r[i] == ms[i]; }
    }
  }

  /** Ids are clock readings, so they are not unique across asks: two asks
      whose four readings all return `t` give both pairs the ids `t` and
      `t + 1`, and a thumbs click on the first AI message marks the second
      one as well. */
  lemma SameMillisecondIdsCollide(t: int, respond: string -> string, q1: string, q2: string, stamp: string)
    ensures var ms := [Message(User, q1, t, stamp, Undefined), Message(Ai, respond(q1), t + 1, stamp, Null),
                       Message(User, q2, t, stamp, Undefined), Message(Ai, respond(q2), t + 1, stamp, Null)];
            && Conversation(ms, respond)
            && ms[1].id == ms[3].id
            && SetLikes(ms, ms[1].id, Up)[3].likes == Given(Up)
  {
    var ms := [Message(User, q1, t, stamp, Undefined), Message(Ai, respond(q1), t + 1, stamp, Null)];
    AskKeepsConversation([], respond, ms[0], ms[1]);
    AskKeepsConversation(ms, respond, Message(User, q2, t, stamp, Undefined),
                         Message(Ai, respond(q2), t + 1, stamp, Null));
  }

  /** The `ChatInterface` component's state. `respond` is `findResponse`;
      `clock` is what `Date.now()` reads. */
  class ActiveSession {
    const respond: string -> string
    const clock: Clock
    var messages: seq<Message>
    var input: string
    var showModal: bool

    /** The conversation has its shape, and the rating dialog is only ever
        open over a non-empty conversation. */
    ghost predicate Valid()
      reads this
    {
      Conversation(messages, respond) && (showModal ==> messages != [])
    }

    constructor (respond: string -> string, clock: Clock)
      ensures Valid()
      ensures this.respond == respond && this.clock == clock
      ensures messages == [] && input == "" && !showModal
    {
      this.respond := respond;
      this.clock := clock;
      messages := [];
      input := "";
      showModal := false;
    }

    /** The text box's `onChange`. */
    method SetInput(value: string)
      requires Valid()
      modifies this
      ensures Valid()
      ensures input == value && messages == old(messages) && showModal == old(showModal)
    {
      input := value;
    }

    /** `handleAsk`. Blank input changes nothing. Otherwise the user message
        (the raw input) and then the AI message (the responder's answer,
        likes null) are appended, and the text box is cleared. The user id
        is one clock reading, the AI id a later reading plus one.
        `userStamp` and `aiStamp` are the two hour:minute labels. */
    method HandleAsk(userStamp: string, aiStamp: string)
      requires Valid()
      modifies this, clock
      ensures Valid()
      ensures showModal == old(showModal)
      ensures Blank(old(input)) ==>
                messages == old(messages) && input == old(input) && clock.now == old(clock.now)
      ensures !Blank(old(input)) ==>
                var n := |old(messages)|;
                && |messages| == n + 2
                && messages[..n] == old(messages)
                && messages[n] == Message(User, old(input), messages[n].id, userStamp, Undefined)
                && messages[n + 1] == Message(Ai, respond(old(input)), clock.now + 1, aiStamp, Null)
                && old(clock.now) <= messages[n].id <= clock.now
                && input == ""
    {
      TrimEmptyIffBlank(input);
      if Trim(input) == [] {
        return;
      }
      var userId := clock.Now();
      var userMsg := Message(User, input, userId, userStamp, Undefined);
      var aiResponseText := respond(input);
      var aiId := clock.Now();
      var aiMsg := Message(Ai, aiResponseText, aiId + 1, aiStamp, Null);
      AskKeepsConversation(messages, respond, userMsg, aiMsg);
      messages := messages + [userMsg, aiMsg];
      input := "";
    }

    /** `handleLikeDislike`: the verdict lands on every message with that id. */
    method HandleLikeDislike(msgId: int, verdict: Verdict)
      requires Valid()
      modifies this
      ensures Valid()
      ensures messages == SetLikes(old(messages), msgId, verdict)
      ensures input == old(input) && showModal == old(showModal)
    {
      SetLikesKeepsConversation(messages, respond, msgId, verdict);
      messages := SetLikes(messages, msgId, verdict);
    }

    /** `handleSaveChat`: opens the rating dialog only over a non-empty
        conversation; an empty one leaves the dialog as it was (closed). */
    method HandleSaveChat()
      requires Valid()
      modifies this
      ensures Valid()
      ensures showModal == (old(showModal) || messages != [])
      ensures messages == old(messages) && input == old(input)
    {
      if |messages| > 0 {
        showModal := true;
      }
    }

    /** The dialog's close button. */
    method CloseModal()
      requires Valid()
      modifies this
      ensures Valid()
      ensures !showModal && messages == old(messages) && input == old(input)
    {
      showModal := false;
    }

    /** `finalizeSave`, reached only from the open dialog: the record holds
        the conversation as it stands, the given rating and feedback, a clock
        reading as id and `date` (the locale date label); it goes to the
        front of the history, and the chat screen is emptied and the dialog
        closed. */
    method FinalizeSave(app: App.AppState, rating: int, feedbackText: string, date: string)
      requires Valid() && app.Valid() && showModal
      modifies this, clock, app, app.store
      ensures Valid() && app.Valid()
      ensures old(messages) != []
      ensures old(clock.now) <= clock.now
      ensures app.savedChats
              == [ChatRecord(clock.now, date, old(messages), Some(rating), feedbackText)] + old(app.savedChats)
      ensures app.store.items == old(app.store.items)[App.StorageKey := app.serialize(app.savedChats)]
      ensures messages == [] && !showModal && input == old(input)
    {
      var id := clock.Now();
      var chatSession := ChatRecord(id, date, messages, Some(rating), feedbackText);
      app.AddChat(chatSession);
      messages := [];
      showModal := false;
    }
  }

  /** `FeedbackModal`: the star rating (0 until a star is clicked, then the
      last star clicked) and the comment text. */
  class FeedbackModal {
    var rating: int
    var feedback: string
    ghost var starClicked: bool

    ghost predicate Valid()
      reads this
    {
      0 <= rating <= 5 && (rating == 0 <==> !starClicked)
    }

    constructor ()
      ensures Valid() && rating == 0 && feedback == "" && !starClicked
    {
      rating := 0;
      feedback := "";
      starClicked := false;
    }

    /** One of the five star buttons. */
    method ClickStar(star: int)
      requires Valid() && 1 <= star <= 5
      modifies this
      ensures Valid() && rating == star && starClicked && feedback == old(feedback)
    {
      rating := star;
      starClicked := true;
    }

    /** The comment box's `onChange`. */
    method EditFeedback(text: string)
      requires Valid()
      modifies this
      ensures Valid() && feedback == text
      ensures rating == old(rating) && starClicked == old(starClicked)
    {
      feedback := text;
    }

    /** What "Submit Feedback" hands to `onSave`: a rating from 0 to 5, 0
        exactly when no star was clicked, and the comment text. */
    method Submit() returns (stars: int, comments: string)
      requires Valid()
      ensures 0 <= stars <= 5
      ensures stars == 0 <==> !starClicked
      ensures stars == rating && comments == feedback
    {
      stars := rating;
      comments := feedback;
    }

    /** "Submit Feedback" wired to `finalizeSave`: the saved record carries
        this dialog's rating, within 0 to 5, its comment text, a clock
        reading as id and the date label; the text box is kept. */
    method SubmitTo(session: ActiveSession, app: App.AppState, date: string)
      requires Valid() && session.Valid() && app.Valid() && session.showModal
      modifies session, session.clock, app, app.store
      ensures session.Valid() && app.Valid()
      ensures |app.savedChats| == |old(app.savedChats)| + 1 && app.savedChats[1..] == old(app.savedChats)
      ensures app.savedChats[0].messages == old(session.messages) != []
      ensures app.savedChats[0].rating == Some(rating) && 0 <= rating <= 5
      ensures app.savedChats[0].feedback == feedback
      ensures app.savedChats[0]
              == ChatRecord(session.clock.now, date, old(session.messages), Some(rating), feedback)
      ensures app.store.items == old(app.store.items)[App.StorageKey := app.serialize(app.savedChats)]
      ensures session.messages == [] && !session.showModal && session.input == old(session.input)
    {
      var stars, comments := Submit();
      session.FinalizeSave(app, stars, comments, date);
    }
  }
}
