/** The Telegram front end `MaxBot` of main.py: per-user "waiting" flags that
    route the next free-text message to a capture, the one-slot
    `current_section` kept by the button handler, and the inline keyboard
    builder.

    A user's `context.user_data` dict is the class UserData; a flag that was
    never set reads as False, as `dict.get` returns None for it. Saving to a
    sheet never raises (both layers catch every exception), so a save is an
    append to `saved` that happens when the store accepts it and is skipped
    otherwise; replies sent with `reply_text` are appended to `replies`. */
module TelegramBot {
  import opened Values
  import Dialogue

  const FeedbackThanks: string := "Спасибо за отзыв! 💫"
  const ProjectThanks: string := "Спасибо за предложение проекта! 🚀"
  const SopThanks: string := "Благодарим за оценку! 📝"
  /** The fixed answer of the AI stub `_get_ai_response`. */
  const AiDemoAnswer: string := "Это демо-ответ от ИИ помощника. В реальной версии здесь будет интеграция с вашей базой знаний."

  /** The four waiting flags of one user. */
  datatype Waiting = Waiting(feedback: bool, aiQuestion: bool, projectProposal: bool, sopFeedback: bool)

  /** The capture a waiting flag stands for. */
  datatype Capture = FeedbackCapture | AiCapture | ProjectCapture | SopCapture

  /** The sheets the captures are saved to. */
  datatype Sheet = FeedbackSheet | ProjectsSheet | SopSheet

  /** One row handed to the spreadsheet store. */
  datatype SavedRow = SavedRow(userId: int, text: string, sheet: Sheet)

  /** One `reply_text` in the user's chat. */
  datatype Sent = Sent(userId: int, text: string)

  predicate IsSet(w: Waiting, c: Capture)
  {
    match c
    case FeedbackCapture => w.feedback
    case AiCapture => w.aiQuestion
    case ProjectCapture => w.projectProposal
    case SopCapture => w.sopFeedback
  }

  /** The order in which handle_message examines the flags (lower first). */
  function Rank(c: Capture): nat
  {
    match c
    case FeedbackCapture => 0
    case AiCapture => 1
    case ProjectCapture => 2
    case SopCapture => 3
  }

  /** The capture handle_message serves: the set flag of lowest rank, none
      when no flag is set. */
  function ActiveCapture(w: Waiting): (r: Option<Capture>)
    ensures r.None? ==> forall c :: !IsSet(w, c)
    ensures r.Some? ==> IsSet(w, r.value) && forall c :: IsSet(w, c) ==> Rank(r.value) <= Rank(c)
  {
    if w.feedback then Some(FeedbackCapture)
    else if w.aiQuestion then Some(AiCapture)
    else if w.projectProposal then Some(ProjectCapture)
    else if w.sopFeedback then Some(SopCapture)
    else None
  }

  /** Whether serving a capture clears its flag: every one but the AI question. */
  predicate ClearsFlag(c: Capture)
  {
    c != AiCapture
  }

  /** The flags after one text message. */
  function AfterMessage(w: Waiting): (r: Waiting)
    // only the served flag can change, and it is cleared unless it is the AI one
    ensures forall c :: IsSet(r, c) <==> IsSet(w, c) && !(ActiveCapture(w) == Some(c) && ClearsFlag(c))
  {
    match ActiveCapture(w)
    case None => w
    case Some(FeedbackCapture) => w.(feedback := false)
    case Some(AiCapture) => w
    case Some(ProjectCapture) => w.(projectProposal := false)
    case Some(SopCapture) => w.(sopFeedback := false)
  }

  /** The flags after `n` text messages in a row. */
  function AfterMessages(w: Waiting, n: nat): Waiting
    decreases n
  {
    if n == 0 then w else AfterMessages(AfterMessage(w), n - 1)
  }

  /** How many flags are set. */
  function SetCount(w: Waiting): nat
  {
    (if w.feedback then 1 else 0) + (if w.aiQuestion then 1 else 0) +
    (if w.projectProposal then 1 else 0) + (if w.sopFeedback then 1 else 0)
  }

  /** Nothing clears the AI flag: once it is set, every later message goes to
      the AI stub (after at most one pending feedback), and the project and
      SOP flags are never served. */
  lemma {:induction false} AiQuestionHoldsForever(w: Waiting, n: nat)
    requires w.aiQuestion
    ensures var r := AfterMessages(w, n);
            r.aiQuestion && r.projectProposal == w.projectProposal && r.sopFeedback == w.sopFeedback &&
            (n > 0 ==> !r.feedback)
    decreases n
  {
    if n > 0 {
      AiQuestionHoldsForever(AfterMessage(w), n - 1);
    }
  }

  /** Without the AI flag every message clears one flag, so as many messages
      as there are set flags leave none set. */
  lemma {:induction false} FlagsDrain(w: Waiting, n: nat)
    requires !w.aiQuestion && n >= SetCount(w)
    ensures AfterMessages(w, n) == Waiting(false, false, false, false)
    decreases n
  {
    if n > 0 {
      FlagsDrain(AfterMessage(w), n - 1);
    }
  }

  /** The reply that serving a capture sends. */
  function ReplyText(c: Capture): string
  {
    match c
    case FeedbackCapture => FeedbackThanks
    case AiCapture => AiDemoAnswer
    case ProjectCapture => ProjectThanks
    case SopCapture => SopThanks
  }

  /** The sheet a capture is saved to; the AI question is not saved. */
  function SheetOf(c: Capture): (r: Option<Sheet>)
    ensures r.None? <==> c == AiCapture
  {
    match c
    case FeedbackCapture => Some(FeedbackSheet)
    case AiCapture => None
    case ProjectCapture => Some(ProjectsSheet)
    case SopCapture => Some(SopSheet)
  }

  /** `context.user_data` of one user. */
  class UserData {
    var waitingFeedback: bool
    var waitingAiQuestion: bool
    var waitingProjectProposal: bool
    var waitingSopFeedback: bool
    var currentSection: Option<string>

    /** A user the bot has not seen yet: an empty dict. */
    constructor ()
      ensures Flags() == Waiting(false, false, false, false) && currentSection == None
    {
      waitingFeedback, waitingAiQuestion := false, false;
      waitingProjectProposal, waitingSopFeedback := false, false;
      currentSection := None;
    }

    function Flags(): Waiting
      reads this
    {
      Waiting(waitingFeedback, waitingAiQuestion, waitingProjectProposal, waitingSopFeedback)
    }
  }

  /** The sections whose buttons `handle_button` remembers. */
  const Sections: seq<string> := ["applicants", "students", "staff"]

  /** One entry of the `buttons` list of a reply: a list of labels (one
      keyboard row) or a single label (a row of its own). */
  datatype ButtonEntry = LabelRow(labels: seq<string>) | Single(caption: string)

  /** `InlineKeyboardButton(text, callback_data=data)` */
  datatype InlineButton = InlineButton(text: string, callbackData: string)

  /** The labels of a button entry, in order. */
  function EntryLabels(e: ButtonEntry): seq<string>
  {
    match e
    case LabelRow(ls) => ls
    case Single(c) => [c]
  }

  /** A response dict of the (absent) state handler: its `text`, an optional
      `file` and its `buttons` (absent ones read as []). */
  datatype StateResponse = StateResponse(text: string, file: Option<string>, buttons: seq<ButtonEntry>)

  /** What handle_button shows: a document, or an edited message with a keyboard. */
  datatype Rendered = Document(file: string) | EditedText(text: string, markup: seq<seq<InlineButton>>)

  /** `_create_keyboard(buttons)`: one row per entry; every button's
      callback data is its label. */
  method CreateKeyboard(buttons: seq<ButtonEntry>) returns (keyboard: seq<seq<InlineButton>>)
    ensures |keyboard| == |buttons|
    ensures forall i :: 0 <= i < |buttons| ==> |keyboard[i]| == |EntryLabels(buttons[i])|
    ensures forall i, j :: 0 <= i < |buttons| && 0 <= j < |keyboard[i]| ==>
              keyboard[i][j] == InlineButton(EntryLabels(buttons[i])[j], EntryLabels(buttons[i])[j])
  {
    keyboard := [];
    for i := 0 to |buttons|
      invariant |keyboard| == i
      invariant forall k :: 0 <= k < i ==> |keyboard[k]| == |EntryLabels(buttons[k])|
      invariant forall k, j :: 0 <= k < i && 0 <= j < |keyboard[k]| ==>
                  keyboard[k][j] == InlineButton(EntryLabels(buttons[k])[j], EntryLabels(buttons[k])[j])
    {
      match buttons[i]
      case LabelRow(labels) =>
        var row := seq(|labels|, j requires 0 <= j < |labels| => InlineButton(labels[j], labels[j]));
        keyboard := keyboard + [row];
      case Single(caption) =>
        keyboard := keyboard + [[InlineButton(caption, caption)]];
    }
  }

  /** Lines 64-72 of handle_button: a response with a non-empty file is sent
      as a document (an empty string is falsy, like an absent file); any
      other is shown as text with its buttons as keyboard. */
  method RenderResponse(response: StateResponse) returns (out: Rendered)
    ensures out.Document? <==> response.file.Some? && response.file.value != ""
    ensures out.Document? ==> out.file == response.file.value
    ensures out.EditedText? ==> out.text == response.text && |out.markup| == |response.buttons|
    ensures out.EditedText? ==> forall i :: 0 <= i < |response.buttons| ==>
              |out.markup[i]| == |EntryLabels(response.buttons[i])|
    ensures out.EditedText? ==> forall i, j :: 0 <= i < |response.buttons| && 0 <= j < |out.markup[i]| ==>
              out.markup[i][j] == InlineButton(EntryLabels(response.buttons[i])[j], EntryLabels(response.buttons[i])[j])
  {
    if response.file.Some? && response.file.value != "" {
      out := Document(response.file.value);
    } else {
      var keyboard := CreateKeyboard(response.buttons);
      out := EditedText(response.text, keyboard);
    }
  }

  /** The Telegram bot, with the effects it has: rows saved and replies sent. */
  class MaxBot {
    var saved: seq<SavedRow>
    var replies: seq<Sent>

    constructor ()
      ensures saved == [] && replies == []
    {
      saved, replies := [], [];
    }

    /** `_save_feedback`, `_save_project_proposal`, `_save_sop_feedback`: the
        row reaches the sheet when the store accepts it; a failure is logged
        and swallowed. */
    method Save(row: SavedRow, storeAccepts: bool)
      modifies this
      ensures saved == old(saved) + (if storeAccepts then [row] else [])
      ensures replies == old(replies)
    {
      if storeAccepts {
        saved := saved + [row];
      }
    }

    /** `handle_message`: the set flag of highest priority consumes the
        message; a failed save changes neither the reply nor the flag. */
    method HandleMessage(userId: int, message: string, userData: UserData, storeAccepts: bool)
      modifies this, userData
      ensures userData.Flags() == AfterMessage(old(userData.Flags()))
      ensures userData.currentSection == old(userData.currentSection)
      ensures match ActiveCapture(old(userData.Flags()))
              case None => replies == old(replies) && saved == old(saved)
              case Some(c) =>
                && replies == old(replies) + [Sent(userId, ReplyText(c))]
                && saved == old(saved) + (if storeAccepts && SheetOf(c).Some?
                                           then [SavedRow(userId, message, SheetOf(c).value)] else [])
    {
      if userData.waitingFeedback {
        Save(SavedRow(userId, message, FeedbackSheet), storeAccepts);
        replies := replies + [Sent(userId, FeedbackThanks)];
        userData.waitingFeedback := false;
        return;
      }
      if userData.waitingAiQuestion {
        replies := replies + [Sent(userId, AiDemoAnswer)];
        return;
      }
      if userData.waitingProjectProposal {
        Save(SavedRow(userId, message, ProjectsSheet), storeAccepts);
        replies := replies + [Sent(userId, ProjectThanks)];
        userData.waitingProjectProposal := false;
        return;
      }
      if userData.waitingSopFeedback {
        Save(SavedRow(userId, message, SopSheet), storeAccepts);
        replies := replies + [Sent(userId, SopThanks)];
        userData.waitingSopFeedback := false;
        return;
      }
    }

    /** `handle_button`: a section button is remembered in `current_section`;
        then `self.states.handle_state`, which BotStates does not define,
        raises, so nothing is shown. */
    method HandleButton(data: string, userData: UserData) returns (fault: Dialogue.Fault)
      modifies userData
      ensures userData.currentSection == (if data in Sections then Some(data) else old(userData.currentSection))
      ensures userData.Flags() == old(userData.Flags())
      ensures fault == Dialogue.MissingAttribute("handle_state")
    {
      if data in Sections {
        userData.currentSection := Some(data);
      }
      fault := Dialogue.MissingAttribute("handle_state");
    }
  }
}
