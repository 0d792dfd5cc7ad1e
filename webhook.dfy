/** The webhook front end `MaxBot` of app.py: it classifies an inbound event
    by its `type`, answers a confirmation with the configured token, sends
    the welcome menu for a start word, hands a button command to the shared
    `BotStates`, and answers `'ok'` to everything else, including every
    event whose handling raised.

    `send_message` is an append of an Outgoing record to `outbox`. */
module Webhook {
  import opened Values
  import opened MaxApi
  import Dialogue

  const ConfirmationType: Json := JStr("confirmation")
  const MessageNewType: Json := JStr("message_new")
  const MessageEventType: Json := JStr("message_event")

  /** The texts that open the welcome menu, compared in lower case. */
  const StartWords: seq<string> := ["/start", "start", "начать"]

  const WelcomeText: string := "Привет! 👋 Я Майлз — виртуальный помощник цифрового сервиса «Я студент», созданный тремя студентами.\n\nСейчас я помогу тебе разобраться, как работает это окно. Если появятся вопросы — просто напиши мне, я с радостью помогу.\n\nВыбери категорию:"

  /** What `handle_webhook` returns: the string `'ok'`, or the confirmation
      token (None when the environment variable is unset). */
  datatype Answer = Ok | Token(token: Option<string>)

  /** An inbound event, as the handlers see it. */
  datatype Event =
    | Confirmation
    | NewMessage(userId: Json, text: string)
    | Pressed(userId: Json, command: Json)
    | Ignored      // an unknown type, or a button event without a command dict
    | Malformed    // a lookup raised KeyError, TypeError or AttributeError

  /** `j[key]` applied to the result of an earlier lookup; None when this
      lookup or an earlier one raises. */
  function At(j: Option<Json>, key: string): Option<Json>
  {
    if j.None? then None else Index(j.value, key)
  }

  /** `data.get('type')` */
  function TypeOf(data: Json): Option<Json>
  {
    GetOr(data, "type", JNull)
  }

  /** Lines 52-54 of `handle_new_message`, and the `.lower()` of line 57,
      which raises unless the text is a string. */
  function ParseNewMessage(data: Json): Event
  {
    var obj := Index(data, "object");
    if obj.None? then Malformed
    else
      var message := Index(obj.value, "message");
      if message.None? then Malformed
      else
        var userId := Index(message.value, "from_id");
        if userId.None? then Malformed
        else
          var text := GetOr(message.value, "text", JStr(""));
          if text.None? || !text.value.JStr? then Malformed
          else NewMessage(userId.value, text.value.s)
  }

  /** Lines 65-72 of `handle_button_event`: only a dict payload carrying
      `command` is forwarded. */
  function ParseButtonEvent(data: Json): Event
  {
    var obj := Index(data, "object");
    if obj.None? then Malformed
    else
      var userId := Index(obj.value, "user_id");
      if userId.None? then Malformed
      else
        var payload := Index(obj.value, "payload");
        if payload.None? then Malformed
        else if payload.value.JObj? && "command" in payload.value.fields
        then Pressed(userId.value, payload.value.fields["command"])
        else Ignored
  }

  /** The branching of `handle_webhook` on the event type. */
  function Classify(data: Json): (e: Event)
    // a payload that is not a dict has no `get`
    ensures !data.JObj? ==> e == Malformed
    ensures e == Confirmation <==> TypeOf(data) == Some(ConfirmationType)
    ensures data.JObj? && TypeOf(data).value !in {ConfirmationType, MessageNewType, MessageEventType} ==> e == Ignored
    // a new message: the sender and the text (an absent text reads as "")
    ensures e.NewMessage? ==>
              && TypeOf(data) == Some(MessageNewType)
              && At(At(At(Some(data), "object"), "message"), "from_id") == Some(e.userId)
              && (At(At(At(Some(data), "object"), "message"), "text") == Some(JStr(e.text)) ||
                  (At(At(At(Some(data), "object"), "message"), "text") == None && e.text == ""))
    // and conversely a well-formed message_new payload is a new message; anything else of that type raised
    ensures TypeOf(data) == Some(MessageNewType) ==>
              && (e.NewMessage? <==>
                    && At(At(At(Some(data), "object"), "message"), "from_id").Some?
                    && (At(At(At(Some(data), "object"), "message"), "text").None? ||
                        At(At(At(Some(data), "object"), "message"), "text").value.JStr?))
              && (e.NewMessage? || e == Malformed)
    // a button event raised exactly when it lacks `object.user_id` or `object.payload`
    ensures TypeOf(data) == Some(MessageEventType) ==>
              (e == Malformed <==>
                 At(At(Some(data), "object"), "user_id").None? || At(At(Some(data), "object"), "payload").None?)
    // a button press is forwarded exactly when its payload is a dict with a command
    ensures e.Pressed? <==>
              && TypeOf(data) == Some(MessageEventType)
              && At(At(Some(data), "object"), "user_id").Some?
              && At(At(Some(data), "object"), "payload").Some?
              && At(At(Some(data), "object"), "payload").value.JObj?
              && "command" in At(At(Some(data), "object"), "payload").value.fields
    ensures e.Pressed? ==>
              && At(At(Some(data), "object"), "user_id") == Some(e.userId)
              && At(At(At(Some(data), "object"), "payload"), "command") == Some(e.command)
  {
    var eventType := TypeOf(data);
    if eventType.None? then Malformed
    else if eventType.value == ConfirmationType then Confirmation
    else if eventType.value == MessageNewType then ParseNewMessage(data)
    else if eventType.value == MessageEventType then ParseButtonEvent(data)
    else Ignored
  }

  /** `text.lower() in ['/start', 'start', 'начать']` */
  predicate IsStartTrigger(text: string)
  {
    Lower(text) in StartWords
  }

  /** Lower-casing or upper-casing a text does not change whether it is a
      start word: a text, its lower-case form and its upper-case form
      trigger alike. */
  lemma StartTriggerIgnoresCase(text: string)
    ensures IsStartTrigger(text) == IsStartTrigger(Lower(text)) == IsStartTrigger(Upper(text))
  {
    LowerAbsorbs(text);
  }

  /** Each start word triggers the welcome menu as it is written; the empty
      text that an absent `text` field stands for does not. */
  lemma StartWordsTrigger()
    ensures forall w :: w in StartWords ==> IsStartTrigger(w)
    ensures !IsStartTrigger("")
  {
    assert Lower("/start") == "/start";
    assert Lower("start") == "start";
    assert Lower("начать") == "начать";
  }

  /** What `json.dumps({"command": command})` gives for a plain ASCII command. */
  function CommandJson(command: string): string
  {
    "{\"command\": \"" + command + "\"}"
  }

  /** A welcome button is the main-menu button with the same caption and
      colour whose command dict has been written out as a JSON string. */
  predicate SerializedTwin(welcome: Button, menu: Button)
  {
    && welcome.action.kind == menu.action.kind
    && welcome.action.caption == menu.action.caption
    && welcome.color == menu.color
    && welcome.action.payload == JStr(CommandJson(Dialogue.ButtonCommand(menu)))
  }

  /** The keyboard of `send_welcome_message`: the main menu with its
      payloads given as JSON strings. */
  function WelcomeKeyboard(): (k: Keyboard)
    ensures k.inline
    ensures var menu := Dialogue.MainMenu().keyboard.value;
            && |k.buttons| == |menu.buttons|
            && forall i :: 0 <= i < |k.buttons| ==>
                 |k.buttons[i]| == |menu.buttons[i]| == 1 && SerializedTwin(k.buttons[i][0], menu.buttons[i][0])
  {
    Keyboard(true, [
      [Button(Action("text", "Абитуриентам", JStr("{\"command\": \"applicants\"}")), "primary")],
      [Button(Action("text", "Студентам", JStr("{\"command\": \"students\"}")), "primary")],
      [Button(Action("text", "Сотрудникам университета", JStr("{\"command\": \"staff\"}")), "primary")]])
  }

  /** The effect of one webhook call, as values. */
  datatype Step = Step(userStates: map<Json, Json>, sent: seq<Outgoing>, answer: Answer)

  /** `handle_webhook` on values: the session map afterwards, the messages
      sent and the answer. */
  function Dispatch(token: Option<string>, userStates: map<Json, Json>, data: Json): (r: Step)
    // the confirmation echoes the token; every other call, whatever happened, answers 'ok'
    ensures r.answer == (if Classify(data) == Confirmation then Token(token) else Ok)
    // at most one message per call; only a button press changes a session
    ensures |r.sent| <= 1
    ensures !Classify(data).Pressed? ==> r.userStates == userStates
    // a start word sends the welcome menu; any other text raises before sending
    ensures Classify(data).NewMessage? ==>
              r.sent == (if IsStartTrigger(Classify(data).text)
                         then [Outgoing(Classify(data).userId, WelcomeText, Some(WelcomeKeyboard()))] else [])
    // a press is recorded even when handling it raises; it is answered unless
    // `staff` (no staff menu) or an unhashable id made it raise
    ensures Classify(data).Pressed? ==>
              var e := Classify(data);
              && r.userStates == Dialogue.CommandStep(userStates, e.userId, e.command).0
              && (r.sent != [] <==> Hashable(e.userId) && e.command != Dialogue.Staff)
              && (r.sent != [] ==>
                    && r.sent[0].userId == e.userId
                    && (r.sent[0].keyboard.Some? <==> e.command in {Dialogue.Applicants, Dialogue.Students, Dialogue.Back}))
    // the message sent is the reply BotStates returned, text and keyboard
    ensures Classify(data).Pressed? ==>
              var e := Classify(data);
              var outcome := Dialogue.CommandStep(userStates, e.userId, e.command).1;
              outcome.Returned? ==> r.sent == [Outgoing(e.userId, outcome.reply.text, outcome.reply.keyboard)]
    ensures Classify(data).Pressed? && Classify(data).command == Dialogue.Back && Hashable(Classify(data).userId) ==>
              r.sent == [Outgoing(Classify(data).userId, Dialogue.MainText, Dialogue.MainMenu().keyboard)]
    ensures Classify(data) in {Confirmation, Ignored, Malformed} ==> r.sent == []
  {
    match Classify(data)
    case Confirmation => Step(userStates, [], Token(token))
    case NewMessage(userId, text) =>
      if IsStartTrigger(text) then Step(userStates, [Outgoing(userId, WelcomeText, Some(WelcomeKeyboard()))], Ok)
      else Step(userStates, [], Ok)
    case Pressed(userId, command) =>
      var (after, outcome) := Dialogue.CommandStep(userStates, userId, command);
      if outcome.Returned?
      then Step(after, [Outgoing(userId, outcome.reply.text, outcome.reply.keyboard)], Ok)
      else Step(after, [], Ok)
    case Ignored => Step(userStates, [], Ok)
    case Malformed => Step(userStates, [], Ok)
  }

  /** What a handler does: return an answer, or raise. */
  datatype Handled = Done(answer: Answer) | Threw(fault: Dialogue.Fault)

  /** The webhook bot, holding the token from the environment, the shared
      session store and the messages sent so far. */
  class MaxBot {
    const confirmationToken: Option<string>
    const states: Dialogue.BotStates
    var outbox: seq<Outgoing>

    constructor (confirmationToken: Option<string>, states: Dialogue.BotStates)
      ensures this.confirmationToken == confirmationToken && this.states == states && outbox == []
    {
      this.confirmationToken := confirmationToken;
      this.states := states;
      outbox := [];
    }

    /** `max_api.send_message(user_id, message, keyboard)` */
    method SendMessage(userId: Json, message: string, keyboard: Option<Keyboard>)
      modifies this
      ensures outbox == old(outbox) + [Outgoing(userId, message, keyboard)]
    {
      outbox := outbox + [Outgoing(userId, message, keyboard)];
    }

    /** `send_welcome_message` */
    method SendWelcomeMessage(userId: Json) returns (h: Handled)
      modifies this
      ensures outbox == old(outbox) + [Outgoing(userId, WelcomeText, Some(WelcomeKeyboard()))]
      ensures h == Done(Ok)
    {
      SendMessage(userId, WelcomeText, Some(WelcomeKeyboard()));
      h := Done(Ok);
    }

    /** `handle_user_message`: `bot_states.handle_text_message` does not
        exist, so the call raises before anything is sent. */
    method HandleUserMessage(userId: Json, text: string) returns (h: Handled)
      ensures h == Threw(Dialogue.MissingAttribute("handle_text_message"))
    {
      h := Threw(Dialogue.MissingAttribute("handle_text_message"));
    }

    /** `handle_new_message`, after its lookups succeeded. */
    method HandleNewMessage(userId: Json, text: string) returns (h: Handled)
      modifies this
      ensures outbox == old(outbox) + (if IsStartTrigger(text)
                                       then [Outgoing(userId, WelcomeText, Some(WelcomeKeyboard()))] else [])
      ensures h == (if IsStartTrigger(text) then Done(Ok)
                    else Threw(Dialogue.MissingAttribute("handle_text_message")))
    {
      if IsStartTrigger(text) {
        h := SendWelcomeMessage(userId);
      } else {
        h := HandleUserMessage(userId, text);
      }
    }

    /** `handle_button_command`: the reply goes out with its keyboard when it
        has one, as plain text otherwise. */
    method HandleButtonCommand(userId: Json, command: Json) returns (h: Handled)
      modifies this, states
      ensures var (after, outcome) := Dialogue.CommandStep(old(states.userStates), userId, command);
              && states.userStates == after
              && match outcome
                 case Returned(reply) =>
                   outbox == old(outbox) + [Outgoing(userId, reply.text, reply.keyboard)] && h == Done(Ok)
                 case Raised(fault) => outbox == old(outbox) && h == Threw(fault)
    {
      var response := states.HandleCommand(userId, command);
      match response
      case Raised(fault) =>
        h := Threw(fault);
      case Returned(reply) =>
        if reply.keyboard.Some? {
          SendMessage(userId, reply.text, reply.keyboard);
        } else {
          SendMessage(userId, reply.text, None);
        }
        h := Done(Ok);
    }

    /** `handle_webhook(data)`: an exception from any handler becomes 'ok'. */
    method HandleWebhook(data: Json) returns (answer: Answer)
      modifies this, states
      ensures var step := Dispatch(confirmationToken, old(states.userStates), data);
              && states.userStates == step.userStates
              && outbox == old(outbox) + step.sent
              && answer == step.answer
    {
      var h: Handled;
      match Classify(data) {
        case Confirmation =>
          h := Done(Token(confirmationToken));
        case NewMessage(userId, text) =>
          h := HandleNewMessage(userId, text);
        case Pressed(userId, command) =>
          h := HandleButtonCommand(userId, command);
        case Ignored =>
          h := Done(Ok);
        case Malformed =>
          h := Done(Ok);
      }
      answer := if h.Done? then h.answer else Ok;
    }
  }
}
