# Dialogue state machine of the MAX university bot, in Dafny

This project models the decision logic of a chat bot that serves applicants,
students and staff of a university over the MAX messaging platform. It also
covers the bot's Telegram twin. The parts modelled are:

- **Session store and menu routing** (`bot_states.dfy`, module `Dialogue`).
  `BotStates` keeps `user_states`, a map from user id to the last button
  command that user pressed. `handle_command` records the command first and
  only then routes it:
  - `applicants` and `students` open their section menus.
  - `staff` calls `get_staff_menu`, which does not exist, so it raises after
    the command has been recorded.
  - `back` goes through `handle_back_command`.
  - Anything else gets the generic text `Выберите действие:` with no keyboard.
  
  Because the record comes first, `back` always finds `back` stored and so
  always answers with the main menu. The model states this outright
  (`CommandStep`) instead of the "return to the previous section" that the
  name suggests.
- **Waiting-flag handler of the Telegram bot** (`telegram_bot.dfy`, module
  `TelegramBot`). Each user has four flags: feedback, AI question, project
  proposal and SOP (teacher) feedback. They are examined in that order. The
  first flag that is set consumes the message. That flag, and only that one,
  is then cleared, unless it is the AI flag, which stays set. The button handler remembers the last section in
  `current_section`, then calls `handle_state`, which does not exist. The
  keyboard builder `_create_keyboard` is modelled too.
- **Webhook dispatcher** (`webhook.dfy`, module `Webhook`). It classifies an
  inbound event by `type`:
  - a confirmation echoes the configured token;
  - a start word (`/start`, `start`, `начать`, in any case) sends the welcome
    menu;
  - a button payload that is a dict with a `command` goes to `BotStates`;
  - everything else, and every call that raised, answers `'ok'`.
  
  Free text other than a start word reaches `handle_text_message`, which
  `BotStates` does not define, so nothing is sent.
- **Keyboard builder of the platform client** (`max_api.dfy`, module
  `MaxApi`): `create_keyboard` maps rows of `{label, payload, color?}` to the
  platform's keyboard shape.

Inbound payloads are decoded JSON (`Values.Json`). This makes every
`KeyError`, `TypeError` and `AttributeError` explicit: they are the lookups
that fail, and the dispatcher turns them into `'ok'`. External effects are
values. A message sent through the platform client is an `Outgoing` record
appended to `outbox`. A Telegram reply is a `Sent` record appended to
`replies`. A spreadsheet save is a `SavedRow` appended to `saved` when the
store accepts it; whether it does is a parameter.

Where the intended design and the code disagree, the model follows the
code:

- `back` yields the main menu, not the previous section.
- An unknown command gets the generic text with no keyboard, not the main
  menu.
- A start word sends the welcome menu but does not reset the session entry.
- The capture flags are four independent booleans, not one mode. Nothing in
  the code sets them; the `feedback` button only gets the generic text.
- Free text that is not a start word raises in the webhook bot. It gets no
  stub reply.

## Model

| member | source | states |
|---|---|---|
| `MaxApi.CreateKeyboard` | max_api.py:45-65 | The keyboard's `inline` equals the argument (default true). It has one row per input row and one button per input button, in order. Each button is a `text` action whose label is the input label and whose payload is the serialised input payload. Its colour is the input colour, or `primary` when there is none. |
| `Dialogue.ApplicantsMenu` | bot_states.py:25-77 | Applicants text, inline keyboard of four one-button rows with commands `faculties`, `admission_committee`, `feedback`, `back` in that order |
| `Dialogue.StudentsMenu` | bot_states.py:79-119 | Students text, inline keyboard of three one-button rows `schedule`, `study_services`, `back` |
| `Dialogue.MainMenu` | bot_states.py:134-174 | Main text, inline keyboard of three one-button rows `applicants`, `students`, `staff` |
| `Dialogue.HandleBackCommand` | bot_states.py:121-132 | The outcome depends on the stored entry. Each case below holds in both directions. `applicants` gives the applicants menu, `students` the students menu, and `staff` the missing-`get_staff_menu` error. No entry or any other value gives the main menu. An unhashable id raises. |
| `Dialogue.CommandStep` | bot_states.py:8-23 | The command, known or not, becomes the user's entry and no other entry changes. The outcome is: `applicants` and `students` give their menus; `staff` raises after recording; `back` always gives the main menu; anything else gives the generic text with no keyboard. An unhashable id raises before anything is stored. |
| `Dialogue.BotStates.constructor` | bot_states.py:5-6 | The session map starts empty |
| `Dialogue.BotStates.HandleCommand` | bot_states.py:8-23 | The new map and the outcome are those of `CommandStep` on the old map |
| `Dialogue.ReplayKeepsLastCommand` | bot_states.py:11 | After any series of presses, a user's entry is the last command that user pressed, or the old entry when they pressed nothing. Other users' presses never touch it. |
| `TelegramBot.ActiveCapture` | main.py:80-104 | The served flag is a set flag with no set flag ranked before it in the order feedback, AI, project, SOP. No flag is served only when none is set. |
| `TelegramBot.AfterMessage` | main.py:80-104 | A flag is set afterwards exactly when it was set before and was not the served one, unless the served one is the AI flag. So at most one flag changes, and the AI flag is never cleared. |
| `TelegramBot.AiQuestionHoldsForever` | main.py:86-90 | Once the AI flag is set it stays set over any number of messages. The project and SOP flags are then never served, and a pending feedback flag is gone after the first message. |
| `TelegramBot.FlagsDrain` | main.py:80-104 | Without the AI flag, as many messages as there are set flags leave no flag set |
| `TelegramBot.MaxBot.Save` | main.py:117-136 | A save appends the row when the store accepts it. Otherwise the failure is swallowed and nothing else changes. |
| `TelegramBot.MaxBot.HandleMessage` | main.py:74-104 | The flags become `AfterMessage` of the old flags, and `current_section` is unchanged. With no flag set nothing is sent or saved. Otherwise the served capture's fixed reply is sent, and its row is saved when it has a sheet and the store accepts it. A failed save still sends the reply and still clears the flag. |
| `TelegramBot.MaxBot.HandleButton` | main.py:49-62 | `current_section` becomes the pressed data exactly when it is `applicants`, `students` or `staff`, and is unchanged otherwise. The flags are unchanged. The call ends with the missing `handle_state` error. |
| `TelegramBot.CreateKeyboard` | main.py:106-115 | One row per entry. A list entry gives one button per label, in order; a single label gives a one-button row. Every button's callback data equals its label. |
| `TelegramBot.RenderResponse` | main.py:64-72 | A response whose `file` is present and non-empty is sent as that document; an empty `file` counts as absent, as Python's truthiness test does. Otherwise the text is shown with the keyboard built from the response's button entries: one row per entry, and in each row one button per label of that entry, in order, whose text and callback data are both that label. |
| `Webhook.Classify` | app.py:26-72 | A payload that is not a dict is malformed. The event is a confirmation exactly when `type` is `confirmation`, and any other type is ignored. A `message_new` payload is a new message exactly when `object.message.from_id` exists and `text` is absent or a string; otherwise it is malformed. The new message carries that id and the text, which is `""` when absent. A `message_event` payload is malformed exactly when `object.user_id` or `object.payload` is missing. A button press is forwarded exactly when `object.user_id` exists and `object.payload` is a dict with `command`, and it carries that id and command. |
| `Webhook.StartTriggerIgnoresCase` | app.py:57 | A text, its lower-case form and its upper-case form are start words alike |
| `Webhook.StartWordsTrigger` | app.py:54-57 | `/start`, `start` and `начать` trigger the welcome menu; the empty default text does not |
| `Webhook.WelcomeKeyboard` | app.py:82-116 | Inline. It has the main menu's rows, captions and colours, with each payload being the JSON string of the main-menu button's command dict. |
| `Webhook.Dispatch` | app.py:26-138 | The answer is the token for a confirmation and `'ok'` for everything else. At most one message is sent, and only a button press changes a session. A start word sends the welcome menu; other text sends nothing. A press is recorded even when it raises. It is answered unless the command is `staff` or the id is unhashable. The message sent is then the text and keyboard of the reply that `CommandStep` returned, and it carries a keyboard exactly for `applicants`, `students` and `back`. `back` sends the main menu. |
| `Webhook.MaxBot.constructor` | app.py:21-24 | The bot holds the given token and shared store and has sent nothing |
| `Webhook.MaxBot.SendMessage` | max_api.py:16-43 | One outgoing record (user, text, keyboard) is appended to the outbox |
| `Webhook.MaxBot.SendWelcomeMessage` | app.py:74-119 | Sends the welcome text with the welcome keyboard once and answers `'ok'` |
| `Webhook.MaxBot.HandleUserMessage` | app.py:132-138 | Raises the missing `handle_text_message` error and sends nothing |
| `Webhook.MaxBot.HandleNewMessage` | app.py:50-61 | A start word sends the welcome message and answers `'ok'`. Any other text sends nothing and raises. |
| `Webhook.MaxBot.HandleButtonCommand` | app.py:121-130 | The session becomes that of `CommandStep`. A returned reply is sent with its keyboard when it has one and as plain text otherwise, then `'ok'`. A raised error sends nothing and is passed on. |
| `Webhook.MaxBot.HandleWebhook` | app.py:26-48 | The new session map, the messages sent and the answer are exactly those of `Dispatch`. Any raised error becomes `'ok'`. |

## Left out

- Spreadsheet persistence is not modelled (gspread, OAuth, worksheet appends, `datetime.now()` timestamps). A save is a `SavedRow` of user, text and sheet. Whether the store accepts it is a parameter.
- `Webhook.MaxBot.SendMessage`: records that the message was handed to the platform client. It does not model the HTTP POST, the `error` field check or the boolean result. It also does not model this: max_api.py never imports `json`, so `json.dumps` at max_api.py:30 raises `NameError` for every message with a keyboard. `send_message` swallows that error, so such a message would not actually be posted.
- `MaxApi.CreateKeyboard`: `json.dumps` is the parameter `serialize`. The missing `json` import (max_api.py:59) would make the real function raise on any input with at least one button. The model describes the evidently intended mapping instead.
- `Webhook.WelcomeKeyboard`: `CommandJson` writes out `json.dumps` only for the one-key dicts with ASCII commands that the welcome keyboard uses.
- String case mapping covers Basic Latin and the Cyrillic capitals U+0400–U+042F, one character at a time. Other scripts and case mappings that change a text's length are not modelled. The start words are written in these two scripts only.
- JSON numbers are integers. Python's equality of `True` and `1` as dict keys is not modelled: `JBool(true)` and `JNum(1)` are different session keys here.
- A button input to `create_keyboard` without `label` or `payload` raises `KeyError` in Python. The model's `ButtonSpec` always has both.
- `MaxApi.ButtonSpec`: an explicit `color: None` in a button input is not modelled. Python's `button.get('color', 'primary')` would then return None, but the model's `None` stands for an absent key and gives `primary`.
- Telegram and Flask glue is not modelled:
  - main.py `start` (a fixed welcome text and keyboard sent through the Telegram library), `run` and handler registration;
  - `async`/`await`, `query.answer` and the `Markdown` parse mode;
  - the Flask routes `/webhook` and `/health`, and `jsonify`.
- If `reply_text` raised in `handle_message`, the flag would stay set. Sending cannot fail in the model.
- The webhook bot shares one `BotStates` between concurrent requests. The model handles calls one at a time.
- Logging is not modelled. config.py only reads settings from the environment and is not part of this model.
