/** The menu state machine of `BotStates`: a map from user id to the last
    button command that user pressed, the menus, and the routing of a
    command to a reply.

    `handle_command` records the command BEFORE it routes it, so by the time
    `back` reaches `handle_back_command` the stored entry already reads
    `back`, and `back` always answers with the main menu. `staff` calls
    `get_staff_menu`, which the class does not define: the call raises, after
    the command has been recorded. */
module Dialogue {
  import opened Values
  import opened MaxApi

  /** A reply dict: `{"text": text}` or `{"text": text, "keyboard": keyboard}`. */
  datatype Reply = Reply(text: string, keyboard: Option<Keyboard>)

  /** The exceptions the handlers raise. */
  datatype Fault =
    | MissingAttribute(name: string)   // AttributeError: the object has no such method
    | UnhashableKey                    // TypeError: a list or dict used as a dict key

  /** What a call does: return a reply, or raise. */
  datatype Outcome = Returned(reply: Reply) | Raised(fault: Fault)

  const Applicants: Json := JStr("applicants")
  const Students: Json := JStr("students")
  const Staff: Json := JStr("staff")
  const Back: Json := JStr("back")
  /** The entry `handle_back_command` assumes for a user it has never seen. */
  const MainEntry: Json := JStr("main")

  const GenericText: string := "Выберите действие:"
  const ApplicantsText: string := "Прекрасно! ✨ Я вижу, ты абитуриент — значит, впереди самое интересное!\n\nВыбери, с чего начнём 👇"
  const StudentsText: string := "Привет, студент! 👋 Чем могу помочь?"
  const MainText: string := "Выберите категорию:"

  /** A menu button whose payload is the dict `{"command": command}`. */
  function MenuButton(caption: string, command: string, color: string): (b: Button)
    ensures ButtonCommand(b) == command && b.action.caption == caption && b.color == color
  {
    Button(Action("text", caption, JObj(map["command" := JStr(command)])), color)
  }

  /** The command a menu button emits when pressed ("" when its payload
      carries none). */
  function ButtonCommand(b: Button): string
  {
    var p := b.action.payload;
    if p.JObj? && "command" in p.fields && p.fields["command"].JStr? then p.fields["command"].s else ""
  }

  /** The commands of one keyboard row, in order. */
  function RowCommands(row: seq<Button>): (r: seq<string>)
    ensures |r| == |row|
  {
    seq(|row|, j requires 0 <= j < |row| => ButtonCommand(row[j]))
  }

  /** The commands of a keyboard, row by row. */
  function Commands(k: Keyboard): (r: seq<seq<string>>)
    ensures |r| == |k.buttons|
  {
    seq(|k.buttons|, i requires 0 <= i < |k.buttons| => RowCommands(k.buttons[i]))
  }

  /** `get_applicants_menu`: four one-button rows, in this order:
      faculties, admission committee, feedback, back. */
  function ApplicantsMenu(): (r: Reply)
    ensures r.text == ApplicantsText && r.keyboard.Some? && r.keyboard.value.inline
    ensures Commands(r.keyboard.value) == [["faculties"], ["admission_committee"], ["feedback"], ["back"]]
  {
    var k := Keyboard(true, [
      [MenuButton("Направления обучения", "faculties", "primary")],
      [MenuButton("Приемная комиссия", "admission_committee", "secondary")],
      [MenuButton("Выразительная кнопка", "feedback", "positive")],
      [MenuButton("Назад", "back", "negative")]]);
    assert RowCommands(k.buttons[0]) == ["faculties"];
    assert RowCommands(k.buttons[1]) == ["admission_committee"];
    assert RowCommands(k.buttons[2]) == ["feedback"];
    assert RowCommands(k.buttons[3]) == ["back"];
    assert Commands(k) == [["faculties"], ["admission_committee"], ["feedback"], ["back"]];
    Reply(ApplicantsText, Some(k))
  }

  /** `get_students_menu`: three one-button rows: schedule, study services, back. */
  function StudentsMenu(): (r: Reply)
    ensures r.text == StudentsText && r.keyboard.Some? && r.keyboard.value.inline
    ensures Commands(r.keyboard.value) == [["schedule"], ["study_services"], ["back"]]
  {
    var k := Keyboard(true, [
      [MenuButton("Расписание", "schedule", "primary")],
      [MenuButton("Учебные сервисы", "study_services", "primary")],
      [MenuButton("Назад", "back", "negative")]]);
    assert RowCommands(k.buttons[0]) == ["schedule"];
    assert RowCommands(k.buttons[1]) == ["study_services"];
    assert RowCommands(k.buttons[2]) == ["back"];
    assert Commands(k) == [["schedule"], ["study_services"], ["back"]];
    Reply(StudentsText, Some(k))
  }

  /** `get_main_menu`: three one-button rows, one per section. */
  function MainMenu(): (r: Reply)
    ensures r.text == MainText && r.keyboard.Some? && r.keyboard.value.inline
    ensures Commands(r.keyboard.value) == [["applicants"], ["students"], ["staff"]]
  {
    var k := Keyboard(true, [
      [MenuButton("Абитуриентам", "applicants", "primary")],
      [MenuButton("Студентам", "students", "primary")],
      [MenuButton("Сотрудникам университета", "staff", "primary")]]);
    assert RowCommands(k.buttons[0]) == ["applicants"];
    assert RowCommands(k.buttons[1]) == ["students"];
    assert RowCommands(k.buttons[2]) == ["staff"];
    assert Commands(k) == [["applicants"], ["students"], ["staff"]];
    Reply(MainText, Some(k))
  }

  /** `get_staff_menu` is called but never defined. */
  const StaffMenuMissing: Outcome := Raised(MissingAttribute("get_staff_menu"))

  /** `handle_back_command`: the menu of the section stored for the user,
      the main menu when nothing (or anything else) is stored. */
  function HandleBackCommand(userStates: map<Json, Json>, userId: Json): (r: Outcome)
    ensures !Hashable(userId) ==> r == Raised(UnhashableKey)
    ensures Hashable(userId) ==>
              (r == Returned(ApplicantsMenu()) <==> userId in userStates && userStates[userId] == Applicants)
    ensures Hashable(userId) ==>
              (r == Returned(StudentsMenu()) <==> userId in userStates && userStates[userId] == Students)
    ensures Hashable(userId) ==>
              (r == StaffMenuMissing <==> userId in userStates && userStates[userId] == Staff)
    ensures Hashable(userId) ==>
              (r == Returned(MainMenu()) <==>
                 userId !in userStates || userStates[userId] !in {Applicants, Students, Staff})
  {
    if !Hashable(userId) then Raised(UnhashableKey)
    else
      var previous := if userId in userStates then userStates[userId] else MainEntry;
      if previous == Applicants then Returned(ApplicantsMenu())
      else if previous == Students then Returned(StudentsMenu())
      else if previous == Staff then StaffMenuMissing
      else Returned(MainMenu())
  }

  /** Lines 13-23 of `handle_command`: the reply to `command`, given the map
      in which it has already been recorded. */
  function RouteCommand(userStates: map<Json, Json>, userId: Json, command: Json): Outcome
  {
    if command == Applicants then Returned(ApplicantsMenu())
    else if command == Students then Returned(StudentsMenu())
    else if command == Staff then StaffMenuMissing
    else if command == Back then HandleBackCommand(userStates, userId)
    else Returned(Reply(GenericText, None))
  }

  /** `handle_command` on a value: the map afterwards and the outcome. */
  function CommandStep(userStates: map<Json, Json>, userId: Json, command: Json): (r: (map<Json, Json>, Outcome))
    // an unhashable id raises at the very first statement, before anything is stored
    ensures !Hashable(userId) ==> r == (userStates, Raised(UnhashableKey))
    // every command, known or not, becomes the user's entry; no other entry changes
    ensures Hashable(userId) ==> userId in r.0 && r.0[userId] == command
    ensures forall v :: v != userId ==> (v in r.0 <==> v in userStates)
    ensures forall v :: v != userId && v in userStates ==> r.0[v] == userStates[v]
    // the routing
    ensures Hashable(userId) && command == Applicants ==> r.1 == Returned(ApplicantsMenu())
    ensures Hashable(userId) && command == Students ==> r.1 == Returned(StudentsMenu())
    ensures Hashable(userId) && command == Staff ==> r.1 == StaffMenuMissing
    // back finds its own entry, so it always yields the main menu
    ensures Hashable(userId) && command == Back ==> r.1 == Returned(MainMenu())
    ensures Hashable(userId) && command !in {Applicants, Students, Staff, Back} ==>
              r.1 == Returned(Reply(GenericText, None))
  {
    if !Hashable(userId) then (userStates, Raised(UnhashableKey))
    else
      var recorded := userStates[userId := command];
      (recorded, RouteCommand(recorded, userId, command))
  }

  /** The session store: `user_states`, updated in place by `handle_command`. */
  class BotStates {
    var userStates: map<Json, Json>

    constructor ()
      ensures userStates == map[]
    {
      userStates := map[];
    }

    /** `handle_command(user_id, command)`: record, then route. */
    method HandleCommand(userId: Json, command: Json) returns (r: Outcome)
      modifies this
      ensures (userStates, r) == CommandStep(old(userStates), userId, command)
    {
      if !Hashable(userId) {
        return Raised(UnhashableKey);
      }
      userStates := userStates[userId := command];
      r := RouteCommand(userStates, userId, command);
    }
  }

  /** The map after a series of `(user id, command)` presses, each handled by
      one `handle_command` call, in order. */
  function Replay(userStates: map<Json, Json>, presses: seq<(Json, Json)>): map<Json, Json>
  {
    if presses == [] then userStates
    else
      var last := presses[|presses| - 1];
      CommandStep(Replay(userStates, presses[..|presses| - 1]), last.0, last.1).0
  }

  /** The last command `userId` pressed in `presses`, if any. */
  function LastCommand(userId: Json, presses: seq<(Json, Json)>): Option<Json>
  {
    if presses == [] then None
    else if presses[|presses| - 1].0 == userId then Some(presses[|presses| - 1].1)
    else LastCommand(userId, presses[..|presses| - 1])
  }

  /** The session entry of a user is the last command that user pressed, or
      what was stored before if the user pressed nothing; other users'
      presses never touch it. */
  lemma {:induction false} ReplayKeepsLastCommand(userStates: map<Json, Json>, presses: seq<(Json, Json)>, userId: Json)
    requires Hashable(userId)
    ensures var after := Replay(userStates, presses);
            match LastCommand(userId, presses)
            case Some(c) => userId in after && after[userId] == c
            case None => (userId in after <==> userId in userStates) &&
                         (userId in userStates ==> after[userId] == userStates[userId])
  {
    if presses != [] {
      ReplayKeepsLastCommand(userStates, presses[..|presses| - 1], userId);
    }
  }
}
