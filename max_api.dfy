/** The messaging platform's keyboard shape, the record of one outgoing
    message, and `MaxAPI.create_keyboard`, which builds a platform keyboard
    from rows of `{label, payload, color?}` descriptions. */
module MaxApi {
  import opened Values

  /** `{"type": kind, "label": caption, "payload": payload}` */
  datatype Action = Action(kind: string, caption: string, payload: Json)

  /** `{"action": action, "color": color}` */
  datatype Button = Button(action: Action, color: string)

  /** `{"inline": inline, "buttons": [[button, ...], ...]}` */
  datatype Keyboard = Keyboard(inline: bool, buttons: seq<seq<Button>>)

  /** One call of `send_message(user_id, message, keyboard=None)`, as it is
      handed to the platform client. */
  datatype Outgoing = Outgoing(userId: Json, message: string, keyboard: Option<Keyboard>)

  /** One input button of create_keyboard: `label` (caption), `payload` and an optional `color`. */
  datatype ButtonSpec = ButtonSpec(caption: string, payload: Json, color: Option<string>)

  const DefaultColor: string := "primary"

  /** The platform button that create_keyboard makes of `spec`: a text action
      with the spec's label and serialised payload, in the spec's colour or
      the default one. */
  predicate Converts(spec: ButtonSpec, b: Button, serialize: Json -> string)
  {
    && b.action.kind == "text"
    && b.action.caption == spec.caption
    && b.action.payload == JStr(serialize(spec.payload))
    && b.color == (if spec.color.Some? then spec.color.value else DefaultColor)
  }

  /** create_keyboard(buttons, inline=True): one output row per input row,
      one output button per input button, in order. `serialize` stands for
      `json.dumps`. */
  method CreateKeyboard(buttons: seq<seq<ButtonSpec>>, serialize: Json -> string, inline: bool := true)
    returns (keyboard: Keyboard)
    ensures keyboard.inline == inline
    ensures |keyboard.buttons| == |buttons|
    ensures forall i :: 0 <= i < |buttons| ==> |keyboard.buttons[i]| == |buttons[i]|
    ensures forall i, j :: 0 <= i < |buttons| && 0 <= j < |buttons[i]| ==>
              Converts(buttons[i][j], keyboard.buttons[i][j], serialize)
  {
    var rows: seq<seq<Button>> := [];
    for i := 0 to |buttons|
      invariant |rows| == i
      invariant forall k :: 0 <= k < i ==> |rows[k]| == |buttons[k]|
      invariant forall k, j :: 0 <= k < i && 0 <= j < |buttons[k]| ==>
                  Converts(buttons[k][j], rows[k][j], serialize)
    {
      var row: seq<Button> := [];
      for j := 0 to |buttons[i]|
        invariant |row| == j
        invariant forall m :: 0 <= m < j ==> Converts(buttons[i][m], row[m], serialize)
      {
        var spec := buttons[i][j];
        var color := if spec.color.Some? then spec.color.value else DefaultColor;
        row := row + [Button(Action("text", spec.caption, JStr(serialize(spec.payload))), color)];
      }
      rows := rows + [row];
    }
    keyboard := Keyboard(inline, rows);
  }
}
