/** Keyboard and mouse input: the bot's set of pressed identifiers and the device
    commands each operation sends to the input-injection collaborator. */
module Input {
  import opened Bots

  /** A call made to the input-injection collaborator: the key or button name and
      the extra string arguments, exactly as passed. `Pause` is the bot's sleep. */
  datatype Command =
    | KeyToggle(key: string, args: seq<string>)
    | MouseToggle(button: string, args: seq<string>)
    | Pause(ms: int)

  /** The direction argument the source passes to request a release. */
  const Up := "up"

  /** Milliseconds KeyTap holds a key down. */
  const TapHoldMs := 300

  /** The effect of an input operation: the bot afterwards and the commands sent. */
  datatype Effect = Effect(bot: Bot, sent: seq<Command>)

  /** IsKeyDown: whether the exact identifier is in the pressed set (mouse buttons are
      queried under their "mouse" entries). */
  function IsKeyDown(b: Bot, key: string): (r: bool)
    ensures r ==> b.keysDown != {}
    ensures b.keysDown == {key} ==> r
  {
    key in b.keysDown
  }

  /** PressKey: send a key-down toggle and record the key. */
  function PressKey(b: Bot, key: string): (r: Effect)
    ensures IsKeyDown(r.bot, key)
    ensures forall k :: k != key ==> (IsKeyDown(r.bot, k) <==> IsKeyDown(b, k))
    ensures r.bot == b.(keysDown := r.bot.keysDown)
    ensures r.sent == [KeyToggle(key, [])]
  {
    Effect(b.(keysDown := b.keysDown + {key}), [KeyToggle(key, [])])
  }

  /** ReleaseKey: send a key-up toggle and forget the key, whether or not it was down. */
  function ReleaseKey(b: Bot, key: string): (r: Effect)
    ensures !IsKeyDown(r.bot, key)
    ensures forall k :: k != key ==> (IsKeyDown(r.bot, k) <==> IsKeyDown(b, k))
    ensures r.bot == b.(keysDown := r.bot.keysDown)
    ensures r.sent == [KeyToggle(key, [Up])]
  {
    Effect(b.(keysDown := b.keysDown - {key}), [KeyToggle(key, [Up])])
  }

  /** KeyTap: press, wait, release, without touching the pressed set. */
  function KeyTap(b: Bot, key: string): (r: Effect)
    ensures r.bot == b
    ensures r.sent == PressKey(b, key).sent + [Pause(TapHoldMs)] + ReleaseKey(b, key).sent
  {
    Effect(b, [KeyToggle(key, []), Pause(TapHoldMs), KeyToggle(key, [Up])])
  }

  /** The pressed set records presence, not a count: pressing a pressed key, or releasing
      a key that is not down, leaves the bot as it was. */
  lemma PressReleaseIdempotent(b: Bot, key: string)
    ensures IsKeyDown(b, key) ==> PressKey(b, key).bot == b
    ensures !IsKeyDown(b, key) ==> ReleaseKey(b, key).bot == b
    ensures PressKey(PressKey(b, key).bot, key).bot == PressKey(b, key).bot
    ensures ReleaseKey(ReleaseKey(b, key).bot, key).bot == ReleaseKey(b, key).bot
  {
  }

  /** Releasing a key that was pressed from the up state restores the bot exactly. */
  lemma PressThenReleaseRestores(b: Bot, key: string)
    requires !IsKeyDown(b, key)
    ensures ReleaseKey(PressKey(b, key).bot, key).bot == b
  {
  }

  /** KeysDown: list the pressed identifiers, each once, in an unspecified order
      (Go iterates its map in no fixed order). */
  method KeysDown(b: Bot) returns (keys: seq<string>)
    ensures |keys| == |b.keysDown|
    ensures forall i :: 0 <= i < |keys| ==> IsKeyDown(b, keys[i])
    ensures forall k :: IsKeyDown(b, k) ==> k in keys
    ensures forall i, j :: 0 <= i < j < |keys| ==> keys[i] != keys[j]
  {
    keys := [];
    var rest := b.keysDown;
    while rest != {}
      invariant rest <= b.keysDown
      invariant forall i :: 0 <= i < |keys| ==> keys[i] in b.keysDown && keys[i] !in rest
      invariant forall k :: k in b.keysDown ==> k in rest || k in keys
      invariant forall i, j :: 0 <= i < j < |keys| ==> keys[i] != keys[j]
      invariant |keys| + |rest| == |b.keysDown|
      decreases rest
    {
      var k :| k in rest;
      keys := keys + [k];
      rest := rest - {k};
    }
  }

  /** Mouse buttons are strings, as in the source: any string names a button, and the
      seven declared constants are written with `Right` as "center" and `Center` as
      "right". */
  type MouseButton = string

  const Left: MouseButton := "left"
  const Right: MouseButton := "center"
  const Center: MouseButton := "right"
  const WheelDown: MouseButton := "wheelDown"
  const WheelUp: MouseButton := "wheelUp"
  const WheelLeft: MouseButton := "wheelLeft"
  const WheelRight: MouseButton := "wheelRight"

  /** The declared button constants. */
  const Buttons: seq<MouseButton> := [Left, Right, Center, WheelDown, WheelUp, WheelLeft, WheelRight]

  const MousePrefix := "mouse"

  predicate HasMousePrefix(key: string) {
    |key| >= |MousePrefix| && key[..|MousePrefix|] == MousePrefix
  }

  /** The pressed-set entry for a mouse button: "mouse" followed by the button name,
      from which the name can be read back. */
  function MouseEntry(btn: MouseButton): (r: string)
    ensures HasMousePrefix(r)
    ensures r[|MousePrefix|..] == btn
  {
    MousePrefix + btn
  }

  /** Entries of distinct buttons are distinct, a mouse entry never equals its bare button
      name, and a key equals some button's entry exactly when it carries the "mouse"
      prefix. */
  lemma MouseEntriesSeparate(b1: MouseButton, b2: MouseButton, key: string)
    ensures b1 != b2 ==> MouseEntry(b1) != MouseEntry(b2)
    ensures MouseEntry(b1) != b1
    ensures MouseEntry(b1) == key ==> HasMousePrefix(key)
    ensures HasMousePrefix(key) ==> key == MouseEntry(key[|MousePrefix|..])
  {
  }

  /** The seven declared constants are pairwise different strings. */
  lemma ButtonNamesDistinct()
    ensures forall i, j :: 0 <= i < j < |Buttons| ==> Buttons[i] != Buttons[j]
  {
    forall i, j | 0 <= i < j < |Buttons|
      ensures Buttons[i] != Buttons[j]
    {
      var n1, n2 := Buttons[i], Buttons[j];
      if |n1| == |n2| {
        // Equal-length names differ in their first or sixth letter.
        assert n1[0] != n2[0] || n1[5] != n2[5];
      }
    }
  }

  /** The button constants as written: pressing `Right` records "mousecenter". */
  lemma RightAndCenterSwapped()
    ensures MouseEntry(Right) == "mousecenter"
    ensures MouseEntry(Center) == "mouseright"
    ensures MouseEntry(Left) == "mouseleft"
  {
  }

  /** MousePress: toggle the button down and record its "mouse" entry. */
  function MousePress(b: Bot, btn: MouseButton): (r: Effect)
    ensures IsKeyDown(r.bot, MouseEntry(btn))
    ensures forall k :: k != MouseEntry(btn) ==> (IsKeyDown(r.bot, k) <==> IsKeyDown(b, k))
    ensures r.bot == b.(keysDown := r.bot.keysDown)
    ensures r.sent == [MouseToggle(btn, [])]
  {
    Effect(b.(keysDown := b.keysDown + {MouseEntry(btn)}), [MouseToggle(btn, [])])
  }

  /** MouseRelease as written: it forgets the entry but sends the toggle without a
      direction, the same call MousePress makes. */
  function MouseReleaseAsWritten(b: Bot, btn: MouseButton): (r: Effect)
    ensures !IsKeyDown(r.bot, MouseEntry(btn))
    ensures forall k :: k != MouseEntry(btn) ==> (IsKeyDown(r.bot, k) <==> IsKeyDown(b, k))
    ensures r.bot == b.(keysDown := r.bot.keysDown)
  {
    Effect(b.(keysDown := b.keysDown - {MouseEntry(btn)}), [MouseToggle(btn, [])])
  }

  /** The discrepancy: the release sends exactly the command the press sends. */
  lemma MouseReleaseAsWrittenRepeatsPress(b: Bot, btn: MouseButton)
    ensures MouseReleaseAsWritten(b, btn).sent == MousePress(b, btn).sent
  {
  }

  /** MouseRelease as intended: forget the entry and toggle the button up, passing the
      same "up" direction ReleaseKey passes. */
  function MouseRelease(b: Bot, btn: MouseButton): (r: Effect)
    ensures !IsKeyDown(r.bot, MouseEntry(btn))
    ensures forall k :: k != MouseEntry(btn) ==> (IsKeyDown(r.bot, k) <==> IsKeyDown(b, k))
    ensures r.bot == b.(keysDown := r.bot.keysDown)
    ensures r.sent == [MouseToggle(btn, [Up])]
  {
    Effect(b.(keysDown := b.keysDown - {MouseEntry(btn)}), [MouseToggle(btn, [Up])])
  }

  /** The corrected release differs from the press exactly in the direction argument,
      mirroring how ReleaseKey differs from PressKey, and agrees with the code as
      written on the pressed set. */
  lemma MouseReleaseMirrorsKeyRelease(b: Bot, btn: MouseButton)
    ensures MouseRelease(b, btn).sent != MousePress(b, btn).sent
    ensures MouseRelease(b, btn).sent[0].args == ReleaseKey(b, btn).sent[0].args
    ensures MousePress(b, btn).sent[0].args == PressKey(b, btn).sent[0].args
    ensures MouseRelease(b, btn).bot == MouseReleaseAsWritten(b, btn).bot
  {
  }

  /** Keyboard keys without the "mouse" prefix and mouse buttons are independent:
      a mouse press or release never changes whether such a key is down, and a key
      press or release never changes whether a button is down. */
  lemma KeyboardAndMouseIndependent(b: Bot, key: string, btn: MouseButton)
    requires !HasMousePrefix(key)
    ensures IsKeyDown(MousePress(b, btn).bot, key) == IsKeyDown(b, key)
    ensures IsKeyDown(MouseRelease(b, btn).bot, key) == IsKeyDown(b, key)
    ensures IsKeyDown(PressKey(b, key).bot, MouseEntry(btn)) == IsKeyDown(b, MouseEntry(btn))
    ensures IsKeyDown(ReleaseKey(b, key).bot, MouseEntry(btn)) == IsKeyDown(b, MouseEntry(btn))
  {
    MouseEntriesSeparate(btn, btn, key);
  }

  /** The namespace is a naming convention, not a barrier: pressing or releasing the
      keyboard key spelled like a button's entry has exactly the mouse operation's
      effect on the bot, and every "mouse"-prefixed key is some button's entry. */
  lemma PrefixedKeyAliasesButton(b: Bot, btn: MouseButton, key: string)
    ensures PressKey(b, MouseEntry(btn)).bot == MousePress(b, btn).bot
    ensures ReleaseKey(b, MouseEntry(btn)).bot == MouseRelease(b, btn).bot
    ensures ReleaseKey(b, MouseEntry(btn)).bot == MouseReleaseAsWritten(b, btn).bot
    ensures HasMousePrefix(key) ==> IsKeyDown(PressKey(b, key).bot, MouseEntry(key[|MousePrefix|..]))
  {
    MouseEntriesSeparate(btn, btn, key);
  }
}
