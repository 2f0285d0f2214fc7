# Design-pattern demos, modelled in Dafny

This project models the behavioural core of twelve design-pattern demonstrations
in the `com.cuizhanming.oop` package and proves what their code promises:

- the **remote control** of the command pattern: slots of on/off commands, an
  unbounded undo history, macro commands, lights and a clamping fan;
- the **text editor** of the memento pattern, with its capped snapshot history
  that drops the oldest snapshot;
- the **vending machine** of the state pattern;
- the **reverse-Polish calculator** of the interpreter pattern, covering parsing,
  32-bit evaluation and fully parenthesised printing;
- the **book iterator** with in-place removal;
- the **support-ticket chain** of responsibility;
- the **file-system composite**;
- the **payment strategies** and shopping cart;
- the **computer builder**;
- the **shape prototypes** and their registry;
- the **character flyweights**;
- the **virtual, caching and protection image proxies**.

Each Java file becomes one module, in the form its code takes:

- Objects whose fields change become classes with `modifies` clauses.
  Each of their methods is proved against a function on the object's state
  (for example `VendingMachine.InsertCoin` against `Step`, and
  `Command.Execute` against `ExecW`).
- Pure logic becomes functions and lemmas. Examples are the handler
  predicates, `interpret`, `toString` and the payment validators.

Four small shared modules hold `Option`/`Result` (`Wrappers`), Java's 32-bit
`int` and its wrap-around (`JavaInts`), decimal rendering and character
counting (`Strings`), and `List.indexOf` and `List.remove(Object)` (`Lists`).

Java exceptions become error values:

- `Result.Err` or `Option.None` where a value is returned;
- a `false` or `Some(error)` status where a method returns nothing in Java.

In both cases the state is left as the Java code leaves it when it throws.

The command history of the remote control is an unbounded `java.util.Stack`.
Out-of-range slots are silently ignored by `setCommand` and by the buttons.

## Model

| member | source | states |
|---|---|---|
| Lists.IndexOf | src/main/java/com/cuizhanming/oop/structural/CompositePattern.java:58-60 | the first index holding x, or -1 exactly when x is absent (List.indexOf, used by List.remove) |
| Lists.RemoveFirst | src/main/java/com/cuizhanming/oop/behavioral/IteratorPattern.java:32-34 | List.remove(Object): an absent element changes nothing; otherwise exactly the first occurrence goes, the rest keeps its order, the multiset loses one copy |
| Strings.IsDigits | src/main/java/com/cuizhanming/oop/behavioral/InterpreterPattern.java:158 | what token.matches("\\d+") accepts: a non-empty run of ASCII digits |
| Strings.DigitsValue | src/main/java/com/cuizhanming/oop/behavioral/InterpreterPattern.java:159 | Integer.parseInt of a run of digits, most significant first |
| Strings.NatToString | src/main/java/com/cuizhanming/oop/behavioral/InterpreterPattern.java:48-51 | a non-negative int prints as a non-empty digit run without a leading zero |
| Strings.IntToString | src/main/java/com/cuizhanming/oop/behavioral/InterpreterPattern.java:48-51 | String.valueOf(int): digits, preceded by '-' exactly for negative values |
| Strings.DigitsValueOfNatToString | src/main/java/com/cuizhanming/oop/behavioral/InterpreterPattern.java:157-160 | parsing the printed form of a number gives the number back |
| Strings.CountAppend | src/main/java/com/cuizhanming/oop/behavioral/InterpreterPattern.java:87-90 | occurrences of a character in a concatenation add up |
| Strings.CountAvoided | src/main/java/com/cuizhanming/oop/behavioral/InterpreterPattern.java:87-90 | a string without the character has no occurrence of it |
| CommandPattern.Clamp | src/main/java/com/cuizhanming/oop/behavioral/CommandPattern.java:49-53 | Fan.setSpeed's Math.max(0, Math.min(3, speed)): in 0..3, unchanged inside, 0 below, 3 above |
| CommandPattern.Light.constructor | src/main/java/com/cuizhanming/oop/behavioral/CommandPattern.java:19-25 | a new light is off |
| CommandPattern.Light.TurnOn | src/main/java/com/cuizhanming/oop/behavioral/CommandPattern.java:27-30 | the light is on afterwards |
| CommandPattern.Light.TurnOff | src/main/java/com/cuizhanming/oop/behavioral/CommandPattern.java:32-35 | the light is off afterwards |
| CommandPattern.Fan.constructor | src/main/java/com/cuizhanming/oop/behavioral/CommandPattern.java:41-47 | a new fan has speed 0 |
| CommandPattern.Fan.SetSpeed | src/main/java/com/cuizhanming/oop/behavioral/CommandPattern.java:49-53 | the speed becomes the clamped request |
| CommandPattern.Command.NoCommand | src/main/java/com/cuizhanming/oop/behavioral/CommandPattern.java:166-177 | the shared no-op command |
| CommandPattern.Command.LightOnCommand | src/main/java/com/cuizhanming/oop/behavioral/CommandPattern.java:60-66 | a light-on command bound to its light |
| CommandPattern.Command.LightOffCommand | src/main/java/com/cuizhanming/oop/behavioral/CommandPattern.java:83-89 | a light-off command bound to its light |
| CommandPattern.Command.FanSpeedCommand | src/main/java/com/cuizhanming/oop/behavioral/CommandPattern.java:106-114 | a fan-speed command with its target speed, remembering speed 0 until executed |
| CommandPattern.Command.MacroCommand | src/main/java/com/cuizhanming/oop/behavioral/CommandPattern.java:135-140 | the members are a copy of the array's contents at construction, so later changes to the array do not reach the macro |
| CommandPattern.Command.Description | src/main/java/com/cuizhanming/oop/behavioral/CommandPattern.java:127-131 | getDescription: "No command" for the no-op; for a fan-speed command defined exactly when its speed indexes the four speed names (Java throws otherwise); always defined for the other kinds |
| CommandPattern.Command.ExecW | src/main/java/com/cuizhanming/oop/behavioral/CommandPattern.java:68-148 | execute on a world value: light on/off set the light; a fan-speed command remembers the fan's speed and sets the clamped new one; a macro runs its members in array order; the no-op changes nothing |
| CommandPattern.Command.UndoW | src/main/java/com/cuizhanming/oop/behavioral/CommandPattern.java:73-157 | undo on a world value: light on/off set the light the other way; a fan-speed command puts back the clamped remembered speed and writes no remembered speed; a macro undoes its members last first |
| CommandPattern.Command.MemberWithin | src/main/java/com/cuizhanming/oop/behavioral/CommandPattern.java:135-140 | a macro member is well formed, nested less deeply, and touches nothing outside the macro's footprint |
| CommandPattern.Command.Execute | src/main/java/com/cuizhanming/oop/behavioral/CommandPattern.java:142-148 | execute of every command kind changes the lights, fans and remembered speeds exactly as ExecW says, and nothing outside its footprint |
| CommandPattern.Command.Undo | src/main/java/com/cuizhanming/oop/behavioral/CommandPattern.java:150-157 | undo of every command kind changes the world exactly as UndoW says |
| CommandPattern.MaxDepth | src/main/java/com/cuizhanming/oop/behavioral/CommandPattern.java:135-140 | bounds the nesting depth of every command in a macro's array |
| CommandPattern.RemoteControl.constructor | src/main/java/com/cuizhanming/oop/behavioral/CommandPattern.java:186-197 | every slot, on and off, holds the same shared no-op command; the history is empty |
| CommandPattern.RemoteControl.SetCommand | src/main/java/com/cuizhanming/oop/behavioral/CommandPattern.java:199-205 | a slot in range gets exactly the new pair and no other slot changes; an out-of-range slot changes nothing |
| CommandPattern.RemoteControl.OnButtonPressed | src/main/java/com/cuizhanming/oop/behavioral/CommandPattern.java:207-212 | a slot in range: its on command executes once and is pushed, so the history grows by one and the press count by one; otherwise nothing executes and nothing is pushed |
| CommandPattern.RemoteControl.OffButtonPressed | src/main/java/com/cuizhanming/oop/behavioral/CommandPattern.java:214-219 | the same for the off command |
| CommandPattern.RemoteControl.UndoButtonPressed | src/main/java/com/cuizhanming/oop/behavioral/CommandPattern.java:221-229 | an empty history changes nothing; otherwise the newest command is popped and undone, and it is not kept for a redo; the history size stays presses minus undos |
| CommandPattern.RemoteControl.ShowConfiguration | src/main/java/com/cuizhanming/oop/behavioral/CommandPattern.java:231-237 | one line per slot, in slot order, with the descriptions of its on and off commands, up to the first slot holding a command that cannot be described; there the Java loop throws, so that slot and every later one get no line and the call reports the failure |
| CommandPattern.Reverse | src/main/java/com/cuizhanming/oop/behavioral/CommandPattern.java:150-157 | the reverse order keeps the length |
| CommandPattern.ReverseAt | src/main/java/com/cuizhanming/oop/behavioral/CommandPattern.java:150-157 | position k of the reverse order holds element n-1-k |
| CommandPattern.RunAllSnoc | src/main/java/com/cuizhanming/oop/behavioral/CommandPattern.java:142-148 | running one more command after a sequence is running the longer sequence |
| CommandPattern.UndoAllSnoc | src/main/java/com/cuizhanming/oop/behavioral/CommandPattern.java:150-157 | the same for undo |
| CommandPattern.MacroExecutesInOrder | src/main/java/com/cuizhanming/oop/behavioral/CommandPattern.java:142-148 | a macro's execute is its members' executes in array order |
| CommandPattern.MacroUndoesInReverse | src/main/java/com/cuizhanming/oop/behavioral/CommandPattern.java:150-157 | a macro's undo is its members' undos in reverse array order |
| CommandPattern.MemberFanCommands | src/main/java/com/cuizhanming/oop/behavioral/CommandPattern.java:135-140 | a macro's fan-speed commands include those of every member |
| CommandPattern.UndoKeepsSaved | src/main/java/com/cuizhanming/oop/behavioral/CommandPattern.java:123-125 | undo never changes any remembered speed |
| CommandPattern.UndoAllKeepsSaved | src/main/java/com/cuizhanming/oop/behavioral/CommandPattern.java:150-157 | nor does a sequence of undos |
| CommandPattern.ExecSavedOutside | src/main/java/com/cuizhanming/oop/behavioral/CommandPattern.java:117-121 | execute changes the remembered speed of its own fan-speed commands only |
| CommandPattern.RunAllSavedOutside | src/main/java/com/cuizhanming/oop/behavioral/CommandPattern.java:142-148 | nor does a sequence of executes, for a command none of them contains |
| CommandPattern.UndoCongruent | src/main/java/com/cuizhanming/oop/behavioral/CommandPattern.java:123-157 | undo's effect on the lights and fans depends only on the lights, the fans and the remembered speeds of the command's own fan-speed commands |
| CommandPattern.UndoInReverseRestores | src/main/java/com/cuizhanming/oop/behavioral/CommandPattern.java:150-157 | when each command, undone right where it ran, puts the lights and fans back, and no fan-speed command occurs at two positions, undoing the whole sequence in reverse puts the lights and fans back as they were at the start |
| CommandPattern.MacroUndoRestores | src/main/java/com/cuizhanming/oop/behavioral/CommandPattern.java:142-157 | a macro whose members each put the lights and fans back, and which share no fan-speed command, is undone exactly by its own undo |
| CommandPattern.RepeatedFanCommandDoesNotRestore | src/main/java/com/cuizhanming/oop/behavioral/CommandPattern.java:116-157 | a macro that holds the same fan-speed command twice, with a new speed different from the fan's, is not undone exactly: the second execute overwrites the speed the first one remembered |
| CommandPattern.LightOnInverts | src/main/java/com/cuizhanming/oop/behavioral/CommandPattern.java:67-75 | light-on followed by its undo restores the world exactly when the light was off |
| CommandPattern.LightOffInverts | src/main/java/com/cuizhanming/oop/behavioral/CommandPattern.java:90-98 | light-off followed by its undo restores the world exactly when the light was on |
| CommandPattern.LightCommandsAreMutualInverses | src/main/java/com/cuizhanming/oop/behavioral/CommandPattern.java:67-98 | light-on's undo is light-off's execute and the other way round |
| CommandPattern.FanSpeedUndoRestoresSpeed | src/main/java/com/cuizhanming/oop/behavioral/CommandPattern.java:116-125 | execute remembers the fan's speed, and undo puts back exactly that speed (for a legal speed), leaving the lights alone, so the command inverts whatever it remembered before |
| CommandPattern.MacroFootprintWithin | src/main/java/com/cuizhanming/oop/behavioral/CommandPattern.java:142-157 | a macro touches nothing its members do not |
| CommandPattern.SpeedsStayLegal | src/main/java/com/cuizhanming/oop/behavioral/CommandPattern.java:49-53 | execute and undo of any command keep every fan speed in 0..3 |
| CommandPattern.LightUndoScenario | src/main/java/com/cuizhanming/oop/behavioral/CommandPattern.java:275-282 | pressing a light's on button turns it on with one history entry; undo turns it off and empties the history; a second undo changes nothing |
| CommandPattern.PartyExecutes | src/main/java/com/cuizhanming/oop/behavioral/CommandPattern.java:257-258 | executing the party macro turns both lights on and sets the fan to its target speed |
| CommandPattern.PartyUndoes | src/main/java/com/cuizhanming/oop/behavioral/CommandPattern.java:257-258 | undoing the party macro turns both lights off and restores the remembered fan speed |
| CommandPattern.PartyModeRoundTrip | src/main/java/com/cuizhanming/oop/behavioral/CommandPattern.java:285-286 | from everything off, the party macro turns everything on and its undo turns everything off again |
| CommandPattern.NewPartyMode | src/main/java/com/cuizhanming/oop/behavioral/CommandPattern.java:244-258 | builds the demonstration's devices and party macro (light on, light on, fan to 3) |
| CommandPattern.PartyModeScenario | src/main/java/com/cuizhanming/oop/behavioral/CommandPattern.java:285-286 | party mode: both lights on and the fan at 3; after undo, everything off again |
| MementoPattern.CursorInRange | src/main/java/com/cuizhanming/oop/behavioral/MementoPattern.java:32-33 | the cursor positions at which both substring(0, cursor) and substring(cursor) of the content succeed |
| MementoPattern.Written | src/main/java/com/cuizhanming/oop/behavioral/MementoPattern.java:31-37 | write: the text goes in at the cursor, which moves past it; undefined exactly when the cursor lies outside the content |
| MementoPattern.CursorMoved | src/main/java/com/cuizhanming/oop/behavioral/MementoPattern.java:39-42 | setCursor: the position clamped into 0..length, content unchanged |
| MementoPattern.DeleteStart | src/main/java/com/cuizhanming/oop/behavioral/MementoPattern.java:45 | Math.max(0, cursorPosition - count) with int subtraction: the plain difference or 0 when it fits an int, and 0 when it overflows past the largest int |
| MementoPattern.Deleted | src/main/java/com/cuizhanming/oop/behavioral/MementoPattern.java:44-51 | delete(n), n >= 0: the min(n, cursor) characters before the cursor go and the cursor moves to where they began; a negative n repeats text as the code does; when cursor - n overflows the int it wraps negative and everything before the cursor goes; undefined exactly where substring throws |
| MementoPattern.DeleteMinValue | src/main/java/com/cuizhanming/oop/behavioral/MementoPattern.java:44-51 | delete(Integer.MIN_VALUE) on "ab" with the cursor at 1 leaves "b" with the cursor at 0 |
| MementoPattern.DeleteUndoesWrite | src/main/java/com/cuizhanming/oop/behavioral/MementoPattern.java:31-51 | deleting as many characters as were just written gives back the editor state, for any content a Java string can hold |
| MementoPattern.TextEditor.constructor | src/main/java/com/cuizhanming/oop/behavioral/MementoPattern.java:27-29 | a new editor is empty with the cursor at 0 |
| MementoPattern.TextEditor.Write | src/main/java/com/cuizhanming/oop/behavioral/MementoPattern.java:31-37 | the new state is Written of the old one; a throwing call changes nothing |
| MementoPattern.TextEditor.SetCursor | src/main/java/com/cuizhanming/oop/behavioral/MementoPattern.java:39-42 | the new state is CursorMoved of the old one |
| MementoPattern.TextEditor.Delete | src/main/java/com/cuizhanming/oop/behavioral/MementoPattern.java:44-51 | the new state is Deleted of the old one, with the int count of the Java signature; a throwing call changes nothing |
| MementoPattern.TextEditor.Save | src/main/java/com/cuizhanming/oop/behavioral/MementoPattern.java:53-56 | the snapshot holds exactly the content and the cursor |
| MementoPattern.TextEditor.Restore | src/main/java/com/cuizhanming/oop/behavioral/MementoPattern.java:58-62 | the editor takes exactly the snapshot's content and cursor |
| MementoPattern.Pushed | src/main/java/com/cuizhanming/oop/behavioral/MementoPattern.java:78-84 | saveState on the stack: below the cap the snapshot is pushed; at or above it the oldest (index 0) goes first; with a cap of at least 1 the size never exceeds it; fails exactly when it must remove from an empty stack |
| MementoPattern.PushedAll | src/main/java/com/cuizhanming/oop/behavioral/MementoPattern.java:78-84 | saveState repeated for each snapshot in turn: it fails only with a cap of 0 or less, and with a cap of at least 1 a history within the cap stays within it |
| MementoPattern.Newest | src/main/java/com/cuizhanming/oop/behavioral/MementoPattern.java:78-84 | the newest n snapshots, as many as there are when fewer |
| MementoPattern.SavesKeepNewest | src/main/java/com/cuizhanming/oop/behavioral/MementoPattern.java:78-84 | after any run of saves the history is exactly the newest maxHistory snapshots of everything saved, in order: the oldest are the ones dropped |
| MementoPattern.NewestAppend | src/main/java/com/cuizhanming/oop/behavioral/MementoPattern.java:78-84 | trimming to the newest n before appending changes nothing after a final trim |
| MementoPattern.EditorHistory.constructor | src/main/java/com/cuizhanming/oop/behavioral/MementoPattern.java:74-76 | an empty history with the given cap |
| MementoPattern.EditorHistory.SaveState | src/main/java/com/cuizhanming/oop/behavioral/MementoPattern.java:78-84 | the stack becomes Pushed of the old stack and the editor's state, and stays within its cap |
| MementoPattern.EditorHistory.Undo | src/main/java/com/cuizhanming/oop/behavioral/MementoPattern.java:86-94 | an empty history leaves the editor unchanged; otherwise the newest snapshot is popped and restored |
| MementoPattern.EditorHistory.CanUndo | src/main/java/com/cuizhanming/oop/behavioral/MementoPattern.java:96-98 | true exactly when the history is non-empty |
| MementoPattern.EditorHistory.GetHistorySize | src/main/java/com/cuizhanming/oop/behavioral/MementoPattern.java:100-102 | the number of snapshots held |
| MementoPattern.DemoWrites | src/main/java/com/cuizhanming/oop/behavioral/MementoPattern.java:117-128 | the four writes of the demonstration and the states they produce |
| MementoPattern.FirstEdits | src/main/java/com/cuizhanming/oop/behavioral/MementoPattern.java:108-121 | the first three saves hold "", "Hello" and "Hello World" |
| MementoPattern.EditingScenario | src/main/java/com/cuizhanming/oop/behavioral/MementoPattern.java:108-129 | the edits give "Hello Java World!" and five saved states, the oldest empty |
| MementoPattern.UndoAllScenario | src/main/java/com/cuizhanming/oop/behavioral/MementoPattern.java:136-142 | undoing while canUndo holds gets back to the empty editor and an empty history; one more undo changes nothing |
| StatePattern.CoinAdded | src/main/java/com/cuizhanming/oop/behavioral/StatePattern.java:70-73 | addCoin: one coin more, state and products unchanged |
| StatePattern.CoinsReturned | src/main/java/com/cuizhanming/oop/behavioral/StatePattern.java:75-80 | returnCoins: any coins go back to 0 |
| StatePattern.ProductReleased | src/main/java/com/cuizhanming/oop/behavioral/StatePattern.java:82-88 | releaseProduct: with a product, one product less and the coins taken; otherwise nothing |
| StatePattern.Step | src/main/java/com/cuizhanming/oop/behavioral/StatePattern.java:102-278 | the five state classes' transitions: insertCoin adds a coin in Idle, CoinInserted and ProductSelected only; selectProduct moves CoinInserted to ProductSelected only; dispense takes one product, empties the coins and ends Idle or SoldOut; refund returns the coins; SoldOut never leaves SoldOut |
| StatePattern.Run | src/main/java/com/cuizhanming/oop/behavioral/StatePattern.java:40-54 | a sequence of requests to one machine, first request first |
| StatePattern.RunAppend | src/main/java/com/cuizhanming/oop/behavioral/StatePattern.java:40-54 | running two sequences of requests one after the other is running their concatenation |
| StatePattern.StepKeepsReachable | src/main/java/com/cuizhanming/oop/behavioral/StatePattern.java:102-278 | every transition keeps the invariant: products >= 0, SoldOut exactly when no product is left, no coins when Idle or SoldOut, at least one coin while buying, never resting in Sold |
| StatePattern.RunKeepsReachable | src/main/java/com/cuizhanming/oop/behavioral/StatePattern.java:102-278 | any sequence of requests keeps the invariant |
| StatePattern.InitReachable | src/main/java/com/cuizhanming/oop/behavioral/StatePattern.java:27-38 | a new machine (Idle, 0 coins, 5 products) satisfies the invariant |
| StatePattern.SoldOutAbsorbs | src/main/java/com/cuizhanming/oop/behavioral/StatePattern.java:247-278 | once sold out, any requests leave the machine sold out with the same products |
| StatePattern.RunNeverRestocks | src/main/java/com/cuizhanming/oop/behavioral/StatePattern.java:82-88 | the product count never grows, and falls by at most one per request |
| StatePattern.VendingMachine.constructor | src/main/java/com/cuizhanming/oop/behavioral/StatePattern.java:30-38 | Idle, 0 coins, 5 products |
| StatePattern.VendingMachine.SetState | src/main/java/com/cuizhanming/oop/behavioral/StatePattern.java:57-60 | only the current state changes |
| StatePattern.VendingMachine.AddCoin | src/main/java/com/cuizhanming/oop/behavioral/StatePattern.java:70-73 | one coin more |
| StatePattern.VendingMachine.ReturnCoins | src/main/java/com/cuizhanming/oop/behavioral/StatePattern.java:75-80 | the coins go back to 0 |
| StatePattern.VendingMachine.ReleaseProduct | src/main/java/com/cuizhanming/oop/behavioral/StatePattern.java:82-88 | with a product: one product less and the coins taken; otherwise nothing |
| StatePattern.VendingMachine.HasProducts | src/main/java/com/cuizhanming/oop/behavioral/StatePattern.java:91 | true exactly when a product is left |
| StatePattern.VendingMachine.InsertCoin | src/main/java/com/cuizhanming/oop/behavioral/StatePattern.java:40-42 | the current state's insertCoin, as Step says; a machine in a reachable state stays in one |
| StatePattern.VendingMachine.SelectProduct | src/main/java/com/cuizhanming/oop/behavioral/StatePattern.java:44-46 | the current state's selectProduct, as Step says; a machine in a reachable state stays in one |
| StatePattern.VendingMachine.DispenseProduct | src/main/java/com/cuizhanming/oop/behavioral/StatePattern.java:48-50 | the current state's dispenseProduct, as Step says; a machine in a reachable state stays in one |
| StatePattern.VendingMachine.Refund | src/main/java/com/cuizhanming/oop/behavioral/StatePattern.java:52-54 | the current state's refund, as Step says; a machine in a reachable state stays in one |
| StatePattern.VendingMachine.GetCoinCount | src/main/java/com/cuizhanming/oop/behavioral/StatePattern.java:92 | the coin count, never negative |
| StatePattern.VendingMachine.GetProductCount | src/main/java/com/cuizhanming/oop/behavioral/StatePattern.java:93 | the product count, never negative, and 0 exactly when sold out |
| StatePattern.PurchaseScenario | src/main/java/com/cuizhanming/oop/behavioral/StatePattern.java:280-319 | the demonstration's requests end sold out with no coins and no products |
| InterpreterPattern.Interpret | src/main/java/com/cuizhanming/oop/behavioral/InterpreterPattern.java:43-125 | interpret of each node kind: a number is itself, a variable is looked up, and + - * combine the operands with int arithmetic |
| InterpreterPattern.ToString | src/main/java/com/cuizhanming/oop/behavioral/InterpreterPattern.java:48-130 | toString of each node kind: a number in decimal, a variable by name, a binary node as (left op right) |
| JavaInts.Wrap32 | src/main/java/com/cuizhanming/oop/behavioral/InterpreterPattern.java:82-85 | Java int wrap-around: congruent to the input modulo 2^32, and the input itself when it fits |
| JavaInts.WrapAbove | src/main/java/com/cuizhanming/oop/behavioral/InterpreterPattern.java:82-85 | a result between 2^31 and 2^31 + 2^32 wraps round to itself minus 2^32 |
| InterpreterPattern.Lookup | src/main/java/com/cuizhanming/oop/behavioral/InterpreterPattern.java:26-28 | getVariable: the stored value, or 0 for a name never set |
| InterpreterPattern.WrapCongruent | src/main/java/com/cuizhanming/oop/behavioral/InterpreterPattern.java:82-125 | values congruent modulo 2^32 wrap to the same int |
| InterpreterPattern.SumCongruent | src/main/java/com/cuizhanming/oop/behavioral/InterpreterPattern.java:82-105 | sums and differences keep congruence modulo 2^32 |
| InterpreterPattern.ProductCongruent | src/main/java/com/cuizhanming/oop/behavioral/InterpreterPattern.java:122-125 | products keep congruence modulo 2^32 |
| InterpreterPattern.AddWraps | src/main/java/com/cuizhanming/oop/behavioral/InterpreterPattern.java:82-85 | an Add node's wrapped value is its exact sum wrapped, given the same of its operands |
| InterpreterPattern.SubtractWraps | src/main/java/com/cuizhanming/oop/behavioral/InterpreterPattern.java:102-105 | the same for Subtract, left minus right |
| InterpreterPattern.MultiplyWraps | src/main/java/com/cuizhanming/oop/behavioral/InterpreterPattern.java:122-125 | the same for Multiply |
| InterpreterPattern.InterpretIsWrappedExact | src/main/java/com/cuizhanming/oop/behavioral/InterpreterPattern.java:43-125 | interpret with Java int arithmetic equals the exact integer value of the tree wrapped once |
| InterpreterPattern.InterpretExactWhenInRange | src/main/java/com/cuizhanming/oop/behavioral/InterpreterPattern.java:43-125 | whenever the exact value fits in an int, interpret returns it: numbers their literal, variables their value, operators left op right |
| InterpreterPattern.CountBinary | src/main/java/com/cuizhanming/oop/behavioral/InterpreterPattern.java:87-90 | a binary node's rendering has one more parenthesis of each kind than its operands' renderings |
| InterpreterPattern.NumeralAvoidsParentheses | src/main/java/com/cuizhanming/oop/behavioral/InterpreterPattern.java:48-51 | a rendered number contains no parenthesis |
| InterpreterPattern.SeparatorsAvoidParentheses | src/main/java/com/cuizhanming/oop/behavioral/InterpreterPattern.java:87-130 | the three operator separators contain no parenthesis |
| InterpreterPattern.ToStringParenthesises | src/main/java/com/cuizhanming/oop/behavioral/InterpreterPattern.java:87-130 | toString is fully parenthesised: one "(" and one ")" per operator node, when no variable name holds a parenthesis |
| InterpreterPattern.IsOperator | src/main/java/com/cuizhanming/oop/behavioral/InterpreterPattern.java:141-157 | the three tokens the parser's switch treats as operators: +, - and * |
| InterpreterPattern.PushToken | src/main/java/com/cuizhanming/oop/behavioral/InterpreterPattern.java:142-163 | an operator needs two operands and replaces them by one node (fails exactly on a stack of fewer than two); a digit run pushes Number of its decimal value (leading zeros allowed, as parseInt) below 2^31 and fails with NumberTooLarge(token) at 2^31 or more; any other non-operator token pushes a variable |
| InterpreterPattern.PushTokens | src/main/java/com/cuizhanming/oop/behavioral/InterpreterPattern.java:140-165 | the tokens in order, stopping at the first error; on success the stack has grown by one per operand token and shrunk by one per operator token |
| InterpreterPattern.Parsed | src/main/java/com/cuizhanming/oop/behavioral/InterpreterPattern.java:136-168 | parse: the top of the stack after the last token, or an error; it succeeds only with more than twice as many tokens as operators, and never on no tokens |
| InterpreterPattern.Parse | src/main/java/com/cuizhanming/oop/behavioral/InterpreterPattern.java:136-168 | the stack loop computes Parsed: the top expression after every token, or the first error |
| InterpreterPattern.PushTokensAppend | src/main/java/com/cuizhanming/oop/behavioral/InterpreterPattern.java:136-168 | the reverse-Polish tokens of a tree push exactly that tree |
| InterpreterPattern.OperatorPushes | src/main/java/com/cuizhanming/oop/behavioral/InterpreterPattern.java:142-156 | an operator token pops the right operand, then the left, and pushes their node |
| InterpreterPattern.BinaryTokens | src/main/java/com/cuizhanming/oop/behavioral/InterpreterPattern.java:142-156 | the tokens of two trees followed by an operator push the node of the two, in operand order |
| InterpreterPattern.ParseToTokens | src/main/java/com/cuizhanming/oop/behavioral/InterpreterPattern.java:136-168 | parsing the reverse-Polish tokens of any parseable tree gives the tree back |
| InterpreterPattern.Context.constructor | src/main/java/com/cuizhanming/oop/behavioral/InterpreterPattern.java:19-21 | no variable set |
| InterpreterPattern.Context.SetVariable | src/main/java/com/cuizhanming/oop/behavioral/InterpreterPattern.java:22-24 | the name gets the value, overwriting any earlier one; other names keep theirs |
| InterpreterPattern.Context.GetVariable | src/main/java/com/cuizhanming/oop/behavioral/InterpreterPattern.java:26-28 | the stored value, or 0 when unset |
| InterpreterPattern.Calculator.constructor | src/main/java/com/cuizhanming/oop/behavioral/InterpreterPattern.java:172-173 | a calculator with a fresh, empty context |
| InterpreterPattern.Calculator.SetVariable | src/main/java/com/cuizhanming/oop/behavioral/InterpreterPattern.java:175-178 | sets the variable in its context |
| InterpreterPattern.Calculator.Evaluate | src/main/java/com/cuizhanming/oop/behavioral/InterpreterPattern.java:180-187 | a parse error is passed on; otherwise the parsed tree is interpreted in the context |
| InterpreterPattern.DemoNumerals | src/main/java/com/cuizhanming/oop/behavioral/InterpreterPattern.java:211-225 | the decimal forms of the demonstration's numbers |
| InterpreterPattern.ParsesDifference | src/main/java/com/cuizhanming/oop/behavioral/InterpreterPattern.java:211 | "10 5 -" parses to 10 minus 5, in that operand order |
| InterpreterPattern.ProductTokens | src/main/java/com/cuizhanming/oop/behavioral/InterpreterPattern.java:213 | the tree of "15 3 - 4 *" prints back to those tokens |
| InterpreterPattern.ParsesProduct | src/main/java/com/cuizhanming/oop/behavioral/InterpreterPattern.java:213 | "15 3 - 4 *" parses to (15 - 3) * 4 |
| InterpreterPattern.ParsesMixed | src/main/java/com/cuizhanming/oop/behavioral/InterpreterPattern.java:225 | "100 x y + -" parses to 100 - (x + y) |
| InterpreterPattern.LeftoverOperands | src/main/java/com/cuizhanming/oop/behavioral/InterpreterPattern.java:136-168 | with operands left over, the result is the top expression only: for every two parseable trees a and b, the tokens of a followed by those of b parse to b |
| InterpreterPattern.ParsesShortAndLeftover | src/main/java/com/cuizhanming/oop/behavioral/InterpreterPattern.java:143-167 | an operator without two operands fails with the empty-stack error; with operands left over, the top one is the result |
| InterpreterPattern.DemoValues | src/main/java/com/cuizhanming/oop/behavioral/InterpreterPattern.java:203-225 | with x = 10, y = 5, z = 2 the three trees are worth 5, 48 and 85 |
| InterpreterPattern.CalculatorScenario | src/main/java/com/cuizhanming/oop/behavioral/InterpreterPattern.java:194-226 | the calculator evaluates "10 5 -" to 5, "15 3 - 4 *" to 48 and "100 x y + -" to 85 |
| IteratorPattern.Book.constructor | src/main/java/com/cuizhanming/oop/behavioral/IteratorPattern.java:79-84 | a book with the given fields |
| IteratorPattern.BookCollection.constructor | src/main/java/com/cuizhanming/oop/behavioral/IteratorPattern.java:25-26 | an empty list |
| IteratorPattern.BookCollection.AddBook | src/main/java/com/cuizhanming/oop/behavioral/IteratorPattern.java:28-30 | the book goes at the end |
| IteratorPattern.BookCollection.RemoveBook | src/main/java/com/cuizhanming/oop/behavioral/IteratorPattern.java:32-34 | the first occurrence of the book goes |
| IteratorPattern.BookCollection.Size | src/main/java/com/cuizhanming/oop/behavioral/IteratorPattern.java:36-38 | the number of books |
| IteratorPattern.BookCollection.CreateIterator | src/main/java/com/cuizhanming/oop/behavioral/IteratorPattern.java:41-43 | a new iterator over this list at position 0 |
| IteratorPattern.BookIterator.constructor | src/main/java/com/cuizhanming/oop/behavioral/IteratorPattern.java:46-47 | position 0 |
| IteratorPattern.BookIterator.HasNext | src/main/java/com/cuizhanming/oop/behavioral/IteratorPattern.java:49-52 | true exactly when the position is below the size |
| IteratorPattern.BookIterator.Next | src/main/java/com/cuizhanming/oop/behavioral/IteratorPattern.java:54-60 | the book at the position, and the position moves on by one; when exhausted, the error and no change |
| IteratorPattern.BookIterator.Remove | src/main/java/com/cuizhanming/oop/behavioral/IteratorPattern.java:62-68 | at position 0 the error and no change; otherwise the position steps back and the book there, the last one returned, is deleted; after outside shrinking, the step back happens and the deletion fails |
| IteratorPattern.Kept | src/main/java/com/cuizhanming/oop/behavioral/IteratorPattern.java:121-128 | the books kept by the filter are never more than the books |
| IteratorPattern.KeptExactly | src/main/java/com/cuizhanming/oop/behavioral/IteratorPattern.java:121-128 | a book is kept exactly when it is in the list and not older than the year |
| IteratorPattern.KeptSnoc | src/main/java/com/cuizhanming/oop/behavioral/IteratorPattern.java:121-128 | filtering a list with one more book adds that book exactly when it is kept |
| IteratorPattern.KeptPrefix | src/main/java/com/cuizhanming/oop/behavioral/IteratorPattern.java:121-128 | the filter of a prefix one longer |
| IteratorPattern.DropAfter | src/main/java/com/cuizhanming/oop/behavioral/IteratorPattern.java:62-68 | deleting the element just after a prefix leaves the prefix and the rest |
| IteratorPattern.FilterNext | src/main/java/com/cuizhanming/oop/behavioral/IteratorPattern.java:121-128 | one round of next and a conditional remove keeps or drops exactly the next book, and the cursor lands just after the kept ones |
| IteratorPattern.RemovePublishedBefore | src/main/java/com/cuizhanming/oop/behavioral/IteratorPattern.java:119-128 | the removal loop leaves exactly the books not older than the year, in order: remove's step back means none is skipped |
| IteratorPattern.ListAll | src/main/java/com/cuizhanming/oop/behavioral/IteratorPattern.java:113-117 | iterating with hasNext/next yields the books in insertion order |
| IteratorPattern.LibraryScenario | src/main/java/com/cuizhanming/oop/behavioral/IteratorPattern.java:98-138 | of the four books, the two from before 2010 go, leaving "Effective Java" and "Spring in Action" |
| ChainOfResponsibilityPattern.Accepts | src/main/java/com/cuizhanming/oop/behavioral/ChainOfResponsibilityPattern.java:58-112 | each handler's own test: level 1 takes LOW GENERAL, level 2 takes LOW or MEDIUM TECHNICAL, the manager takes HIGH or BILLING, the senior manager takes CRITICAL |
| ChainOfResponsibilityPattern.HandleFrom | src/main/java/com/cuizhanming/oop/behavioral/ChainOfResponsibilityPattern.java:19-25 | handled by the first handler in the chain that accepts, and by none before it; unhandled exactly when no handler accepts |
| ChainOfResponsibilityPattern.ProcessRequest | src/main/java/com/cuizhanming/oop/behavioral/ChainOfResponsibilityPattern.java:132-136 | processRequest: the request enters the chain at its first handler |
| ChainOfResponsibilityPattern.RoutingTable | src/main/java/com/cuizhanming/oop/behavioral/ChainOfResponsibilityPattern.java:115-137 | through the wired chain: level 1 takes exactly LOW GENERAL, level 2 exactly LOW or MEDIUM TECHNICAL, the manager exactly HIGH or BILLING, the senior manager exactly the CRITICAL non-billing requests |
| ChainOfResponsibilityPattern.OnlyMediumGeneralUnhandled | src/main/java/com/cuizhanming/oop/behavioral/ChainOfResponsibilityPattern.java:58-112 | a request goes unhandled exactly when it is MEDIUM GENERAL |
| ChainOfResponsibilityPattern.CriticalBillingGoesToManager | src/main/java/com/cuizhanming/oop/behavioral/ChainOfResponsibilityPattern.java:90-91 | a CRITICAL BILLING request stops at the manager |
| ChainOfResponsibilityPattern.DemoRequests | src/main/java/com/cuizhanming/oop/behavioral/ChainOfResponsibilityPattern.java:145-165 | the demonstration's five requests reach level 1, level 2, the manager, the senior manager and level 2 |
| CompositePattern.Component.File | src/main/java/com/cuizhanming/oop/structural/CompositePattern.java:24-27 | a file's size is the size it was made with |
| CompositePattern.Component.Directory | src/main/java/com/cuizhanming/oop/structural/CompositePattern.java:50-52 | a new directory is empty and has size 0 |
| CompositePattern.Component.Size | src/main/java/com/cuizhanming/oop/structural/CompositePattern.java:33-76 | getSize: a file's own size, a directory's sum of its components' sizes |
| CompositePattern.Component.SizeIsTotalOfFiles | src/main/java/com/cuizhanming/oop/structural/CompositePattern.java:72-76 | getSize is the total of the sizes of all files below, counted once per occurrence |
| CompositePattern.Component.AddComponent | src/main/java/com/cuizhanming/oop/structural/CompositePattern.java:54-56 | the component goes at the end and the size grows by its size |
| CompositePattern.Component.RemoveComponent | src/main/java/com/cuizhanming/oop/structural/CompositePattern.java:58-60 | the first occurrence, by identity, goes and the size drops by its size; an absent component changes nothing |
| CompositePattern.Component.GetComponents | src/main/java/com/cuizhanming/oop/structural/CompositePattern.java:83-85 | a copy of the components, in order |
| CompositePattern.SumSizes | src/main/java/com/cuizhanming/oop/structural/CompositePattern.java:72-76 | the sum of the sizes of a list of components, in order |
| CompositePattern.TotalConcat | src/main/java/com/cuizhanming/oop/structural/CompositePattern.java:72-76 | totals add up over concatenation |
| CompositePattern.SumSizesIsTotalOfFiles | src/main/java/com/cuizhanming/oop/structural/CompositePattern.java:72-76 | the summed sizes of a list of components are the total of their files' sizes |
| CompositePattern.SumSizesAnyBound | src/main/java/com/cuizhanming/oop/structural/CompositePattern.java:72-76 | the sum does not depend on the frame it is read in |
| CompositePattern.SumSizesConcat | src/main/java/com/cuizhanming/oop/structural/CompositePattern.java:72-76 | the size of two lists together is the sum of their sizes |
| CompositePattern.DirectoryOf | src/main/java/com/cuizhanming/oop/structural/CompositePattern.java:54-56 | a directory filled with new files by addComponent has the total of their sizes |
| CompositePattern.DemoTotals | src/main/java/com/cuizhanming/oop/structural/CompositePattern.java:92-120 | the totals of the demonstration's file sizes |
| CompositePattern.DemoParts | src/main/java/com/cuizhanming/oop/structural/CompositePattern.java:92-107 | src holds 2048 + 1536, docs 1024, the loose file 512 |
| CompositePattern.FileSystemScenario | src/main/java/com/cuizhanming/oop/structural/CompositePattern.java:88-121 | the project's total size is 1024 + 512 + 2048 + 1536 |
| StrategyPattern.IsValid | src/main/java/com/cuizhanming/oop/behavioral/StrategyPattern.java:39-101 | isValid of each strategy: a card number of 16 characters (scalar values) and a CVV of 3; an email with '@' and a password of at least 6; an account of at least 10 and a routing number of exactly 9 |
| StrategyPattern.PaymentType | src/main/java/com/cuizhanming/oop/behavioral/StrategyPattern.java:44-105 | getPaymentType of each strategy |
| StrategyPattern.LastFour | src/main/java/com/cuizhanming/oop/behavioral/StrategyPattern.java:28-36 | substring(length - 4): four characters that end the string |
| StrategyPattern.Pay | src/main/java/com/cuizhanming/oop/behavioral/StrategyPattern.java:28-105 | pay succeeds exactly for a valid strategy (card: a number of 16 characters (scalar values) and a CVV of 3; PayPal: '@' in the email and a password of 6 or more; bank: account of 10 or more and routing of exactly 9), naming its type and showing only the last four of a card or account number, always in range |
| StrategyPattern.ExpiryDateIgnored | src/main/java/com/cuizhanming/oop/behavioral/StrategyPattern.java:38-41 | the expiry date never changes a card payment's outcome |
| StrategyPattern.ShoppingCart.constructor | src/main/java/com/cuizhanming/oop/behavioral/StrategyPattern.java:109-111 | no items and no strategy |
| StrategyPattern.ShoppingCart.AddItem | src/main/java/com/cuizhanming/oop/behavioral/StrategyPattern.java:126-129 | the item goes at the end |
| StrategyPattern.ShoppingCart.SetPaymentStrategy | src/main/java/com/cuizhanming/oop/behavioral/StrategyPattern.java:131-134 | the new strategy replaces any earlier one |
| StrategyPattern.ShoppingCart.Checkout | src/main/java/com/cuizhanming/oop/behavioral/StrategyPattern.java:136-146 | with no strategy, no payment; otherwise the strategy's pay, which succeeds exactly when it is valid |
| StrategyPattern.CardPayment | src/main/java/com/cuizhanming/oop/behavioral/StrategyPattern.java:28-36 | the demonstration card pays, showing "3456" |
| StrategyPattern.PayPalPayment | src/main/java/com/cuizhanming/oop/behavioral/StrategyPattern.java:58-65 | the demonstration PayPal account pays under its email |
| StrategyPattern.BankPayment | src/main/java/com/cuizhanming/oop/behavioral/StrategyPattern.java:87-95 | the demonstration account pays, showing "7890" |
| StrategyPattern.ShortCardRefused | src/main/java/com/cuizhanming/oop/behavioral/StrategyPattern.java:28-41 | a short card number is refused |
| StrategyPattern.CheckoutScenario | src/main/java/com/cuizhanming/oop/behavioral/StrategyPattern.java:160-189 | the three payments go through and the short card is refused; a cart with no strategy pays nothing |
| BuilderPattern.Built | src/main/java/com/cuizhanming/oop/creational/BuilderPattern.java:91-96 | build fails exactly when CPU, RAM or storage is missing; otherwise the computer has exactly the builder's values, ports in insertion order |
| BuilderPattern.DefaultsDoNotBuild | src/main/java/com/cuizhanming/oop/creational/BuilderPattern.java:48-54 | a builder with only its defaults cannot build |
| BuilderPattern.Builder.constructor | src/main/java/com/cuizhanming/oop/creational/BuilderPattern.java:48-54 | the defaults: nothing required, integrated graphics, no radios, no ports |
| BuilderPattern.Builder.Cpu | src/main/java/com/cuizhanming/oop/creational/BuilderPattern.java:56-59 | sets the CPU, last write wins, returns the same builder |
| BuilderPattern.Builder.Ram | src/main/java/com/cuizhanming/oop/creational/BuilderPattern.java:61-64 | the same for the RAM |
| BuilderPattern.Builder.Storage | src/main/java/com/cuizhanming/oop/creational/BuilderPattern.java:66-69 | the same for the storage |
| BuilderPattern.Builder.Gpu | src/main/java/com/cuizhanming/oop/creational/BuilderPattern.java:71-74 | the same for the GPU |
| BuilderPattern.Builder.WithWifi | src/main/java/com/cuizhanming/oop/creational/BuilderPattern.java:76-79 | sets WiFi, whatever it was: idempotent |
| BuilderPattern.Builder.WithBluetooth | src/main/java/com/cuizhanming/oop/creational/BuilderPattern.java:81-84 | sets Bluetooth, idempotent |
| BuilderPattern.Builder.AddPort | src/main/java/com/cuizhanming/oop/creational/BuilderPattern.java:86-89 | the port goes at the end |
| BuilderPattern.Builder.Build | src/main/java/com/cuizhanming/oop/creational/BuilderPattern.java:91-96 | Built of the builder's state, leaving the builder unchanged |
| BuilderPattern.Required | src/main/java/com/cuizhanming/oop/creational/BuilderPattern.java:102-108 | a new builder given the three required parts |
| BuilderPattern.BuildGamingComputer | src/main/java/com/cuizhanming/oop/creational/BuilderPattern.java:102-115 | the gaming computer with every part, both radios and four ports |
| BuilderPattern.BuildOfficeComputer | src/main/java/com/cuizhanming/oop/creational/BuilderPattern.java:117-126 | the office computer on integrated graphics, WiFi only |
| BuilderPattern.BuildBudgetComputer | src/main/java/com/cuizhanming/oop/creational/BuilderPattern.java:128-135 | the budget computer with the required parts and one port |
| BuilderPattern.CustomComputerScenario | src/main/java/com/cuizhanming/oop/creational/BuilderPattern.java:142-150 | the demonstration's custom computer |
| BuilderPattern.MissingStorageScenario | src/main/java/com/cuizhanming/oop/creational/BuilderPattern.java:56-96 | setters are last-write-wins, withWifi twice is withWifi once, and a builder missing storage refuses to build |
| BuilderPattern.PortAfterBuildScenario | src/main/java/com/cuizhanming/oop/creational/BuilderPattern.java:22-29 | a port added after build does not reach the computer already built, whose port list is a copy |
| PrototypePattern.Blank | src/main/java/com/cuizhanming/oop/creational/PrototypePattern.java:18-22 | a default shape: no colour, every number 0 |
| PrototypePattern.Shape.constructor | src/main/java/com/cuizhanming/oop/creational/PrototypePattern.java:47 | new Circle() or new Rectangle() is blank |
| PrototypePattern.Shape.Copy | src/main/java/com/cuizhanming/oop/creational/PrototypePattern.java:24-30 | a copy constructor takes every field of a non-null source, and leaves the defaults for null |
| PrototypePattern.Shape.Clone | src/main/java/com/cuizhanming/oop/creational/PrototypePattern.java:57-59 | a new shape of the same kind with equal fields |
| PrototypePattern.Shape.SetColor | src/main/java/com/cuizhanming/oop/creational/PrototypePattern.java:36 | only the colour changes |
| PrototypePattern.Shape.SetPosition | src/main/java/com/cuizhanming/oop/creational/PrototypePattern.java:37 | only the position changes |
| PrototypePattern.Shape.SetRadius | src/main/java/com/cuizhanming/oop/creational/PrototypePattern.java:67 | only the radius changes |
| PrototypePattern.Shape.SetSize | src/main/java/com/cuizhanming/oop/creational/PrototypePattern.java:95-98 | only the width and height change |
| PrototypePattern.ShapeRegistry.constructor | src/main/java/com/cuizhanming/oop/creational/PrototypePattern.java:104-105 | no prototypes |
| PrototypePattern.ShapeRegistry.RegisterPrototype | src/main/java/com/cuizhanming/oop/creational/PrototypePattern.java:107-109 | the key now maps to the prototype, overwriting an earlier one |
| PrototypePattern.ShapeRegistry.CreateShape | src/main/java/com/cuizhanming/oop/creational/PrototypePattern.java:111-117 | a fresh clone of the registered prototype, never the prototype itself; the error for an unknown key |
| PrototypePattern.DemoKeys | src/main/java/com/cuizhanming/oop/creational/PrototypePattern.java:128-162 | the demonstration's keys are distinct |
| PrototypePattern.DemoRegistry | src/main/java/com/cuizhanming/oop/creational/PrototypePattern.java:128-141 | the registry holds the blue circle and the red rectangle |
| PrototypePattern.DemoCopies | src/main/java/com/cuizhanming/oop/creational/PrototypePattern.java:147-157 | the three changed copies, with the prototypes left as they were |
| PrototypePattern.PrototypeScenario | src/main/java/com/cuizhanming/oop/creational/PrototypePattern.java:124-162 | the copies differ as changed, the prototypes keep their fields, and an unknown key is refused |
| FlyweightPattern.CharacterFlyweight.constructor | src/main/java/com/cuizhanming/oop/structural/FlyweightPattern.java:18-24 | a flyweight carries its symbol |
| FlyweightPattern.CharacterFactory.constructor | src/main/java/com/cuizhanming/oop/structural/FlyweightPattern.java:35 | no flyweights yet |
| FlyweightPattern.CharacterFactory.GetCharacter | src/main/java/com/cuizhanming/oop/structural/FlyweightPattern.java:37-45 | the stored flyweight when there is one, and no change; otherwise a new one, stored; either way its symbol is the one asked for |
| FlyweightPattern.CharacterFactory.GetCreatedFlyweightsCount | src/main/java/com/cuizhanming/oop/structural/FlyweightPattern.java:47-49 | the number of distinct symbols ever requested |
| FlyweightPattern.Document.constructor | src/main/java/com/cuizhanming/oop/structural/FlyweightPattern.java:73 | no characters |
| FlyweightPattern.Document.AddCharacter | src/main/java/com/cuizhanming/oop/structural/FlyweightPattern.java:75-78 | exactly one context is appended, holding the factory's shared flyweight for the symbol; the factory's map changes at most by a new entry for that symbol, and not at all when the symbol was known |
| FlyweightPattern.AddKeepsOtherSharing | src/main/java/com/cuizhanming/oop/structural/FlyweightPattern.java:37-45 | two documents on one factory: adding a character to one leaves the other's characters alone and still shared |
| FlyweightPattern.SameSymbolSameObject | src/main/java/com/cuizhanming/oop/structural/FlyweightPattern.java:37-45 | two occurrences of one symbol hold the same flyweight object |
| FlyweightPattern.ShownConcat | src/main/java/com/cuizhanming/oop/structural/FlyweightPattern.java:95-108 | characters shown add up over concatenation |
| FlyweightPattern.Typeset | src/main/java/com/cuizhanming/oop/structural/FlyweightPattern.java:92-108 | one context per non-space character, and one flyweight per distinct symbol |
| FlyweightPattern.DemoShown | src/main/java/com/cuizhanming/oop/structural/FlyweightPattern.java:92 | the text has 21 non-space characters |
| FlyweightPattern.DemoSymbols | src/main/java/com/cuizhanming/oop/structural/FlyweightPattern.java:92 | the text's symbols |
| FlyweightPattern.DemoCount | src/main/java/com/cuizhanming/oop/structural/FlyweightPattern.java:92 | there are 11 of them |
| FlyweightPattern.FlyweightScenario | src/main/java/com/cuizhanming/oop/structural/FlyweightPattern.java:86-111 | 21 characters shown, sharing 11 flyweights |
| ProxyPattern.RealImage.constructor | src/main/java/com/cuizhanming/oop/structural/ProxyPattern.java:23-27 | an image with its file name and size |
| ProxyPattern.RealImage.Info | src/main/java/com/cuizhanming/oop/structural/ProxyPattern.java:45-47 | getInfo: the file name and the size in bytes |
| ProxyPattern.Disk.constructor | src/main/java/com/cuizhanming/oop/structural/ProxyPattern.java:29-37 | nothing loaded yet |
| ProxyPattern.Disk.Load | src/main/java/com/cuizhanming/oop/structural/ProxyPattern.java:23-35 | a new image, and the file name appended to the record of loads |
| ProxyPattern.ImageProxy.constructor | src/main/java/com/cuizhanming/oop/structural/ProxyPattern.java:55-57 | no image yet |
| ProxyPattern.ImageProxy.Display | src/main/java/com/cuizhanming/oop/structural/ProxyPattern.java:60-65 | the first call loads the image once; later calls reuse it and load nothing |
| ProxyPattern.ImageProxy.GetInfo | src/main/java/com/cuizhanming/oop/structural/ProxyPattern.java:68-73 | "not loaded" before any display, loading nothing; the image's info after |
| ProxyPattern.ImageCache.constructor | src/main/java/com/cuizhanming/oop/structural/ProxyPattern.java:78 | the shared cache starts empty |
| ProxyPattern.LoadedAtMostOnce | src/main/java/com/cuizhanming/oop/structural/ProxyPattern.java:78-96 | each file name is loaded through the cache at most once, and exactly once when cached |
| ProxyPattern.CachingImageProxy.constructor | src/main/java/com/cuizhanming/oop/structural/ProxyPattern.java:81-83 | a proxy over the shared cache |
| ProxyPattern.CachingImageProxy.Display | src/main/java/com/cuizhanming/oop/structural/ProxyPattern.java:86-96 | a cached name loads nothing; a new one is loaded once and cached |
| ProxyPattern.CachingImageProxy.GetInfo | src/main/java/com/cuizhanming/oop/structural/ProxyPattern.java:99-105 | never loads; "not in cache" for a name not cached |
| ProxyPattern.HasAccess | src/main/java/com/cuizhanming/oop/structural/ProxyPattern.java:119-121 | hasAccess: exactly the roles "admin" and "user" |
| ProxyPattern.ProtectedImageProxy.constructor | src/main/java/com/cuizhanming/oop/structural/ProxyPattern.java:114-117 | no image yet |
| ProxyPattern.ProtectedImageProxy.Display | src/main/java/com/cuizhanming/oop/structural/ProxyPattern.java:124-134 | a refused role loads nothing; a permitted one loads on first use only |
| ProxyPattern.ProtectedImageProxy.GetInfo | src/main/java/com/cuizhanming/oop/structural/ProxyPattern.java:137-146 | a refused role gets "access denied" and loads nothing; a permitted one loads on the first call and gets the info |
| ProxyPattern.DemoRoles | src/main/java/com/cuizhanming/oop/structural/ProxyPattern.java:119-121 | "admin" is let through and "guest" is not |
| ProxyPattern.VirtualProxyScenario | src/main/java/com/cuizhanming/oop/structural/ProxyPattern.java:149-175 | "not loaded", then one load on display |
| ProxyPattern.CachingProxyScenario | src/main/java/com/cuizhanming/oop/structural/ProxyPattern.java:149-175 | two displays of one file, one load |
| ProxyPattern.ProtectionProxyScenario | src/main/java/com/cuizhanming/oop/structural/ProxyPattern.java:149-175 | the admin loads once, the guest is refused |
| ProxyPattern.ProxyScenario | src/main/java/com/cuizhanming/oop/structural/ProxyPattern.java:149-175 | three loads in all, one per file, whatever the sizes |

## Left out

- Console output. Every `System.out` call, `display`, `draw` and `showStatus` is left out. Where a returned string is the observable (descriptions, `getInfo`, receipts), it is modelled.
- MementoPattern.Written: Java's `length()` and `substring` count UTF-16 units, while a Dafny `char` is a Unicode scalar value, so the model's lengths and cursor positions count scalar values. The two agree exactly on text without supplementary characters (outside the Basic Multilingual Plane). With such characters the model cannot place the cursor between the two halves of a surrogate pair, as Java can.
- MementoPattern.CursorMoved: clamps to the length in Unicode scalar values, where Java clamps to `content.length()` in UTF-16 units. The two agree on text without supplementary characters.
- MementoPattern.Deleted: the substring bounds and the count are in Unicode scalar values, where Java's are in UTF-16 units. The two agree on text without supplementary characters.
- StrategyPattern.IsValid: the lengths of card number, CVV, password, account and routing number count Unicode scalar values, where Java's `length()` counts UTF-16 units. The two agree on text without supplementary characters; a 16-unit card number holding one such character is accepted by Java and refused here.
- StrategyPattern.LastFour: takes the last four Unicode scalar values, where `substring(length() - 4)` takes the last four UTF-16 units. The two agree on text without supplementary characters.
- StrategyPattern.Pay: inherits the scalar-value counting of IsValid and LastFour. It agrees with Java on text without supplementary characters.
- FlyweightPattern.Typeset: iterates Unicode scalar values, where `toCharArray()` yields UTF-16 units. A supplementary character is one flyweight here and two surrogate flyweights in Java. The two agree on text without supplementary characters.
- FlyweightPattern.Shown: counts Unicode scalar values, where the Java loop counts UTF-16 units. The two agree on text without supplementary characters.
- MementoPattern.DeleteUndoesWrite: holds for content shorter than 2^31 UTF-16 units only. A Java string cannot be longer, and the model's strings are unbounded.
- MementoPattern.Deleted: its properties for a given count are stated for content shorter than 2^31 UTF-16 units, the length a Java string can have; the cursor arithmetic of write is not wrapped, since it cannot overflow for such content.
- The `main` methods. They appear only as the scenario methods and lemmas above.
- CommandPattern.Command.Description: the Java `setCommand` and `undoButtonPressed` also print descriptions. For a fan-speed command outside 0..3 that print throws after the state change. The model keeps the state change and drops the exception.
- CommandPattern.RemoteControl.constructor requires a non-negative number of slots. Java throws `NegativeArraySizeException` otherwise.
- CommandPattern.PartyModeScenario runs the party macro directly rather than through the remote's slot 3. LightUndoScenario covers presses and undos through the remote.
- The command interface and the shape and file-system class hierarchies are each one Dafny class with a kind field. Dafny traits are not used.
- MementoPattern: the snapshot's wall-clock timestamp is not modelled.
- InterpreterPattern: tokenising with `split("\\s+")` takes the tokens as input. `matches("\\d+")` is modelled as a non-empty run of ASCII digits.
- InterpreterPattern.Parse: `Integer.parseInt` of a digit run above the int range is the error `NumberTooLarge`. The exception's type is not modelled.
- StrategyPattern: item prices are doubles, so `calculateTotal` and the amount passed to `pay` are not modelled.
- StrategyPattern.ShoppingCart.SetPaymentStrategy: a null strategy is not modelled. In Java it is stored, then the print after it throws.
- CompositePattern.Component.Size: Java's `long` sum is modelled as an unbounded integer, so overflow is not modelled.
- StatePattern.VendingMachine: Java's `int` coin and product counts are unbounded integers. Overflow would need more than 2^31 coins.
- IteratorPattern.BookIterator: Java's `int` position is an unbounded integer.
- IteratorPattern.BookIterator.Next requires a non-negative position. That always holds, since the position starts at 0, and only remove decrements it, and only from a positive position.
- CompositePattern.Component.AddComponent requires that the directory is not inside the added component. Java would accept a cycle, and `getSize` would then recurse forever.
- Changing a component after it has been added to a directory is not modelled.
- Null arguments are not modelled: setters, `addPort`, roles, file names, books, components, the `text` of `TextEditor.write` (Java's string concatenation inserts the four letters "null" at the cursor, then `text.length()` throws, leaving the cursor where it was), and null members of a macro's command array (Java's execute and undo run the members before the null one, then throw). The registry's null prototype is modelled and refused by CreateShape.
- BuilderPattern: `List.copyOf` throws on a null port; ports here are never null.
- ProxyPattern: `RealImage`'s random size and its `Thread.sleep` are not modelled. The size is a parameter of each load, and `Disk` records every load in order.
- The static maps of the caching proxy and the flyweight factory are shared objects, `ImageCache` and `CharacterFactory`, passed to their users.
- The rest of the repository is not part of this model. That covers the other pattern demos, the `ood` examples and `DesignPatternShowcase`. They only print, use floating point or use threads.
