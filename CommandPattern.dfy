/**
 * The reversible command engine: receivers (Light, Fan), commands that act on
 * them and can be undone (light on/off, fan speed, macro, no-op), and the
 * RemoteControl invoker with its slot table and its undo history.
 *
 * The commands' effect is given twice: by the methods Execute and Undo, which
 * change the receivers in place as the Java classes do, and by the pure
 * functions ExecW and UndoW on a World value (the state of every light, every
 * fan and the speed each fan-speed command remembered). Each method is proved
 * to do what its function says, and the undo properties are proved on the
 * functions.
 */
module CommandPattern {
  import opened Wrappers

  /** The names of the four fan speeds. */
  const Levels: seq<string> := ["OFF", "LOW", "MEDIUM", "HIGH"]

  /** Fan.setSpeed's clamping: a speed in 0..3 is kept, anything else goes to the nearer bound. */
  function Clamp(speed: int): (r: int)
    ensures 0 <= r <= 3
    ensures 0 <= speed <= 3 ==> r == speed
    ensures speed < 0 ==> r == 0
    ensures speed > 3 ==> r == 3
  {
    if speed < 0 then 0 else if speed > 3 then 3 else speed
  }

  class Light {
    var isOn: bool
    const location: string

    constructor (location: string)
      ensures this.location == location && !isOn
    {
      this.location := location;
      isOn := false;
    }

    method TurnOn()
      modifies this
      ensures isOn
    {
      isOn := true;
    }

    method TurnOff()
      modifies this
      ensures !isOn
    {
      isOn := false;
    }
  }

  class Fan {
    var speed: int
    const location: string

    constructor (location: string)
      ensures this.location == location && speed == 0
    {
      this.location := location;
      speed := 0;
    }

    method SetSpeed(speed: int)
      modifies this
      ensures this.speed == Clamp(speed)
    {
      this.speed := Clamp(speed);
    }
  }

  /** What a command does; a macro holds its members in order. */
  datatype Kind =
    | NoOp
    | LightOn(light: Light)
    | LightOff(light: Light)
    | FanSpeed(fan: Fan, newSpeed: int)
    | Macro(members: seq<Command>)

  /** The state the commands act on: receivers, and what each fan-speed command remembered. */
  datatype World = World(lights: map<Light, bool>, fans: map<Fan, int>, saved: map<Command, int>)

  /** The World as the heap holds it, for the objects in fp. */
  ghost function Snap(fp: set<object>): World
    reads set l: Light | l in fp, set f: Fan | f in fp, set c: Command | c in fp
  {
    World(map l: Light | l in fp :: l.isOn,
          map f: Fan | f in fp :: f.speed,
          map c: Command | c in fp :: c.previousSpeed)
  }

  function SpeedIn(w: World, f: Fan): int {
    if f in w.fans then w.fans[f] else 0
  }

  function SavedIn(w: World, c: Command): int {
    if c in w.saved then w.saved[c] else 0
  }

  class Command {
    const kind: Kind
    /** Nesting depth of macros: 0 for a simple command. */
    const depth: nat
    /** Only a fan-speed command uses it: the fan's speed read by its latest execute. */
    var previousSpeed: int

    constructor NoCommand()
      ensures kind == NoOp && Valid()
    {
      kind, depth := NoOp, 0;
    }

    constructor LightOnCommand(light: Light)
      ensures kind == LightOn(light) && Valid()
    {
      kind, depth := LightOn(light), 0;
    }

    constructor LightOffCommand(light: Light)
      ensures kind == LightOff(light) && Valid()
    {
      kind, depth := LightOff(light), 0;
    }

    constructor FanSpeedCommand(fan: Fan, speed: int)
      ensures kind == FanSpeed(fan, speed) && previousSpeed == 0 && Valid()
    {
      kind, depth := FanSpeed(fan, speed), 0;
      previousSpeed := 0;
    }

    /** The members are copied out of the caller's array. */
    constructor MacroCommand(commands: array<Command>)
      requires forall i :: 0 <= i < commands.Length ==> commands[i].Valid()
      ensures kind == Macro(commands[..]) && Valid()
    {
      kind := Macro(commands[..]);
      depth := 1 + MaxDepth(commands[..]);
    }

    ghost predicate Valid()
      decreases depth
    {
      match kind
      case Macro(ms) => forall i :: 0 <= i < |ms| ==> ms[i].depth < depth && ms[i].Valid()
      case _ => true
    }

    ghost function Lights(): set<Light>
      requires Valid()
      decreases depth
    {
      match kind
      case LightOn(l) => {l}
      case LightOff(l) => {l}
      case Macro(ms) => set i, l | 0 <= i < |ms| && l in ms[i].Lights() :: l
      case _ => {}
    }

    ghost function Fans(): set<Fan>
      requires Valid()
      decreases depth
    {
      match kind
      case FanSpeed(f, _) => {f}
      case Macro(ms) => set i, f | 0 <= i < |ms| && f in ms[i].Fans() :: f
      case _ => {}
    }

    /** The fan-speed commands whose previousSpeed executing this one writes. */
    ghost function FanCommands(): set<Command>
      requires Valid()
      decreases depth
    {
      match kind
      case FanSpeed(_, _) => {this}
      case Macro(ms) => set i, c | 0 <= i < |ms| && c in ms[i].FanCommands() :: c
      case _ => {}
    }

    ghost function Footprint(): set<object>
      requires Valid()
    {
      Lights() + Fans() + FanCommands()
    }

    /** getDescription; None where the Java code would index past the speed names. */
    function Description(): (d: Option<string>)
      ensures kind.NoOp? ==> d == Some("No command")
      ensures kind.FanSpeed? ==> (d.Some? <==> 0 <= kind.newSpeed < |Levels|)
      ensures !kind.FanSpeed? ==> d.Some?
    {
      match kind
      case NoOp => Some("No command")
      case LightOn(l) => Some("Turn on " + l.location + " light")
      case LightOff(l) => Some("Turn off " + l.location + " light")
      case FanSpeed(f, s) =>
        if 0 <= s < |Levels| then Some("Set " + f.location + " fan to " + Levels[s]) else None
      case Macro(_) => Some("Macro: Multiple commands")
    }

    /** The effect of execute on a World. */
    function ExecW(w: World): World
      requires Valid()
      decreases depth, 1
    {
      match kind
      case NoOp => w
      case LightOn(l) => w.(lights := w.lights[l := true])
      case LightOff(l) => w.(lights := w.lights[l := false])
      case FanSpeed(f, s) => w.(fans := w.fans[f := Clamp(s)], saved := w.saved[this := SpeedIn(w, f)])
      case Macro(ms) => ExecPrefix(|ms|, w)
    }

    /** A macro's first k members executed, first to last. */
    function ExecPrefix(k: nat, w: World): World
      requires Valid() && kind.Macro? && k <= |kind.members|
      decreases depth, 0, k
    {
      if k == 0 then w else kind.members[k - 1].ExecW(ExecPrefix(k - 1, w))
    }

    /** The effect of undo on a World. */
    function UndoW(w: World): World
      requires Valid()
      decreases depth, 1
    {
      match kind
      case NoOp => w
      case LightOn(l) => w.(lights := w.lights[l := false])
      case LightOff(l) => w.(lights := w.lights[l := true])
      case FanSpeed(f, _) => w.(fans := w.fans[f := Clamp(SavedIn(w, this))])
      case Macro(ms) => UndoSuffix(0, w)
    }

    /** A macro's members from the last down to index k undone, last first. */
    function UndoSuffix(k: nat, w: World): World
      requires Valid() && kind.Macro? && k <= |kind.members|
      decreases depth, 0, |kind.members| - k
    {
      if k == |kind.members| then w else kind.members[k].UndoW(UndoSuffix(k + 1, w))
    }

    /** A macro member is valid, shallower, and within the macro's footprint. */
    lemma MemberWithin(i: nat)
      requires Valid() && kind.Macro? && i < |kind.members|
      ensures kind.members[i].Valid() && kind.members[i].depth < depth
      ensures kind.members[i].Footprint() <= Footprint()
    {
    }

    method Execute(ghost fp: set<object>)
      requires Valid() && Footprint() <= fp
      modifies Footprint()
      ensures Snap(fp) == ExecW(old(Snap(fp)))
      decreases depth
    {
      match kind
      case NoOp =>
      case LightOn(l) =>
        l.TurnOn();
      case LightOff(l) =>
        l.TurnOff();
      case FanSpeed(f, s) =>
        previousSpeed := f.speed;
        f.SetSpeed(s);
      case Macro(ms) =>
        var i := 0;
        while i < |ms|
          invariant 0 <= i <= |ms|
          invariant Snap(fp) == ExecPrefix(i, old(Snap(fp)))
        {
          MemberWithin(i);
          ms[i].Execute(fp);
          i := i + 1;
        }
    }

    method Undo(ghost fp: set<object>)
      requires Valid() && Footprint() <= fp
      modifies Footprint()
      ensures Snap(fp) == UndoW(old(Snap(fp)))
      decreases depth
    {
      match kind
      case NoOp =>
      case LightOn(l) =>
        l.TurnOff();
      case LightOff(l) =>
        l.TurnOn();
      case FanSpeed(f, _) =>
        f.SetSpeed(previousSpeed);
      case Macro(ms) =>
        var i := |ms|;
        while i > 0
          invariant 0 <= i <= |ms|
          invariant Snap(fp) == UndoSuffix(i, old(Snap(fp)))
        {
          i := i - 1;
          MemberWithin(i);
          ms[i].Undo(fp);
        }
    }
  }

  /** The largest depth among the commands. */
  function MaxDepth(cs: seq<Command>): (d: nat)
    ensures forall i :: 0 <= i < |cs| ==> cs[i].depth <= d
  {
    if cs == [] then 0
    else var rest := MaxDepth(cs[1..]);
      if cs[0].depth > rest then cs[0].depth else rest
  }

  /** The invoker: a fixed table of on/off slots and an unbounded history of executed commands. */
  class RemoteControl {
    const slots: int
    const onCommands: array<Command>
    const offCommands: array<Command>
    /** The Java Stack: the top is the last element. */
    var history: seq<Command>
    /** Presses of a valid slot and undos that popped a command, so far. */
    ghost var presses: nat
    ghost var undos: nat

    ghost predicate Valid()
      reads this, onCommands, offCommands
    {
      && onCommands.Length == slots && offCommands.Length == slots
      && onCommands != offCommands
      && (forall i :: 0 <= i < slots ==> onCommands[i].Valid() && offCommands[i].Valid())
      && (forall i :: 0 <= i < |history| ==> history[i].Valid())
      && |history| == presses - undos
    }

    /** Every slot starts with one shared no-op command, on and off. */
    constructor (slots: int)
      requires slots >= 0
      ensures Valid() && fresh(onCommands) && fresh(offCommands)
      ensures this.slots == slots && history == [] && presses == undos == 0
      ensures forall i :: 0 <= i < slots ==>
        onCommands[i].kind == NoOp && offCommands[i] == onCommands[i] == onCommands[0]
    {
      this.slots := slots;
      var noCommand := new Command.NoCommand();
      onCommands := new Command[slots](_ => noCommand);
      offCommands := new Command[slots](_ => noCommand);
      history := [];
      presses, undos := 0, 0;
    }

    predicate IsSlot(slot: int)
      reads this
    {
      0 <= slot < slots
    }

    /** Replaces exactly the given slot's pair; an out-of-range slot changes nothing. */
    method SetCommand(slot: int, onCommand: Command, offCommand: Command)
      requires Valid() && onCommand.Valid() && offCommand.Valid()
      modifies onCommands, offCommands
      ensures Valid()
      ensures IsSlot(slot) ==> && onCommands[..] == old(onCommands[..])[slot := onCommand]
                               && offCommands[..] == old(offCommands[..])[slot := offCommand]
      ensures !IsSlot(slot) ==> && onCommands[..] == old(onCommands[..])
                                && offCommands[..] == old(offCommands[..])
    {
      if 0 <= slot < slots {
        onCommands[slot] := onCommand;
        offCommands[slot] := offCommand;
      }
    }

    /**
     * A valid slot's on command is executed once and pushed on the history;
     * an out-of-range slot does nothing.
     */
    method OnButtonPressed(slot: int, ghost fp: set<object>)
      requires Valid()
      requires IsSlot(slot) ==> onCommands[slot].Footprint() <= fp
      modifies this, if IsSlot(slot) then onCommands[slot].Footprint() else {}
      ensures Valid()
      ensures IsSlot(slot) ==> && history == old(history) + [onCommands[slot]]
                               && Snap(fp) == onCommands[slot].ExecW(old(Snap(fp)))
                               && presses == old(presses) + 1 && undos == old(undos)
      ensures !IsSlot(slot) ==> && history == old(history) && Snap(fp) == old(Snap(fp))
                                && presses == old(presses) && undos == old(undos)
    {
      if 0 <= slot < slots {
        onCommands[slot].Execute(fp);
        history := history + [onCommands[slot]];
        presses := presses + 1;
      }
    }

    /** As OnButtonPressed, with the slot's off command. */
    method OffButtonPressed(slot: int, ghost fp: set<object>)
      requires Valid()
      requires IsSlot(slot) ==> offCommands[slot].Footprint() <= fp
      modifies this, if IsSlot(slot) then offCommands[slot].Footprint() else {}
      ensures Valid()
      ensures IsSlot(slot) ==> && history == old(history) + [offCommands[slot]]
                               && Snap(fp) == offCommands[slot].ExecW(old(Snap(fp)))
                               && presses == old(presses) + 1 && undos == old(undos)
      ensures !IsSlot(slot) ==> && history == old(history) && Snap(fp) == old(Snap(fp))
                                && presses == old(presses) && undos == old(undos)
    {
      if 0 <= slot < slots {
        offCommands[slot].Execute(fp);
        history := history + [offCommands[slot]];
        presses := presses + 1;
      }
    }

    /**
     * Pops the most recent command and undoes it; with an empty history nothing
     * changes. Nothing is kept for a redo.
     */
    method UndoButtonPressed(ghost fp: set<object>)
      requires Valid()
      requires history != [] ==> history[|history| - 1].Footprint() <= fp
      modifies this, if history != [] then history[|history| - 1].Footprint() else {}
      ensures Valid()
      ensures old(history) == [] ==> && history == [] && Snap(fp) == old(Snap(fp))
                                     && presses == old(presses) && undos == old(undos)
      ensures old(history) != [] ==>
        && history == old(history)[..|old(history)| - 1]
        && Snap(fp) == old(history)[|old(history)| - 1].UndoW(old(Snap(fp)))
        && presses == old(presses) && undos == old(undos) + 1
    {
      if history != [] {
        var lastCommand := history[|history| - 1];
        history := history[..|history| - 1];
        undos := undos + 1;
        lastCommand.Undo(fp);
      }
    }

    /**
     * showConfiguration: for each slot in order, the descriptions of its two
     * commands. The Java loop throws at the first slot with a command it cannot
     * describe, so no line for that slot or any later one appears; failed says so.
     */
    method ShowConfiguration() returns (lines: seq<SlotLine>, failed: bool)
      requires Valid()
      ensures |lines| <= slots && (failed <==> |lines| < slots)
      ensures forall i :: 0 <= i < |lines| ==>
        && onCommands[i].Description().Some? && offCommands[i].Description().Some?
        && lines[i] == SlotLine(i, onCommands[i].Description().value, offCommands[i].Description().value)
      ensures failed ==> onCommands[|lines|].Description().None? || offCommands[|lines|].Description().None?
    {
      lines := [];
      var i := 0;
      while i < slots
        invariant 0 <= i <= slots && |lines| == i
        invariant forall j :: 0 <= j < i ==>
          && onCommands[j].Description().Some? && offCommands[j].Description().Some?
          && lines[j] == SlotLine(j, onCommands[j].Description().value, offCommands[j].Description().value)
      {
        var on, off := onCommands[i].Description(), offCommands[i].Description();
        if on.None? || off.None? {
          return lines, true;
        }
        lines := lines + [SlotLine(i, on.value, off.value)];
        i := i + 1;
      }
      failed := false;
    }
  }

  datatype SlotLine = SlotLine(slot: int, on: string, off: string)

  // ----- Reference definitions and undo properties -----

  ghost predicate AllValid(cs: seq<Command>) {
    forall i :: 0 <= i < |cs| ==> cs[i].Valid()
  }

  /** Executes cs[0], then cs[1], and so on. */
  function RunAll(cs: seq<Command>, w: World): World
    requires AllValid(cs)
  {
    if cs == [] then w else RunAll(cs[1..], cs[0].ExecW(w))
  }

  /** Undoes cs[0], then cs[1], and so on. */
  function UndoAll(cs: seq<Command>, w: World): World
    requires AllValid(cs)
  {
    if cs == [] then w else UndoAll(cs[1..], cs[0].UndoW(w))
  }

  function Reverse<T>(s: seq<T>): (r: seq<T>)
    ensures |r| == |s|
  {
    if s == [] then [] else Reverse(s[1..]) + [s[0]]
  }

  lemma {:induction false} ReverseAt<T>(s: seq<T>, k: nat)
    requires k < |s|
    ensures Reverse(s)[k] == s[|s| - 1 - k]
  {
    if k < |s| - 1 {
      ReverseAt(s[1..], k);
    }
  }

  lemma {:induction false} RunAllSnoc(cs: seq<Command>, c: Command, w: World)
    requires AllValid(cs) && c.Valid()
    ensures AllValid(cs + [c]) && RunAll(cs + [c], w) == c.ExecW(RunAll(cs, w))
  {
    if cs != [] {
      assert (cs + [c])[1..] == cs[1..] + [c];
      RunAllSnoc(cs[1..], c, cs[0].ExecW(w));
    }
  }

  lemma {:induction false} UndoAllSnoc(cs: seq<Command>, c: Command, w: World)
    requires AllValid(cs) && c.Valid()
    ensures AllValid(cs + [c]) && UndoAll(cs + [c], w) == c.UndoW(UndoAll(cs, w))
  {
    if cs != [] {
      assert (cs + [c])[1..] == cs[1..] + [c];
      UndoAllSnoc(cs[1..], c, cs[0].UndoW(w));
    }
  }

  /** A macro executes its members in array order. */
  lemma {:induction false} MacroExecutesInOrder(m: Command, w: World)
    requires m.Valid() && m.kind.Macro?
    ensures AllValid(m.kind.members) && m.ExecW(w) == RunAll(m.kind.members, w)
  {
    var ms := m.kind.members;
    var k := 0;
    while k < |ms|
      invariant 0 <= k <= |ms|
      invariant m.ExecPrefix(k, w) == RunAll(ms[..k], w)
    {
      assert ms[..k + 1] == ms[..k] + [ms[k]];
      RunAllSnoc(ms[..k], ms[k], w);
      k := k + 1;
    }
    assert ms[..|ms|] == ms;
  }

  /** A macro undoes its members in reverse array order. */
  lemma {:induction false} MacroUndoesInReverse(m: Command, w: World)
    requires m.Valid() && m.kind.Macro?
    ensures AllValid(Reverse(m.kind.members)) && m.UndoW(w) == UndoAll(Reverse(m.kind.members), w)
  {
    var ms := m.kind.members;
    var k := |ms|;
    assert ms[k..] == [];
    while k > 0
      invariant 0 <= k <= |ms|
      invariant AllValid(Reverse(ms[k..]))
      invariant m.UndoSuffix(k, w) == UndoAll(Reverse(ms[k..]), w)
    {
      k := k - 1;
      assert ms[k..][1..] == ms[k + 1..];
      UndoAllSnoc(Reverse(ms[k + 1..]), ms[k], w);
    }
  }

  /** Two worlds agree on every light and every fan; the remembered speeds may differ. */
  predicate SameDevices(a: World, b: World) {
    a.lights == b.lights && a.fans == b.fans
  }

  /** Undoing c right after executing it, from w, puts every light and fan back as in w. */
  predicate Inverts(c: Command, w: World)
    requires c.Valid()
  {
    SameDevices(c.UndoW(c.ExecW(w)), w)
  }

  /** No fan-speed command is reachable from two positions of cs. */
  ghost predicate SeparateFanCommands(cs: seq<Command>)
    requires AllValid(cs)
  {
    forall i, j :: 0 <= i < j < |cs| ==> cs[i].FanCommands() !! cs[j].FanCommands()
  }

  /** A member's fan-speed commands are the macro's. */
  lemma MemberFanCommands(m: Command, i: nat)
    requires m.Valid() && m.kind.Macro? && i < |m.kind.members|
    ensures m.kind.members[i].Valid() && m.kind.members[i].FanCommands() <= m.FanCommands()
  {
  }

  /** Undo only reads the remembered speeds; it never writes them. */
  lemma {:induction false} UndoKeepsSaved(c: Command, w: World)
    requires c.Valid()
    ensures c.UndoW(w).saved == w.saved
    decreases c.depth
  {
    if c.kind.Macro? {
      var ms := c.kind.members;
      var k := |ms|;
      while k > 0
        invariant 0 <= k <= |ms|
        invariant c.UndoSuffix(k, w).saved == w.saved
      {
        k := k - 1;
        UndoKeepsSaved(ms[k], c.UndoSuffix(k + 1, w));
      }
    }
  }

  lemma {:induction false} UndoAllKeepsSaved(cs: seq<Command>, w: World)
    requires AllValid(cs)
    ensures UndoAll(cs, w).saved == w.saved
  {
    if cs != [] {
      UndoKeepsSaved(cs[0], w);
      UndoAllKeepsSaved(cs[1..], cs[0].UndoW(w));
    }
  }

  /** Execute writes the remembered speed of its own fan-speed commands only. */
  lemma {:induction false} ExecSavedOutside(c: Command, w: World, d: Command)
    requires c.Valid() && d !in c.FanCommands()
    ensures SavedIn(c.ExecW(w), d) == SavedIn(w, d)
    decreases c.depth
  {
    if c.kind.Macro? {
      var ms := c.kind.members;
      var k := 0;
      while k < |ms|
        invariant 0 <= k <= |ms|
        invariant SavedIn(c.ExecPrefix(k, w), d) == SavedIn(w, d)
      {
        MemberFanCommands(c, k);
        ExecSavedOutside(ms[k], c.ExecPrefix(k, w), d);
        k := k + 1;
      }
    }
  }

  lemma {:induction false} RunAllSavedOutside(cs: seq<Command>, w: World, d: Command)
    requires AllValid(cs) && forall i :: 0 <= i < |cs| ==> d !in cs[i].FanCommands()
    ensures SavedIn(RunAll(cs, w), d) == SavedIn(w, d)
  {
    if cs != [] {
      ExecSavedOutside(cs[0], w, d);
      RunAllSavedOutside(cs[1..], cs[0].ExecW(w), d);
    }
  }

  /**
   * Undo depends only on the devices and on the remembered speeds of the
   * command's own fan-speed commands.
   */
  lemma {:induction false} UndoCongruent(c: Command, a: World, b: World)
    requires c.Valid() && SameDevices(a, b)
    requires forall d :: d in c.FanCommands() ==> SavedIn(a, d) == SavedIn(b, d)
    ensures SameDevices(c.UndoW(a), c.UndoW(b))
    decreases c.depth
  {
    if c.kind.Macro? {
      var ms := c.kind.members;
      var k := |ms|;
      while k > 0
        invariant 0 <= k <= |ms|
        invariant SameDevices(c.UndoSuffix(k, a), c.UndoSuffix(k, b))
        invariant c.UndoSuffix(k, a).saved == a.saved && c.UndoSuffix(k, b).saved == b.saved
      {
        k := k - 1;
        var a', b' := c.UndoSuffix(k + 1, a), c.UndoSuffix(k + 1, b);
        MemberFanCommands(c, k);
        UndoCongruent(ms[k], a', b');
        UndoKeepsSaved(ms[k], a');
        UndoKeepsSaved(ms[k], b');
      }
    }
  }

  /**
   * If every command in cs puts the devices back when undone right where it
   * ran, and no fan-speed command occurs at two positions, then undoing the
   * whole sequence in reverse puts the devices back as they were at the start.
   */
  lemma {:induction false} UndoInReverseRestores(cs: seq<Command>, w: World)
    requires AllValid(cs) && SeparateFanCommands(cs)
    requires forall i :: 0 <= i < |cs| ==> Inverts(cs[i], RunAll(cs[..i], w))
    ensures AllValid(Reverse(cs)) && SameDevices(UndoAll(Reverse(cs), RunAll(cs, w)), w)
  {
    if cs != [] {
      var c, rest := cs[0], cs[1..];
      var w' := c.ExecW(w);
      forall i | 0 <= i < |rest|
        ensures Inverts(rest[i], RunAll(rest[..i], w'))
      {
        assert cs[..i + 1][1..] == rest[..i];
        assert Inverts(cs[i + 1], RunAll(cs[..i + 1], w));
      }
      forall i, j | 0 <= i < j < |rest|
        ensures rest[i].FanCommands() !! rest[j].FanCommands()
      {
        assert rest[i] == cs[i + 1] && rest[j] == cs[j + 1];
      }
      UndoInReverseRestores(rest, w');
      var x := UndoAll(Reverse(rest), RunAll(rest, w'));
      UndoAllKeepsSaved(Reverse(rest), RunAll(rest, w'));
      forall d | d in c.FanCommands()
        ensures SavedIn(x, d) == SavedIn(w', d)
      {
        forall i | 0 <= i < |rest|
          ensures d !in rest[i].FanCommands()
        {
          assert rest[i] == cs[i + 1];
        }
        RunAllSavedOutside(rest, w', d);
      }
      UndoCongruent(c, x, w');
      assert cs[..0] == [];
      UndoAllSnoc(Reverse(rest), c, RunAll(rest, w'));
    }
  }

  /**
   * The same for a macro: if its members each put the devices back and share
   * no fan-speed command, the macro's own undo puts them back.
   */
  lemma MacroUndoRestores(m: Command, w: World)
    requires m.Valid() && m.kind.Macro?
    requires AllValid(m.kind.members) && SeparateFanCommands(m.kind.members)
    requires forall i :: 0 <= i < |m.kind.members| ==> Inverts(m.kind.members[i], RunAll(m.kind.members[..i], w))
    ensures Inverts(m, w)
  {
    MacroExecutesInOrder(m, w);
    MacroUndoesInReverse(m, m.ExecW(w));
    UndoInReverseRestores(m.kind.members, w);
  }

  /**
   * Why the fan-speed commands must be separate: a macro running one fan-speed
   * command twice remembers the speed set by its first run, so its undo leaves
   * the fan at the new speed.
   */
  lemma RepeatedFanCommandDoesNotRestore(m: Command, w: World)
    requires m.Valid() && m.kind.Macro? && |m.kind.members| == 2
    requires m.kind.members[0] == m.kind.members[1] && m.kind.members[0].kind.FanSpeed?
    requires m.kind.members[0].kind.fan in w.fans
    requires Clamp(m.kind.members[0].kind.newSpeed) != w.fans[m.kind.members[0].kind.fan]
    ensures !Inverts(m, w)
  {
    var c := m.kind.members[0];
    var f, s := c.kind.fan, Clamp(c.kind.newSpeed);
    var w2 := c.ExecW(c.ExecW(w));
    assert m.ExecW(w) == w2 by {
      assert m.ExecPrefix(1, w) == c.ExecW(w);
    }
    assert SavedIn(w2, c) == s && w2.fans[f] == s;
    var u := m.UndoW(w2);
    assert u == c.UndoW(c.UndoW(w2)) by {
      assert m.UndoSuffix(2, w2) == w2;
      assert m.UndoSuffix(1, w2) == c.UndoW(w2);
      assert m.UndoW(w2) == m.UndoSuffix(0, w2);
    }
    UndoKeepsSaved(c, w2);
    assert u.fans[f] == s;
  }

  /** A light-on command is undone exactly iff the light was off before. */
  lemma LightOnInverts(c: Command, w: World)
    requires c.Valid() && c.kind.LightOn? && c.kind.light in w.lights
    ensures Inverts(c, w) <==> !w.lights[c.kind.light]
  {
    var l := c.kind.light;
    if !w.lights[l] {
      assert c.UndoW(c.ExecW(w)).lights == w.lights;
    } else {
      assert c.UndoW(c.ExecW(w)).lights[l] != w.lights[l];
    }
  }

  /** A light-off command is undone exactly iff the light was on before. */
  lemma LightOffInverts(c: Command, w: World)
    requires c.Valid() && c.kind.LightOff? && c.kind.light in w.lights
    ensures Inverts(c, w) <==> w.lights[c.kind.light]
  {
    var l := c.kind.light;
    if w.lights[l] {
      assert c.UndoW(c.ExecW(w)).lights == w.lights;
    } else {
      assert c.UndoW(c.ExecW(w)).lights[l] != w.lights[l];
    }
  }

  /** Light on and light off on the same light are each other's undo. */
  lemma LightCommandsAreMutualInverses(on: Command, off: Command, w: World)
    requires on.Valid() && off.Valid() && off.kind.LightOff? && on.kind == LightOn(off.kind.light)
    ensures on.UndoW(w) == off.ExecW(w) && off.UndoW(w) == on.ExecW(w)
  {
  }

  /**
   * A fan-speed command's undo puts back the speed the fan had before its
   * execute, provided that speed was a legal one (0..3).
   */
  lemma FanSpeedUndoRestoresSpeed(c: Command, w: World)
    requires c.Valid() && c.kind.FanSpeed? && c.kind.fan in w.fans && 0 <= w.fans[c.kind.fan] <= 3
    ensures c.ExecW(w).saved[c] == w.fans[c.kind.fan]
    ensures c.UndoW(c.ExecW(w)).fans == w.fans
    ensures c.UndoW(c.ExecW(w)).lights == w.lights
    ensures Inverts(c, w)
  {
    var f := c.kind.fan;
    assert c.UndoW(c.ExecW(w)).fans == w.fans[f := Clamp(w.fans[f])];
  }

  /** A macro touches nothing its members do not. */
  lemma MacroFootprintWithin(m: Command, fp: set<object>)
    requires m.Valid() && m.kind.Macro?
    requires forall i :: 0 <= i < |m.kind.members| ==> m.kind.members[i].Footprint() <= fp
    ensures m.Footprint() <= fp
  {
    var ms := m.kind.members;
    forall o | o in m.Footprint() ensures o in fp {
      var i :| 0 <= i < |ms| && o in ms[i].Footprint();
    }
  }

  /** Every fan speed lies in 0..3. */
  predicate FanSpeedsLegal(w: World) {
    forall f :: f in w.fans ==> 0 <= w.fans[f] <= 3
  }

  /** Execute and undo keep every fan speed in 0..3. */
  lemma {:induction false} SpeedsStayLegal(c: Command, w: World)
    requires c.Valid() && FanSpeedsLegal(w)
    ensures FanSpeedsLegal(c.ExecW(w)) && FanSpeedsLegal(c.UndoW(w))
    decreases c.depth
  {
    if c.kind.Macro? {
      var ms := c.kind.members;
      var k := 0;
      while k < |ms|
        invariant 0 <= k <= |ms|
        invariant FanSpeedsLegal(c.ExecPrefix(k, w))
      {
        SpeedsStayLegal(ms[k], c.ExecPrefix(k, w));
        k := k + 1;
      }
      k := |ms|;
      while k > 0
        invariant 0 <= k <= |ms|
        invariant FanSpeedsLegal(c.UndoSuffix(k, w))
      {
        k := k - 1;
        SpeedsStayLegal(ms[k], c.UndoSuffix(k + 1, w));
      }
    }
  }

  /**
   * A light that starts off: pressing its on button turns it on and records one
   * command; undo turns it off and empties the history; a second undo finds
   * nothing to undo and leaves the light off.
   */
  method LightUndoScenario() returns (onAfterPress: bool, sizeAfterPress: nat, onAfterUndo: bool,
                                      sizeAfterUndo: nat, onAfterSecondUndo: bool)
    ensures onAfterPress && sizeAfterPress == 1
    ensures !onAfterUndo && sizeAfterUndo == 0
    ensures !onAfterSecondUndo
  {
    var light := new Light("Living Room");
    var lightOn := new Command.LightOnCommand(light);
    var lightOff := new Command.LightOffCommand(light);
    var remote := new RemoteControl(4);
    remote.SetCommand(0, lightOn, lightOff);
    ghost var fp: set<object> := {light};

    assert remote.onCommands[0] == lightOn;

    remote.OnButtonPressed(0, fp);
    assert Snap(fp).lights[light];
    onAfterPress, sizeAfterPress := light.isOn, |remote.history|;
    remote.UndoButtonPressed(fp);
    assert !Snap(fp).lights[light];
    onAfterUndo, sizeAfterUndo := light.isOn, |remote.history|;
    remote.UndoButtonPressed(fp);
    onAfterSecondUndo := light.isOn;
  }

  /** The shape of the demonstration's party macro: light on, light on, fan to high. */
  ghost predicate PartyShaped(party: Command)
  {
    && party.Valid() && party.kind.Macro? && |party.kind.members| == 3
    && party.kind.members[0].kind.LightOn? && party.kind.members[1].kind.LightOn?
    && party.kind.members[2].kind.FanSpeed? && party.kind.members[2].kind.newSpeed == 3
  }

  /** Executing the party macro sets both lights, the fan, and the fan command's saved speed. */
  lemma PartyExecutes(party: Command, w: World)
    requires PartyShaped(party)
    ensures var ms := party.kind.members;
      party.ExecW(w) == w.(lights := w.lights[ms[0].kind.light := true][ms[1].kind.light := true],
                           fans := w.fans[ms[2].kind.fan := 3],
                           saved := w.saved[ms[2] := SpeedIn(w, ms[2].kind.fan)])
  {
    var ms := party.kind.members;
    var a, b, c := ms[0], ms[1], ms[2];
    assert ms == [a, b, c] && ms[1..] == [b, c] && ms[1..][1..] == [c] && ms[1..][1..][1..] == [];
    var w1 := a.ExecW(w);
    var w2 := b.ExecW(w1);
    var w3 := c.ExecW(w2);
    MacroExecutesInOrder(party, w);
    assert RunAll(ms, w) == RunAll([b, c], w1);
    assert RunAll([b, c], w1) == RunAll([c], w2);
    assert RunAll([c], w2) == RunAll([], w3);
  }

  /** Undoing the party macro clears both lights and puts back the fan command's saved speed. */
  lemma PartyUndoes(party: Command, w: World)
    requires PartyShaped(party)
    ensures var ms := party.kind.members;
      party.UndoW(w) == w.(lights := w.lights[ms[1].kind.light := false][ms[0].kind.light := false],
                           fans := w.fans[ms[2].kind.fan := Clamp(SavedIn(w, ms[2]))])
  {
    var ms := party.kind.members;
    var a, b, c := ms[0], ms[1], ms[2];
    assert ms == [a, b, c] && ms[1..] == [b, c] && ms[1..][1..] == [c];
    MacroUndoesInReverse(party, w);
    assert Reverse([c]) == [c];
    assert Reverse([b, c]) == [c, b];
    assert Reverse(ms) == [c, b, a];
    var u1 := c.UndoW(w);
    var u2 := b.UndoW(u1);
    var u := a.UndoW(u2);
    assert UndoAll([c, b, a], w) == UndoAll([b, a], u1);
    assert UndoAll([b, a], u1) == UndoAll([a], u2);
    assert UndoAll([a], u2) == UndoAll([], u);
  }

  /**
   * The party macro of the demonstration (light on, light on, fan to high) from
   * two lights off and the fan off: it turns everything on, and its undo turns
   * everything off again.
   */
  lemma PartyModeRoundTrip(party: Command, w: World)
    requires PartyShaped(party)
    requires var l1, l2 := party.kind.members[0].kind.light, party.kind.members[1].kind.light;
      l1 in w.lights && l2 in w.lights && !w.lights[l1] && !w.lights[l2]
    requires party.kind.members[2].kind.fan in w.fans && w.fans[party.kind.members[2].kind.fan] == 0
    ensures var l1, l2, f := party.kind.members[0].kind.light, party.kind.members[1].kind.light,
                             party.kind.members[2].kind.fan;
      var w' := party.ExecW(w);
      && l1 in w'.lights && l2 in w'.lights && f in w'.fans
      && w'.lights[l1] && w'.lights[l2] && w'.fans[f] == 3
      && party.UndoW(w').lights == w.lights && party.UndoW(w').fans == w.fans
  {
    var ms := party.kind.members;
    var l1, l2, f := ms[0].kind.light, ms[1].kind.light, ms[2].kind.fan;
    PartyExecutes(party, w);
    var w' := party.ExecW(w);
    PartyUndoes(party, w');
    assert SavedIn(w', ms[2]) == 0;
    assert party.UndoW(w').lights == w.lights;
    assert party.UndoW(w').fans == w.fans;
  }

  /**
   * The demonstration's party macro: living-room light on, kitchen light on,
   * bedroom fan to high, over fresh devices that are all off.
   */
  method NewPartyMode() returns (living: Light, kitchen: Light, fan: Fan, partyOn: Command)
    ensures fresh(living) && fresh(kitchen) && fresh(fan) && fresh(partyOn)
    ensures living != kitchen
    ensures !living.isOn && !kitchen.isOn && fan.speed == 0
    ensures PartyShaped(partyOn)
    ensures partyOn.kind.members[0].kind == LightOn(living)
    ensures partyOn.kind.members[1].kind == LightOn(kitchen)
    ensures partyOn.kind.members[2].kind == FanSpeed(fan, 3)
    ensures partyOn.Footprint() <= {living, kitchen, fan, partyOn.kind.members[2]}
  {
    living := new Light("Living Room");
    kitchen := new Light("Kitchen");
    fan := new Fan("Bedroom");
    var livingOn := new Command.LightOnCommand(living);
    var kitchenOn := new Command.LightOnCommand(kitchen);
    var fanHigh := new Command.FanSpeedCommand(fan, 3);
    var partyCommands := new Command[][livingOn, kitchenOn, fanHigh];
    partyOn := new Command.MacroCommand(partyCommands);
    assert partyOn.kind.members == [livingOn, kitchenOn, fanHigh];
    MacroFootprintWithin(partyOn, {living, kitchen, fan, fanHigh});
  }

  /**
   * The demonstration's party mode: executing the macro turns both lights on
   * and the fan to high, and undoing it turns them all off again.
   */
  method PartyModeScenario() returns (onInParty: bool, fanInParty: int, onAfterUndo: bool,
                                      fanAfterUndo: int)
    ensures onInParty && fanInParty == 3
    ensures !onAfterUndo && fanAfterUndo == 0
  {
    var living, kitchen, fan, partyOn := NewPartyMode();
    ghost var fp: set<object> := {living, kitchen, fan, partyOn.kind.members[2]};
    ghost var w0 := Snap(fp);
    PartyModeRoundTrip(partyOn, w0);

    partyOn.Execute(fp);
    ghost var w1 := Snap(fp);
    assert w1.lights[living] && w1.lights[kitchen] && w1.fans[fan] == 3;
    onInParty, fanInParty := living.isOn && kitchen.isOn, fan.speed;

    partyOn.Undo(fp);
    ghost var w2 := Snap(fp);
    assert !w2.lights[living] && !w2.lights[kitchen] && w2.fans[fan] == 0;
    onAfterUndo, fanAfterUndo := living.isOn || kitchen.isOn, fan.speed;
  }
}
