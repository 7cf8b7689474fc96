/**
  WindowObject's response to a hand applied to it with a tool: which checks
  pass (WillInteract) and which outcome the server produces
  (ServerPerformInteraction). The outcomes' own effects are engine calls and
  appear only by kind.
 */
module Window {

  /** The traits of the item in the hand; an empty hand has neither. */
  datatype HandItem = HandItem(screwdriver: bool, wrench: bool)

  /** The examine messages the performer can get. */
  datatype Message = FloorRequired | UnsecureFirst

  /** What a finished tool action does. */
  datatype ToolEffect = ScrewToFloor | Unanchor | Disassemble(glassSheets: nat)

  /** Nothing, a message to the performer, or a timed tool action. */
  datatype Outcome = NoEffect | Examine(msg: Message) | UseTool(seconds: int, effect: ToolEffect)

  /** Seconds every tool action on a window takes. */
  const ToolSeconds: int := 4

  /** Glass sheets spawned when a window is disassembled. */
  const DisassembledSheets: nat := 4

  /**
    What the server sees of a hand application: whether it targets this window,
    the hand item, whether the window is pushable (unanchored), whether its tile
    is space, and whether anchoring there is blocked.
   */
  datatype Interaction = Interaction(
    targetIsSelf: bool, hand: HandItem, pushable: bool, spaceBelow: bool, anchorBlocked: bool)

  /** The client-and-server check: the default checks pass, the window is the target, and the hand holds a wrench or a screwdriver. */
  function WillInteract(defaultOk: bool, targetIsSelf: bool, hand: HandItem): (r: bool)
    ensures r ==> defaultOk
    // past the default checks, it accepts exactly what the server answers on an anchored window
    ensures defaultOk ==>
      (r <==> ServerPerformInteraction(Interaction(targetIsSelf, hand, false, false, false)) != NoEffect)
    // and an accepted interaction always gets an answer unless anchoring is blocked
    ensures r ==> forall pushable: bool, spaceBelow: bool ::
      ServerPerformInteraction(Interaction(targetIsSelf, hand, pushable, spaceBelow, false)) != NoEffect
  {
    defaultOk && targetIsSelf && (hand.wrench || hand.screwdriver)
  }

  /** The branching of the server-side interaction. */
  function ServerPerformInteraction(i: Interaction): (o: Outcome)
    ensures !i.targetIsSelf ==> o == NoEffect
    ensures o.UseTool? ==> o.seconds == ToolSeconds
    // securing: screwdriver on an unanchored window over floor where anchoring is free
    ensures o == UseTool(ToolSeconds, ScrewToFloor) <==>
      i.targetIsSelf && i.hand.screwdriver && i.pushable && !i.spaceBelow && !i.anchorBlocked
    // unsecuring: screwdriver on an anchored window, whatever is below it
    ensures o == UseTool(ToolSeconds, Unanchor) <==>
      i.targetIsSelf && i.hand.screwdriver && !i.pushable
    // disassembly: a wrench without a screwdriver, only on an unanchored window
    ensures o == UseTool(ToolSeconds, Disassemble(DisassembledSheets)) <==>
      i.targetIsSelf && !i.hand.screwdriver && i.hand.wrench && i.pushable
    ensures o == Examine(FloorRequired) <==>
      i.targetIsSelf && i.hand.screwdriver && i.pushable && i.spaceBelow
    ensures o == Examine(UnsecureFirst) <==>
      i.targetIsSelf && !i.hand.screwdriver && i.hand.wrench && !i.pushable
  {
    if !i.targetIsSelf then NoEffect
    else if i.hand.screwdriver then
      if i.pushable then
        if i.spaceBelow then Examine(FloorRequired)
        else if !i.anchorBlocked then UseTool(ToolSeconds, ScrewToFloor)
        else NoEffect
      else UseTool(ToolSeconds, Unanchor)
    else if i.hand.wrench then
      if i.pushable then UseTool(ToolSeconds, Disassemble(DisassembledSheets))
      else Examine(UnsecureFirst)
    else NoEffect
  }

  /** The server only acts on hand applications that the interaction check would accept. */
  lemma PerformOnlyIfWillInteract(i: Interaction)
    ensures ServerPerformInteraction(i) != NoEffect ==> WillInteract(true, i.targetIsSelf, i.hand)
  {}

  /** An item with both traits is treated as a screwdriver: the wrench branch never runs. */
  lemma ScrewdriverTakesPrecedence(i: Interaction)
    requires i.hand.screwdriver
    ensures ServerPerformInteraction(i) == ServerPerformInteraction(i.(hand := HandItem(true, false)))
    ensures !ServerPerformInteraction(i).UseTool? || !ServerPerformInteraction(i).effect.Disassemble?
  {}

  /** A blocked anchor on an unanchored window over floor: the window starts no action and sends no message of its own. */
  lemma AnchorBlockedDoesNothing(i: Interaction)
    requires i.targetIsSelf && i.hand.screwdriver && i.pushable && !i.spaceBelow && i.anchorBlocked
    ensures ServerPerformInteraction(i) == NoEffect
  {}
}
