# mtj.mud — a Dafny model of the MUD server's core

This project models the core of mtj.mud, a small multi-user dungeon
server written in Python 2, and proves properties of that model. The core
has five parts:

- **The object tree and the verb resolver** (`MudObjects.py`, module
  `MudObjects`, file `mud_objects.dfy`).
  - Each world object has a parent, an ordered list of children and a
    table of commands.
  - `_parse_cmd` splits a typed line into a verb and the rest.
  - `process_cmd` looks for an object that accepts the verb: the issuer,
    then its parent, then its children and siblings. `do_cmd` then builds
    the action.
  - `add`, `remove` and `msg_children` change the children and broadcast
    to them.
  - The gatekeeper turns a connection's first two lines into a login.
- **The two notification protocols.**
  - The first one is in `MudActions.py` (module `Actions`). Its
    constructor runs `setResponse` and its `call` sends.
  - The later one is in `mtmud/MudActions.py` (module `Protocol`).
    `MudNotify.__call__` runs `setResponse` and then `_send`.
    `MudAction.__call__` brackets those two with `action` and
    `post_action`.
- **The commands of `mtj/mud/notify.py`** (module `Commands`): Say,
  Emote, Quit, Login, the move commands, Go, Help and the three Looks,
  with the `_Look` renderer.
- **The driver** (`runner.py`, module `Driver`).
  - It keeps a FIFO command queue and drains it oldest first. An
    exception in one command is isolated from the rest.
  - It counts passes and fires a heartbeat every `hbdelay` seconds.
  - It builds the world and tracks the runner's `_running` flag.
- **The telnet side of a connection** (module `Telnet`).
  - The line splitter of `Soul.recv` is the same code in `MudObjects.py`
    and `mud.py`. It keeps printable bytes, ends lines at CR or LF, and
    answers IAC DO TIMING-MARK.
  - `Soul.send` frames every message with the echo codes.
- **The first iteration, `mud.py`** (module `Legacy`): dictionary
  commands, a player that falls back on its room, the login-room state
  machine, the Soul's dispatch order, and a `send` that always appends CR
  LF.

## How it is modelled

- **Objects live in an arena.** Python objects point at each other
  (`_parent`, `_children`), so the model keeps all of their attributes in
  one value, `MudObjects.Tree`, indexed by handle.
- **The world is mutable.** `MudObjects.World` is a class. It holds that
  tree and the log of every `send` call in order.
- **Request objects are classes too.** `Protocol.Notify` and
  `Actions.Action` are the request objects. Their methods write the
  message slots in place.
- **Imperative code is proved against pure functions.** Each method's
  `ensures` ties the new state to a pure function of the old state:
  - `Protocol.Send` specifies `_send`;
  - `Commands.Respond` specifies `setResponse`;
  - `Commands.Call` specifies `__call__`;
  - `Driver.Drain` specifies the queue-draining loop;
  - `Telnet.Scan` specifies the splitter;
  - `Legacy.Process` specifies `Soul.process_cmd`.

  The properties are proved as lemmas about those functions.
- **Python semantics are written out.**
  - An exception is `Result.Raised` or a `Run` whose `raised` flag is
    set.
  - Truthiness is explicit: an empty string or an empty list is falsy.
  - `list.remove` drops only the first copy.
  - Reading an attribute an object lacks raises. `MudObjects.Kind` records
    which objects carry `soul` (sprites and gatekeepers), so Quit from any
    other object raises.
  - Iterating over a `set` visits its distinct elements in some order;
    the lemmas prove that this order does not matter.

## Model

| member | source | states |
|---|---|---|
| Base.RemoveFirst | MudObjects.py:141-142 | `list.remove(x)`: nothing changes when x is absent; otherwise exactly one copy of x is gone |
| Base.IndexOf | MudObjects.py:141-142 | the place `list.remove(x)` acts on: an occurrence of x with none before it |
| Base.RemoveFirstDropsFirst | MudObjects.py:141-142 | `list.remove(x)` deletes the first occurrence of x and keeps everything else in order |
| Base.RemoveAllSubsequence | mtmud/MudActions.py:88-96 | removing one element after another leaves the rest in their original order |
| Base.Crlf | mtj/mud/notify.py:268 | `replace('\n', '\r\n')`: every LF comes out preceded by CR, and the text grows by one byte per LF |
| Base.CrlfJoin | mtj/mud/notify.py:276 | lines without LF, joined by LF and then replaced, are the same lines joined by CR LF |
| Base.DeliverAllStops | mtmud/MudActions.py:147-152 | once a `send` in a recipient loop raises, the rest of the loop does not run |
| Base.DeliverAllInOrder | mtmud/MudActions.py:147-152 | a recipient loop raises exactly when some recipient is not an object; until then it messages the recipients one by one, in list order |
| Base.DeliverAllSameText | mtmud/MudActions.py:147-152 | every recipient the loop reaches gets the same message |
| Base.Distinct | MudActions.py:73 | the elements `set(...)` iterates: the same members, no repeats |
| Base.RemoveAllMultiset | mtmud/MudActions.py:88-96 | removing each element of a list once leaves the multiset difference |
| Base.RemoveEach | MudActions.py:75-78 | the removal loop, run element by element, leaves exactly `RemoveAll` of the list |
| Base.RemoveFirstCommutes | mtmud/MudActions.py:88-96 | two removals commute, so the set's iteration order does not matter |
| Base.RemoveThreeAnyOrder | MudActions.py:66-80 | removing the three parties gives the same list in every iteration order |
| MudObjects.ParseCmd | MudObjects.py:57-62 | the verb holds no space; verb + " " + rest gives back the input when it holds a space; otherwise the input is the verb and the rest is empty |
| MudObjects.FirstAccepting | MudObjects.py:84-104 | finds no position exactly when no listed object accepts the verb; a position it finds holds the first object that accepts |
| MudObjects.ProcessCmd | MudObjects.py:64-104 | at most two dispatches; each goes to an object that accepts the verb, with the parsed verb and rest |
| MudObjects.UnknownVerbDoesNothing | MudObjects.py:64-104 | nothing is dispatched exactly when neither the issuer, its parent, a child nor a sibling accepts the verb |
| MudObjects.SelfThenParent | MudObjects.py:74-83 | the issuer's own table wins; when it misses, the parent's table wins |
| MudObjects.ChildAndSiblingBothRun | MudObjects.py:84-104 | when self and parent miss, the first accepting child is dispatched and then the first accepting sibling too; the sibling search is not skipped by a child that returns |
| MudObjects.CallsUntilRaise | MudObjects.py:84-104 | the dispatches are called in order up to and including the first that raises; none raises exactly when all are called |
| MudObjects.ChildRaiseStopsSearch | MudObjects.py:84-104 | a child's `do_cmd` that raises ends process_cmd before any sibling is called; a child that returns is followed by the sibling's call |
| MudObjects.DoCmd | MudObjects.py:109-124 | the gatekeeper's login path runs exactly for a gatekeeper; a KeyError is raised exactly when the table lacks the verb |
| MudObjects.DoCmdDropsIssuer | MudObjects.py:109-124 | the issuer handed to do_cmd never matters; an action class is built as `aC(arg, self)`, with the argument as caller and the owner as target |
| MudObjects.IntendedDoCmd | MudObjects.py:109-124 | corrected do_cmd: the issuer is the caller, the argument is the trail, and there is no target; KeyError exactly when the verb is missing |
| MudObjects.Objects | MudObjects.py:150-154 | the handles become object parties, one to one and in order |
| MudObjects.CleanListSpec | mtmud/MudActions.py:72-97 | for an object anchor, the list is its children less one copy of each distinct party to leave out; a party listed once is gone; the rest keep the anchor's child order |
| MudObjects.ContentsAppend | MudActions.py:239-240 | the listing of two lists is the two listings one after the other |
| MudObjects.BroadcastReaches | MudObjects.py:148-156 | msg_children messages exactly the listed objects that are not omitted, each with the same message |
| MudObjects.BroadcastInOrder | MudObjects.py:148-156 | with nothing omitted, every listed object is messaged once, in list order |
| MudObjects.AddAppends | MudObjects.py:129-138 | add appends obj as the last child and changes no parent link and no other child list; obj is told it entered after the others are told |
| MudObjects.AddSkipsNewcomer | MudObjects.py:129-138 | a newcomer does not hear its own entrance broadcast; the only message to it is "You enter ..." |
| MudObjects.AddThenRemove | MudObjects.py:129-146 | add followed by remove of a newcomer gives back every child list and every parent link |
| MudObjects.RemoveAbsent | MudObjects.py:140-146 | removing an object that is not a child changes no list, yet the object is still told it left |
| MudObjects.RemoveSkipsLeaver | MudObjects.py:140-146 | a child listed once is not among those told that it leaves |
| MudObjects.DispatchAddKeeps | MudObjects.py:202-206 | adding (MudRoom.add included) changes one child list and no parent link, name or table |
| MudObjects.SpawnIsFresh | MudObjects.py:22-52 | a new object has no parent and no children, nobody contains it, and the arena stays well formed |
| MudObjects.EmbodyFresh | MudObjects.py:249-250 | the new body is fresh and linked from the soul |
| MudObjects.LoginStepLinks | MudObjects.py:240-254 | after login the soul is in a new body named after the login; the body is the start room's last child with that room as parent; nobody else contains it; the soul first hears the three greeting lines |
| MudObjects.LoginStepParents | MudObjects.py:247-254 | after login the soul's parent is the new body, the body's parent is the start room, the room's child list gains the body at its end, and no other list holds it |
| MudObjects.LoginStepBody | MudObjects.py:243-247 | the new body is named after the login and carries the player's command table; the soul hears the greeting lines before anything else |
| MudObjects.World.MsgChildren | MudObjects.py:148-156 | events grow by the broadcast over `objs` when it is non-empty, otherwise over the children |
| MudObjects.World.Add | MudObjects.py:129-138 | the new tree and events are those of add |
| MudObjects.World.RoomAdd | MudObjects.py:202-206 | the new tree and events are those of MudRoom.add |
| MudObjects.World.DispatchAdd | MudObjects.py:129-138 | `self.add(obj)` dispatched on the class of self |
| MudObjects.World.Remove | MudObjects.py:140-146 | the new tree and events are those of remove |
| MudObjects.World.EnterWorld | MudObjects.py:240-254 | the login block applied in place |
| MudObjects.World.SendTo | mtmud/MudActions.py:141-146 | `p.send(msg)`: a message to an object; an exception for every other party, as `p.send` does not exist on None or on text |
| MudObjects.World.SendEach | mtmud/MudActions.py:147-152 | the recipient loop, in place |
| MudObjects.World.SendSlot | mtmud/MudActions.py:141-146 | `if p and msg: p.send(msg)` |
| MudObjects.World.SendFan | mtmud/MudActions.py:147-152 | `for p in <property>: p.send(msg)` when msg is set |
| MudObjects.World.NewObject | MudObjects.py:22-52 | a new object takes the next handle |
| MudObjects.GateKeeper.constructor | MudObjects.py:211-216 | a new gatekeeper belongs to its soul and holds no login and no password |
| MudObjects.GateKeeper.DoCmd | MudObjects.py:228-257 | the first non-empty input becomes the login, and the raw password prompt is written; the next becomes the password; once both are set, the login block runs; returns True |
| MudObjects.Soul.constructor | MudObjects.py:273-290 | a new soul carries no unterminated text and has written nothing |
| MudObjects.Soul.Recv | MudObjects.py:299-364 | the carried text and the new bytes are scanned; complete lines are returned; the unterminated rest is carried; each IAC DO TIMING-MARK is answered |
| MudObjects.Soul.Send | MudObjects.py:366-380 | the wire grows by the framed message |
| Telnet.Feed | MudObjects.py:343-358 | one iteration of the splitter loop keeps the matcher below a complete sequence |
| Telnet.ScanFrom | MudObjects.py:336-362 | the splitter run over the read bytes from a given state keeps the matcher below a complete sequence |
| Telnet.Split | MudObjects.py:336-362 | the splitter loop computes the lines, the carried text and the number of replies of `Scan` |
| Telnet.ScanMatchesPieces | mud.py:321-342 | the lines are the printable text of each terminated piece that has any; the carried text is the printable text of the unterminated tail |
| Telnet.ScanLinesPrintable | MudObjects.py:343-358 | every line handed on, and the carried text, is non-empty printable text |
| Telnet.ScanKeepsPrintables | MudObjects.py:343-362 | no printable byte is lost or reordered: the lines and then the carried text spell the printable bytes of the input |
| Telnet.RepliesFollowControls | MudObjects.py:346-354 | the replies depend only on the control bytes; printable text in between does not break a sequence |
| Telnet.DoTimingMarkAnswered | MudObjects.py:346-354 | a complete IAC DO TIMING-MARK after a clean point earns exactly one reply and leaves the lines alone |
| Telnet.CrLfEndsOneLine | MudObjects.py:355-358 | CR LF ends the current line once; the second terminator adds nothing |
| Telnet.ScanFromLinesOnly | MudObjects.py:343-358 | what happens to the current line does not depend on lines already finished or on the matcher |
| Telnet.ScanPrintableText | MudObjects.py:343-344 | printable text only grows the current line |
| Telnet.ChunkingInvisible | MudObjects.py:359-362 | carrying the unterminated text to the next read loses nothing: two reads give the lines and the carry of one read of both |
| Telnet.BodyEndsLineOnce | MudObjects.py:372-375 | with a newline asked for, the body ends in CR LF exactly once and framing it again adds nothing; without one, the body is the message |
| Telnet.FrameUnwraps | MudObjects.py:366-377 | the message can be read back from between WILL ECHO and WONT ECHO |
| Telnet.Strip | MudObjects.py:396 | `strip()`: the result is empty exactly when the input is all whitespace; otherwise it starts and ends with non-space and is the input's slice after the leading whitespace, with only whitespace after it; an unpadded input is kept |
| Actions.CleanChildrenCases | MudActions.py:60-81 | an explicit list is returned uncleaned; anything but True gives nothing; True over an object gives its children less caller, target and second, whatever the set order |
| Actions.PlainActionSilent | MudActions.py:121-133 | a fresh MudAction sends nothing |
| Actions.SibsMsgUnsent | MudActions.py:134-153 | MudActionDefault's `sibsMsg` is never delivered |
| Actions.SayTellsRoom | MudActions.py:202-220 | the caller hears its words first, then each other sibling hears them attributed to the caller, in child order |
| Actions.SayResponds | MudActions.py:202-220 | Say with words builds a request that addresses the caller's siblings and holds the caller's echo and the attributed line |
| Actions.SaySends | MudActions.py:102-120 | that request sends the echo to the caller and then fans the attributed line out to the siblings |
| Actions.SaySilent | MudActions.py:202-220 | Say with nothing to say only tells the caller off |
| Actions.LookShowsRoom | MudActions.py:245-269 | Look shows an object in a room that room and the others in it; with no parent it says so |
| Actions.LookFromRoomShowsTarget | MudActions.py:270-286 | the room's own contents, less the parties, go to the target |
| Actions.AddNotifyTellsHolder | MudActions.py:176-188 | the holder, then the added object, then the holder's other children are told; the added object is not among the last |
| Actions.RemoveNotifyTellsHolder | MudActions.py:189-201 | the same for removal, with the leaving messages |
| Actions.CommandLineSayFails | MudObjects.py:121 | as written, a typed `say` raises before anyone hears it, or tells nobody anything when empty |
| Actions.CommandLineLookFails | MudObjects.py:121 | as written, a typed `look` always raises |
| Actions.IntendedCommandsWork | MudObjects.py:109-124 | with the corrected do_cmd, `say` reaches the speaker and the room, and `look` shows the room |
| Actions.Action.Init | MudActions.py:20-57 | the new request holds the class, the parties, the relationship parameters and the trail it was given, with every message slot None |
| Actions.Action.GetCleanChildren | MudActions.py:60-81 | the removal loop computes `CleanChildren` |
| Actions.Action.SetResponse | MudActions.py:121-153 | the message slots are written as the class's setResponse decides; raises exactly when that raises |
| Actions.Action.CallerSiblingsNow | MudActions.py:87-91 | the caller_siblings property as the object reads it |
| Actions.Action.Call | MudActions.py:92-120 | call sends what `_send` specifies and raises exactly when it does |
| Actions.Action.SendDirect | MudActions.py:107-112 | the caller's, the target's and the second's messages go out in that order, each only to a truthy party with a non-empty message |
| Protocol.CleanCases | mtmud/MudActions.py:72-97 | a list is used verbatim; non-True gives nothing; a falsy anchor gives nothing; text raises; True over an object gives its children less one copy of each party |
| Protocol.CleanExcludes | mtmud/MudActions.py:72-97 | a party to leave out that the anchor lists once is not in the list |
| Protocol.ChildrenExcludeParties | mtmud/MudActions.py:98-112 | caller_children hangs off the caller and target_children off the target; parties listed once are left out |
| Protocol.SiblingsExcludeParties | mtmud/MudActions.py:103-117 | caller_siblings and target_siblings hang off the parents; parties listed once are left out |
| Protocol.TargetSlotsNeverSent | mtmud/MudActions.py:136-152 | `_send` never reads the target_* parameters or slots |
| Protocol.FreshSendsNothing | mtmud/MudActions.py:20-71 | a freshly built request sends nothing |
| Protocol.SendRecipients | mtmud/MudActions.py:136-152 | everything sent goes to the caller, target or second, a caller sibling or a caller child, with that recipient's own message |
| Protocol.DirectSlotsFirst | mtmud/MudActions.py:141-146 | the three direct slots are sent first, in the order caller, target, second |
| Protocol.Notify.Init | mtmud/MudActions.py:20-71 | the new request holds what it was given, with every message slot None |
| Protocol.Notify.GetCleanChildren | mtmud/MudActions.py:72-97 | the removal loop computes `Clean` |
| Protocol.Notify.CallerSiblingsNow | mtmud/MudActions.py:103-107 | the caller_siblings property as the object reads it |
| Protocol.Notify.SendAll | mtmud/MudActions.py:136-152 | the events are those `Send` specifies, and it raises exactly when that raises |
| Protocol.Notify.SendDirect | mtmud/MudActions.py:141-146 | the caller's, the target's and the second's messages go out in that order, each only to a truthy party with a non-empty message |
| Commands.RenderMatchesOldLook | mtj/mud/notify.py:286-298 | a room without exits renders exactly as the older `_look` |
| Commands.RenderAppend | mtj/mud/notify.py:286-306 | more contents extend the picture at its end; `_lookitem` is the picture without the exits line |
| Commands.ExitLineLists | mtj/mud/notify.py:291-295 | the exits line names the exits, separated by ", ", in order |
| Commands.Bullets | mtj/mud/notify.py:277-278 | one `      - verb` line per command, in table order |
| Commands.ListingAppend | mtj/mud/notify.py:276-281 | one more command adds its bullet at the end of the listing |
| Commands.TopicTextCases | mtj/mud/notify.py:262-272 | an unknown or undocumented topic gets the apology; a documented one gets its doc with CR LF |
| Commands.DocOfFinds | mtj/mud/notify.py:262-266 | a topic no entry names has no doc; otherwise the doc is that of the first entry that names it |
| Commands.RespondKeepsParties | mtmud/MudActions.py:154-158 | setResponse leaves the class, the parties, the trail and the result as they were |
| Commands.CallReturns | mtmud/MudActions.py:118-126 | a notification returns True; an action returns its `action`'s value, whatever `post_action` returns |
| Commands.NotifyCall | mtmud/MudActions.py:118-126 | a notification's call is setResponse then `_send`, on an unchanged tree |
| Commands.BaseClassesSilent | mtmud/MudActions.py:161-191 | MudNotify returns True, MudAction returns False, and neither sends anything |
| Commands.GoNeverFails | mtj/mud/notify.py:109-146 | Go's action always succeeds: a call returns True and never sets the failure messages |
| Commands.LookNotInRoom | mtj/mud/notify.py:322-331 | a caller in no room is told "You are not in a room!" and nothing else is sent |
| Commands.LookShowsRoom | mtj/mud/notify.py:322-331 | the caller sees its room with the other occupants |
| Commands.LookFromRoomTellsTarget | mtj/mud/notify.py:372-377 | the room renders its own contents less the target, and the picture goes to that target |
| Commands.LookFromRoomNotified | mtj/mud/notify.py:372-377 | the room's picture of its own contents, less the room and the target, goes to the target alone |
| Commands.LookFromTargetShowsCaller | mtj/mud/notify.py:344-359 | the caller sees the target's room without the target |
| Commands.LookFromTargetNotified | mtj/mud/notify.py:350-359 | the picture of the target's room, less the target, goes to the caller alone |
| Commands.SayTellsRoom | mtj/mud/notify.py:168-177 | the caller hears its words first, then every other object in the room, in room order |
| Commands.SayNotified | mtj/mud/notify.py:168-177 | Say with words echoes to the caller, then delivers the attributed line to the caller's room less the caller |
| Commands.EmoteEchoes | mtj/mud/notify.py:186-194 | the caller and every other object in the room see the same line |
| Commands.EmoteNotified | mtj/mud/notify.py:186-194 | Emote with words sends one framed line to the caller and then to the caller's room less the caller |
| Commands.NoTrailOnlyCaller | mtj/mud/notify.py:168-194 | without a trail, Say and Emote answer only the caller |
| Commands.QuitWhat | mtj/mud/notify.py:204-211 | Quit with text only asks "Quit what?"; nobody else hears, nothing is removed, and the call returns False |
| Commands.QuitLeaves | mtj/mud/notify.py:204-223 | for a sprite with a soul, the room is told first; then the soul quits and the parent removes the caller; the call returns False |
| Commands.QuitNotice | mtj/mud/notify.py:204-212 | Quit without a trail sets the condition and tells only the caller's room, less the caller, that it has left |
| Commands.QuitSoulless | mtj/mud/notify.py:214-223 | a sprite whose soul is None still tells the room but is not removed |
| Commands.QuitWithoutSoulAttr | mtj/mud/notify.py:214-223 | a caller with no `soul` attribute tells the room and then raises; nothing is removed |
| Commands.LoginFromNowhere | mtj/mud/notify.py:230-245 | the caller is added and hears its arrival, then Look says it is not in a room; the occupants hear only "enters." |
| Commands.LoginFinish | mtj/mud/notify.py:230-245 | once add has run, a caller with no parent hears its arrival and then that it is not in a room, and the call returns None |
| Commands.MoveFromToNeedsAll | mtj/mud/notify.py:51-64 | without all three parties nothing moves, only the caller is told it failed, and the call returns None |
| Commands.MoveFromToMoves | mtj/mud/notify.py:51-64 | with all three present, the move's result decides the messages: the three parties on success, the caller alone on failure |
| Commands.MoveToTellsBothEnds | mtj/mud/notify.py:81-99 | second is the caller's old parent; on success the caller, the destination and the old parent are told; target_childrenMsg is never sent |
| Commands.GoAnnouncesWithoutExit | mtj/mud/notify.py:109-146 | Go always announces to the room, even with no exit; then nothing moves and the call returns True |
| Commands.GoNotice | mtj/mud/notify.py:109-134 | a successful Go tells only the caller's room, less the caller and the room, that it leaves by the trail |
| Commands.HelpAnswersTopic | mtj/mud/notify.py:261-272 | help with a topic answers the caller alone |
| Commands.HelpListsCommands | mtj/mud/notify.py:273-281 | help alone answers the caller with the usage and the listing of its commands |
| Commands.NotifyTellsHolder | mtj/mud/notify.py:12-39 | the holder, then the object, then the holder's other children are told the appear/vanish messages; the object is not among them |
| Commands.NotifySends | mtmud/MudActions.py:136-152 | that order holds for whatever messages setResponse chose |
| Commands.LookString | mtj/mud/notify.py:286-298 | the loop builds exactly the rendered picture |
| Commands.ListingString | mtj/mud/notify.py:276-281 | the loop builds exactly the help listing |
| Commands.SetNotify | mtj/mud/notify.py:20-39 | the request's new state is ObjAdd/RemoveNotify's response |
| Commands.SetMoveFromTo | mtj/mud/notify.py:51-58 | MoveObjFromTo's response in place |
| Commands.SetMoveTo | mtj/mud/notify.py:85-94 | MoveObjTo's response in place |
| Commands.SetGo | mtj/mud/notify.py:109-121 | Go's response in place |
| Commands.SetSay | mtj/mud/notify.py:168-177 | Say's response in place |
| Commands.SetEmote | mtj/mud/notify.py:186-194 | Emote's response in place |
| Commands.SetQuit | mtj/mud/notify.py:204-211 | Quit's response in place |
| Commands.SetLogin | mtj/mud/notify.py:230-234 | Login's response in place |
| Commands.SetHelp | mtj/mud/notify.py:261-281 | Help's response in place; with a trail it raises exactly when the caller is not an object (every object is taken to carry `_cmds`, empty when unset) |
| Commands.SetLook | mtj/mud/notify.py:322-331 | Look's response; raises exactly when the caller has no `_parent` |
| Commands.SetLookFromTarget | mtj/mud/notify.py:350-359 | LookFromTarget's response; raises exactly when the target has no `_parent` |
| Commands.SetLookFromRoom | mtj/mud/notify.py:372-377 | LookFromRoom's response; raises exactly when rendering does |
| Commands.SetResponse | mtmud/MudActions.py:154-158 | setResponse dispatched on the class |
| Commands.Create | mtj/mud/notify.py:81-83 | a new request; MoveObjTo and Go take the caller's parent as second, and raise when the caller has no `_parent` |
| Commands.LookNow | mtj/mud/notify.py:242 | `Look(caller)()` in place |
| Commands.AddNow | mtj/mud/notify.py:236-237 | `target.add(caller)` in place |
| Commands.QuitNow | mtj/mud/notify.py:214-223 | the quitting part of post_action in place |
| Commands.Action | mtmud/MudActions.py:179-184 | `action()` by class, in place |
| Commands.PostAction | mtmud/MudActions.py:186-191 | `post_action()` by class, in place |
| Commands.CallNow | mtmud/MudActions.py:167-177 | `__call__` in place: the tree, the events and the returned value are those of `Call` |
| Commands.NotifyNow | mtmud/MudActions.py:118-126 | MudNotify.__call__ in place |
| Commands.ActionNow | mtmud/MudActions.py:167-177 | MudAction.__call__ in place |
| Commands.FinishNow | mtmud/MudActions.py:170-177 | setResponse, `_send` and post_action once `result` is stored |
| Commands.SendAndPostNow | mtmud/MudActions.py:124-175 | `_send` and post_action once setResponse has run |
| Driver.Queued | runner.py:210-217 | a truthy sender becomes the entry's sender; a falsy one leaves the entry unchanged |
| Driver.Drain | runner.py:171-190 | a drain that lets nothing escape empties the queue; one that escapes leaves fewer entries than it started with |
| Driver.DrainAppend | runner.py:171-190 | a queue drained in two halves: when the first lets nothing escape, the second drains as if on its own |
| Driver.DrainInOrder | runner.py:171-190 | a queue of safe commands is called exactly once each, oldest first; nothing escapes and the queue ends empty |
| Driver.RunsOfTurn | runner.py:178-183 | a safe entry's turn calls exactly its command |
| Driver.FailureIsolated | runner.py:184-189 | a command that raises tells its sender the serious-error message, and the queue behind it drains as if it had not been there |
| Driver.PromptOnlyAfterSuccess | runner.py:180-183 | a soul is prompted exactly after a call that returned and whose sender is that soul |
| Driver.ToldOnlyAfterFailure | runner.py:184-189 | a sender is told of an error exactly when the call raised and the sender is a soul or an object |
| Driver.Beat | runner.py:194-196 | a pass at `now` moves `lasthb` to now when now reaches `lasthb + hbdelay`, and leaves it unchanged otherwise |
| Driver.BeatsSpaced | runner.py:149-196 | heartbeats are at least `hbdelay` apart, the first at least `hbdelay` after the previous one, and `lasthb` ends at the last of them |
| Driver.AsWritten | MudObjects.py:403 | as written, each line queues the soul itself, one entry per line |
| Driver.Intended | MudObjects.py:396-403 | corrected: the i-th entry is the i-th stripped line, queued as a command from the soul |
| Driver.AsWrittenAllEscape | MudObjects.py:403 | as written, every queued entry escapes `_action`: the soul's sender attribute is never something that can be told anything |
| Driver.AsWrittenLosesCommand | MudObjects.py:403 | as written, a typed `say hi` behind a clean queue escapes with nothing called, told or prompted |
| Driver.NamesOfIntended | MudObjects.py:396-403 | the corrected loop queues exactly the stripped lines, in the order typed |
| Driver.IntendedRunsEveryLine | runner.py:171-190 | with the corrected loop, every typed line is called in order, nothing escapes, and the queue ends empty |
| Driver.IntendedPromptsEachLine | runner.py:180-183 | with the corrected loop and no line raising, the soul is prompted after each of its lines |
| Driver.MudDriver.constructor | runner.py:152-162 | an empty queue, the counter, time and lasthb at 0, hbdelay 2, `_running` false, and no starting room |
| Driver.MudDriver.Q | runner.py:210-217 | the entry goes to the tail of the queue |
| Driver.MudDriver.RunEntry | runner.py:177-189 | `cmd()` and its except clause for one entry |
| Driver.MudDriver.FeedAsWritten | MudObjects.py:392-403 | the queueing loop as written appends `AsWritten` |
| Driver.MudDriver.FeedIntended | MudObjects.py:392-403 | the corrected queueing loop appends `Intended` |
| Driver.MudDriver.DrainQueue | runner.py:171-190 | the drain loop leaves the queue, the log and the escape flag that `Drain` specifies |
| Driver.MudDriver.Action | runner.py:170-197 | the drain, then the counter grows by one, time is now, and the heartbeat fires exactly when now ≥ nexthb; an escape skips the count |
| Driver.MudDriver.Stop | runner.py:76-86 | `_end` runs and the flag is cleared |
| Driver.MudDriver.Start | runner.py:57-69 | one pass per clock reading; on an escape the run stops with the flag still set and `_end` runs once; otherwise the counter grows by the number of passes and `lasthb` is the last heartbeat |
| Driver.MudDriver.BuildWorld | runner.py:203-208 | the area is added under the driver; `starting['main']` is the first child of the first area, and an IndexError is raised when it has none |
| Legacy.NewRoom | mud.py:199-203 | a room's table holds `look` and nothing else |
| Legacy.ObjectProcess | mud.py:168-169 | KeyError exactly when the table lacks the command |
| Legacy.RoomLooksAtItself | mud.py:202-210 | a room's `look` returns its description; anything else raises |
| Legacy.PlayerProcess | mud.py:188-195 | never raises; the player's own table first, then its room's when the room accepts, then None |
| Legacy.ProcessConsistent | mud.py:228-248 | no password without a login, and never both at the login room, is kept by every command |
| Legacy.OnlyQuitGoesOffline | mud.py:401-411 | the soul is online afterwards exactly when it was and the command is not `quit` |
| Legacy.LoginTwoLines | mud.py:228-248 | a name and then a password log in: the password prompt, the three messages and a prompt, and a fresh player body |
| Legacy.BlankLineAtLogin | mud.py:230-236 | a blank line at the login room changes nothing |
| Legacy.ReservedAtLogin | mud.py:401-411 | `say`, `yell` and `quit` are never taken as a login or a password |
| Legacy.RoomCommandsUnreachable | mud.py:412-419 | a command only the player's room holds is refused as not valid, though MudPlayer.process_cmd would have answered it |
| Legacy.FreshPlayerRefusesAll | mud.py:412-423 | a fresh player body refuses every non-global command other than quit, with a prompt |
| Legacy.SentAlwaysEndsLine | mud.py:347-356 | this send writes the later send's bytes exactly when the message does not end in CR LF; otherwise it adds a blank line |
| Legacy.LoginRoom.constructor | mud.py:216-220 | a new login room holds no login and no password |
| Legacy.Soul.constructor | mud.py:264-283 | a new soul has written nothing, is not online, and sits in a fresh login room |
| Legacy.Soul.Send | mud.py:347-356 | the wire grows by the framed message |
| Legacy.Soul.DoPrompt | mud.py:426-428 | the wire grows by DO ECHO and the prompt |
| Legacy.Soul.Quit | mud.py:434-436 | the soul goes offline and says goodbye |
| Legacy.Soul.LoginCmd | mud.py:228-248 | the login room's step in place |
| Legacy.Soul.ProcessCmd | mud.py:401-423 | Soul.process_cmd in place: the new state is `Process` of the old |

## Left out

- Sockets, threads, `time.time()` and `time.sleep`: bytes read and written are strings, clock readings are integers passed in, and the threads of `start`/`stop` are a sequence of passes.
- `ctrl.py`, `server.py`, `config.py`, `world.py` and the world content (`Foundation` and its rooms): `BuildWorld` takes the area as a parameter.
- ChatChannel, MudPortal, MudActionMulti, MudNotifyDefault, History, and the mtmud world: these are outside the core.
- `Go.preparation` and `get_links`: there is no exit resolution, and Go's target is given.
- `move_to`, `move_obj_to`, `soul.quit()` and `_cmds` as used by notify.py: notify.py imports its object classes from the mtmud package, whose objects module is not part of this model. Each call is an event, the tree is unchanged, and a move's result is the parameter `moved`.
- Commands.QuitEffect: `soul.quit()` is recorded as the event `QuitSoul`. The `Soul.quit(self, cmd)` of MudObjects.py:433 takes an argument and would reject this zero-argument call; the model follows the mtmud soul that notify.py is written against, not that method.
- Soul attribute errors in `loop` (the outer except clauses) and `cmd_history`: they are not modelled.
- Driver.Entry: a queued command is reduced to its name and whether calling it raises; what it does to the world is `Commands.CallNow`'s business.
- Driver.SoulEntry: the soul's `sender` attribute is recorded per queued entry, while the source shares one attribute per soul. Every value it can take escapes the same way, so the outcome is the same.
- Driver.MudDriver.constructor: `_build_world` is a separate call, `BuildWorld`, rather than part of construction.
- Legacy.Soul.ProcessCmd: `str(self.body)` is a parameter, `bodyStr`, since it is an object address in the source.
- Legacy.Soul.constructor: `online` None is `false`; the loop that sets it to True is not modelled.
- Legacy.LoginRoom.constructor: `login` and `password` None are the empty string; the login room only tests them for truth, so the two read alike.
- Commands.SetResponse: when setResponse raises part-way, the message slots already written are not stated.
- Commands.CallNow: the request's state after a call that raises is not stated.
- `obj.children` in mtmud/MudActions.py: the property is defined outside the modelled files, so it is read as a copy of the child list, and the removal loop never shrinks the anchor's own list.
- MudPlayer's `__str__` title formatting: an object's `str` is its name.
- `_cmds` versus `cmds`: help reads `_cmds`, kept as its own table of entries and docstrings, while the resolver reads `cmds`.
- Help's docstring is written out as `Commands.HelpLines`, and `Commands.Usage` is those lines joined by CR LF; that this equals the `replace` of the LF-joined docstring is `Base.CrlfJoin`, whose premise (no line holds an LF) is read off the literal rather than proved.

## Findings

| source | as written | input that shows it | evidently intended | confidence | as-written member | corrected member |
|---|---|---|---|---|---|---|
| MudObjects.py:121 | `do_cmd` builds the action as `aC(arg, self)`, so the argument text is the caller and the owner is the target | a player types `say hi`: `caller.send` is called on the text "hi" and raises before anyone hears it | the issuer as caller and the argument as trail: `aC(caller, trail=arg)` | not executed; high | Actions.CommandLineSayFails | Actions.IntendedCommandsWork |
| MudObjects.py:403 | `self.driver.Q(self, cmd)` against `Q(cmd, sender)` (runner.py:210): the soul is queued as the command and the line is its sender | a logged-in soul types `say hi`: `_action` calls the soul, which is not callable; the except clause then calls `send` on the text "say hi" and the exception escapes `_action` | `Q(cmd, self)`, the line queued as a command from the soul | not executed; high | Driver.AsWrittenLosesCommand | Driver.IntendedRunsEveryLine |
