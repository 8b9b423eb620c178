/** mtj/mud/notify.py: the commands written against the notification
    protocol of mtmud/MudActions.py. Each command is a class whose
    `setResponse` decides who is told what; the MudAction ones also have an
    `action` run before the messages and a `post_action` run after them.

    `move_to`, `move_obj_to` and `soul.quit` are defined in code that is
    not part of this model: they are recorded as events, the tree is left
    as it was, and what a move returns is the parameter `moved`. */
module Commands {
  import opened Base
  import opened MudObjects
  import opened Protocol
  import Actions

  // ---------------------------------------------------------------------
  // _Look: the room renderer

  /** `room.roomlinks`. */
  function Exits(t: Tree, room: Id): seq<string>
  {
    if room in t.exits then t.exits[room] else []
  }

  /** The exits line: a fixed line without exits, the names joined by
      ", " otherwise. */
  function ExitLine(exits: seq<string>): string
  {
    if exits == [] then Actions.NoExits
    else "        Obvious exits are " + Join(", ", exits) + ".\r\n\r\n"
  }

  /** The room's name line, a blank line, and its description. */
  function Header(t: Tree, room: Id): string
  {
    Str(t, room) + "\r\n\r\n" + Longdesc(t, room) + "\r\n"
  }

  /** _Look._look. */
  function Render(t: Tree, room: Id, contents: seq<Party>): string
  {
    Header(t, room) + ExitLine(Exits(t, room)) + Contents(t, contents)
  }

  /** _Look._lookitem: the same picture without the exits line. */
  function RenderItem(t: Tree, room: Id, contents: seq<Party>): string
  {
    Header(t, room) + Contents(t, contents)
  }

  /** A room without exits renders exactly as the older _look of
      MudActions.py, whose exits line is fixed. */
  lemma RenderMatchesOldLook(t: Tree, room: Id, contents: seq<Party>)
    requires Exits(t, room) == []
    ensures Render(t, room, contents) == Actions.LookText(t, room, contents)
  {
  }

  /** A picture is never empty: it starts with the header's line breaks,
      so it is always worth sending. */
  lemma RenderSaid(t: Tree, room: Id, contents: seq<Party>)
    ensures Said(Some(Render(t, room, contents)))
  {
    assert |Header(t, room)| >= 6;
  }

  /** Items render one line each after everything else, so more contents
      extend the picture at its end; _lookitem is the picture with the
      exits line cut out. */
  lemma {:induction false} RenderAppend(t: Tree, room: Id, a: seq<Party>, b: seq<Party>)
    ensures Render(t, room, a + b) == Render(t, room, a) + Contents(t, b)
    ensures RenderItem(t, room, a + b) == RenderItem(t, room, a) + Contents(t, b)
    ensures Render(t, room, a) == RenderItem(t, room, []) + ExitLine(Exits(t, room)) + Contents(t, a)
  {
    var h, x := Header(t, room), ExitLine(Exits(t, room));
    ContentsAppend(t, a, b);
    AppendAssociative(h + x, Contents(t, a), Contents(t, b));
    AppendAssociative(h, Contents(t, a), Contents(t, b));
    assert RenderItem(t, room, []) == h + Contents(t, []) == h;
  }

  /** The exits line names the exits, separated by ", ", in order. */
  lemma {:induction false} ExitLineLists(exits: seq<string>, e: string)
    requires exits != []
    ensures ExitLine(exits + [e])
      == "        Obvious exits are " + Join(", ", exits) + ", " + e + ".\r\n\r\n"
  {
    JoinAppend(", ", exits, e);
  }

  // ---------------------------------------------------------------------
  // Help

  /** The lines of Help's docstring. */
  const HelpLines: seq<string> := [
    "    Usage: help <command>",
    "",
    "    Calling 'help' alone will give you this page and a brief listing on",
    "    what commands you have access to if called without any arguments.",
    "    If a valid command you have access to is passed as an argument, the ",
    "    help for that command will be presented to you.",
    "    "]

  /** `Help.__doc__.replace('\n', '\r\n')`: what Help shows without a
      topic, before the listing. The docstring is `Join("\n", HelpLines)`
      and no line holds a newline, so by `Base.CrlfJoin` the replacement
      is the lines joined by CRLF. */
  const Usage := Join("\r\n", HelpLines)

  const NoHelp := "There is no help available on that topic."

  const ListingHead := "\r\n    Valid commands are:"

  /** `caller._cmds`, in table order. */
  function HelpEntries(t: Tree, x: Id): seq<HelpEntry>
  {
    if x in t.help then t.help[x] else []
  }

  /** `table[verb].__doc__` when verb is a key of the table. */
  function DocOf(entries: seq<HelpEntry>, verb: string): Option<Option<string>>
  {
    if entries == [] then None
    else if entries[0].verb == verb then Some(entries[0].doc)
    else DocOf(entries[1..], verb)
  }

  /** One `'      - %s'` line per command. */
  function Bullets(entries: seq<HelpEntry>): (r: seq<string>)
    ensures |r| == |entries|
    ensures forall i :: 0 <= i < |entries| ==> r[i] == "      - " + entries[i].verb
  {
    if entries == [] then []
    else Bullets(entries[..|entries| - 1]) + ["      - " + entries[|entries| - 1].verb]
  }

  /** The command listing: the heading, then one line per command. */
  function Listing(entries: seq<HelpEntry>): string
  {
    Join("\r\n", [ListingHead] + Bullets(entries))
  }

  /** A listing of one more command is the old listing plus its line. */
  lemma {:induction false} ListingAppend(entries: seq<HelpEntry>, e: HelpEntry)
    ensures Listing(entries + [e]) == Listing(entries) + "\r\n" + "      - " + e.verb
  {
    assert [ListingHead] + Bullets(entries + [e]) == ([ListingHead] + Bullets(entries)) + ["      - " + e.verb] by {
      assert (entries + [e])[..|entries + [e]| - 1] == entries;
    }
    JoinAppend("\r\n", [ListingHead] + Bullets(entries), "      - " + e.verb);
  }

  /** The help text for a topic: the command's doc with "\n" made "\r\n"
      if there is a non-empty one, the fixed apology otherwise. */
  function TopicText(entries: seq<HelpEntry>, topic: string): string
  {
    match DocOf(entries, topic)
    case Some(Some(d)) => if d != "" then Crlf(d) else NoHelp
    case _ => NoHelp
  }

  /** The table lookup finds the first entry for the verb, or nothing when
      no entry has it. */
  lemma {:induction false} DocOfFinds(entries: seq<HelpEntry>, topic: string)
    ensures (forall i :: 0 <= i < |entries| ==> entries[i].verb != topic) ==> DocOf(entries, topic) == None
    ensures forall i :: 0 <= i < |entries| && entries[i].verb == topic
                        && (forall j :: 0 <= j < i ==> entries[j].verb != topic)
                        ==> DocOf(entries, topic) == Some(entries[i].doc)
  {
    if entries != [] {
      DocOfFinds(entries[1..], topic);
      forall i | 0 <= i < |entries| && entries[i].verb == topic && (forall j :: 0 <= j < i ==> entries[j].verb != topic)
        ensures DocOf(entries, topic) == Some(entries[i].doc)
      {
        if i > 0 {
          assert entries[0].verb != topic;
          assert entries[1..][i - 1] == entries[i];
          assert forall j :: 0 <= j < i - 1 ==> entries[1..][j] == entries[j + 1];
        }
      }
      if forall i :: 0 <= i < |entries| ==> entries[i].verb != topic {
        assert entries[0].verb != topic;
        assert forall i :: 0 <= i < |entries| - 1 ==> entries[1..][i] == entries[i + 1];
      }
    }
  }

  /** A topic the table does not hold, or one without a doc, gets the
      apology; a documented one gets its doc. */
  lemma TopicTextCases(entries: seq<HelpEntry>, topic: string)
    ensures (forall i :: 0 <= i < |entries| ==> entries[i].verb != topic) ==> TopicText(entries, topic) == NoHelp
    ensures forall i :: 0 <= i < |entries| && entries[i].verb == topic
                        && (forall j :: 0 <= j < i ==> entries[j].verb != topic)
                        ==> TopicText(entries, topic) == if Said(entries[i].doc) then Crlf(entries[i].doc.value) else NoHelp
  {
    DocOfFinds(entries, topic);
  }

  // ---------------------------------------------------------------------
  // setResponse of each command

  /** ObjAddNotify.setResponse (adding) and ObjRemoveNotify.setResponse. */
  function RespondNotify(t: Tree, r: Request, adding: bool): Request
  {
    var tg := PartyStr(t, r.target);
    var cl := PartyStr(t, r.caller);
    if adding then
      r.(callerChildren := All,
         callerMsg := Some(tg + " appears inside you."),
         targetMsg := Some("You appear inside " + cl + "."),
         callerChildrenMsg := Some(tg + " appears."))
    else
      r.(callerChildren := All,
         callerMsg := Some(tg + " vanishes from you."),
         targetMsg := Some("You vanish from " + cl + "."),
         callerChildrenMsg := Some(tg + " vanishes."))
  }

  /** The failure message both move commands share. */
  function MoveFailed(t: Tree, r: Request): string
  {
    "You failed to move from " + PartyStr(t, r.target) + " to " + PartyStr(t, r.second) + "."
  }

  /** MoveObjFromTo.setResponse: caller moves from target to second. */
  function RespondMoveFromTo(t: Tree, r: Request): Request
  {
    if Truthy(r.result) then
      r.(callerMsg := Some("You move from " + PartyStr(t, r.target) + " to " + PartyStr(t, r.second) + "."),
         targetMsg := Some(PartyStr(t, r.caller) + " leaves you."),
         secondMsg := Some(PartyStr(t, r.caller) + " enters you."))
    else
      r.(callerMsg := Some(MoveFailed(t, r)))
  }

  /** MoveObjTo.setResponse: second is where the caller was, target where
      it goes. The target_children message is the literal '%s enters.'. */
  function RespondMoveTo(t: Tree, r: Request): Request
  {
    if Truthy(r.result) then
      r.(callerMsg := Some("You move from " + PartyStr(t, r.target) + " to " + PartyStr(t, r.second) + "."),
         targetMsg := Some(PartyStr(t, r.caller) + " enters you."),
         secondMsg := Some(PartyStr(t, r.caller) + " leaves you."),
         targetChildren := All,
         targetChildrenMsg := Some("%s enters."))
    else
      r.(callerMsg := Some(MoveFailed(t, r)))
  }

  /** Go.setResponse. */
  function RespondGo(t: Tree, r: Request): Request
  {
    var r1 := r.(callerSiblings := All);
    if Truthy(r.result) then
      r1.(callerSiblingsMsg := Some(PartyStr(t, r.caller) + " leaves " + Show(r.trail) + "."),
          targetChildren := All,
          targetChildrenMsg := Some(PartyStr(t, r.caller) + " enters."))
    else if Said(r.trail) then
      r1.(callerMsg := Some("There is no " + r.trail.value + " exit."))
    else
      r1.(callerMsg := Some("Where do you want to go?"))
  }

  /** Say.setResponse. */
  function RespondSay(t: Tree, r: Request): Request
  {
    var r1 := r.(callerSiblings := All);
    if Said(r.trail) then
      r1.(callerMsg := Some("You say, \"" + r.trail.value + "\""),
          callerSiblingsMsg := Some(PartyStr(t, r.caller) + " says, \"" + r.trail.value + "\""))
    else
      r1.(callerMsg := Some(Actions.SilentSay))
  }

  /** The emote line everyone in the room sees. */
  function EmoteLine(t: Tree, r: Request): string
    requires r.trail.Some?
  {
    "::: " + PartyStr(t, r.caller) + " " + r.trail.value + " :::"
  }

  /** Emote.setResponse. */
  function RespondEmote(t: Tree, r: Request): Request
  {
    var r1 := r.(callerSiblings := All);
    if Said(r.trail) then
      r1.(callerMsg := Some(EmoteLine(t, r)), callerSiblingsMsg := Some(EmoteLine(t, r)))
    else
      r1.(callerMsg := Some("What do you want to emote?"))
  }

  /** Quit.setResponse: `condition` records that there was no trail. */
  function RespondQuit(t: Tree, r: Request): Request
  {
    var r1 := r.(callerSiblings := All, condition := !Said(r.trail));
    if Said(r.trail) then r1.(callerMsg := Some("Quit what?"))
    else r1.(callerSiblingsMsg := Some(PartyStr(t, r.caller) + " has left this world."))
  }

  /** Login.setResponse. */
  function RespondLogin(t: Tree, r: Request): Request
  {
    r.(callerSiblings := All,
       callerSiblingsMsg := Some(PartyStr(t, r.caller) + " arrives into this world."),
       callerMsg := Some("You arrive into this world."))
  }

  /** Help.setResponse: reads `caller._cmds`, so a caller that is not an
      object raises. */
  function RespondHelp(t: Tree, r: Request): Result<Request>
  {
    if !r.caller.Obj? then Raised
    else if Said(r.trail) then Ok(r.(callerMsg := Some(TopicText(HelpEntries(t, r.caller.id), r.trail.value))))
    else Ok(r.(callerMsg := Some(Usage + Listing(HelpEntries(t, r.caller.id)))))
  }

  /** Look.setResponse: the caller's room with the caller's siblings. */
  function RespondLook(t: Tree, r: Request): Result<Request>
  {
    var r1 := r.(callerSiblings := All);
    match PartyParent(t, r.caller)
    case Raised => Raised
    case Ok(room) =>
      if !room.Obj? then Ok(r1.(callerMsg := Some("You are not in a room!")))
      else (
        match CallerSiblings(t, r1)
        case Raised => Raised
        case Ok(cs) => Ok(r1.(callerMsg := Some(Render(t, room.id, cs)))))
  }

  /** LookFromTarget.setResponse: the target's room with the target's
      siblings less target and second, shown to the caller. */
  function RespondLookFromTarget(t: Tree, r: Request): Result<Request>
  {
    var r1 := r.(targetSiblings := All);
    match PartyParent(t, r.target)
    case Raised => Raised
    case Ok(room) =>
      if !room.Obj? then Ok(r1.(callerMsg := Some("You are not in a room!")))
      else (
        match TargetSiblings(t, r1, [r.target, r.second])
        case Raised => Raised
        case Ok(cs) => Ok(r1.(callerMsg := Some(Render(t, room.id, cs)))))
  }

  /** LookFromRoom.setResponse: the caller is the room; the picture goes to
      the target. */
  function RespondLookFromRoom(t: Tree, r: Request): Result<Request>
  {
    var r1 := r.(callerChildren := All);
    match CallerChildren(t, r1)
    case Raised => Raised
    case Ok(cs) => if r.caller.Obj? then Ok(r1.(targetMsg := Some(Render(t, r.caller.id, cs)))) else Raised
  }

  /** setResponse, by class. */
  function Respond(t: Tree, r: Request): Result<Request>
  {
    match r.cls
    case BaseNotify => Ok(r)
    case BaseAction => Ok(r)
    case AddNotify => Ok(RespondNotify(t, r, true))
    case RemoveNotify => Ok(RespondNotify(t, r, false))
    case MoveFromTo => Ok(RespondMoveFromTo(t, r))
    case MoveTo => Ok(RespondMoveTo(t, r))
    case GoCmd => Ok(RespondGo(t, r))
    case SayCmd => Ok(RespondSay(t, r))
    case EmoteCmd => Ok(RespondEmote(t, r))
    case QuitCmd => Ok(RespondQuit(t, r))
    case LoginCmd => Ok(RespondLogin(t, r))
    case HelpCmd => RespondHelp(t, r)
    case LookCmd => RespondLook(t, r)
    case LookFromTargetCmd => RespondLookFromTarget(t, r)
    case LookFromRoomCmd => RespondLookFromRoom(t, r)
  }

  /** The constructor: MoveObjTo (and so Go) then sets second to the
      caller's parent, which raises for a caller that is not an object. */
  function New(t: Tree, r: Request): Result<Request>
  {
    if r.cls.MoveTo? || r.cls.GoCmd? then
      match PartyParent(t, r.caller)
      case Raised => Raised
      case Ok(p) => Ok(r.(second := p))
    else Ok(r)
  }

  /** MudNotify.__call__ on its own: setResponse, then _send. */
  function Notified(t: Tree, r: Request): Run
  {
    match Respond(t, r)
    case Raised => Run([], true)
    case Ok(r1) => Send(t, r1)
  }

  /** `Look(caller)()`: setResponse is Look's, then _send. */
  function LookRun(t: Tree, caller: Party): Run
  {
    match RespondLook(t, CallerOnly(LookCmd, caller))
    case Raised => Run([], true)
    case Ok(r1) => Send(t, r1)
  }

  /** LookRun is the call of a Look request. */
  lemma LookRunNotifies(t: Tree, caller: Party)
    ensures LookRun(t, caller) == Notified(t, CallerOnly(LookCmd, caller))
  {
  }

  // ---------------------------------------------------------------------
  // action and post_action

  /** The tree after a hook, what the hook did, and what it returned
      (meaningless when it raised). */
  datatype Effect = Effect(tree: Tree, run: Run, value: Value)

  function Raise(t: Tree): Effect
  {
    Effect(t, Run([], true), NoneV)
  }

  /** `self.add(obj)` on whatever the two slots hold: only an object has
      an add method; a room first sets `obj.room`, which a string or None
      cannot take; a plain object broadcasts the entrance and then fails at
      `obj.send`. */
  function AddEffect(t: Tree, self: Party, obj: Party): Effect
  {
    if !self.Obj? then Raise(t)
    else if obj.Obj? then
      var s := DispatchAddStep(t, self.id, obj.id);
      Effect(s.tree, Run(s.out, false), NoneV)
    else if KindOf(t, self.id) == Room then Raise(t)
    else Effect(t, Run(Broadcast(Children(t, self.id), [], PartyStr(t, obj) + " enters."), true), NoneV)
  }

  /** `caller.soul.quit()` and `caller._parent.remove(caller)` for a caller
      with a soul; nothing for one whose soul is None. Reading `soul` off
      an object that has no such attribute raises. Returns True. */
  function QuitEffect(t: Tree, caller: Party): Effect
  {
    if !caller.Obj? || !HasSoulAttr(t, caller.id) then Raise(t)
    else if caller.id !in t.soul then Effect(t, Done, BoolV(true))
    else
      var q := QuitSoul(t.soul[caller.id]);
      match Parent(t, caller.id)
      case None => Effect(t, Run([q], true), NoneV)
      case Some(p) =>
        var s := RemoveStep(t, p, caller.id);
        Effect(s.tree, Run([q] + s.out, false), BoolV(true))
  }

  /** `action()` by class; MudAction's own returns False. */
  function Act(t: Tree, r: Request, moved: bool): Effect
  {
    match r.cls
    case MoveFromTo =>
      if !(PartyTruthy(r.caller) && PartyTruthy(r.target) && PartyTruthy(r.second)) then Effect(t, Done, NoneV)
      else if !r.target.Obj? then Raise(t)
      else Effect(t, Run([MovedObjTo(r.target.id, r.caller, r.second)], false), BoolV(moved))
    case MoveTo =>
      if !(PartyTruthy(r.caller) && PartyTruthy(r.target)) then Effect(t, Done, NoneV)
      else if !r.caller.Obj? then Raise(t)
      else Effect(t, Run([MovedTo(r.caller.id, r.target)], false), BoolV(moved))
    case GoCmd => Effect(t, Done, BoolV(true))
    case LoginCmd => AddEffect(t, r.target, r.caller)
    case _ => Effect(t, Done, BoolV(false))
  }

  /** `post_action()` by class; MudAction's own returns False. */
  function PostAct(t: Tree, r: Request, moved: bool): Effect
  {
    match r.cls
    case GoCmd =>
      if !(PartyTruthy(r.caller) && PartyTruthy(r.target)) then Effect(t, Done, NoneV)
      else if !r.caller.Obj? then Raise(t)
      else
        var mv := Run([MovedTo(r.caller.id, r.target)], false);
        Effect(t, if moved then Then(mv, LookRun(t, r.caller)) else mv, BoolV(moved))
    case QuitCmd => if r.condition then QuitEffect(t, r.caller) else Effect(t, Done, BoolV(true))
    case LoginCmd => Effect(t, LookRun(t, r.caller), BoolV(true))
    case _ => Effect(t, Done, BoolV(false))
  }

  // ---------------------------------------------------------------------
  // __call__

  /** What calling a request does: the tree afterwards, the effects in
      order, what the call returns, and the request's final attributes. */
  datatype Outcome = Outcome(tree: Tree, run: Run, value: Value, req: Request)

  /** MudNotify.__call__ (setResponse, _send, return True) or
      MudAction.__call__ (result = action(), then the same, then
      post_action, return result). */
  function Call(t: Tree, r: Request, moved: bool): Outcome
  {
    if !IsAction(r.cls) then
      match Respond(t, r)
      case Raised => Outcome(t, Run([], true), NoneV, r)
      case Ok(r1) => Outcome(t, Send(t, r1), BoolV(true), r1)
    else
      var a := Act(t, r, moved);
      if a.run.raised then Outcome(a.tree, a.run, NoneV, r)
      else
        var f := Finish(a.tree, r.(result := a.value), moved);
        Outcome(f.tree, Then(a.run, f.run), f.value, f.req)
  }

  /** What MudAction.__call__ does once `result` is stored: setResponse,
      _send, post_action, and `result` returned. */
  function Finish(t: Tree, r0: Request, moved: bool): Outcome
  {
    match Respond(t, r0)
    case Raised => Outcome(t, Run([], true), NoneV, r0)
    case Ok(r1) => SendAndPost(t, r1, moved)
  }

  /** _send, then post_action, then `result` returned. */
  function SendAndPost(t: Tree, r1: Request, moved: bool): Outcome
  {
    var s := Send(t, r1);
    if s.raised then Outcome(t, s, NoneV, r1)
    else
      var p := PostAct(t, r1, moved);
      Outcome(p.tree, Then(s, p.run), if p.run.raised then NoneV else r1.result, r1)
  }

  // ---------------------------------------------------------------------
  // Properties of __call__

  /** setResponse only writes relationship parameters, message slots and
      `condition`: the class, the parties, the trail and the result stay. */
  lemma RespondKeepsParties(t: Tree, r: Request)
    requires Respond(t, r).Ok?
    ensures var r1 := Respond(t, r).value;
      && r1.cls == r.cls && r1.trail == r.trail && r1.result == r.result
      && r1.caller == r.caller && r1.target == r.target && r1.second == r.second
  {
  }

  /** A plain notification returns True; an action returns what its
      `action` returned, whatever `post_action` returns. Only Login and Quit
      change the tree. */
  lemma {:induction false} CallReturns(t: Tree, r: Request, moved: bool)
    ensures var o := Call(t, r, moved);
      && (!IsAction(r.cls) && !o.run.raised ==> o.value == BoolV(true))
      && (IsAction(r.cls) && !o.run.raised ==> o.value == Act(t, r, moved).value)
      && (!r.cls.LoginCmd? && !r.cls.QuitCmd? ==> o.tree == t)
  {
    if IsAction(r.cls) {
      var a := Act(t, r, moved);
      assert !r.cls.LoginCmd? ==> a.tree == t;
      if !a.run.raised {
        var r0 := r.(result := a.value);
        var rr := Respond(a.tree, r0);
        if rr.Ok? {
          RespondKeepsParties(a.tree, r0);
          var p := PostAct(a.tree, rr.value, moved);
          assert !r.cls.QuitCmd? ==> p.tree == a.tree;
        }
      }
    }
  }

  /** Each class's setResponse, picked out of the dispatch. */
  lemma RespondsByClass(t: Tree, r: Request)
    ensures r.cls == AddNotify ==> Respond(t, r) == Ok(RespondNotify(t, r, true))
    ensures r.cls == RemoveNotify ==> Respond(t, r) == Ok(RespondNotify(t, r, false))
    ensures r.cls == MoveFromTo ==> Respond(t, r) == Ok(RespondMoveFromTo(t, r))
    ensures r.cls == MoveTo ==> Respond(t, r) == Ok(RespondMoveTo(t, r))
    ensures r.cls == GoCmd ==> Respond(t, r) == Ok(RespondGo(t, r))
    ensures r.cls == SayCmd ==> Respond(t, r) == Ok(RespondSay(t, r))
    ensures r.cls == EmoteCmd ==> Respond(t, r) == Ok(RespondEmote(t, r))
    ensures r.cls == QuitCmd ==> Respond(t, r) == Ok(RespondQuit(t, r))
    ensures r.cls == LoginCmd ==> Respond(t, r) == Ok(RespondLogin(t, r))
    ensures r.cls == HelpCmd ==> Respond(t, r) == RespondHelp(t, r)
    ensures r.cls == LookCmd ==> Respond(t, r) == RespondLook(t, r)
    ensures r.cls == LookFromRoomCmd ==> Respond(t, r) == RespondLookFromRoom(t, r)
    ensures r.cls == LookFromTargetCmd ==> Respond(t, r) == RespondLookFromTarget(t, r)
  {
  }

  /** An action whose action() neither changes nor sends anything goes
      straight to setResponse, _send and post_action. */
  lemma ActionCall(t: Tree, r: Request, moved: bool, v: Value, r1: Request)
    requires IsAction(r.cls) && Act(t, r, moved) == Effect(t, Done, v)
    requires Respond(t, r.(result := v)) == Ok(r1)
    ensures Call(t, r, moved) == SendAndPost(t, r1, moved)
  {
    ThenDone(SendAndPost(t, r1, moved).run);
  }

  /** A notification whose setResponse succeeds sends what that response
      holds. */
  lemma NotifiedSends(t: Tree, r: Request, r2: Request)
    requires Respond(t, r) == Ok(r2)
    ensures Notified(t, r) == Send(t, r2)
  {
  }

  /** A notification's call is its setResponse and _send, on an unchanged
      tree. */
  lemma NotifyCall(t: Tree, r: Request, moved: bool)
    requires !IsAction(r.cls)
    ensures Call(t, r, moved).run == Notified(t, r) && Call(t, r, moved).tree == t
    ensures !Notified(t, r).raised ==> Call(t, r, moved).value == BoolV(true)
  {
  }

  /** The base classes do nothing: MudNotify returns True, MudAction
      returns False, and neither sends anything. */
  lemma BaseClassesSilent(t: Tree, caller: Party, target: Party, second: Party,
                          cs: Param, cc: Param, ts: Param, tc: Param, trail: Option<string>, moved: bool)
    ensures var o := Call(t, Fresh(BaseNotify, caller, target, second, cs, cc, ts, tc, trail, caller), moved);
      o.tree == t && o.run == Done && o.value == BoolV(true)
    ensures var o := Call(t, Fresh(BaseAction, caller, target, second, cs, cc, ts, tc, trail, caller), moved);
      o.tree == t && o.run == Done && o.value == BoolV(false)
  {
  }

  /** Go's action always succeeds, so a call that does not raise returns
      True and never sets either failure message. */
  lemma GoNeverFails(t: Tree, r: Request, moved: bool)
    requires r.cls.GoCmd? && r.callerMsg == None
    ensures var o := Call(t, r, moved);
      !o.run.raised ==> o.value == BoolV(true) && o.req.callerMsg == None && o.req.result == BoolV(true)
  {
  }

  /** A caller that is an object and sits in no room gets the fixed
      message from Look, and nothing else is sent. */
  lemma LookNotInRoom(t: Tree, c: Id)
    requires Parent(t, c).None?
    ensures LookRun(t, Obj(c)) == Run([Sent(c, "You are not in a room!")], false)
  {
    var r := CallerOnly(LookCmd, Obj(c));
    var r1 := r.(callerSiblings := All, callerMsg := Some("You are not in a room!"));
    assert PartyParent(t, Obj(c)) == Ok(Nobody);
    assert RespondLook(t, r) == Ok(r1);
    SendCallerOnly(t, r1);
  }

  /** Look.setResponse for a caller in a room: the caller's message is
      the room with the caller's siblings. */
  lemma LookResponse(t: Tree, c: Id, p: Id)
    requires Parent(t, c) == Some(p)
    ensures var r := CallerOnly(LookCmd, Obj(c)).(callerSiblings := All);
      var rest := CleanList(t, Obj(p), [Obj(c), Nobody, Nobody]).value;
      RespondLook(t, CallerOnly(LookCmd, Obj(c))) == Ok(r.(callerMsg := Some(Render(t, p, rest))))
  {
    var r := CallerOnly(LookCmd, Obj(c)).(callerSiblings := All);
    assert PartyParent(t, Obj(c)) == Ok(Obj(p));
    assert CallerSiblings(t, r) == CleanList(t, Obj(p), [Obj(c), Nobody, Nobody]);
  }

  /** Look from an object in a room shows the caller that room, with its
      other occupants (not the caller, when it is listed once). */
  lemma {:induction false} LookShowsRoom(t: Tree, c: Id, p: Id)
    requires Parent(t, c) == Some(p)
    ensures var rest := CleanList(t, Obj(p), [Obj(c), Nobody, Nobody]).value;
      && LookRun(t, Obj(c)) == Run([Sent(c, Render(t, p, rest))], false)
      && (multiset(Objects(Children(t, p)))[Obj(c)] <= 1 ==> Obj(c) !in rest)
  {
    LookResponse(t, c, p);
    RenderSaid(t, p, CleanList(t, Obj(p), [Obj(c), Nobody, Nobody]).value);
    if multiset(Objects(Children(t, p)))[Obj(c)] <= 1 {
      CleanListExcludes(t, p, [Obj(c), Nobody, Nobody], Obj(c));
    }
  }

  /** LookFromRoom.setResponse: the target's message is the room with its
      children less the room itself and the target. */
  lemma LookFromRoomResponse(t: Tree, room: Id, who: Id)
    ensures var r := Fresh(LookFromRoomCmd, Obj(room), Obj(who), Nobody, Unset, Unset, Unset, Unset, None, Obj(room));
      var rest := CleanList(t, Obj(room), [Obj(room), Obj(who), Nobody]).value;
      RespondLookFromRoom(t, r) == Ok(r.(callerChildren := All, targetMsg := Some(Render(t, room, rest))))
  {
    var r := Fresh(LookFromRoomCmd, Obj(room), Obj(who), Nobody, Unset, Unset, Unset, Unset, None, Obj(room));
    assert CallerChildren(t, r.(callerChildren := All)) == CleanList(t, Obj(room), [Obj(room), Obj(who), Nobody]);
  }

  /** LookFromRoom's notification sends the target that picture and
      nothing else. */
  lemma LookFromRoomNotified(t: Tree, room: Id, who: Id)
    ensures var r := Fresh(LookFromRoomCmd, Obj(room), Obj(who), Nobody, Unset, Unset, Unset, Unset, None, Obj(room));
      var rest := CleanList(t, Obj(room), [Obj(room), Obj(who), Nobody]).value;
      Notified(t, r) == Run([Sent(who, Render(t, room, rest))], false)
  {
    var r := Fresh(LookFromRoomCmd, Obj(room), Obj(who), Nobody, Unset, Unset, Unset, Unset, None, Obj(room));
    var rest := CleanList(t, Obj(room), [Obj(room), Obj(who), Nobody]).value;
    var r2 := r.(callerChildren := All, targetMsg := Some(Render(t, room, rest)));
    LookFromRoomResponse(t, room, who);
    RespondsByClass(t, r);
    RenderSaid(t, room, rest);
    NotifiedSends(t, r, r2);
    SendTargetOnly(t, r2);
  }

  /** LookFromRoom: the room renders its own contents, less the target it
      is showing them to, and the picture goes to that target. */
  lemma {:induction false} LookFromRoomTellsTarget(t: Tree, room: Id, who: Id, moved: bool)
    requires multiset(Objects(Children(t, room)))[Obj(who)] <= 1
    ensures var rest := CleanList(t, Obj(room), [Obj(room), Obj(who), Nobody]).value;
      var o := Call(t, Fresh(LookFromRoomCmd, Obj(room), Obj(who), Nobody, Unset, Unset, Unset, Unset, None, Obj(room)), moved);
      && o.run == Run([Sent(who, Render(t, room, rest))], false)
      && Obj(who) !in rest
  {
    var r := Fresh(LookFromRoomCmd, Obj(room), Obj(who), Nobody, Unset, Unset, Unset, Unset, None, Obj(room));
    var rest := CleanList(t, Obj(room), [Obj(room), Obj(who), Nobody]).value;
    LookFromRoomNotified(t, room, who);
    NotifyCall(t, r, moved);
    CleanListExcludes(t, room, [Obj(room), Obj(who), Nobody], Obj(who));
  }

  /** LookFromTarget.setResponse: the caller's message is the target's
      room with the target's siblings less the target. */
  lemma LookFromTargetResponse(t: Tree, c: Id, tg: Id, p: Id)
    requires Parent(t, tg) == Some(p)
    ensures var r := Fresh(LookFromTargetCmd, Obj(c), Obj(tg), Nobody, Unset, Unset, Unset, Unset, None, Obj(c));
      var rest := CleanList(t, Obj(p), [Obj(tg), Nobody]).value;
      RespondLookFromTarget(t, r) == Ok(r.(targetSiblings := All, callerMsg := Some(Render(t, p, rest))))
  {
    var r := Fresh(LookFromTargetCmd, Obj(c), Obj(tg), Nobody, Unset, Unset, Unset, Unset, None, Obj(c));
    assert PartyParent(t, Obj(tg)) == Ok(Obj(p));
    assert TargetSiblings(t, r.(targetSiblings := All), [Obj(tg), Nobody]) == CleanList(t, Obj(p), [Obj(tg), Nobody]);
  }

  /** LookFromTarget's notification sends the caller that picture and
      nothing else. */
  lemma LookFromTargetNotified(t: Tree, c: Id, tg: Id, p: Id)
    requires Parent(t, tg) == Some(p)
    ensures var r := Fresh(LookFromTargetCmd, Obj(c), Obj(tg), Nobody, Unset, Unset, Unset, Unset, None, Obj(c));
      var rest := CleanList(t, Obj(p), [Obj(tg), Nobody]).value;
      Notified(t, r) == Run([Sent(c, Render(t, p, rest))], false)
  {
    var r := Fresh(LookFromTargetCmd, Obj(c), Obj(tg), Nobody, Unset, Unset, Unset, Unset, None, Obj(c));
    var rest := CleanList(t, Obj(p), [Obj(tg), Nobody]).value;
    var r2 := r.(targetSiblings := All, callerMsg := Some(Render(t, p, rest)));
    LookFromTargetResponse(t, c, tg, p);
    RespondsByClass(t, r);
    RenderSaid(t, p, rest);
    NotifiedSends(t, r, r2);
    SendCallerOnly(t, r2);
  }

  /** LookFromTarget: the caller sees the target's room through the
      target's eyes, without the target (listed once) among the contents. */
  lemma {:induction false} LookFromTargetShowsCaller(t: Tree, c: Id, tg: Id, p: Id, moved: bool)
    requires Parent(t, tg) == Some(p)
    requires multiset(Objects(Children(t, p)))[Obj(tg)] <= 1
    ensures var rest := CleanList(t, Obj(p), [Obj(tg), Nobody]).value;
      var o := Call(t, Fresh(LookFromTargetCmd, Obj(c), Obj(tg), Nobody, Unset, Unset, Unset, Unset, None, Obj(c)), moved);
      && o.run == Run([Sent(c, Render(t, p, rest))], false)
      && Obj(tg) !in rest
  {
    var r := Fresh(LookFromTargetCmd, Obj(c), Obj(tg), Nobody, Unset, Unset, Unset, Unset, None, Obj(c));
    var rest := CleanList(t, Obj(p), [Obj(tg), Nobody]).value;
    LookFromTargetNotified(t, c, tg, p);
    NotifyCall(t, r, moved);
    CleanListExcludes(t, p, [Obj(tg), Nobody], Obj(tg));
  }

  /** A request from an object caller with nothing but a trail, as the
      driver builds one for a typed command. */
  function Typed(cls: Command, c: Id, trail: Option<string>): Request
  {
    Fresh(cls, Obj(c), Nobody, Nobody, Unset, Unset, Unset, Unset, trail, Obj(c))
  }

  /** Say's notification with words: the caller's echo, then the line
      fanned out to the caller's siblings. */
  lemma SayNotified(t: Tree, c: Id, p: Id, words: string)
    requires Parent(t, c) == Some(p) && words != ""
    ensures var rest := CleanList(t, Obj(p), [Obj(c), Nobody, Nobody]).value;
      Notified(t, Typed(SayCmd, c, Some(words)))
        == Then(Run([Sent(c, "You say, \"" + words + "\"")], false),
                DeliverAll(rest, Str(t, c) + " says, \"" + words + "\""))
  {
    var r := Typed(SayCmd, c, Some(words));
    var r2 := RespondSay(t, r);
    RespondsByClass(t, r);
    NotifiedSends(t, r, r2);
    SendCallerAndRoom(t, r2);
    assert CallerSiblings(t, r2) == CleanList(t, Obj(p), [Obj(c), Nobody, Nobody]);
  }

  /** Say with words: the caller hears them first, then every other object
      in its room hears them attributed to the caller, in room order. */
  lemma {:induction false} SayTellsRoom(t: Tree, c: Id, p: Id, words: string, moved: bool)
    requires Parent(t, c) == Some(p) && words != ""
    ensures var rest := CleanList(t, Obj(p), [Obj(c), Nobody, Nobody]).value;
      var o := Call(t, Typed(SayCmd, c, Some(words)), moved);
      && o.run == Then(Run([Sent(c, "You say, \"" + words + "\"")], false),
                       DeliverAll(rest, Str(t, c) + " says, \"" + words + "\""))
      && !o.run.raised && o.value == BoolV(true) && o.tree == t
      && (multiset(Objects(Children(t, p)))[Obj(c)] <= 1 ==> Obj(c) !in rest)
  {
    var rest := CleanList(t, Obj(p), [Obj(c), Nobody, Nobody]).value;
    SayNotified(t, c, p, words);
    NotifyCall(t, Typed(SayCmd, c, Some(words)), moved);
    CleanListObjects(t, p, [Obj(c), Nobody, Nobody]);
    DeliverAllToObjects(rest, Str(t, c) + " says, \"" + words + "\"");
    if multiset(Objects(Children(t, p)))[Obj(c)] <= 1 {
      CleanListExcludes(t, p, [Obj(c), Nobody, Nobody], Obj(c));
    }
  }

  /** Emote's notification with a trail: the same line to the caller and
      to the caller's siblings. */
  lemma EmoteNotified(t: Tree, c: Id, p: Id, words: string)
    requires Parent(t, c) == Some(p) && words != ""
    ensures var rest := CleanList(t, Obj(p), [Obj(c), Nobody, Nobody]).value;
      var line := "::: " + Str(t, c) + " " + words + " :::";
      Notified(t, Typed(EmoteCmd, c, Some(words))) == Then(Run([Sent(c, line)], false), DeliverAll(rest, line))
  {
    var r := Typed(EmoteCmd, c, Some(words));
    var r2 := RespondEmote(t, r);
    RespondsByClass(t, r);
    NotifiedSends(t, r, r2);
    SendCallerAndRoom(t, r2);
    assert CallerSiblings(t, r2) == CleanList(t, Obj(p), [Obj(c), Nobody, Nobody]);
  }

  /** Emote with a trail: the caller and every other object in its room
      see the same line. */
  lemma {:induction false} EmoteEchoes(t: Tree, c: Id, p: Id, words: string, moved: bool)
    requires Parent(t, c) == Some(p) && words != ""
    ensures var rest := CleanList(t, Obj(p), [Obj(c), Nobody, Nobody]).value;
      var line := "::: " + Str(t, c) + " " + words + " :::";
      var o := Call(t, Typed(EmoteCmd, c, Some(words)), moved);
      && o.run == Then(Run([Sent(c, line)], false), DeliverAll(rest, line))
      && !o.run.raised && o.value == BoolV(true)
      && forall e :: e in o.run.out ==> e.Sent? && e.text == line
  {
    var rest := CleanList(t, Obj(p), [Obj(c), Nobody, Nobody]).value;
    var line := "::: " + Str(t, c) + " " + words + " :::";
    EmoteNotified(t, c, p, words);
    NotifyCall(t, Typed(EmoteCmd, c, Some(words)), moved);
    CleanListObjects(t, p, [Obj(c), Nobody, Nobody]);
    DeliverAllToObjects(rest, line);
    DeliverAllSameText(rest, line);
    assert Then(Run([Sent(c, line)], false), DeliverAll(rest, line)).out == [Sent(c, line)] + DeliverAll(rest, line).out;
  }

  /** Without a trail, Say and Emote answer only the caller, telling it
      what is missing; the room hears nothing. */
  lemma NoTrailOnlyCaller(t: Tree, c: Id, trail: Option<string>, moved: bool)
    requires !Said(trail)
    ensures Call(t, Typed(SayCmd, c, trail), moved).run == Run([Sent(c, Actions.SilentSay)], false)
    ensures Call(t, Typed(EmoteCmd, c, trail), moved).run == Run([Sent(c, "What do you want to emote?")], false)
  {
    assert Respond(t, Typed(SayCmd, c, trail)) == Ok(RespondSay(t, Typed(SayCmd, c, trail)));
    assert Respond(t, Typed(EmoteCmd, c, trail)) == Ok(RespondEmote(t, Typed(EmoteCmd, c, trail)));
  }

  /** Quit with trailing text only asks "Quit what?": nobody else hears
      anything, nothing is removed, and the call returns action's False. */
  lemma {:induction false} QuitWhat(t: Tree, c: Id, words: string, moved: bool)
    requires words != ""
    ensures var o := Call(t, Typed(QuitCmd, c, Some(words)), moved);
      o.tree == t && o.run == Run([Sent(c, "Quit what?")], false) && o.value == BoolV(false)
  {
    var r0 := Typed(QuitCmd, c, Some(words)).(result := BoolV(false));
    var r1 := RespondQuit(t, r0);
    assert Respond(t, r0) == Ok(r1);
    assert !r1.condition;
    var told := Run([Sent(c, "Quit what?")], false);
    assert Send(t, r1) == Then(Then(Then(Then(told, Done), Done), Done), Done);
    assert PostAct(t, r1, moved) == Effect(t, Done, BoolV(true));
  }

  /** Quit without a trail: setResponse sets `condition` and has the
      caller's siblings told that it left. */
  lemma QuitNotice(t: Tree, c: Id, p: Id)
    requires Parent(t, c) == Some(p)
    ensures var r0 := Typed(QuitCmd, c, None).(result := BoolV(false));
      var r1 := RespondQuit(t, r0);
      var rest := CleanList(t, Obj(p), [Obj(c), Nobody, Nobody]).value;
      && Respond(t, r0) == Ok(r1) && r1.condition && r1.caller == Obj(c) && r1.result == BoolV(false)
      && Send(t, r1) == DeliverAll(rest, Str(t, c) + " has left this world.")
  {
    var r0 := Typed(QuitCmd, c, None).(result := BoolV(false));
    var r1 := RespondQuit(t, r0);
    RespondsByClass(t, r0);
    SendCallerAndRoom(t, r1);
    assert CallerSiblings(t, r1) == CleanList(t, Obj(p), [Obj(c), Nobody, Nobody]);
    ThenDone(Fan(CallerSiblings(t, r1), r1.callerSiblingsMsg.value));
  }

  /** Quit without a trail, from an object with a soul and a parent: the
      room is told first, then the soul quits and the parent removes the
      caller. The call still returns action's False. */
  lemma {:induction false} QuitLeaves(t: Tree, c: Id, p: Id, moved: bool)
    requires Parent(t, c) == Some(p) && HasSoulAttr(t, c) && c in t.soul
    ensures var rest := CleanList(t, Obj(p), [Obj(c), Nobody, Nobody]).value;
      var sibs := DeliverAll(rest, Str(t, c) + " has left this world.");
      var rm := RemoveStep(t, p, c);
      var o := Call(t, Typed(QuitCmd, c, None), moved);
      && o.tree == rm.tree
      && o.run == Run(sibs.out + [QuitSoul(t.soul[c])] + rm.out, false)
      && o.value == BoolV(false)
      && (multiset(Objects(Children(t, p)))[Obj(c)] <= 1 ==> Obj(c) !in rest)
  {
    var rest := CleanList(t, Obj(p), [Obj(c), Nobody, Nobody]).value;
    var r0 := Typed(QuitCmd, c, None).(result := BoolV(false));
    var r1 := RespondQuit(t, r0);
    QuitNotice(t, c, p);
    assert Act(t, Typed(QuitCmd, c, None), moved) == Effect(t, Done, BoolV(false));
    ActionCall(t, Typed(QuitCmd, c, None), moved, BoolV(false), r1);
    CleanListObjects(t, p, [Obj(c), Nobody, Nobody]);
    DeliverAllToObjects(rest, Str(t, c) + " has left this world.");
    var rm := RemoveStep(t, p, c);
    assert PostAct(t, r1, moved) == Effect(rm.tree, Run([QuitSoul(t.soul[c])] + rm.out, false), BoolV(true));
    SendAndPostCases(t, r1, moved);
    AppendAssociative(DeliverAll(rest, Str(t, c) + " has left this world.").out, [QuitSoul(t.soul[c])], rm.out);
    if multiset(Objects(Children(t, p)))[Obj(c)] <= 1 {
      CleanListExcludes(t, p, [Obj(c), Nobody, Nobody], Obj(c));
    }
  }

  /** Quit from a sprite whose soul is None still tells the room, but
      removes nothing. */
  lemma {:induction false} QuitSoulless(t: Tree, c: Id, p: Id, moved: bool)
    requires Parent(t, c) == Some(p) && HasSoulAttr(t, c) && c !in t.soul
    ensures var rest := CleanList(t, Obj(p), [Obj(c), Nobody, Nobody]).value;
      var o := Call(t, Typed(QuitCmd, c, None), moved);
      o.tree == t && o.run == DeliverAll(rest, Str(t, c) + " has left this world.") && o.value == BoolV(false)
  {
    var rest := CleanList(t, Obj(p), [Obj(c), Nobody, Nobody]).value;
    var r1 := RespondQuit(t, Typed(QuitCmd, c, None).(result := BoolV(false)));
    QuitNotice(t, c, p);
    assert Act(t, Typed(QuitCmd, c, None), moved) == Effect(t, Done, BoolV(false));
    ActionCall(t, Typed(QuitCmd, c, None), moved, BoolV(false), r1);
    CleanListObjects(t, p, [Obj(c), Nobody, Nobody]);
    DeliverAllToObjects(rest, Str(t, c) + " has left this world.");
    assert PostAct(t, r1, moved) == Effect(t, Done, BoolV(true));
    SendAndPostCases(t, r1, moved);
  }

  /** Quit from an object that has no `soul` attribute at all (neither a
      sprite nor a gatekeeper): the room is told, then reading `soul`
      raises, and nothing is removed. */
  lemma {:induction false} QuitWithoutSoulAttr(t: Tree, c: Id, p: Id, moved: bool)
    requires Parent(t, c) == Some(p) && !HasSoulAttr(t, c)
    ensures var rest := CleanList(t, Obj(p), [Obj(c), Nobody, Nobody]).value;
      var o := Call(t, Typed(QuitCmd, c, None), moved);
      o.tree == t && o.run == Run(DeliverAll(rest, Str(t, c) + " has left this world.").out, true)
  {
    var rest := CleanList(t, Obj(p), [Obj(c), Nobody, Nobody]).value;
    var r1 := RespondQuit(t, Typed(QuitCmd, c, None).(result := BoolV(false)));
    QuitNotice(t, c, p);
    assert Act(t, Typed(QuitCmd, c, None), moved) == Effect(t, Done, BoolV(false));
    ActionCall(t, Typed(QuitCmd, c, None), moved, BoolV(false), r1);
    CleanListObjects(t, p, [Obj(c), Nobody, Nobody]);
    DeliverAllToObjects(rest, Str(t, c) + " has left this world.");
    assert PostAct(t, r1, moved) == Raise(t);
    SendAndPostCases(t, r1, moved);
  }

  /** add never sets `_parent`, so a caller logging in from nowhere is
      added to the room, hears its own arrival, and then is told by Look
      that it is not in a room; the room's occupants hear only add's
      "enters.", never "arrives into this world.". */
  lemma {:induction false} LoginFromNowhere(t: Tree, c: Id, room: Id, moved: bool)
    requires Parent(t, c).None?
    ensures var add := DispatchAddStep(t, room, c);
      var o := Call(t, Fresh(LoginCmd, Obj(c), Obj(room), Nobody, Unset, Unset, Unset, Unset, None, Obj(c)), moved);
      && o.tree == add.tree
      && Children(o.tree, room) == Children(t, room) + [c]
      && Parent(o.tree, c).None?
      && o.run == Run(add.out + [Sent(c, "You arrive into this world."), Sent(c, "You are not in a room!")], false)
      && o.value == NoneV
  {
    var r := Fresh(LoginCmd, Obj(c), Obj(room), Nobody, Unset, Unset, Unset, Unset, None, Obj(c));
    var add := DispatchAddStep(t, room, c);
    DispatchAddKeeps(t, room, c);
    var u := add.tree;
    assert Act(t, r, moved) == Effect(u, Run(add.out, false), NoneV);
    ActionCallCases(t, r, moved);
    LoginFinish(u, r.(result := NoneV), c, moved);
  }

  /** Once add has run, a login from nowhere greets the caller and then
      looks, which finds no room. */
  lemma LoginFinish(u: Tree, r0: Request, c: Id, moved: bool)
    requires Parent(u, c).None?
    requires r0.cls == LoginCmd && r0.caller == Obj(c) && r0.result == NoneV
    requires r0.targetMsg == None && r0.secondMsg == None && r0.callerChildrenMsg == None
    ensures var f := Finish(u, r0, moved);
      && f.tree == u
      && f.run == Run([Sent(c, "You arrive into this world."), Sent(c, "You are not in a room!")], false)
      && f.value == NoneV
  {
    var r1 := RespondLogin(u, r0);
    RespondsByClass(u, r0);
    assert Finish(u, r0, moved) == SendAndPost(u, r1, moved);
    assert PartyParent(u, Obj(c)) == Ok(Nobody);
    assert CallerSiblings(u, r1) == Ok([]);
    SendCallerAndRoom(u, r1);
    ThenDone(SendIf(Obj(c), r1.callerMsg));
    assert Send(u, r1) == Run([Sent(c, "You arrive into this world.")], false);
    SendAndPostCases(u, r1, moved);
    LookNotInRoom(u, c);
    assert PostAct(u, r1, moved) == Effect(u, Run([Sent(c, "You are not in a room!")], false), BoolV(true));
  }

  /** MoveObjFromTo acts only when caller, target and second are all
      present; otherwise nothing moves and only the caller is told it
      failed, and the call returns None. */
  lemma {:induction false} MoveFromToNeedsAll(t: Tree, c: Id, target: Party, second: Party, moved: bool)
    requires !PartyTruthy(target) || !PartyTruthy(second)
    ensures var r := Fresh(MoveFromTo, Obj(c), target, second, Unset, Unset, Unset, Unset, None, Obj(c));
      var o := Call(t, r, moved);
      o.tree == t && o.run == Run([Sent(c, MoveFailed(t, r))], false) && o.value == NoneV
  {
    var r := Fresh(MoveFromTo, Obj(c), target, second, Unset, Unset, Unset, Unset, None, Obj(c));
    assert Act(t, r, moved) == Effect(t, Done, NoneV);
    var r0 := r.(result := NoneV);
    var r1 := RespondMoveFromTo(t, r0);
    assert Respond(t, r0) == Ok(r1);
    assert MoveFailed(t, r0) == MoveFailed(t, r);
    var told := Run([Sent(c, MoveFailed(t, r))], false);
    assert SendIf(r1.target, r1.targetMsg) == Done;
    assert SendIf(r1.second, r1.secondMsg) == Done;
    assert Send(t, r1) == Then(Then(Then(Then(told, Done), Done), Done), Done);
  }

  /** With all three present, MoveObjFromTo asks the target to move the
      caller to second, and what that returns decides the messages: the
      three parties on success, the caller alone on failure. */
  lemma {:induction false} MoveFromToMoves(t: Tree, c: Id, tg: Id, s: Id, moved: bool)
    ensures var r := Fresh(MoveFromTo, Obj(c), Obj(tg), Obj(s), Unset, Unset, Unset, Unset, None, Obj(c));
      var o := Call(t, r, moved);
      var mv := MovedObjTo(tg, Obj(c), Obj(s));
      && o.tree == t && o.value == BoolV(moved) && !o.run.raised
      && (moved ==> o.run.out == [mv, Sent(c, "You move from " + Str(t, tg) + " to " + Str(t, s) + "."),
                                  Sent(tg, Str(t, c) + " leaves you."), Sent(s, Str(t, c) + " enters you.")])
      && (!moved ==> o.run.out == [mv, Sent(c, MoveFailed(t, r))])
  {
    var r := Fresh(MoveFromTo, Obj(c), Obj(tg), Obj(s), Unset, Unset, Unset, Unset, None, Obj(c));
    var a := Run([MovedObjTo(tg, Obj(c), Obj(s))], false);
    assert Act(t, r, moved) == Effect(t, a, BoolV(moved));
    var r0 := r.(result := BoolV(moved));
    var r1 := RespondMoveFromTo(t, r0);
    assert Respond(t, r0) == Ok(r1);
    var x := SendIf(r1.caller, r1.callerMsg);
    var y := SendIf(r1.target, r1.targetMsg);
    var z := SendIf(r1.second, r1.secondMsg);
    assert Send(t, r1) == Then(Then(Then(Then(x, y), z), Done), Done);
    assert PostAct(t, r1, moved) == Effect(t, Done, BoolV(false));
  }

  /** MoveObjTo takes second from the caller's parent. On success the
      caller, the destination and the old parent are told; the
      target_children message it sets (the unformatted '%s enters.') is
      never sent. */
  lemma {:induction false} MoveToTellsBothEnds(t: Tree, c: Id, tg: Id, p: Id)
    requires Parent(t, c) == Some(p)
    ensures var r := Fresh(MoveTo, Obj(c), Obj(tg), Nobody, Unset, Unset, Unset, Unset, None, Obj(c));
      && New(t, r).Ok?
      && var o := Call(t, New(t, r).value, true);
      && o.tree == t && o.value == BoolV(true)
      && o.run == Run([MovedTo(c, Obj(tg)), Sent(c, "You move from " + Str(t, tg) + " to " + Str(t, p) + "."),
                       Sent(tg, Str(t, c) + " enters you."), Sent(p, Str(t, c) + " leaves you.")], false)
      && o.req.targetChildren == All && o.req.targetChildrenMsg == Some("%s enters.")
  {
    var r := Fresh(MoveTo, Obj(c), Obj(tg), Nobody, Unset, Unset, Unset, Unset, None, Obj(c)).(second := Obj(p));
    assert PartyParent(t, Obj(c)) == Ok(Obj(p));
    var a := Run([MovedTo(c, Obj(tg))], false);
    assert Act(t, r, true) == Effect(t, a, BoolV(true));
    var r0 := r.(result := BoolV(true));
    var r1 := RespondMoveTo(t, r0);
    assert Respond(t, r0) == Ok(r1);
    var x := SendIf(r1.caller, r1.callerMsg);
    var y := SendIf(r1.target, r1.targetMsg);
    var z := SendIf(r1.second, r1.secondMsg);
    assert Send(t, r1) == Then(Then(Then(Then(x, y), z), Done), Done);
    assert PostAct(t, r1, true) == Effect(t, Done, BoolV(false));
  }

  /** Go's setResponse with no exit to take still has the caller's
      siblings told that it leaves. */
  lemma GoNotice(t: Tree, c: Id, p: Id, trail: Option<string>)
    requires Parent(t, c) == Some(p)
    ensures var r0 := Fresh(GoCmd, Obj(c), Nobody, Obj(p), Unset, Unset, Unset, Unset, trail, Obj(c)).(result := BoolV(true));
      var r1 := RespondGo(t, r0);
      var rest := CleanList(t, Obj(p), [Obj(c), Nobody, Obj(p)]).value;
      && Respond(t, r0) == Ok(r1) && r1.cls == GoCmd && r1.target == Nobody
      && Send(t, r1) == DeliverAll(rest, Str(t, c) + " leaves " + Show(trail) + ".")
  {
    var r0 := Fresh(GoCmd, Obj(c), Nobody, Obj(p), Unset, Unset, Unset, Unset, trail, Obj(c)).(result := BoolV(true));
    var r1 := RespondGo(t, r0);
    RespondsByClass(t, r0);
    SendCallerAndRoom(t, r1);
    assert CallerSiblings(t, r1) == CleanList(t, Obj(p), [Obj(c), Nobody, Obj(p)]);
    ThenDone(Fan(CallerSiblings(t, r1), r1.callerSiblingsMsg.value));
  }

  /** Go always announces the departure to the room, even with no exit to
      take (no target): then nothing moves, and the call still returns
      True. */
  lemma {:induction false} GoAnnouncesWithoutExit(t: Tree, c: Id, p: Id, trail: Option<string>, moved: bool)
    requires Parent(t, c) == Some(p)
    ensures var r := Fresh(GoCmd, Obj(c), Nobody, Nobody, Unset, Unset, Unset, Unset, trail, Obj(c));
      var rest := CleanList(t, Obj(p), [Obj(c), Nobody, Obj(p)]).value;
      && New(t, r).Ok?
      && var o := Call(t, New(t, r).value, moved);
      && o.tree == t && o.value == BoolV(true)
      && o.run == DeliverAll(rest, Str(t, c) + " leaves " + Show(trail) + ".")
      && !o.run.raised
  {
    var r := Fresh(GoCmd, Obj(c), Nobody, Obj(p), Unset, Unset, Unset, Unset, trail, Obj(c));
    assert PartyParent(t, Obj(c)) == Ok(Obj(p));
    assert New(t, Fresh(GoCmd, Obj(c), Nobody, Nobody, Unset, Unset, Unset, Unset, trail, Obj(c))) == Ok(r);
    var rest := CleanList(t, Obj(p), [Obj(c), Nobody, Obj(p)]).value;
    var r1 := RespondGo(t, r.(result := BoolV(true)));
    GoNotice(t, c, p, trail);
    assert Act(t, r, moved) == Effect(t, Done, BoolV(true));
    ActionCall(t, r, moved, BoolV(true), r1);
    CleanListObjects(t, p, [Obj(c), Nobody, Obj(p)]);
    DeliverAllToObjects(rest, Str(t, c) + " leaves " + Show(trail) + ".");
    ThenDone(DeliverAll(rest, Str(t, c) + " leaves " + Show(trail) + "."));
    assert PostAct(t, r1, moved) == Effect(t, Done, NoneV);
  }

  /** Help with a topic answers the caller alone, with the topic's doc or
      the apology. */
  lemma {:induction false} HelpAnswersTopic(t: Tree, c: Id, topic: string, moved: bool)
    requires topic != ""
    ensures var o := Call(t, Typed(HelpCmd, c, Some(topic)), moved);
      o.tree == t && o.run == Run([Sent(c, TopicText(HelpEntries(t, c), topic))], false) && o.value == BoolV(true)
  {
    var r := Typed(HelpCmd, c, Some(topic));
    var msg := TopicText(HelpEntries(t, c), topic);
    assert RespondHelp(t, r) == Ok(r.(callerMsg := Some(msg)));
    assert Respond(t, r) == Ok(r.(callerMsg := Some(msg)));
    assert msg != "" by {
      match DocOf(HelpEntries(t, c), topic)
      case Some(Some(d)) =>
      case _ =>
    }
    var told := Run([Sent(c, msg)], false);
    assert Send(t, r.(callerMsg := Some(msg))) == Then(Then(Then(Then(told, Done), Done), Done), Done);
  }

  /** Help without a topic answers the caller alone with the usage text
      and the listing of the caller's commands. */
  lemma {:induction false} HelpListsCommands(t: Tree, c: Id, moved: bool)
    ensures var o := Call(t, Typed(HelpCmd, c, None), moved);
      o.tree == t && o.run == Run([Sent(c, Usage + Listing(HelpEntries(t, c)))], false) && o.value == BoolV(true)
  {
    var r := Typed(HelpCmd, c, None);
    var msg := Usage + Listing(HelpEntries(t, c));
    var r1 := r.(callerMsg := Some(msg));
    RespondsByClass(t, r);
    assert RespondHelp(t, r) == Ok(r1);
    NotifyCall(t, r, moved);
    NotifiedSends(t, r, r1);
    SendCallerOnly(t, r1);
    assert |msg| >= |Usage| > 0;
  }

  /** ObjAddNotify and ObjRemoveNotify: the holder, then the object, then
      the holder's other children are told; the object is not among them. */
  lemma {:induction false} NotifyTellsHolder(t: Tree, h: Id, o: Id, adding: bool, moved: bool)
    requires multiset(Objects(Children(t, h)))[Obj(o)] <= 1
    ensures var r := Fresh(if adding then AddNotify else RemoveNotify, Obj(h), Obj(o), Nobody,
                           Unset, Unset, Unset, Unset, None, Obj(h));
      var rest := CleanList(t, Obj(h), [Obj(h), Obj(o), Nobody]).value;
      var out := Call(t, r, moved);
      && out.tree == t && out.value == BoolV(true)
      && (adding ==> out.run == Then(Run([Sent(h, Str(t, o) + " appears inside you."),
                                          Sent(o, "You appear inside " + Str(t, h) + ".")], false),
                                     DeliverAll(rest, Str(t, o) + " appears.")))
      && (!adding ==> out.run == Then(Run([Sent(h, Str(t, o) + " vanishes from you."),
                                           Sent(o, "You vanish from " + Str(t, h) + ".")], false),
                                      DeliverAll(rest, Str(t, o) + " vanishes.")))
      && Obj(o) !in rest
  {
    var r := Fresh(if adding then AddNotify else RemoveNotify, Obj(h), Obj(o), Nobody,
                   Unset, Unset, Unset, Unset, None, Obj(h));
    NotifySends(t, h, o, adding, moved);
    var r1 := RespondNotify(t, r, adding);
    if adding {
      assert r1.callerMsg.value == Str(t, o) + " appears inside you.";
    } else {
      assert r1.callerMsg.value == Str(t, o) + " vanishes from you.";
    }
  }

  /** The order of NotifyTellsHolder, for whatever messages setResponse
      chose. */
  lemma {:induction false} NotifySends(t: Tree, h: Id, o: Id, adding: bool, moved: bool)
    requires multiset(Objects(Children(t, h)))[Obj(o)] <= 1
    ensures var r := Fresh(if adding then AddNotify else RemoveNotify, Obj(h), Obj(o), Nobody,
                           Unset, Unset, Unset, Unset, None, Obj(h));
      var r1 := RespondNotify(t, r, adding);
      var rest := CleanList(t, Obj(h), [Obj(h), Obj(o), Nobody]).value;
      var out := Call(t, r, moved);
      && out.tree == t && out.value == BoolV(true)
      && out.run == Then(Run([Sent(h, r1.callerMsg.value), Sent(o, r1.targetMsg.value)], false),
                         DeliverAll(rest, r1.callerChildrenMsg.value))
      && Obj(o) !in rest
  {
    var r := Fresh(if adding then AddNotify else RemoveNotify, Obj(h), Obj(o), Nobody,
                   Unset, Unset, Unset, Unset, None, Obj(h));
    var rest := CleanList(t, Obj(h), [Obj(h), Obj(o), Nobody]).value;
    var r1 := RespondNotify(t, r, adding);
    assert Respond(t, r) == Ok(r1);
    assert CallerChildren(t, r1) == Ok(rest);
    var x := SendIf(r1.caller, r1.callerMsg);
    var y := SendIf(r1.target, r1.targetMsg);
    var told := Then(x, y);
    assert told == Run([Sent(h, r1.callerMsg.value), Sent(o, r1.targetMsg.value)], false);
    assert Notified(t, r) == Send(t, r1);
    assert Send(t, r1) == Then(Then(Then(told, Done), Done), DeliverAll(rest, r1.callerChildrenMsg.value));
    ThenDone(told);
    NotifyCall(t, r, moved);
    CleanListSpec(t, h, [Obj(h), Obj(o), Nobody]);
  }

  // ---------------------------------------------------------------------
  // The same, on the request object and the world

  /** _Look._look, appending one line per item as the source does. */
  method LookString(t: Tree, room: Id, contents: seq<Party>) returns (s: string)
    ensures s == Render(t, room, contents)
  {
    s := Header(t, room) + ExitLine(Exits(t, room));
    var i := 0;
    while i < |contents|
      invariant 0 <= i <= |contents|
      invariant s == Render(t, room, contents[..i])
    {
      assert contents[..i + 1][..i] == contents[..i];
      s := s + " " + PartyStr(t, contents[i]) + "\r\n";
      i := i + 1;
    }
    assert contents[..i] == contents;
  }

  /** Help's listing: the heading, one bullet per command, joined. */
  method ListingString(entries: seq<HelpEntry>) returns (s: string)
    ensures s == Listing(entries)
  {
    var f := [ListingHead];
    var i := 0;
    while i < |entries|
      invariant 0 <= i <= |entries|
      invariant f == [ListingHead] + Bullets(entries[..i])
    {
      assert entries[..i + 1][..i] == entries[..i];
      f := f + ["      - " + entries[i].verb];
      i := i + 1;
    }
    assert entries[..i] == entries;
    s := Join("\r\n", f);
  }

  /** ObjAddNotify.setResponse and ObjRemoveNotify.setResponse. */
  method SetNotify(n: Notify, t: Tree, adding: bool)
    modifies n
    ensures n.Snapshot() == RespondNotify(t, old(n.Snapshot()), adding)
  {
    var tg := PartyStr(t, n.target);
    var cl := PartyStr(t, n.caller);
    n.callerChildren := All;
    if adding {
      n.callerMsg := Some(tg + " appears inside you.");
      n.targetMsg := Some("You appear inside " + cl + ".");
      n.callerChildrenMsg := Some(tg + " appears.");
    } else {
      n.callerMsg := Some(tg + " vanishes from you.");
      n.targetMsg := Some("You vanish from " + cl + ".");
      n.callerChildrenMsg := Some(tg + " vanishes.");
    }
  }

  /** MoveObjFromTo.setResponse. */
  method SetMoveFromTo(n: Notify, t: Tree)
    modifies n
    ensures n.Snapshot() == RespondMoveFromTo(t, old(n.Snapshot()))
  {
    if Truthy(n.result) {
      n.callerMsg := Some("You move from " + PartyStr(t, n.target) + " to " + PartyStr(t, n.second) + ".");
      n.targetMsg := Some(PartyStr(t, n.caller) + " leaves you.");
      n.secondMsg := Some(PartyStr(t, n.caller) + " enters you.");
    } else {
      n.callerMsg := Some(MoveFailed(t, n.Snapshot()));
    }
  }

  /** MoveObjTo.setResponse. */
  method SetMoveTo(n: Notify, t: Tree)
    modifies n
    ensures n.Snapshot() == RespondMoveTo(t, old(n.Snapshot()))
  {
    var r := n.Snapshot();
    if Truthy(n.result) {
      var caller, target, second := PartyStr(t, n.caller), PartyStr(t, n.target), PartyStr(t, n.second);
      n.callerMsg := Some("You move from " + target + " to " + second + ".");
      n.targetMsg := Some(caller + " enters you.");
      n.secondMsg := Some(caller + " leaves you.");
      n.targetChildren := All;
      n.targetChildrenMsg := Some("%s enters.");
      assert n.Snapshot() == r.(callerMsg := n.callerMsg, targetMsg := n.targetMsg, secondMsg := n.secondMsg,
                                targetChildren := All, targetChildrenMsg := n.targetChildrenMsg);
    } else {
      n.callerMsg := Some(MoveFailed(t, r));
      assert n.Snapshot() == r.(callerMsg := n.callerMsg);
    }
  }

  /** Go.setResponse. */
  method SetGo(n: Notify, t: Tree)
    modifies n
    ensures n.Snapshot() == RespondGo(t, old(n.Snapshot()))
  {
    var caller := PartyStr(t, n.caller);
    n.callerSiblings := All;
    if Truthy(n.result) {
      n.callerSiblingsMsg := Some(caller + " leaves " + Show(n.trail) + ".");
      n.targetChildren := All;
      n.targetChildrenMsg := Some(caller + " enters.");
    } else if Said(n.trail) {
      n.callerMsg := Some("There is no " + n.trail.value + " exit.");
    } else {
      n.callerMsg := Some("Where do you want to go?");
    }
  }

  /** Say.setResponse. */
  method SetSay(n: Notify, t: Tree)
    modifies n
    ensures n.Snapshot() == RespondSay(t, old(n.Snapshot()))
  {
    n.callerSiblings := All;
    if Said(n.trail) {
      n.callerMsg := Some("You say, \"" + n.trail.value + "\"");
      n.callerSiblingsMsg := Some(PartyStr(t, n.caller) + " says, \"" + n.trail.value + "\"");
    } else {
      n.callerMsg := Some(Actions.SilentSay);
    }
  }

  /** Emote.setResponse. */
  method SetEmote(n: Notify, t: Tree)
    modifies n
    ensures n.Snapshot() == RespondEmote(t, old(n.Snapshot()))
  {
    n.callerSiblings := All;
    if Said(n.trail) {
      var line := EmoteLine(t, n.Snapshot());
      n.callerMsg := Some(line);
      n.callerSiblingsMsg := Some(line);
    } else {
      n.callerMsg := Some("What do you want to emote?");
    }
  }

  /** Quit.setResponse. */
  method SetQuit(n: Notify, t: Tree)
    modifies n
    ensures n.Snapshot() == RespondQuit(t, old(n.Snapshot()))
  {
    n.callerSiblings := All;
    n.condition := !Said(n.trail);
    if Said(n.trail) {
      n.callerMsg := Some("Quit what?");
    } else {
      n.callerSiblingsMsg := Some(PartyStr(t, n.caller) + " has left this world.");
    }
  }

  /** Login.setResponse. */
  method SetLogin(n: Notify, t: Tree)
    modifies n
    ensures n.Snapshot() == RespondLogin(t, old(n.Snapshot()))
  {
    n.callerSiblings := All;
    n.callerSiblingsMsg := Some(PartyStr(t, n.caller) + " arrives into this world.");
    n.callerMsg := Some("You arrive into this world.");
  }

  /** Help.setResponse: without a topic the usage text is stored before
      the loop over `caller._cmds`, which is where a caller that is not an
      object raises. */
  method SetHelp(n: Notify, t: Tree) returns (raised: bool)
    modifies n
    ensures raised == RespondHelp(t, old(n.Snapshot())).Raised?
    ensures !raised ==> n.Snapshot() == RespondHelp(t, old(n.Snapshot())).value
  {
    if Said(n.trail) {
      if !n.caller.Obj? {
        return true;
      }
      n.callerMsg := Some(TopicText(HelpEntries(t, n.caller.id), n.trail.value));
    } else {
      n.callerMsg := Some(Usage);
      if !n.caller.Obj? {
        return true;
      }
      var listing := ListingString(HelpEntries(t, n.caller.id));
      n.callerMsg := Some(Usage + listing);
    }
    return false;
  }

  /** Look.setResponse. */
  method SetLook(n: Notify, t: Tree) returns (raised: bool)
    modifies n
    ensures raised == RespondLook(t, old(n.Snapshot())).Raised?
    ensures !raised ==> n.Snapshot() == RespondLook(t, old(n.Snapshot())).value
  {
    n.callerSiblings := All;
    var room := PartyParent(t, n.caller);
    if room.Raised? {
      return true;
    }
    if !room.value.Obj? {
      n.callerMsg := Some("You are not in a room!");
      return false;
    }
    var cs := n.CallerSiblingsNow(t);
    if cs.Raised? {
      return true;
    }
    var text := LookString(t, room.value.id, cs.value);
    n.callerMsg := Some(text);
    return false;
  }

  /** LookFromTarget.setResponse. */
  method SetLookFromTarget(n: Notify, t: Tree) returns (raised: bool)
    modifies n
    ensures raised == RespondLookFromTarget(t, old(n.Snapshot())).Raised?
    ensures !raised ==> n.Snapshot() == RespondLookFromTarget(t, old(n.Snapshot())).value
  {
    n.targetSiblings := All;
    var room := PartyParent(t, n.target);
    if room.Raised? {
      return true;
    }
    if !room.value.Obj? {
      n.callerMsg := Some("You are not in a room!");
      return false;
    }
    var cs := n.GetCleanChildren(t, n.targetSiblings, room.value, [n.target, n.second]);
    if cs.Raised? {
      return true;
    }
    var text := LookString(t, room.value.id, cs.value);
    n.callerMsg := Some(text);
    return false;
  }

  /** LookFromRoom.setResponse. */
  method SetLookFromRoom(n: Notify, t: Tree) returns (raised: bool)
    modifies n
    ensures raised == RespondLookFromRoom(t, old(n.Snapshot())).Raised?
    ensures !raised ==> n.Snapshot() == RespondLookFromRoom(t, old(n.Snapshot())).value
  {
    n.callerChildren := All;
    var cs := n.GetCleanChildren(t, n.callerChildren, n.caller, [n.caller, n.target, n.second]);
    if cs.Raised? || !n.caller.Obj? {
      return true;
    }
    var text := LookString(t, n.caller.id, cs.value);
    n.targetMsg := Some(text);
    return false;
  }

  /** setResponse, by the class of the request. */
  method SetResponse(n: Notify, t: Tree) returns (raised: bool)
    modifies n
    ensures raised == Respond(t, old(n.Snapshot())).Raised?
    ensures !raised ==> n.Snapshot() == Respond(t, old(n.Snapshot())).value
  {
    raised := false;
    match n.cls {
      case BaseNotify =>
      case BaseAction =>
      case AddNotify => SetNotify(n, t, true);
      case RemoveNotify => SetNotify(n, t, false);
      case MoveFromTo => SetMoveFromTo(n, t);
      case MoveTo => SetMoveTo(n, t);
      case GoCmd => SetGo(n, t);
      case SayCmd => SetSay(n, t);
      case EmoteCmd => SetEmote(n, t);
      case QuitCmd => SetQuit(n, t);
      case LoginCmd => SetLogin(n, t);
      case HelpCmd => raised := SetHelp(n, t);
      case LookCmd => raised := SetLook(n, t);
      case LookFromTargetCmd => raised := SetLookFromTarget(n, t);
      case LookFromRoomCmd => raised := SetLookFromRoom(n, t);
    }
  }

  /** Construction: MudNotify.__init__, then for MoveObjTo and Go the
      caller's parent as second. */
  method Create(t: Tree, r: Request) returns (n: Notify, raised: bool)
    ensures fresh(n)
    ensures raised == New(t, r).Raised?
    ensures !raised ==> n.Snapshot() == New(t, r).value
  {
    n := new Notify.Init(r);
    raised := false;
    if r.cls.MoveTo? || r.cls.GoCmd? {
      var p := PartyParent(t, n.caller);
      if p.Raised? {
        return n, true;
      }
      n.second := p.value;
    }
  }

  /** `Look(caller)()`. */
  method LookNow(w: World, caller: Party) returns (raised: bool)
    modifies w`events
    ensures w.events == old(w.events) + LookRun(w.tree, caller).out
    ensures raised == LookRun(w.tree, caller).raised
  {
    var look := new Notify.Init(CallerOnly(LookCmd, caller));
    raised := SetLook(look, w.tree);
    if raised {
      return;
    }
    raised := look.SendAll(w);
  }

  /** `self.add(obj)` on the two slots, as Login's action calls it. */
  method AddNow(w: World, self: Party, obj: Party) returns (raised: bool, value: Value)
    modifies w
    ensures var e := AddEffect(old(w.tree), self, obj);
      w.tree == e.tree && w.events == old(w.events) + e.run.out && raised == e.run.raised && value == e.value
  {
    value := NoneV;
    if !self.Obj? {
      return true, value;
    }
    if obj.Obj? {
      w.DispatchAdd(self.id, obj.id);
      return false, value;
    }
    if KindOf(w.tree, self.id) == Room {
      return true, value;
    }
    w.MsgChildren(self.id, PartyStr(w.tree, obj) + " enters.", [], []);
    return true, value;
  }

  /** The quitting part of Quit.post_action. */
  method QuitNow(w: World, caller: Party) returns (raised: bool, value: Value)
    modifies w
    ensures var e := QuitEffect(old(w.tree), caller);
      w.tree == e.tree && w.events == old(w.events) + e.run.out && raised == e.run.raised && value == e.value
  {
    if !caller.Obj? || !HasSoulAttr(w.tree, caller.id) {
      return true, NoneV;
    }
    if caller.id !in w.tree.soul {
      return false, BoolV(true);
    }
    w.events := w.events + [QuitSoul(w.tree.soul[caller.id])];
    var p := Parent(w.tree, caller.id);
    if p.None? {
      return true, NoneV;
    }
    w.Remove(p.value, caller.id);
    return false, BoolV(true);
  }

  /** `action()`, by the class of the request. */
  method Action(n: Notify, w: World, moved: bool) returns (raised: bool, value: Value)
    modifies w
    ensures var a := Act(old(w.tree), n.Snapshot(), moved);
      w.tree == a.tree && w.events == old(w.events) + a.run.out && raised == a.run.raised && value == a.value
  {
    raised, value := false, BoolV(false);
    match n.cls {
      case MoveFromTo =>
        if !(PartyTruthy(n.caller) && PartyTruthy(n.target) && PartyTruthy(n.second)) {
          value := NoneV;
        } else if !n.target.Obj? {
          raised, value := true, NoneV;
        } else {
          w.events := w.events + [MovedObjTo(n.target.id, n.caller, n.second)];
          value := BoolV(moved);
        }
      case MoveTo =>
        if !(PartyTruthy(n.caller) && PartyTruthy(n.target)) {
          value := NoneV;
        } else if !n.caller.Obj? {
          raised, value := true, NoneV;
        } else {
          w.events := w.events + [MovedTo(n.caller.id, n.target)];
          value := BoolV(moved);
        }
      case GoCmd => value := BoolV(true);
      case LoginCmd => raised, value := AddNow(w, n.target, n.caller);
      case _ =>
    }
  }

  /** `post_action()`, by the class of the request. */
  method PostAction(n: Notify, w: World, moved: bool) returns (raised: bool, value: Value)
    modifies w
    ensures var p := PostAct(old(w.tree), n.Snapshot(), moved);
      w.tree == p.tree && w.events == old(w.events) + p.run.out && raised == p.run.raised && value == p.value
  {
    raised, value := false, BoolV(false);
    match n.cls {
      case GoCmd =>
        if !(PartyTruthy(n.caller) && PartyTruthy(n.target)) {
          value := NoneV;
        } else if !n.caller.Obj? {
          raised, value := true, NoneV;
        } else {
          ghost var e0 := w.events;
          w.events := w.events + [MovedTo(n.caller.id, n.target)];
          if moved {
            raised := LookNow(w, n.caller);
            AppendAssociative(e0, [MovedTo(n.caller.id, n.target)], LookRun(w.tree, n.caller).out);
          }
          value := BoolV(moved);
        }
      case QuitCmd =>
        if n.condition {
          raised, value := QuitNow(w, n.caller);
        } else {
          value := BoolV(true);
        }
      case LoginCmd =>
        raised := LookNow(w, n.caller);
        value := BoolV(true);
      case _ =>
    }
  }

  /** MudNotify.__call__ and MudAction.__call__ on the request object:
      the tree, the effects and the returned value are those of `Call`,
      and a call that returns leaves the request as `Call` describes. */
  method CallNow(n: Notify, w: World, moved: bool) returns (raised: bool, value: Value)
    modifies n, w
    ensures var o := Call(old(w.tree), old(n.Snapshot()), moved);
      w.tree == o.tree && w.events == old(w.events) + o.run.out && raised == o.run.raised
      && (!raised ==> value == o.value && n.Snapshot() == o.req)
  {
    if !IsAction(n.cls) {
      raised, value := NotifyNow(n, w);
    } else {
      raised, value := ActionNow(n, w, moved);
    }
  }

  /** MudNotify.__call__: setResponse, _send, True. */
  method NotifyNow(n: Notify, w: World) returns (raised: bool, value: Value)
    requires !IsAction(n.cls)
    modifies n, w`events
    ensures var o := Call(w.tree, old(n.Snapshot()), false);
      w.events == old(w.events) + o.run.out && raised == o.run.raised
      && (!raised ==> value == o.value && n.Snapshot() == o.req)
  {
    value := NoneV;
    raised := SetResponse(n, w.tree);
    if raised {
      return;
    }
    raised := n.SendAll(w);
    value := BoolV(true);
  }

  /** MudAction.__call__ in two parts: action(), and, unless it raised,
      the rest on the tree it left. */
  lemma ActionCallCases(t: Tree, r: Request, moved: bool)
    requires IsAction(r.cls)
    ensures var a := Act(t, r, moved);
      var o := Call(t, r, moved);
      a.run.raised ==> o.tree == a.tree && o.run == a.run
    ensures var a := Act(t, r, moved);
      var f := Finish(a.tree, r.(result := a.value), moved);
      var o := Call(t, r, moved);
      !a.run.raised ==> && o.tree == f.tree && o.run.out == a.run.out + f.run.out && o.run.raised == f.run.raised
                        && o.value == f.value && o.req == f.req
  {
  }

  /** MudAction.__call__: result = action(), then the rest. */
  method ActionNow(n: Notify, w: World, moved: bool) returns (raised: bool, value: Value)
    requires IsAction(n.cls)
    modifies n, w
    ensures var o := Call(old(w.tree), old(n.Snapshot()), moved);
      w.tree == o.tree && w.events == old(w.events) + o.run.out && raised == o.run.raised
      && (!raised ==> value == o.value && n.Snapshot() == o.req)
  {
    ghost var t, r, e0 := w.tree, n.Snapshot(), w.events;
    ActionCallCases(t, r, moved);
    var v;
    raised, v := Action(n, w, moved);
    value := NoneV;
    if raised {
      return;
    }
    n.result := v;
    ghost var a := Act(t, r, moved);
    raised, value := FinishNow(n, w, moved);
    AppendAssociative(e0, a.run.out, Finish(a.tree, r.(result := a.value), moved).run.out);
  }

  /** setResponse, _send and post_action, once `result` is stored. */
  method FinishNow(n: Notify, w: World, moved: bool) returns (raised: bool, value: Value)
    modifies n, w
    ensures var f := Finish(old(w.tree), old(n.Snapshot()), moved);
      w.tree == f.tree && w.events == old(w.events) + f.run.out && raised == f.run.raised
      && (!raised ==> value == f.value && n.Snapshot() == f.req)
  {
    ghost var t := w.tree;
    ghost var r0 := n.Snapshot();
    value := NoneV;
    raised := SetResponse(n, w.tree);
    if raised {
      assert Finish(t, r0, moved) == Outcome(t, Run([], true), NoneV, r0);
      return;
    }
    assert Respond(t, r0) == Ok(n.Snapshot());
    raised, value := SendAndPostNow(n, w, moved);
  }

  /** _send, then post_action: what each of the two does, and whether the
      second runs at all. */
  lemma SendAndPostCases(t: Tree, r1: Request, moved: bool)
    ensures var s := Send(t, r1);
      var f := SendAndPost(t, r1, moved);
      s.raised ==> f.tree == t && f.run == s
    ensures var s := Send(t, r1);
      var p := PostAct(t, r1, moved);
      var f := SendAndPost(t, r1, moved);
      !s.raised ==> && f.tree == p.tree && f.run.out == s.out + p.run.out && f.run.raised == p.run.raised
                    && f.value == (if p.run.raised then NoneV else r1.result)
  {
  }

  /** _send and post_action, once setResponse has run. */
  method SendAndPostNow(n: Notify, w: World, moved: bool) returns (raised: bool, value: Value)
    modifies w
    ensures var f := SendAndPost(old(w.tree), n.Snapshot(), moved);
      w.tree == f.tree && w.events == old(w.events) + f.run.out && raised == f.run.raised
      && (!raised ==> value == f.value)
  {
    ghost var t, r, e0 := w.tree, n.Snapshot(), w.events;
    SendAndPostCases(t, r, moved);
    value := NoneV;
    raised := n.SendAll(w);
    if raised {
      return;
    }
    var pv;
    raised, pv := PostAction(n, w, moved);
    AppendAssociative(e0, Send(t, r).out, PostAct(t, r, moved).run.out);
    value := if raised then NoneV else n.result;
  }
}
