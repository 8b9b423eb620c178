/** MudActions.py: the first action protocol, the one the command tables of
    MudObjects.py hold. An action is built with a caller, an optional
    target and second, two relationship parameters and the trailing text;
    its constructor runs setResponse, which fixes the messages; `call` then
    runs the (empty) action and sends the messages. */
module Actions {
  import opened Base
  import opened MudObjects

  /** The attributes of an action object. */
  datatype Request = Request(
    cls: ActionClass, trail: Option<string>,
    caller: Party, target: Party, second: Party,
    siblings: Param, children: Param,
    callerMsg: Option<string>, targetMsg: Option<string>, secondMsg: Option<string>,
    siblingsMsg: Option<string>, childrenMsg: Option<string>,
    sibsMsg: Option<string>)  // set by MudActionDefault only

  /** The attributes the constructor assigns before it calls setResponse:
      every message slot None. */
  function Fresh(cls: ActionClass, caller: Party, target: Party, second: Party,
                 siblings: Param, children: Param, trail: Option<string>): Request
  {
    Request(cls, trail, caller, target, second, siblings, children, None, None, None, None, None, None)
  }

  /** _get_clean_children: a derived list is the anchor's children, copied,
      less caller, target and second; an explicit list is used as given. */
  function CleanChildren(t: Tree, param: Param, anchor: Party, r: Request): Result<seq<Party>>
  {
    match param
    case All => CleanList(t, anchor, [r.caller, r.target, r.second])
    case Given(ps) => Ok(ps)
    case Unset => Ok([])
  }

  /** The caller_children property: anchored on the caller. */
  function CallerChildren(t: Tree, r: Request): Result<seq<Party>>
  {
    CleanChildren(t, r.children, r.caller, r)
  }

  /** The caller_siblings property: anchored on `caller._parent`, which is
      evaluated (and may raise) whatever the parameter is. */
  function CallerSiblings(t: Tree, r: Request): Result<seq<Party>>
  {
    match PartyParent(t, r.caller)
    case Raised => Raised
    case Ok(p) => CleanChildren(t, r.siblings, p, r)
  }

  /** The three cases of _get_clean_children: an explicit list comes back
      unchanged (not cleaned), anything but True gives nothing, and True over
      an object gives its children less one copy of each of caller, target
      and second, whatever order the set of them is visited in. */
  lemma {:induction false} CleanChildrenCases(t: Tree, param: Param, anchor: Party, r: Request)
    ensures param.Given? ==> CleanChildren(t, param, anchor, r) == Ok(param.ps)
    ensures param.Unset? ==> CleanChildren(t, param, anchor, r) == Ok([])
    ensures param.All? && !PartyTruthy(anchor) ==> CleanChildren(t, param, anchor, r) == Ok([])
    ensures param.All? && anchor.Obj? ==>
      var kids := Objects(Children(t, anchor.id));
      && CleanChildren(t, param, anchor, r).Ok?
      && multiset(CleanChildren(t, param, anchor, r).value)
         == multiset(kids) - multiset(Distinct([r.caller, r.target, r.second]))
      && (forall p :: p in [r.caller, r.target, r.second] && multiset(kids)[p] <= 1
            ==> p !in CleanChildren(t, param, anchor, r).value)
  {
    if param.All? && anchor.Obj? {
      CleanListSpec(t, anchor.id, [r.caller, r.target, r.second]);
    }
  }

  const NoExits := "        There are no obvious exits.\r\n\r\n"

  /** _look: the room's name and description, the fixed no-exits line, and
      one line per item. */
  function LookText(t: Tree, room: Id, contents: seq<Party>): string
  {
    Str(t, room) + "\r\n\r\n" + Longdesc(t, room) + "\r\n" + NoExits + Contents(t, contents)
  }

  const SilentSay := "Keeping what you want to say to yourself is detrimental to your health."

  /** MudActionDefault.setResponse. */
  function RespondDefault(t: Tree, r: Request): Request
  {
    r.(callerMsg := Some("You do MudAction with " + PartyStr(t, r.second) + " on " + PartyStr(t, r.target)),
       targetMsg := Some(PartyStr(t, r.caller) + " does MudAction with " + PartyStr(t, r.second) + " on you"),
       secondMsg := Some(PartyStr(t, r.caller) + " does MudAction with you on " + PartyStr(t, r.target)),
       sibsMsg := Some(PartyStr(t, r.caller) + " does MudAction with " + PartyStr(t, r.second)
                       + " on " + PartyStr(t, r.target)))
  }

  /** ObjAddNotify.setResponse and ObjRemoveNotify.setResponse. */
  function RespondNotify(t: Tree, r: Request, adding: bool): Request
  {
    if adding then
      r.(children := All,
         callerMsg := Some(PartyStr(t, r.target) + " enters you."),
         targetMsg := Some("You enter " + PartyStr(t, r.caller) + "."),
         childrenMsg := Some(PartyStr(t, r.target) + " enters."))
    else
      r.(children := All,
         callerMsg := Some(PartyStr(t, r.target) + " leaves you."),
         targetMsg := Some("You leave " + PartyStr(t, r.caller) + "."),
         childrenMsg := Some(PartyStr(t, r.target) + " leaves."))
  }

  /** Say.setResponse. */
  function RespondSay(t: Tree, r: Request): Request
  {
    if Said(r.trail) then
      r.(siblings := All,
         callerMsg := Some("You say, \"" + r.trail.value + "\""),
         siblingsMsg := Some(PartyStr(t, r.caller) + " says, \"" + r.trail.value + "\""))
    else
      r.(siblings := All, callerMsg := Some(SilentSay))
  }

  /** Look.setResponse: raises when the caller has no `_parent`. */
  function RespondLook(t: Tree, r: Request): Result<Request>
  {
    var r1 := r.(siblings := All);
    match PartyParent(t, r.caller)
    case Raised => Raised
    case Ok(room) =>
      if !room.Obj? then Ok(r1.(callerMsg := Some("You are not in a room!")))
      else (
        match CallerSiblings(t, r1)
        case Raised => Raised
        case Ok(cs) => Ok(r1.(callerMsg := Some(LookText(t, room.id, cs)))))
  }

  /** LookFromRoom.setResponse: raises when the caller is not an object. */
  function RespondLookFromRoom(t: Tree, r: Request): Result<Request>
  {
    var r1 := r.(children := All);
    match CallerChildren(t, r1)
    case Raised => Raised
    case Ok(cs) => if r.caller.Obj? then Ok(r1.(targetMsg := Some(LookText(t, r.caller.id, cs)))) else Raised
  }

  /** setResponse of each class. */
  function Respond(t: Tree, r: Request): Result<Request>
  {
    match r.cls
    case MudAction => Ok(r)
    case MudActionDefault => Ok(RespondDefault(t, r))
    case ObjAddNotify => Ok(RespondNotify(t, r, true))
    case ObjRemoveNotify => Ok(RespondNotify(t, r, false))
    case Say => Ok(RespondSay(t, r))
    case Look => RespondLook(t, r)
    case LookFromRoom => RespondLookFromRoom(t, r)
  }

  /** The constructor: the assignments, then setResponse. */
  function New(t: Tree, cls: ActionClass, caller: Party, target: Party, second: Party,
               siblings: Param, children: Param, trail: Option<string>): Result<Request>
  {
    Respond(t, Fresh(cls, caller, target, second, siblings, children, trail))
  }

  /** _send: caller, target, second, then the caller's siblings, then the
      caller's children. sibsMsg is never read. */
  function Send(t: Tree, r: Request): Run
  {
    Then(Then(Then(Then(
      SendIf(r.caller, r.callerMsg),
      SendIf(r.target, r.targetMsg)),
      SendIf(r.second, r.secondMsg)),
      if Said(r.siblingsMsg) then Fan(CallerSiblings(t, r), r.siblingsMsg.value) else Done),
      if Said(r.childrenMsg) then Fan(CallerChildren(t, r), r.childrenMsg.value) else Done)
  }

  /** The five steps of _send, one by one. */
  lemma SendParts(t: Tree, r: Request) returns (a: Run, b: Run, c: Run, d: Run, e: Run)
    ensures a == SendIf(r.caller, r.callerMsg) && b == SendIf(r.target, r.targetMsg)
    ensures c == SendIf(r.second, r.secondMsg)
    ensures d == (if Said(r.siblingsMsg) then Fan(CallerSiblings(t, r), r.siblingsMsg.value) else Done)
    ensures e == (if Said(r.childrenMsg) then Fan(CallerChildren(t, r), r.childrenMsg.value) else Done)
    ensures Send(t, r) == Then(Then(Then(Then(a, b), c), d), e)
  {
    a, b, c := SendIf(r.caller, r.callerMsg), SendIf(r.target, r.targetMsg), SendIf(r.second, r.secondMsg);
    d := if Said(r.siblingsMsg) then Fan(CallerSiblings(t, r), r.siblingsMsg.value) else Done;
    e := if Said(r.childrenMsg) then Fan(CallerChildren(t, r), r.childrenMsg.value) else Done;
  }

  /** A request that speaks only to the caller and to its siblings sends
      the caller's message first, then the siblings'. */
  lemma SendCallerAndRoom(t: Tree, r: Request)
    requires r.targetMsg == None && r.secondMsg == None && r.childrenMsg == None
    ensures Send(t, r) == Then(SendIf(r.caller, r.callerMsg),
                               if Said(r.siblingsMsg) then Fan(CallerSiblings(t, r), r.siblingsMsg.value) else Done)
  {
    ThenDone(SendIf(r.caller, r.callerMsg));
    ThenDone(Then(SendIf(r.caller, r.callerMsg),
                  if Said(r.siblingsMsg) then Fan(CallerSiblings(t, r), r.siblingsMsg.value) else Done));
  }

  /** A request that speaks to caller, target and the caller's children
      sends in that order. */
  lemma SendPairAndChildren(t: Tree, r: Request)
    requires r.secondMsg == None && r.siblingsMsg == None
    ensures Send(t, r) == Then(Then(SendIf(r.caller, r.callerMsg), SendIf(r.target, r.targetMsg)),
                               if Said(r.childrenMsg) then Fan(CallerChildren(t, r), r.childrenMsg.value) else Done)
  {
    ThenDone(Then(SendIf(r.caller, r.callerMsg), SendIf(r.target, r.targetMsg)));
  }

  /** An action built from an invocation and then called: a raise in the
      constructor or in `call` ends the command. */
  function Perform(t: Tree, inv: Invocation): Run
    requires inv.Construct?
  {
    match New(t, inv.cls, inv.caller, inv.target, Nobody, Unset, Unset, inv.trail)
    case Raised => Run([], true)
    case Ok(r) => Send(t, r)
  }

  /** A fresh request with no setResponse of its own sends nothing. */
  lemma PlainActionSilent(t: Tree, caller: Party, target: Party, second: Party,
                          siblings: Param, children: Param, trail: Option<string>)
    ensures New(t, MudAction, caller, target, second, siblings, children, trail).Ok?
    ensures Send(t, New(t, MudAction, caller, target, second, siblings, children, trail).value) == Done
  {
  }

  /** MudActionDefault fills sibsMsg, but nobody receives it. */
  lemma SibsMsgUnsent(t: Tree, r: Request, m: Option<string>)
    ensures Send(t, r) == Send(t, r.(sibsMsg := m))
  {
  }

  /** Say.setResponse with words: the caller's echo, and the line for
      the caller's siblings. */
  lemma SayResponds(t: Tree, c: Id, target: Party, second: Party, words: string)
    requires words != ""
    ensures var r := Fresh(Say, Obj(c), target, second, Unset, Unset, Some(words));
      New(t, Say, Obj(c), target, second, Unset, Unset, Some(words))
        == Ok(r.(siblings := All, callerMsg := Some("You say, \"" + words + "\""),
                 siblingsMsg := Some(Str(t, c) + " says, \"" + words + "\"")))
  {
  }

  /** What _send then delivers for Say with words. */
  lemma SaySends(t: Tree, c: Id, p: Id, target: Party, second: Party, words: string)
    requires words != "" && Parent(t, c) == Some(p)
    ensures var rest := CleanList(t, Obj(p), [Obj(c), target, second]).value;
      var r := Fresh(Say, Obj(c), target, second, Unset, Unset, Some(words));
      var r1 := r.(siblings := All, callerMsg := Some("You say, \"" + words + "\""),
                   siblingsMsg := Some(Str(t, c) + " says, \"" + words + "\""));
      Send(t, r1) == Then(Run([Sent(c, "You say, \"" + words + "\"")], false),
                          DeliverAll(rest, Str(t, c) + " says, \"" + words + "\""))
  {
    var r := Fresh(Say, Obj(c), target, second, Unset, Unset, Some(words));
    var m := Str(t, c) + " says, \"" + words + "\"";
    var r1 := r.(siblings := All, callerMsg := Some("You say, \"" + words + "\""), siblingsMsg := Some(m));
    SendCallerAndRoom(t, r1);
    assert Said(Some(m));
    assert CallerSiblings(t, r1) == CleanList(t, Obj(p), [Obj(c), target, second]);
  }

  /** Say with something to say: the caller hears its own words first, then
      each sibling other than the caller (and other than target and second)
      hears them attributed to the caller, in child-list order. */
  lemma {:induction false} SayTellsRoom(t: Tree, c: Id, target: Party, second: Party, words: string)
    requires words != "" && Parent(t, c).Some?
    requires !PartyTruthy(target) && !PartyTruthy(second)
    ensures var p := Parent(t, c).value;
      var rest := CleanList(t, Obj(p), [Obj(c), target, second]).value;
      var r := New(t, Say, Obj(c), target, second, Unset, Unset, Some(words));
      && r.Ok?
      && Send(t, r.value)
         == Then(Run([Sent(c, "You say, \"" + words + "\"")], false),
                 DeliverAll(rest, Str(t, c) + " says, \"" + words + "\""))
      && !Send(t, r.value).raised
      && (multiset(Objects(Children(t, p)))[Obj(c)] <= 1 ==> Obj(c) !in rest)
  {
    var p := Parent(t, c).value;
    var rest := CleanList(t, Obj(p), [Obj(c), target, second]).value;
    SayResponds(t, c, target, second, words);
    SaySends(t, c, p, target, second, words);
    CleanListObjects(t, p, [Obj(c), target, second]);
    DeliverAllToObjects(rest, Str(t, c) + " says, \"" + words + "\"");
    if multiset(Objects(Children(t, p)))[Obj(c)] <= 1 {
      CleanListExcludes(t, p, [Obj(c), target, second], Obj(c));
    }
  }

  /** Say with nothing to say only tells the caller off. */
  lemma SaySilent(t: Tree, c: Id, target: Party, second: Party, trail: Option<string>)
    requires !Said(trail) && !PartyTruthy(target) && !PartyTruthy(second)
    ensures var r := New(t, Say, Obj(c), target, second, Unset, Unset, trail);
      r.Ok? && Send(t, r.value) == Run([Sent(c, SilentSay)], false)
  {
  }

  /** Look from an object in a room shows that room and the others in it;
      from an object with no parent it says so. */
  lemma LookShowsRoom(t: Tree, c: Id, target: Party, second: Party, trail: Option<string>)
    requires !PartyTruthy(target) && !PartyTruthy(second)
    ensures var r := New(t, Look, Obj(c), target, second, Unset, Unset, trail);
      && r.Ok?
      && (Parent(t, c).None? ==> Send(t, r.value) == Run([Sent(c, "You are not in a room!")], false))
      && (Parent(t, c).Some? ==>
            var p := Parent(t, c).value;
            Send(t, r.value)
              == Run([Sent(c, LookText(t, p, CleanList(t, Obj(p), [Obj(c), target, second]).value))], false))
  {
    var r1 := Fresh(Look, Obj(c), target, second, Unset, Unset, trail).(siblings := All);
    var msg: string;
    if Parent(t, c).None? {
      msg := "You are not in a room!";
    } else {
      var p := Parent(t, c).value;
      assert CallerSiblings(t, r1) == CleanList(t, Obj(p), [Obj(c), target, second]);
      msg := LookText(t, p, CleanList(t, Obj(p), [Obj(c), target, second]).value);
      LookTextSaid(t, p, CleanList(t, Obj(p), [Obj(c), target, second]).value);
    }
    assert New(t, Look, Obj(c), target, second, Unset, Unset, trail) == Ok(r1.(callerMsg := Some(msg)));
    SendCallerAndRoom(t, r1.(callerMsg := Some(msg)));
    ThenDone(SendIf(Obj(c), Some(msg)));
  }

  lemma LookTextSaid(t: Tree, room: Id, contents: seq<Party>)
    ensures Said(Some(LookText(t, room, contents)))
  {
    assert |LookText(t, room, contents)| >= 4;
  }

  /** LookFromRoom shows a room its own contents, less caller, target and
      second, and sends the picture to the target. */
  lemma LookFromRoomShowsTarget(t: Tree, room: Id, who: Id)
    ensures var r := New(t, LookFromRoom, Obj(room), Obj(who), Nobody, Unset, Unset, None);
      && r.Ok?
      && Send(t, r.value)
         == Run([Sent(who, LookText(t, room, CleanList(t, Obj(room), [Obj(room), Obj(who), Nobody]).value))], false)
  {
  }

  /** ObjAddNotify: the holder, then the added object, then the holder's
      other children are told; the added object is not among the last. */
  lemma {:induction false} AddNotifyTellsHolder(t: Tree, h: Id, o: Id)
    requires multiset(Objects(Children(t, h)))[Obj(o)] <= 1
    ensures var r := New(t, ObjAddNotify, Obj(h), Obj(o), Nobody, Unset, Unset, None);
      var rest := CleanList(t, Obj(h), [Obj(h), Obj(o), Nobody]).value;
      && r.Ok?
      && Send(t, r.value)
         == Then(Run([Sent(h, Str(t, o) + " enters you."), Sent(o, "You enter " + Str(t, h) + ".")], false),
                 DeliverAll(rest, Str(t, o) + " enters."))
      && Obj(o) !in rest
  {
    var r := RespondNotify(t, Fresh(ObjAddNotify, Obj(h), Obj(o), Nobody, Unset, Unset, None), true);
    assert New(t, ObjAddNotify, Obj(h), Obj(o), Nobody, Unset, Unset, None) == Ok(r);
    SendPairAndChildren(t, r);
    assert CallerChildren(t, r) == CleanList(t, Obj(h), [Obj(h), Obj(o), Nobody]);
    CleanListExcludes(t, h, [Obj(h), Obj(o), Nobody], Obj(o));
  }

  /** ObjRemoveNotify mirrors ObjAddNotify with the leaving messages. */
  lemma {:induction false} RemoveNotifyTellsHolder(t: Tree, h: Id, o: Id)
    requires multiset(Objects(Children(t, h)))[Obj(o)] <= 1
    ensures var r := New(t, ObjRemoveNotify, Obj(h), Obj(o), Nobody, Unset, Unset, None);
      var rest := CleanList(t, Obj(h), [Obj(h), Obj(o), Nobody]).value;
      && r.Ok?
      && Send(t, r.value)
         == Then(Run([Sent(h, Str(t, o) + " leaves you."), Sent(o, "You leave " + Str(t, h) + ".")], false),
                 DeliverAll(rest, Str(t, o) + " leaves."))
      && Obj(o) !in rest
  {
    var r := RespondNotify(t, Fresh(ObjRemoveNotify, Obj(h), Obj(o), Nobody, Unset, Unset, None), false);
    assert New(t, ObjRemoveNotify, Obj(h), Obj(o), Nobody, Unset, Unset, None) == Ok(r);
    SendPairAndChildren(t, r);
    assert CallerChildren(t, r) == CleanList(t, Obj(h), [Obj(h), Obj(o), Nobody]);
    CleanListExcludes(t, h, [Obj(h), Obj(o), Nobody], Obj(o));
  }

  /** As written, do_cmd hands the argument text over as the caller: a
      `say` with words raises at `caller.send` before anyone hears them, and
      an empty `say` tells nobody anything. */
  lemma CommandLineSayFails(t: Tree, owner: Id, issuer: Id, arg: string)
    requires Cmds(t, owner) == PlayerCmds && KindOf(t, owner) != GateKeeper
    ensures var inv := DoCmd(t, owner, issuer, "say", arg);
      && inv.Construct?
      && Perform(t, inv) == (if arg != "" then Run([], true) else Done)
  {
  }

  /** As written, a `look` typed by a player always raises: the argument
      text has no `_parent`. */
  lemma CommandLineLookFails(t: Tree, owner: Id, issuer: Id, arg: string)
    requires Cmds(t, owner) == PlayerCmds && KindOf(t, owner) != GateKeeper
    ensures var inv := DoCmd(t, owner, issuer, "look", arg);
      && inv.Construct?
      && Perform(t, inv) == Run([], true)
  {
  }

  /** With the issuer as caller and the argument as trail, `say` reaches
      the speaker and the rest of the room, and `look` shows the room. */
  lemma {:induction false} IntendedCommandsWork(t: Tree, owner: Id, issuer: Id, arg: string)
    requires Cmds(t, owner) == PlayerCmds && KindOf(t, owner) != GateKeeper
    requires arg != "" && Parent(t, issuer).Some?
    ensures var p := Parent(t, issuer).value;
      var rest := CleanList(t, Obj(p), [Obj(issuer), Nobody, Nobody]).value;
      && Perform(t, IntendedDoCmd(t, owner, issuer, "say", arg))
         == Then(Run([Sent(issuer, "You say, \"" + arg + "\"")], false),
                 DeliverAll(rest, Str(t, issuer) + " says, \"" + arg + "\""))
      && Perform(t, IntendedDoCmd(t, owner, issuer, "look", arg))
         == Run([Sent(issuer, LookText(t, p, rest))], false)
  {
    assert PlayerCmds["say"] == Class(Say) && PlayerCmds["look"] == Class(Look);
    assert IntendedDoCmd(t, owner, issuer, "say", arg) == Construct(Say, Obj(issuer), Nobody, Some(arg));
    assert IntendedDoCmd(t, owner, issuer, "look", arg) == Construct(Look, Obj(issuer), Nobody, Some(arg));
    SayTellsRoom(t, issuer, Nobody, Nobody, arg);
    LookShowsRoom(t, issuer, Nobody, Nobody, Some(arg));
  }

  /** An action object of MudActions.py. */
  class Action {
    const cls: ActionClass
    var trail: Option<string>
    var caller: Party
    var target: Party
    var second: Party
    var siblings: Param
    var children: Param
    var callerMsg: Option<string>
    var targetMsg: Option<string>
    var secondMsg: Option<string>
    var siblingsMsg: Option<string>
    var childrenMsg: Option<string>
    var sibsMsg: Option<string>

    function Snapshot(): Request
      reads this
    {
      Request(cls, trail, caller, target, second, siblings, children,
              callerMsg, targetMsg, secondMsg, siblingsMsg, childrenMsg, sibsMsg)
    }

    /** The constructor's assignments. */
    constructor Init(cls: ActionClass, caller: Party, target: Party, second: Party,
                     siblings: Param, children: Param, trail: Option<string>)
      ensures Snapshot() == Fresh(cls, caller, target, second, siblings, children, trail)
    {
      this.cls := cls;
      this.trail := trail;
      this.caller := caller;
      this.target := target;
      this.second := second;
      this.siblings := siblings;
      this.children := children;
      callerMsg, targetMsg, secondMsg, siblingsMsg, childrenMsg, sibsMsg := None, None, None, None, None, None;
    }

    /** The whole constructor: the assignments, then setResponse. When
        setResponse raises there is no action object. */
    static method Make(t: Tree, cls: ActionClass, caller: Party, target: Party, second: Party,
                       siblings: Param, children: Param, trail: Option<string>) returns (a: Action?)
      ensures var n := New(t, cls, caller, target, second, siblings, children, trail);
        && (a == null <==> n.Raised?)
        && (a != null ==> fresh(a) && a.Snapshot() == n.value)
    {
      a := new Action.Init(cls, caller, target, second, siblings, children, trail);
      var raised := a.SetResponse(t);
      if raised {
        a := null;
      }
    }

    /** _get_clean_children. */
    method GetCleanChildren(t: Tree, param: Param, anchor: Party) returns (r: Result<seq<Party>>)
      ensures r == CleanChildren(t, param, anchor, Snapshot())
    {
      var result: seq<Party> := [];
      if param.All? {
        if PartyTruthy(anchor) {
          if !anchor.Obj? {
            return Raised;
          }
          var kids := Objects(Children(t, anchor.id));
          result := RemoveEach(kids, Distinct([caller, target, second]));
        }
      } else if param.Given? {
        result := param.ps;
      }
      return Ok(result);
    }

    /** setResponse, writing the message attributes. */
    method SetResponse(t: Tree) returns (raised: bool)
      modifies this
      ensures raised == Respond(t, old(Snapshot())).Raised?
      ensures !raised ==> Snapshot() == Respond(t, old(Snapshot())).value
    {
      raised := false;
      match cls
      case MudAction =>
      case MudActionDefault =>
        callerMsg := Some("You do MudAction with " + PartyStr(t, second) + " on " + PartyStr(t, target));
        targetMsg := Some(PartyStr(t, caller) + " does MudAction with " + PartyStr(t, second) + " on you");
        secondMsg := Some(PartyStr(t, caller) + " does MudAction with you on " + PartyStr(t, target));
        sibsMsg := Some(PartyStr(t, caller) + " does MudAction with " + PartyStr(t, second) + " on " + PartyStr(t, target));
      case ObjAddNotify =>
        children := All;
        callerMsg := Some(PartyStr(t, target) + " enters you.");
        targetMsg := Some("You enter " + PartyStr(t, caller) + ".");
        childrenMsg := Some(PartyStr(t, target) + " enters.");
      case ObjRemoveNotify =>
        children := All;
        callerMsg := Some(PartyStr(t, target) + " leaves you.");
        targetMsg := Some("You leave " + PartyStr(t, caller) + ".");
        childrenMsg := Some(PartyStr(t, target) + " leaves.");
      case Say =>
        siblings := All;
        if Said(trail) {
          callerMsg := Some("You say, \"" + trail.value + "\"");
          siblingsMsg := Some(PartyStr(t, caller) + " says, \"" + trail.value + "\"");
        } else {
          callerMsg := Some(SilentSay);
        }
      case Look =>
        siblings := All;
        var room := PartyParent(t, caller);
        if room.Raised? {
          return true;
        }
        if room.value.Obj? {
          var cs := GetCleanChildren(t, siblings, room.value);
          callerMsg := Some(LookText(t, room.value.id, cs.value));
        } else {
          callerMsg := Some("You are not in a room!");
        }
      case LookFromRoom =>
        children := All;
        var cs := GetCleanChildren(t, children, caller);
        if cs.Raised? || !caller.Obj? {
          return true;
        }
        targetMsg := Some(LookText(t, caller.id, cs.value));
    }

    /** The caller_siblings property as the method reads it. */
    method CallerSiblingsNow(t: Tree) returns (cs: Result<seq<Party>>)
      ensures cs == CallerSiblings(t, Snapshot())
    {
      var room := PartyParent(t, caller);
      if room.Raised? {
        return Raised;
      }
      cs := GetCleanChildren(t, siblings, room.value);
    }

    /** The first three steps of _send: the caller's, the target's and
        the second's messages. */
    method SendDirect(w: World) returns (raised: bool)
      modifies w`events
      ensures var d := Then(Then(SendIf(caller, callerMsg), SendIf(target, targetMsg)), SendIf(second, secondMsg));
        w.events == old(w.events) + d.out && raised == d.raised
    {
      ghost var e0 := w.events;
      ghost var a, b, c := SendIf(caller, callerMsg), SendIf(target, targetMsg), SendIf(second, secondMsg);
      raised := w.SendSlot(caller, callerMsg);
      if raised { return; }
      raised := w.SendSlot(target, targetMsg);
      ThenAppends(e0, a, b);
      if raised { return; }
      raised := w.SendSlot(second, secondMsg);
      ThenAppends(e0, Then(a, b), c);
    }

    /** call: the action (which does nothing here), then _send. */
    method Call(w: World) returns (raised: bool)
      modifies w`events
      ensures w.events == old(w.events) + Send(w.tree, Snapshot()).out
      ensures raised == Send(w.tree, Snapshot()).raised
    {
      var t := w.tree;
      ghost var e0 := w.events;
      ghost var a, b, c, d, e := SendParts(t, Snapshot());
      raised := SendDirect(w);
      if raised { return; }
      var sibs: Result<seq<Party>> := Raised;
      if Said(siblingsMsg) {
        sibs := CallerSiblingsNow(t);
      }
      raised := w.SendFan(sibs, siblingsMsg);
      ThenAppends(e0, Then(Then(a, b), c), d);
      if raised { return; }
      var kids: Result<seq<Party>> := Raised;
      if Said(childrenMsg) {
        kids := GetCleanChildren(t, children, caller);
      }
      raised := w.SendFan(kids, childrenMsg);
      ThenAppends(e0, Then(Then(Then(a, b), c), d), e);
    }
  }
}
