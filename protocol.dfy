/** mtmud/MudActions.py: the notification protocol the commands of
    mtj/mud/notify.py are written against. A request names a caller, an
    optional target and second, four relationship parameters and seven
    message slots; `setResponse` fills the slots, `_send` delivers five of
    them, and `MudAction.__call__` brackets that with `action` and
    `post_action`. */
module Protocol {
  import opened Base
  import opened MudObjects

  /** The class of a request object: the two base classes and the
      subclasses defined in mtj/mud/notify.py. */
  datatype Command =
    | BaseNotify | BaseAction
    | AddNotify | RemoveNotify | MoveFromTo | MoveTo | GoCmd
    | SayCmd | EmoteCmd | QuitCmd | LoginCmd | HelpCmd
    | LookCmd | LookFromTargetCmd | LookFromRoomCmd

  /** The classes that derive from MudAction: they have `action`,
      `post_action` and a `result`; the others are plain MudNotify. */
  predicate IsAction(c: Command)
  {
    c.BaseAction? || c.MoveFromTo? || c.MoveTo? || c.GoCmd? || c.QuitCmd? || c.LoginCmd?
  }

  /** What `action`, `post_action` and the move operations return: None or
      a boolean. */
  datatype Value = NoneV | BoolV(b: bool)

  predicate Truthy(v: Value)
  {
    v == BoolV(true)
  }

  /** The attributes of a request object. `result` is assigned by
      `MudAction.__call__` and `condition` by Quit.setResponse; NoneV and
      false stand for "not assigned yet". */
  datatype Request = Request(
    cls: Command, trail: Option<string>,
    caller: Party, target: Party, second: Party,
    callerSiblings: Param, callerChildren: Param,
    targetSiblings: Param, targetChildren: Param,
    sender: Party,
    callerMsg: Option<string>, targetMsg: Option<string>, secondMsg: Option<string>,
    callerSiblingsMsg: Option<string>, callerChildrenMsg: Option<string>,
    targetSiblingsMsg: Option<string>, targetChildrenMsg: Option<string>,
    result: Value, condition: bool)

  /** MudNotify.__init__: the arguments stored, every message slot None. */
  function Fresh(cls: Command, caller: Party, target: Party, second: Party,
                 callerSiblings: Param, callerChildren: Param,
                 targetSiblings: Param, targetChildren: Param,
                 trail: Option<string>, sender: Party): Request
  {
    Request(cls, trail, caller, target, second,
            callerSiblings, callerChildren, targetSiblings, targetChildren, sender,
            None, None, None, None, None, None, None, NoneV, false)
  }

  /** A request with only a caller, as `Look(caller)` builds it. */
  function CallerOnly(cls: Command, caller: Party): Request
  {
    Fresh(cls, caller, Nobody, Nobody, Unset, Unset, Unset, Unset, None, Nobody)
  }

  /** The three parties every derived list leaves out by default. */
  function Parties(r: Request): seq<Party>
  {
    [r.caller, r.target, r.second]
  }

  /** _get_clean_children: True over a truthy anchor gives a copy of its
      children less one copy of each distinct element of rem; an explicit
      list comes back as given; anything else gives the empty list. */
  function Clean(t: Tree, param: Param, anchor: Party, rem: seq<Party>): Result<seq<Party>>
  {
    match param
    case All => CleanList(t, anchor, rem)
    case Given(ps) => Ok(ps)
    case Unset => Ok([])
  }

  /** The caller_children property. */
  function CallerChildren(t: Tree, r: Request): Result<seq<Party>>
  {
    Clean(t, r.callerChildren, r.caller, Parties(r))
  }

  /** The caller_siblings property: `caller._parent` is read (and raises for
      a caller that is not an object) whatever the parameter is. */
  function CallerSiblings(t: Tree, r: Request): Result<seq<Party>>
  {
    match PartyParent(t, r.caller)
    case Raised => Raised
    case Ok(p) => Clean(t, r.callerSiblings, p, Parties(r))
  }

  /** The target_children property. */
  function TargetChildren(t: Tree, r: Request): Result<seq<Party>>
  {
    Clean(t, r.targetChildren, r.target, Parties(r))
  }

  /** The target_siblings property, with the set of parties to leave out
      as a parameter (LookFromTarget overrides it with target and second). */
  function TargetSiblings(t: Tree, r: Request, rem: seq<Party>): Result<seq<Party>>
  {
    match PartyParent(t, r.target)
    case Raised => Raised
    case Ok(p) => Clean(t, r.targetSiblings, p, rem)
  }

  /** _send: the caller, target and second slots, then each caller sibling,
      then each caller child. Neither target_* slot is read. */
  function Send(t: Tree, r: Request): Run
  {
    Then(Then(Then(Then(
      SendIf(r.caller, r.callerMsg),
      SendIf(r.target, r.targetMsg)),
      SendIf(r.second, r.secondMsg)),
      if Said(r.callerSiblingsMsg) then Fan(CallerSiblings(t, r), r.callerSiblingsMsg.value) else Done),
      if Said(r.callerChildrenMsg) then Fan(CallerChildren(t, r), r.callerChildrenMsg.value) else Done)
  }

  // ---------------------------------------------------------------------
  // Properties of the protocol

  /** The cases of _get_clean_children: a list is returned verbatim (not
      cleaned), anything but True gives nothing, a falsy anchor gives
      nothing, and True over an object gives its children less one copy of
      each party to leave out; a party listed once among them is gone. */
  lemma {:induction false} CleanCases(t: Tree, param: Param, anchor: Party, rem: seq<Party>)
    ensures param.Given? ==> Clean(t, param, anchor, rem) == Ok(param.ps)
    ensures param.Unset? ==> Clean(t, param, anchor, rem) == Ok([])
    ensures param.All? && !PartyTruthy(anchor) ==> Clean(t, param, anchor, rem) == Ok([])
    ensures param.All? && PartyTruthy(anchor) && !anchor.Obj? ==> Clean(t, param, anchor, rem) == Raised
    ensures param.All? && anchor.Obj? ==>
      var kids := Objects(Children(t, anchor.id));
      && Clean(t, param, anchor, rem).Ok?
      && multiset(Clean(t, param, anchor, rem).value) == multiset(kids) - multiset(Distinct(rem))
      && (forall p :: p in rem && multiset(kids)[p] <= 1 ==> p !in Clean(t, param, anchor, rem).value)
  {
    if param.All? && anchor.Obj? {
      CleanListSpec(t, anchor.id, rem);
    }
  }

  /** With True and an object anchor, a party to leave out that the anchor
      lists once is not in the list. */
  lemma CleanExcludes(t: Tree, param: Param, a: Id, rem: seq<Party>, p: Party)
    requires param.All? && p in rem && multiset(Objects(Children(t, a)))[p] <= 1
    ensures Clean(t, param, Obj(a), rem).Ok? && p !in Clean(t, param, Obj(a), rem).value
  {
    CleanCases(t, param, Obj(a), rem);
  }

  /** caller_children hangs off the caller and target_children off the
      target; with True, a party the anchor lists once is left out. */
  lemma ChildrenExcludeParties(t: Tree, r: Request, p: Party)
    requires p in Parties(r)
    ensures r.callerChildren.All? && r.caller.Obj? && multiset(Objects(Children(t, r.caller.id)))[p] <= 1
      ==> CallerChildren(t, r).Ok? && p !in CallerChildren(t, r).value
    ensures r.targetChildren.All? && r.target.Obj? && multiset(Objects(Children(t, r.target.id)))[p] <= 1
      ==> TargetChildren(t, r).Ok? && p !in TargetChildren(t, r).value
  {
    if r.callerChildren.All? && r.caller.Obj? && multiset(Objects(Children(t, r.caller.id)))[p] <= 1 {
      CleanExcludes(t, r.callerChildren, r.caller.id, Parties(r), p);
    }
    if r.targetChildren.All? && r.target.Obj? && multiset(Objects(Children(t, r.target.id)))[p] <= 1 {
      CleanExcludes(t, r.targetChildren, r.target.id, Parties(r), p);
    }
  }

  /** caller_siblings hangs off the caller's parent and target_siblings off
      the target's parent; with True, a party the parent lists once is left
      out. */
  lemma SiblingsExcludeParties(t: Tree, r: Request, p: Party, room: Id)
    requires p in Parties(r)
    requires multiset(Objects(Children(t, room)))[p] <= 1
    ensures r.callerSiblings.All? && r.caller.Obj? && Parent(t, r.caller.id) == Some(room)
      ==> CallerSiblings(t, r).Ok? && p !in CallerSiblings(t, r).value
    ensures r.targetSiblings.All? && r.target.Obj? && Parent(t, r.target.id) == Some(room)
      ==> TargetSiblings(t, r, Parties(r)).Ok? && p !in TargetSiblings(t, r, Parties(r)).value
  {
    if r.callerSiblings.All? {
      CleanExcludes(t, r.callerSiblings, room, Parties(r), p);
    }
    if r.targetSiblings.All? {
      CleanExcludes(t, r.targetSiblings, room, Parties(r), p);
    }
  }

  /** _send never reads the target_* parameters or slots: changing them
      changes nothing that is sent. */
  lemma TargetSlotsNeverSent(t: Tree, r: Request, ts: Param, tc: Param, m1: Option<string>, m2: Option<string>)
    ensures Send(t, r.(targetSiblings := ts, targetChildren := tc,
                       targetSiblingsMsg := m1, targetChildrenMsg := m2)) == Send(t, r)
  {
    var r' := r.(targetSiblings := ts, targetChildren := tc, targetSiblingsMsg := m1, targetChildrenMsg := m2);
    assert Parties(r') == Parties(r);
    assert CallerSiblings(t, r') == CallerSiblings(t, r);
    assert CallerChildren(t, r') == CallerChildren(t, r);
  }

  /** A freshly built request, whose slots are all None, sends nothing. */
  lemma FreshSendsNothing(t: Tree, cls: Command, caller: Party, target: Party, second: Party,
                          cs: Param, cc: Param, ts: Param, tc: Param, trail: Option<string>, sender: Party)
    ensures Send(t, Fresh(cls, caller, target, second, cs, cc, ts, tc, trail, sender)) == Done
  {
  }

  /** Everything _send delivers goes to one of its five kinds of recipient
      with that recipient's message: the caller, target or second, a member
      of caller_siblings, or a member of caller_children. */
  lemma {:induction false} SendRecipients(t: Tree, r: Request, e: Event)
    requires e in Send(t, r).out
    ensures e.Sent?
    ensures || (r.caller == Obj(e.to) && r.callerMsg == Some(e.text))
            || (r.target == Obj(e.to) && r.targetMsg == Some(e.text))
            || (r.second == Obj(e.to) && r.secondMsg == Some(e.text))
            || (CallerSiblings(t, r).Ok? && Obj(e.to) in CallerSiblings(t, r).value
                && r.callerSiblingsMsg == Some(e.text))
            || (CallerChildren(t, r).Ok? && Obj(e.to) in CallerChildren(t, r).value
                && r.callerChildrenMsg == Some(e.text))
  {
    var a, b, c, d, f := SendParts(t, r);
    ThenMembers(Then(Then(Then(a, b), c), d), f, e);
    if e in f.out {
      FanMember(CallerChildren(t, r), r.callerChildrenMsg.value, e);
    } else {
      ThenMembers(Then(Then(a, b), c), d, e);
      if e in d.out {
        FanMember(CallerSiblings(t, r), r.callerSiblingsMsg.value, e);
      } else {
        ThenMembers(Then(a, b), c, e);
        if e in c.out {
          SendIfMember(r.second, r.secondMsg, e);
        } else {
          ThenMembers(a, b, e);
          if e in b.out {
            SendIfMember(r.target, r.targetMsg, e);
          } else {
            SendIfMember(r.caller, r.callerMsg, e);
          }
        }
      }
    }
  }

  /** With every slot going to an object, _send sends the three direct
      slots first, in the order caller, target, second. */
  lemma DirectSlotsFirst(t: Tree, r: Request, c: Id, tg: Id, s: Id, mc: string, mt: string, ms: string)
    requires r.caller == Obj(c) && r.target == Obj(tg) && r.second == Obj(s)
    requires r.callerMsg == Some(mc) && r.targetMsg == Some(mt) && r.secondMsg == Some(ms)
    requires mc != "" && mt != "" && ms != ""
    ensures |Send(t, r).out| >= 3
    ensures Send(t, r).out[..3] == [Sent(c, mc), Sent(tg, mt), Sent(s, ms)]
  {
  }

  /** A request whose only message is the caller's sends that message and
      nothing else. */
  lemma SendCallerOnly(t: Tree, r: Request)
    requires r.targetMsg == None && r.secondMsg == None
    requires r.callerSiblingsMsg == None && r.callerChildrenMsg == None
    ensures Send(t, r) == SendIf(r.caller, r.callerMsg)
  {
    ThenDone(SendIf(r.caller, r.callerMsg));
  }

  /** A request whose only message is the target's sends that message and
      nothing else. */
  lemma SendTargetOnly(t: Tree, r: Request)
    requires r.callerMsg == None && r.secondMsg == None
    requires r.callerSiblingsMsg == None && r.callerChildrenMsg == None
    ensures Send(t, r) == SendIf(r.target, r.targetMsg)
  {
    ThenDone(SendIf(r.target, r.targetMsg));
  }

  /** A request that speaks only to the caller and to the caller's
      siblings sends the caller's message first, then the siblings'. */
  lemma SendCallerAndRoom(t: Tree, r: Request)
    requires r.targetMsg == None && r.secondMsg == None && r.callerChildrenMsg == None
    ensures Send(t, r) == Then(SendIf(r.caller, r.callerMsg),
                               if Said(r.callerSiblingsMsg) then Fan(CallerSiblings(t, r), r.callerSiblingsMsg.value) else Done)
  {
    ThenDone(SendIf(r.caller, r.callerMsg));
    ThenDone(Then(SendIf(r.caller, r.callerMsg),
                  if Said(r.callerSiblingsMsg) then Fan(CallerSiblings(t, r), r.callerSiblingsMsg.value) else Done));
  }

  // ---------------------------------------------------------------------
  // The request object

  /** A request object of any class. The methods here are the MudNotify
      ones; the per-class overrides are in module Commands. */
  class Notify {
    var cls: Command
    var trail: Option<string>
    var caller: Party
    var target: Party
    var second: Party
    var callerSiblings: Param
    var callerChildren: Param
    var targetSiblings: Param
    var targetChildren: Param
    var sender: Party
    var callerMsg: Option<string>
    var targetMsg: Option<string>
    var secondMsg: Option<string>
    var callerSiblingsMsg: Option<string>
    var callerChildrenMsg: Option<string>
    var targetSiblingsMsg: Option<string>
    var targetChildrenMsg: Option<string>
    var result: Value
    var condition: bool

    function Snapshot(): Request
      reads this
    {
      Request(cls, trail, caller, target, second,
              callerSiblings, callerChildren, targetSiblings, targetChildren, sender,
              callerMsg, targetMsg, secondMsg, callerSiblingsMsg, callerChildrenMsg,
              targetSiblingsMsg, targetChildrenMsg, result, condition)
    }

    /** MudNotify.__init__. */
    constructor Init(r: Request)
      ensures Snapshot() == r
    {
      cls, trail, caller, target, second := r.cls, r.trail, r.caller, r.target, r.second;
      callerSiblings, callerChildren := r.callerSiblings, r.callerChildren;
      targetSiblings, targetChildren := r.targetSiblings, r.targetChildren;
      sender := r.sender;
      callerMsg, targetMsg, secondMsg := r.callerMsg, r.targetMsg, r.secondMsg;
      callerSiblingsMsg, callerChildrenMsg := r.callerSiblingsMsg, r.callerChildrenMsg;
      targetSiblingsMsg, targetChildrenMsg := r.targetSiblingsMsg, r.targetChildrenMsg;
      result, condition := r.result, r.condition;
    }

    /** _get_clean_children, removing from the copied list in a loop. */
    method GetCleanChildren(t: Tree, param: Param, anchor: Party, rem: seq<Party>)
      returns (r: Result<seq<Party>>)
      ensures r == Clean(t, param, anchor, rem)
    {
      var result: seq<Party> := [];
      if param.All? {
        if PartyTruthy(anchor) {
          if !anchor.Obj? {
            return Raised;
          }
          var kids := Objects(Children(t, anchor.id));
          result := RemoveEach(kids, Distinct(rem));
        }
      } else if param.Given? {
        result := param.ps;
      }
      return Ok(result);
    }

    /** The caller_siblings property as the object reads it. */
    method CallerSiblingsNow(t: Tree) returns (cs: Result<seq<Party>>)
      ensures cs == CallerSiblings(t, Snapshot())
    {
      var room := PartyParent(t, caller);
      if room.Raised? {
        return Raised;
      }
      cs := GetCleanChildren(t, callerSiblings, room.value, [caller, target, second]);
    }

    /** The first three steps of _send: the caller's, the target's and
        the second's messages. */
    method SendDirect(w: World) returns (raised: bool)
      modifies w`events
      ensures var d := Then(Then(SendIf(caller, callerMsg), SendIf(target, targetMsg)), SendIf(second, secondMsg));
        w.events == old(w.events) + d.out && raised == d.raised
    {
      ghost var e0 := w.events;
      ghost var a, b, c := SendIf(caller, callerMsg), SendIf(target, targetMsg), SendIf(second, secondMsg);
      raised := w.SendSlot(caller, callerMsg);
      if raised { return; }
      raised := w.SendSlot(target, targetMsg);
      ThenAppends(e0, a, b);
      if raised { return; }
      raised := w.SendSlot(second, secondMsg);
      ThenAppends(e0, Then(a, b), c);
    }

    /** _send. */
    method SendAll(w: World) returns (raised: bool)
      modifies w`events
      ensures w.events == old(w.events) + Send(w.tree, Snapshot()).out
      ensures raised == Send(w.tree, Snapshot()).raised
    {
      var t := w.tree;
      ghost var e0 := w.events;
      ghost var a, b, c, d, e := SendParts(t, Snapshot());
      raised := SendDirect(w);
      if raised { return; }
      var sibs: Result<seq<Party>> := Raised;
      if Said(callerSiblingsMsg) {
        sibs := CallerSiblingsNow(t);
      }
      raised := w.SendFan(sibs, callerSiblingsMsg);
      ThenAppends(e0, Then(Then(a, b), c), d);
      if raised { return; }
      var kids: Result<seq<Party>> := Raised;
      if Said(callerChildrenMsg) {
        kids := GetCleanChildren(t, callerChildren, caller, [caller, target, second]);
      }
      raised := w.SendFan(kids, callerChildrenMsg);
      ThenAppends(e0, Then(Then(Then(a, b), c), d), e);
    }
  }

  /** The five steps of _send, one by one. */
  lemma SendParts(t: Tree, r: Request) returns (a: Run, b: Run, c: Run, d: Run, e: Run)
    ensures a == SendIf(r.caller, r.callerMsg) && b == SendIf(r.target, r.targetMsg)
    ensures c == SendIf(r.second, r.secondMsg)
    ensures d == (if Said(r.callerSiblingsMsg) then Fan(CallerSiblings(t, r), r.callerSiblingsMsg.value) else Done)
    ensures e == (if Said(r.callerChildrenMsg) then Fan(CallerChildren(t, r), r.callerChildrenMsg.value) else Done)
    ensures Send(t, r) == Then(Then(Then(Then(a, b), c), d), e)
  {
    a, b, c := SendIf(r.caller, r.callerMsg), SendIf(r.target, r.targetMsg), SendIf(r.second, r.secondMsg);
    d := if Said(r.callerSiblingsMsg) then Fan(CallerSiblings(t, r), r.callerSiblingsMsg.value) else Done;
    e := if Said(r.callerChildrenMsg) then Fan(CallerChildren(t, r), r.callerChildrenMsg.value) else Done;
  }
}
