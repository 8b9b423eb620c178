/** MudObjects.py: the containment tree of world objects, the verb resolver
    over it (`_parse_cmd`, `process_cmd`, `valid_cmd`, `do_cmd`), the
    gatekeeper that turns a fresh connection's first inputs into a login,
    and the soul's connection-side state.

    Python objects point at each other (`_parent`, `_children`), so the model
    keeps every object's attributes in one arena value, `Tree`, indexed by
    handle; `World` is the mutable holder of that arena plus the log of every
    `send` call made, in order. */
module MudObjects {
  import opened Base
  import Telnet

  /** The MudActions.py classes a command table can hold. */
  datatype ActionClass =
    | MudAction | MudActionDefault | ObjAddNotify | ObjRemoveNotify
    | Say | Look | LookFromRoom

  /** A command-table value: an action class (instantiated and called by
      `do_cmd`) or any other callable (called with the argument text). */
  datatype Handler = Class(cls: ActionClass) | Callable(name: string)

  /** The subclasses whose overrides change how the core treats an object:
      `MudRoom.add` records the room, `SoulGateKeeper` accepts every verb
      and handles it itself. Sprite stands for MudSprite and its subclass
      MudPlayer, the objects that carry a `soul` attribute (which may hold
      None). Everything else is Plain. */
  datatype Kind = Plain | Room | GateKeeper | Sprite

  /** One entry of an object's `_cmds` table as the help command reads it:
      the verb and the docstring of the class it maps to. */
  datatype HelpEntry = HelpEntry(verb: string, doc: Option<string>)

  /** The attributes of every object, by handle. A missing key stands for
      the attribute's initial value (None, an empty list or table). */
  datatype Tree = Tree(
    next: nat,                              // handles at or above this are unused
    kind: map<Id, Kind>,
    name: map<Id, string>,                 // str(obj): shortdesc, or a player's name
    longdesc: map<Id, string>,
    parent: map<Id, Id>,                    // _parent
    children: map<Id, seq<Id>>,             // _children, in order
    cmds: map<Id, map<string, Handler>>,    // cmds: the only table the resolver reads
    room: map<Id, Id>,                      // the `room` attribute MudRoom.add sets
    soul: map<Id, Id>,                      // MudSprite.soul
    exits: map<Id, seq<string>>,            // a room's roomlinks
    help: map<Id, seq<HelpEntry>>)          // _cmds, for the help command

  function Children(t: Tree, x: Id): seq<Id>
  {
    if x in t.children then t.children[x] else []
  }

  function Parent(t: Tree, x: Id): Option<Id>
  {
    if x in t.parent then Some(t.parent[x]) else None
  }

  /** `str(x)`: the object's short description. */
  function Str(t: Tree, x: Id): string
  {
    if x in t.name then t.name[x] else "MudObject"
  }

  /** `'%s' % obj.longdesc`: "None" unless a description was given. */
  function Longdesc(t: Tree, x: Id): string
  {
    if x in t.longdesc then t.longdesc[x] else "None"
  }

  /** `'%s' % p` for whatever a caller, target or second slot holds. */
  function PartyStr(t: Tree, p: Party): string
  {
    match p
    case Nobody => "None"
    case Obj(x) => Str(t, x)
    case Text(s) => s
  }

  /** `p._parent`: only a world object has one. */
  function PartyParent(t: Tree, p: Party): Result<Party>
  {
    if !p.Obj? then Raised
    else match Parent(t, p.id)
      case None => Ok(Nobody)
      case Some(q) => Ok(Obj(q))
  }

  function Objects(ids: seq<Id>): (r: seq<Party>)
    ensures |r| == |ids| && forall i :: 0 <= i < |ids| ==> r[i] == Obj(ids[i])
    ensures forall p :: p in multiset(r) ==> p.Obj?
  {
    if ids == [] then [] else Objects(ids[..|ids| - 1]) + [Obj(ids[|ids| - 1])]
  }

  /** The list both action protocols build for a derived relationship: for
      a truthy anchor, a copy of its children with each distinct element of
      rem removed once; a falsy anchor gives the empty list; a string anchor
      has no children and raises. */
  function CleanList(t: Tree, anchor: Party, rem: seq<Party>): Result<seq<Party>>
  {
    if !PartyTruthy(anchor) then Ok([])
    else if !anchor.Obj? then Raised
    else Ok(RemoveAll(Objects(Children(t, anchor.id)), Distinct(rem)))
  }

  /** The list leaves the multiset difference of the children and the
      distinct parties to leave out. */
  lemma CleanListMultiset(t: Tree, a: Id, rem: seq<Party>)
    ensures CleanList(t, Obj(a), rem).Ok?
    ensures multiset(CleanList(t, Obj(a), rem).value) == multiset(Objects(Children(t, a))) - multiset(Distinct(rem))
  {
    RemoveAllMultiset(Objects(Children(t, a)), Distinct(rem));
  }

  /** A party to leave out that the anchor lists at most once is not in
      the list. */
  lemma CleanListExcludes(t: Tree, a: Id, rem: seq<Party>, p: Party)
    requires p in rem && multiset(Objects(Children(t, a)))[p] <= 1
    ensures CleanList(t, Obj(a), rem).Ok? && p !in CleanList(t, Obj(a), rem).value
  {
    CleanListMultiset(t, a, rem);
    assert p in Distinct(rem);
    assert multiset(CleanList(t, Obj(a), rem).value)[p] == 0;
  }

  /** Everything in the list is a world object. */
  lemma CleanListObjects(t: Tree, a: Id, rem: seq<Party>)
    ensures CleanList(t, Obj(a), rem).Ok?
    ensures var r := CleanList(t, Obj(a), rem).value; forall i :: 0 <= i < |r| ==> r[i].Obj?
  {
    CleanListMultiset(t, a, rem);
    var r := CleanList(t, Obj(a), rem).value;
    forall i | 0 <= i < |r| ensures r[i].Obj? {
      assert r[i] in multiset(r);
    }
  }

  /** For an object anchor the list is its children less one copy of each
      distinct element of rem, the rest in child order; an element listed
      at most once is gone. */
  lemma {:induction false} CleanListSpec(t: Tree, a: Id, rem: seq<Party>)
    ensures CleanList(t, Obj(a), rem).Ok?
    ensures var r := CleanList(t, Obj(a), rem).value;
      && multiset(r) == multiset(Objects(Children(t, a))) - multiset(Distinct(rem))
      && IsSubsequence(r, Objects(Children(t, a)))
      && (forall p :: p in rem && multiset(Objects(Children(t, a)))[p] <= 1 ==> p !in r)
      && (forall i :: 0 <= i < |r| ==> r[i].Obj?)
  {
    RemoveAllSubsequence(Objects(Children(t, a)), Distinct(rem));
    CleanListMultiset(t, a, rem);
    CleanListObjects(t, a, rem);
    forall p | p in rem && multiset(Objects(Children(t, a)))[p] <= 1
      ensures p !in CleanList(t, Obj(a), rem).value
    {
      CleanListExcludes(t, a, rem, p);
    }
  }

  /** A relationship parameter of either action protocol: True (derive the list from
      the tree), an explicit list, or anything else (nobody). */
  datatype Param = Unset | All | Given(ps: seq<Party>)

  /** `if p and msg: p.send(msg)`. */
  function SendIf(p: Party, msg: Option<string>): Run
  {
    if PartyTruthy(p) && Said(msg) then Deliver(p, msg.value) else Done
  }

  /** `for p in <property>: p.send(msg)`. */
  function Fan(ps: Result<seq<Party>>, msg: string): Run
  {
    match ps
    case Raised => Run([], true)
    case Ok(xs) => DeliverAll(xs, msg)
  }

  /** What a guarded send records went to that party, with that message. */
  lemma SendIfMember(p: Party, msg: Option<string>, e: Event)
    requires e in SendIf(p, msg).out
    ensures e.Sent? && p == Obj(e.to) && msg == Some(e.text)
  {
  }

  /** What a fan-out records went to one of the listed parties, with the
      fan's message. */
  lemma FanMember(ps: Result<seq<Party>>, msg: string, e: Event)
    requires e in Fan(ps, msg).out
    ensures ps.Ok? && e.Sent? && e.text == msg && Obj(e.to) in ps.value
  {
    DeliverAllMember(ps.value, msg, e);
  }

  /** The contents part of a look: `' %s\r\n'` per item, in order. */
  function Contents(t: Tree, cs: seq<Party>): string
  {
    if cs == [] then "" else Contents(t, cs[..|cs| - 1]) + " " + PartyStr(t, cs[|cs| - 1]) + "\r\n"
  }

  /** Each item renders on its own, so a listing of two lists is the two
      listings one after the other. */
  lemma {:induction false} ContentsAppend(t: Tree, a: seq<Party>, b: seq<Party>)
    ensures Contents(t, a + b) == Contents(t, a) + Contents(t, b)
  {
    if b == [] {
      assert a + b == a;
    } else {
      assert (a + b)[..|a + b| - 1] == a + b[..|b| - 1];
      ContentsAppend(t, a, b[..|b| - 1]);
    }
  }

  function KindOf(t: Tree, x: Id): Kind
  {
    if x in t.kind then t.kind[x] else Plain
  }

  /** `hasattr(x, 'soul')`: sprites and gatekeepers set it in `__init__`. */
  predicate HasSoulAttr(t: Tree, x: Id)
  {
    KindOf(t, x) == Sprite || KindOf(t, x) == GateKeeper
  }

  function Cmds(t: Tree, x: Id): map<string, Handler>
  {
    if x in t.cmds then t.cmds[x] else map[]
  }

  /** The parent's child list (the object itself included), or nothing. */
  function Siblings(t: Tree, x: Id): seq<Id>
  {
    match Parent(t, x)
    case None => []
    case Some(p) => Children(t, p)
  }

  /** Every handle the arena mentions is below `next`. */
  ghost predicate Valid(t: Tree)
  {
    && (forall x :: x in t.kind ==> x < t.next)
    && (forall x :: x in t.name ==> x < t.next)
    && (forall x :: x in t.longdesc ==> x < t.next)
    && (forall x :: x in t.parent ==> x < t.next && t.parent[x] < t.next)
    && (forall x :: x in t.children ==> x < t.next && forall y :: y in t.children[x] ==> y < t.next)
    && (forall x :: x in t.cmds ==> x < t.next)
    && (forall x :: x in t.room ==> x < t.next && t.room[x] < t.next)
    && (forall x :: x in t.soul ==> x < t.next && t.soul[x] < t.next)
    && (forall x :: x in t.exits ==> x < t.next)
    && (forall x :: x in t.help ==> x < t.next)
  }

  // ---------------------------------------------------------------------
  // Messaging and containment

  /** The `send` calls of `for o in xs: if o not in omit: o.send(msg)`. */
  function Broadcast(xs: seq<Id>, omit: seq<Id>, msg: string): seq<Event>
  {
    if xs == [] then []
    else
      Broadcast(xs[..|xs| - 1], omit, msg)
      + (if xs[|xs| - 1] in omit then [] else [Sent(xs[|xs| - 1], msg)])
  }

  /** A broadcast reaches exactly the listed objects that are not omitted,
      each with the same message. */
  lemma {:induction false} BroadcastReaches(xs: seq<Id>, omit: seq<Id>, msg: string)
    ensures forall e :: e in Broadcast(xs, omit, msg) <==>
      e.Sent? && e.text == msg && e.to in xs && e.to !in omit
  {
    if xs != [] {
      BroadcastReaches(xs[..|xs| - 1], omit, msg);
      assert xs == xs[..|xs| - 1] + [xs[|xs| - 1]];
    }
  }

  /** With nothing omitted, a broadcast messages every listed object once,
      in list order. */
  lemma {:induction false} BroadcastInOrder(xs: seq<Id>, msg: string)
    ensures |Broadcast(xs, [], msg)| == |xs|
    ensures forall i :: 0 <= i < |xs| ==> Broadcast(xs, [], msg)[i] == Sent(xs[i], msg)
  {
    if xs != [] {
      BroadcastInOrder(xs[..|xs| - 1], msg);
    }
  }

  /** The result of one containment operation: the new arena and the `send`
      calls it made, in order. */
  datatype Step = Step(tree: Tree, out: seq<Event>)

  /** The arena with obj appended to self's children. */
  function Attach(t: Tree, self: Id, obj: Id): Tree
  {
    t.(children := t.children[self := Children(t, self) + [obj]])
  }

  /** The arena with the first occurrence of obj dropped from self's
      children, if there is one. */
  function Detach(t: Tree, self: Id, obj: Id): Tree
  {
    if obj in Children(t, self)
    then t.(children := t.children[self := RemoveFirst(Children(t, self), obj)])
    else t
  }

  /** MudObject.add: tell the current children that obj enters, tell obj it
      entered, then append obj. The parent link is left alone. */
  function AddStep(t: Tree, self: Id, obj: Id): Step
  {
    Step(
      Attach(t, self, obj),
      Broadcast(Children(t, self), [], Str(t, obj) + " enters.")
        + [Sent(obj, "You enter " + Str(t, self))])
  }

  /** MudRoom.add: record the room on obj, then MudObject.add. */
  function RoomAddStep(t: Tree, self: Id, obj: Id): Step
  {
    AddStep(t.(room := t.room[obj := self]), self, obj)
  }

  /** `self.add(obj)`, dispatched on self's class. */
  function DispatchAddStep(t: Tree, self: Id, obj: Id): Step
  {
    if KindOf(t, self) == Room then RoomAddStep(t, self, obj) else AddStep(t, self, obj)
  }

  /** MudObject.remove: drop the first occurrence of obj if there is one,
      tell obj it left in any case, then tell the remaining children. */
  function RemoveStep(t: Tree, self: Id, obj: Id): Step
  {
    var t' := Detach(t, self, obj);
    Step(
      t',
      [Sent(obj, "You have left " + Str(t, self))]
        + Broadcast(Children(t', self), [], Str(t, obj) + " leaves."))
  }

  /** add appends obj as the last child and changes no parent link and no
      other child list; obj is told it entered after everyone else is told. */
  lemma AddAppends(t: Tree, self: Id, obj: Id)
    ensures var s := AddStep(t, self, obj);
      && Children(s.tree, self) == Children(t, self) + [obj]
      && (forall x :: x != self ==> Children(s.tree, x) == Children(t, x))
      && s.tree.parent == t.parent
      && s.out[|s.out| - 1] == Sent(obj, "You enter " + Str(t, self))
  {
  }

  /** A newcomer gets no entrance broadcast: the only message addressed to
      obj is the last one, "You enter ...". */
  lemma {:induction false} AddSkipsNewcomer(t: Tree, self: Id, obj: Id)
    requires obj !in Children(t, self)
    ensures var s := AddStep(t, self, obj);
      forall i :: 0 <= i < |s.out| && SentTo(s.out[i], obj) ==> i == |s.out| - 1
  {
    var b := Broadcast(Children(t, self), [], Str(t, obj) + " enters.");
    BroadcastReaches(Children(t, self), [], Str(t, obj) + " enters.");
    forall i | 0 <= i < |b| ensures !SentTo(b[i], obj) {
      assert b[i] in b;
    }
  }

  lemma {:induction false} RemoveFirstOfAppended(cs: seq<Id>, x: Id)
    requires x !in cs
    ensures RemoveFirst(cs + [x], x) == cs
  {
    if cs != [] {
      assert (cs + [x])[1..] == cs[1..] + [x];
      RemoveFirstOfAppended(cs[1..], x);
    }
  }

  lemma {:induction false} DetachAttached(t: Tree, self: Id, obj: Id)
    requires obj !in Children(t, self)
    ensures var t2 := Detach(Attach(t, self, obj), self, obj);
      && (forall x :: Children(t2, x) == Children(t, x))
      && t2.parent == t.parent
  {
    var cs := Children(t, self);
    var t1 := Attach(t, self, obj);
    assert Children(t1, self) == cs + [obj];
    RemoveFirstOfAppended(cs, obj);
    assert obj in Children(t1, self);
    var t2 := Detach(t1, self, obj);
    assert t2 == t1.(children := t1.children[self := cs]);
    forall x
      ensures Children(t2, x) == Children(t, x)
    {
      if x != self {
        assert Children(t2, x) == Children(t1, x);
      }
    }
  }

  /** add followed by remove of a newcomer gives back every child list and
      every parent link it started with. */
  lemma {:induction false} AddThenRemove(t: Tree, self: Id, obj: Id)
    requires obj !in Children(t, self)
    ensures var t2 := RemoveStep(AddStep(t, self, obj).tree, self, obj).tree;
      && (forall x :: Children(t2, x) == Children(t, x))
      && t2.parent == t.parent
  {
    assert RemoveStep(AddStep(t, self, obj).tree, self, obj).tree == Detach(Attach(t, self, obj), self, obj);
    DetachAttached(t, self, obj);
  }

  /** Removing an object that is not a child changes no child list, yet the
      object is still told that it left. */
  lemma RemoveAbsent(t: Tree, self: Id, obj: Id)
    requires obj !in Children(t, self)
    ensures RemoveStep(t, self, obj).tree == t
    ensures RemoveStep(t, self, obj).out[0] == Sent(obj, "You have left " + Str(t, self))
  {
  }

  /** A child listed once is not among those told that it leaves. */
  lemma {:induction false} RemoveSkipsLeaver(t: Tree, self: Id, obj: Id)
    requires multiset(Children(t, self))[obj] == 1
    ensures var s := RemoveStep(t, self, obj);
      && Children(s.tree, self) == RemoveFirst(Children(t, self), obj)
      && obj !in Children(s.tree, self)
      && s.out[0] == Sent(obj, "You have left " + Str(t, self))
      && forall i :: 1 <= i < |s.out| ==> !SentTo(s.out[i], obj)
  {
    var s := RemoveStep(t, self, obj);
    var rest: seq<Id> := RemoveFirst<Id>(Children(t, self), obj);
    assert obj in Children(t, self);
    assert multiset(rest)[obj] == 0;
    var b := Broadcast(rest, [], Str(t, obj) + " leaves.");
    BroadcastReaches(rest, [], Str(t, obj) + " leaves.");
    forall i | 1 <= i < |s.out| ensures !SentTo(s.out[i], obj) {
      assert s.out[i] == b[i - 1];
      assert b[i - 1] in b;
    }
  }

  /** A new object in the arena: the next free handle. */
  function Spawn(t: Tree, k: Kind, name: string, table: map<string, Handler>, owner: Option<Id>): Tree
  {
    t.(next := t.next + 1,
       kind := t.kind[t.next := k],
       name := t.name[t.next := name],
       cmds := t.cmds[t.next := table],
       soul := if owner.Some? then t.soul[t.next := owner.value] else t.soul)
  }

  /** A spawned object is new: nobody contains it, it has no parent and no
      children, and the arena stays well formed. */
  lemma SpawnIsFresh(t: Tree, k: Kind, name: string, table: map<string, Handler>, owner: Option<Id>)
    requires Valid(t)
    requires owner.Some? ==> owner.value < t.next
    ensures var t' := Spawn(t, k, name, table, owner);
      && Valid(t')
      && Children(t', t.next) == [] && Parent(t', t.next) == None
      && (forall x :: t.next !in Children(t', x))
      && Str(t', t.next) == name
  {
  }

  /** The arena with its `send` log: the only mutable state of the tree. */
  class World {
    var tree: Tree
    var events: seq<Event>

    constructor (t: Tree)
      ensures tree == t && events == []
    {
      tree := t;
      events := [];
    }

    /** msg_children: a non-empty `objs` replaces the child list (an empty
        list is falsy, so it falls back to the children too). */
    method MsgChildren(self: Id, msg: string, omit: seq<Id>, objs: seq<Id>)
      modifies this`events
      ensures events == old(events) + Broadcast(if objs != [] then objs else Children(tree, self), omit, msg)
    {
      var o := if objs != [] then objs else Children(tree, self);
      var i := 0;
      while i < |o|
        invariant 0 <= i <= |o|
        invariant events == old(events) + Broadcast(o[..i], omit, msg)
      {
        if o[i] !in omit {
          events := events + [Sent(o[i], msg)];
        }
        assert o[..i + 1][..i] == o[..i];
        i := i + 1;
      }
      assert o[..|o|] == o;
    }

    /** MudObject.add. */
    method Add(self: Id, obj: Id)
      modifies this
      ensures tree == AddStep(old(tree), self, obj).tree
      ensures events == old(events) + AddStep(old(tree), self, obj).out
    {
      MsgChildren(self, Str(tree, obj) + " enters.", [], []);
      events := events + [Sent(obj, "You enter " + Str(tree, self))];
      tree := tree.(children := tree.children[self := Children(tree, self) + [obj]]);
    }

    /** MudRoom.add. */
    method RoomAdd(self: Id, obj: Id)
      modifies this
      ensures tree == RoomAddStep(old(tree), self, obj).tree
      ensures events == old(events) + RoomAddStep(old(tree), self, obj).out
    {
      tree := tree.(room := tree.room[obj := self]);
      Add(self, obj);
    }

    /** `self.add(obj)` on an object of either class. */
    method DispatchAdd(self: Id, obj: Id)
      modifies this
      ensures tree == DispatchAddStep(old(tree), self, obj).tree
      ensures events == old(events) + DispatchAddStep(old(tree), self, obj).out
    {
      if KindOf(tree, self) == Room {
        RoomAdd(self, obj);
      } else {
        Add(self, obj);
      }
    }

    /** MudObject.remove. */
    method Remove(self: Id, obj: Id)
      modifies this
      ensures tree == RemoveStep(old(tree), self, obj).tree
      ensures events == old(events) + RemoveStep(old(tree), self, obj).out
    {
      var name := Str(tree, self);
      var objName := Str(tree, obj);
      if obj in Children(tree, self) {
        tree := tree.(children := tree.children[self := RemoveFirst(Children(tree, self), obj)]);
      }
      events := events + [Sent(obj, "You have left " + name)];
      MsgChildren(self, objName + " leaves.", [], []);
    }

    /** The login block of SoulGateKeeper.do_cmd. */
    method EnterWorld(soul: Id, login: string, password: string, start: Id)
      modifies this
      ensures tree == LoginStep(old(tree), soul, login, password, start).tree
      ensures events == old(events) + LoginStep(old(tree), soul, login, password, start).out
    {
      ghost var t0, e0 := tree, events;
      events := events + Greeting(soul, login, password);
      var body := NewObject(Sprite, login, PlayerCmds, Some(soul));
      tree := tree.(parent := tree.parent[soul := body]);
      assert tree == Embody(t0, soul, login);
      DispatchAdd(start, body);
      AppendAssociative(e0, Greeting(soul, login, password), DispatchAddStep(Embody(t0, soul, login), start, body).out);
      tree := tree.(parent := tree.parent[body := start]);
    }

    /** `p.send(msg)` on whatever p holds. */
    method SendTo(p: Party, msg: string) returns (raised: bool)
      modifies this`events
      ensures events == old(events) + Deliver(p, msg).out && raised == Deliver(p, msg).raised
    {
      if p.Obj? {
        events := events + [Sent(p.id, msg)];
        raised := false;
      } else {
        raised := true;
      }
    }

    /** `for p in ps: p.send(msg)`. */
    method SendEach(ps: seq<Party>, msg: string) returns (raised: bool)
      modifies this`events
      ensures events == old(events) + DeliverAll(ps, msg).out && raised == DeliverAll(ps, msg).raised
    {
      var i := 0;
      raised := false;
      while i < |ps|
        invariant 0 <= i <= |ps|
        invariant events == old(events) + DeliverAll(ps[..i], msg).out
        invariant DeliverAll(ps[..i], msg).raised == false
      {
        assert ps[..i + 1][..i] == ps[..i];
        raised := SendTo(ps[i], msg);
        if raised {
          DeliverAllStops(ps, i + 1, msg);
          return;
        }
        i := i + 1;
      }
      assert ps[..i] == ps;
    }

    /** `if p and msg: p.send(msg)`. */
    method SendSlot(p: Party, msg: Option<string>) returns (raised: bool)
      modifies this`events
      ensures events == old(events) + SendIf(p, msg).out && raised == SendIf(p, msg).raised
    {
      raised := false;
      if PartyTruthy(p) && Said(msg) {
        raised := SendTo(p, msg.value);
      }
    }

    /** `for p in <property>: p.send(msg)`, when msg is set. */
    method SendFan(ps: Result<seq<Party>>, msg: Option<string>) returns (raised: bool)
      modifies this`events
      ensures var f := if Said(msg) then Fan(ps, msg.value) else Done;
        events == old(events) + f.out && raised == f.raised
    {
      raised := false;
      if Said(msg) {
        if ps.Raised? {
          return true;
        }
        raised := SendEach(ps.value, msg.value);
      }
    }

    /** Construction of a new object of the given class. */
    method NewObject(k: Kind, name: string, table: map<string, Handler>, owner: Option<Id>) returns (id: Id)
      modifies this`tree
      ensures id == old(tree.next)
      ensures tree == Spawn(old(tree), k, name, table, owner)
    {
      id := tree.next;
      tree := Spawn(tree, k, name, table, owner);
    }
  }

  // ---------------------------------------------------------------------
  // The verb resolver

  /** _parse_cmd: split at the first single space. The verb holds no space;
      the rest keeps every later space; without a space the rest is empty. */
  function ParseCmd(input: string): (r: (string, string))
    ensures ' ' !in r.0
    ensures ' ' in input ==> r.0 + " " + r.1 == input
    ensures ' ' !in input ==> r == (input, "")
  {
    if input == [] then ("", "")
    else if input[0] == ' ' then ("", input[1..])
    else
      var (verb, rest) := ParseCmd(input[1..]);
      assert input == [input[0]] + input[1..];
      ([input[0]] + verb, rest)
  }

  /** valid_cmd: the object's own `cmds` table, or any verb at all for a
      gatekeeper. The sibling/parent/children tables are never consulted. */
  predicate ValidCmd(t: Tree, x: Id, verb: string)
  {
    KindOf(t, x) == GateKeeper || verb in Cmds(t, x)
  }

  /** The position of the first object in xs that accepts the verb. */
  function FirstAccepting(t: Tree, xs: seq<Id>, verb: string): (r: Option<nat>)
    ensures r.None? <==> forall i :: 0 <= i < |xs| ==> !ValidCmd(t, xs[i], verb)
    ensures r.Some? ==>
      && r.value < |xs| && ValidCmd(t, xs[r.value], verb)
      && forall j :: 0 <= j < r.value ==> !ValidCmd(t, xs[j], verb)
  {
    if xs == [] then None
    else if ValidCmd(t, xs[0], verb) then Some(0)
    else
      var r := FirstAccepting(t, xs[1..], verb);
      if r.None? then None else Some(r.value + 1)
  }

  /** A call `owner.do_cmd(issuer, verb, arg)` the resolver makes. */
  datatype Dispatch = Dispatch(owner: Id, verb: string, arg: string)

  function DispatchAt(xs: seq<Id>, at: Option<nat>, verb: string, arg: string): seq<Dispatch>
    requires at.Some? ==> at.value < |xs|
  {
    if at.Some? then [Dispatch(xs[at.value], verb, arg)] else []
  }

  /** process_cmd: the do_cmd calls it makes, in order. Self, then parent;
      if neither accepts, the first accepting child AND the first accepting
      sibling (the search of siblings is not skipped after a child matched). */
  function ProcessCmd(t: Tree, issuer: Id, input: string): (r: seq<Dispatch>)
    ensures |r| <= 2
    ensures forall d :: d in r ==> ValidCmd(t, d.owner, d.verb) && (d.verb, d.arg) == ParseCmd(input)
  {
    var (verb, arg) := ParseCmd(input);
    if ValidCmd(t, issuer, verb) then [Dispatch(issuer, verb, arg)]
    else if Parent(t, issuer).Some? && ValidCmd(t, Parent(t, issuer).value, verb) then
      [Dispatch(Parent(t, issuer).value, verb, arg)]
    else
      DispatchAt(Children(t, issuer), FirstAccepting(t, Children(t, issuer), verb), verb, arg)
        + DispatchAt(Siblings(t, issuer), FirstAccepting(t, Siblings(t, issuer), verb), verb, arg)
  }

  /** The `do_cmd` calls process_cmd gets through, and whether one raised. */
  datatype Calls = Calls(made: seq<Dispatch>, raised: bool)

  /** The dispatches are called in order, and the first that raises ends
      process_cmd: nothing after it is called. Which calls raise is not read
      off the tree; `raising` names them. */
  function CallsUntilRaise(ds: seq<Dispatch>, raising: set<Dispatch>): (r: Calls)
    ensures |r.made| <= |ds| && r.made == ds[..|r.made|]
    ensures r.raised <==> exists i :: 0 <= i < |ds| && ds[i] in raising
    ensures !r.raised ==> r.made == ds
    ensures r.raised ==>
      && |r.made| > 0 && r.made[|r.made| - 1] in raising
      && forall j :: 0 <= j < |r.made| - 1 ==> r.made[j] !in raising
    decreases |ds|
  {
    if ds == [] then Calls([], false)
    else if ds[0] in raising then Calls([ds[0]], true)
    else
      var rest := CallsUntilRaise(ds[1..], raising);
      assert (exists i :: 0 <= i < |ds| && ds[i] in raising) <==> (exists i :: 0 <= i < |ds[1..]| && ds[1..][i] in raising) by {
        if exists i :: 0 <= i < |ds| && ds[i] in raising {
          var i :| 0 <= i < |ds| && ds[i] in raising;
          assert ds[1..][i - 1] == ds[i];
        }
      }
      Calls([ds[0]] + rest.made, rest.raised)
  }

  /** process_cmd with its exceptions: the dispatches, cut at the first
      `do_cmd` that raises. */
  function ProcessRun(t: Tree, issuer: Id, input: string, raising: set<Dispatch>): Calls
  {
    CallsUntilRaise(ProcessCmd(t, issuer, input), raising)
  }

  /** No object of the search accepts the verb exactly when nothing is
      dispatched: an unknown verb makes no call at all. */
  lemma UnknownVerbDoesNothing(t: Tree, issuer: Id, input: string)
    ensures var verb := ParseCmd(input).0;
      ProcessCmd(t, issuer, input) == [] <==>
        && !ValidCmd(t, issuer, verb)
        && (Parent(t, issuer).Some? ==> !ValidCmd(t, Parent(t, issuer).value, verb))
        && (forall c :: c in Children(t, issuer) ==> !ValidCmd(t, c, verb))
        && (forall s :: s in Siblings(t, issuer) ==> !ValidCmd(t, s, verb))
  {
    var (verb, arg) := ParseCmd(input);
    var cs, ss := Children(t, issuer), Siblings(t, issuer);
    var fc, fs := FirstAccepting(t, cs, verb), FirstAccepting(t, ss, verb);
    assert (forall c :: c in cs ==> !ValidCmd(t, c, verb)) <==> fc.None?;
    assert (forall s :: s in ss ==> !ValidCmd(t, s, verb)) <==> fs.None?;
    if !ValidCmd(t, issuer, verb) && !(Parent(t, issuer).Some? && ValidCmd(t, Parent(t, issuer).value, verb)) {
      assert ProcessCmd(t, issuer, input) == DispatchAt(cs, fc, verb, arg) + DispatchAt(ss, fs, verb, arg);
    }
  }

  /** The issuer's own table wins over everything; then the parent's. */
  lemma SelfThenParent(t: Tree, issuer: Id, input: string)
    ensures var (verb, arg) := ParseCmd(input);
      && (ValidCmd(t, issuer, verb) ==> ProcessCmd(t, issuer, input) == [Dispatch(issuer, verb, arg)])
      && (!ValidCmd(t, issuer, verb) && Parent(t, issuer).Some? && ValidCmd(t, Parent(t, issuer).value, verb)
          ==> ProcessCmd(t, issuer, input) == [Dispatch(Parent(t, issuer).value, verb, arg)])
  {
  }

  /** When self and parent miss, a verb held by a child and by a sibling is
      dispatched twice: first to the first accepting child, then to the
      first accepting sibling. Both calls are made only when the child's
      does not raise (`ChildRaiseStopsSearch`). */
  lemma {:induction false} ChildAndSiblingBothRun(t: Tree, issuer: Id, input: string, c: nat, s: nat)
    requires var verb := ParseCmd(input).0;
      && !ValidCmd(t, issuer, verb)
      && Parent(t, issuer).Some? && !ValidCmd(t, Parent(t, issuer).value, verb)
      && c < |Children(t, issuer)| && ValidCmd(t, Children(t, issuer)[c], verb)
      && (forall j :: 0 <= j < c ==> !ValidCmd(t, Children(t, issuer)[j], verb))
      && s < |Siblings(t, issuer)| && ValidCmd(t, Siblings(t, issuer)[s], verb)
      && (forall j :: 0 <= j < s ==> !ValidCmd(t, Siblings(t, issuer)[j], verb))
    ensures var (verb, arg) := ParseCmd(input);
      ProcessCmd(t, issuer, input)
        == [Dispatch(Children(t, issuer)[c], verb, arg), Dispatch(Siblings(t, issuer)[s], verb, arg)]
  {
    var verb := ParseCmd(input).0;
    var fc := FirstAccepting(t, Children(t, issuer), verb);
    var fs := FirstAccepting(t, Siblings(t, issuer), verb);
    assert fc == Some(c);
    assert fs == Some(s);
  }

  /** A child's `do_cmd` that raises ends process_cmd before the sibling
      search; otherwise the sibling is called too, and the run raises
      exactly when the sibling's call does. */
  lemma ChildRaiseStopsSearch(t: Tree, issuer: Id, input: string, c: nat, s: nat, raising: set<Dispatch>)
    requires var verb := ParseCmd(input).0;
      && !ValidCmd(t, issuer, verb)
      && Parent(t, issuer).Some? && !ValidCmd(t, Parent(t, issuer).value, verb)
      && c < |Children(t, issuer)| && ValidCmd(t, Children(t, issuer)[c], verb)
      && (forall j :: 0 <= j < c ==> !ValidCmd(t, Children(t, issuer)[j], verb))
      && s < |Siblings(t, issuer)| && ValidCmd(t, Siblings(t, issuer)[s], verb)
      && (forall j :: 0 <= j < s ==> !ValidCmd(t, Siblings(t, issuer)[j], verb))
    ensures var (verb, arg) := ParseCmd(input);
      var child := Dispatch(Children(t, issuer)[c], verb, arg);
      var sibling := Dispatch(Siblings(t, issuer)[s], verb, arg);
      && (child in raising ==> ProcessRun(t, issuer, input, raising) == Calls([child], true))
      && (child !in raising ==> ProcessRun(t, issuer, input, raising) == Calls([child, sibling], sibling in raising))
  {
    ChildAndSiblingBothRun(t, issuer, input, c, s);
    var (verb, arg) := ParseCmd(input);
    var sibling := Dispatch(Siblings(t, issuer)[s], verb, arg);
    assert [sibling][1..] == [];
  }

  /** What `owner.do_cmd(caller, verb, arg)` does. */
  datatype Invocation =
    | Construct(cls: ActionClass, caller: Party, target: Party, trail: Option<string>)  // aC(...).call()
    | CallWith(name: string, arg: string)                        // aC(arg)
    | GateLogin(verb: string)                                    // SoulGateKeeper.do_cmd
    | KeyError                                                   // self.cmds[cmd] fails

  /** do_cmd builds an action class as `aC(arg, self)`: the argument text
      lands in the caller position and the owner in the target position. */
  function DoCmd(t: Tree, owner: Id, caller: Id, verb: string, arg: string): (r: Invocation)
    ensures r.GateLogin? <==> KindOf(t, owner) == GateKeeper
    ensures r.KeyError? <==> !ValidCmd(t, owner, verb)
  {
    if KindOf(t, owner) == GateKeeper then GateLogin(verb)
    else if verb !in Cmds(t, owner) then KeyError
    else match Cmds(t, owner)[verb]
      case Class(c) => Construct(c, Text(arg), Obj(owner), None)
      case Callable(name) => CallWith(name, arg)
  }

  /** The issuer handed to do_cmd is never used, and an action class is
      always built with the argument text as caller and the owner as target. */
  lemma DoCmdDropsIssuer(t: Tree, owner: Id, c1: Id, c2: Id, verb: string, arg: string)
    ensures DoCmd(t, owner, c1, verb, arg) == DoCmd(t, owner, c2, verb, arg)
    ensures DoCmd(t, owner, c1, verb, arg).Construct? ==>
      && DoCmd(t, owner, c1, verb, arg).caller == Text(arg) && DoCmd(t, owner, c1, verb, arg).target == Obj(owner)
      && DoCmd(t, owner, c1, verb, arg).trail == None
  {
  }

  /** do_cmd as its callers evidently mean it: the issuer is the caller,
      the argument text the trail, and there is no target. */
  function IntendedDoCmd(t: Tree, owner: Id, caller: Id, verb: string, arg: string): (r: Invocation)
    ensures r.Construct? ==> r.caller == Obj(caller) && r.target == Nobody && r.trail == Some(arg)
    ensures r.KeyError? <==> !ValidCmd(t, owner, verb)
  {
    match DoCmd(t, owner, caller, verb, arg)
    case Construct(c, _, _, _) => Construct(c, Obj(caller), Nobody, Some(arg))
    case other => other
  }

  // ---------------------------------------------------------------------
  // SoulGateKeeper

  const PasswordPrompt: string := "\U{FF}\U{FB}\U{01}Password: "
  const PlayerCmds: map<string, Handler> := map["look" := Class(Look), "say" := Class(Say)]

  /** The login block: three messages to the soul, a new MudPlayer body
      named after the login, the soul's parent set to the body, the body
      added to the start room and its parent set to that room by hand. */
  function Greeting(soul: Id, login: string, password: string): seq<Event>
  {
    [Sent(soul, ""),
     Sent(soul, "You logged in as " + login + "/" + password),
     Sent(soul, "Logins do not work now, so just exist as a soul without a real body.")]
  }

  /** A new MudPlayer named after the login, owned by the soul, and the
      soul's parent pointed at it. */
  function Embody(t: Tree, soul: Id, login: string): Tree
  {
    var t1 := Spawn(t, Sprite, login, PlayerCmds, Some(soul));
    t1.(parent := t1.parent[soul := t.next])
  }

  function LoginStep(t: Tree, soul: Id, login: string, password: string, start: Id): Step
  {
    var s := DispatchAddStep(Embody(t, soul, login), start, t.next);
    Step(s.tree.(parent := s.tree.parent[t.next := start]), Greeting(soul, login, password) + s.out)
  }

  /** Adding changes one child list and no parent link, name or table. */
  lemma DispatchAddKeeps(t: Tree, self: Id, obj: Id)
    ensures var u := DispatchAddStep(t, self, obj).tree;
      && u.parent == t.parent && u.name == t.name && u.cmds == t.cmds
      && Children(u, self) == Children(t, self) + [obj]
      && (forall x :: x != self ==> Children(u, x) == Children(t, x))
  {
    var t0 := if KindOf(t, self) == Room then t.(room := t.room[obj := self]) else t;
    assert DispatchAddStep(t, self, obj).tree == Attach(t0, self, obj);
    assert Children(t0, self) == Children(t, self);
    assert forall x :: Children(Attach(t0, self, obj), x) == if x == self then Children(t, self) + [obj] else Children(t, x);
  }

  /** The new body is fresh and linked from the soul. */
  lemma EmbodyFresh(t: Tree, soul: Id, login: string)
    requires Valid(t) && soul < t.next
    ensures var u := Embody(t, soul, login);
      && Parent(u, soul) == Some(t.next)
      && (forall x :: Children(u, x) == Children(t, x))
      && (forall x :: t.next !in Children(u, x))
      && Str(u, t.next) == login && Cmds(u, t.next) == PlayerCmds
  {
    SpawnIsFresh(t, Sprite, login, PlayerCmds, Some(soul));
  }

  /** The links a login makes: the soul to its body, the body to the
      start room, and the body as that room's last child and no other's. */
  lemma LoginStepParents(t: Tree, soul: Id, login: string, password: string, start: Id)
    requires Valid(t) && soul < t.next && start < t.next
    ensures var s := LoginStep(t, soul, login, password, start); var body := t.next;
      && Parent(s.tree, soul) == Some(body)
      && Parent(s.tree, body) == Some(start)
      && Children(s.tree, start) == Children(t, start) + [body]
      && (forall x :: x != start ==> body !in Children(s.tree, x))
  {
    var u := Embody(t, soul, login);
    var body := t.next;
    EmbodyFresh(t, soul, login);
    DispatchAddKeeps(u, start, body);
    var u2 := DispatchAddStep(u, start, body).tree;
    var v := u2.(parent := u2.parent[body := start]);
    assert LoginStep(t, soul, login, password, start).tree == v;
    assert Parent(v, soul) == Parent(u, soul);
    assert forall x :: Children(v, x) == Children(u2, x);
  }

  /** The body a login makes is named after the login and answers the
      player's commands; the soul first hears the greeting. */
  lemma LoginStepBody(t: Tree, soul: Id, login: string, password: string, start: Id)
    requires Valid(t) && soul < t.next && start < t.next
    ensures var s := LoginStep(t, soul, login, password, start); var body := t.next;
      && Str(s.tree, body) == login
      && Cmds(s.tree, body) == PlayerCmds
      && |s.out| >= 3 && s.out[..3] == Greeting(soul, login, password)
  {
    var u := Embody(t, soul, login);
    EmbodyFresh(t, soul, login);
    DispatchAddKeeps(u, start, t.next);
  }

  /** After the login block the soul is embodied in a new object named after
      the login, which is the start room's last child and whose parent is
      that room; no other object contains the body, and the soul first
      hears the three greeting lines. */
  lemma {:induction false} LoginStepLinks(t: Tree, soul: Id, login: string, password: string, start: Id)
    requires Valid(t) && soul < t.next && start < t.next
    ensures var s := LoginStep(t, soul, login, password, start); var body := t.next;
      && Parent(s.tree, soul) == Some(body)
      && Parent(s.tree, body) == Some(start)
      && Children(s.tree, start) == Children(t, start) + [body]
      && (forall x :: x != start ==> body !in Children(s.tree, x))
      && Str(s.tree, body) == login
      && Cmds(s.tree, body) == PlayerCmds
      && s.out[..3] == Greeting(soul, login, password)
  {
    LoginStepParents(t, soul, login, password, start);
    LoginStepBody(t, soul, login, password, start);
  }

  /** SoulGateKeeper: accepts every verb; the first non-empty input is the
      login, the next the password; once both are set every call runs the
      login block. */
  class GateKeeper {
    const soul: Id
    var login: Option<string>
    var password: Option<string>

    constructor (soul: Id)
      ensures this.soul == soul && login == None && password == None
    {
      this.soul := soul;
      login := None;
      password := None;
    }

    method DoCmd(w: World, start: Id, verb: string) returns (handled: bool)
      modifies this, w
      ensures handled
      ensures login == (if verb != "" && old(login).None? then Some(verb) else old(login))
      ensures password ==
        (if verb != "" && old(login).Some? && old(password).None? then Some(verb) else old(password))
      ensures var prompt := if verb != "" && old(login).None? then [Wrote(soul, PasswordPrompt)] else [];
        if login.Some? && password.Some? then
          var s := LoginStep(old(w.tree), soul, login.value, password.value, start);
          w.tree == s.tree && w.events == old(w.events) + prompt + s.out
        else
          w.tree == old(w.tree) && w.events == old(w.events) + prompt
    {
      ghost var prompt: seq<Event> := [];
      if verb != "" {
        if login.None? {
          login := Some(verb);
          prompt := [Wrote(soul, PasswordPrompt)];
          w.events := w.events + [Wrote(soul, PasswordPrompt)];
        } else if password.None? {
          password := Some(verb);
        }
      }
      if login.Some? && password.Some? {
        var name, secret := login.value, password.value;
        w.EnterWorld(soul, name, secret, start);
        AppendAssociative(old(w.events), prompt, LoginStep(old(w.tree), soul, name, secret, start).out);
      }
      handled := true;
    }
  }

  // ---------------------------------------------------------------------
  // Soul: the connection side

  /** The connection state of a Soul: the unterminated text carried between
      reads and every byte written to the socket. */
  class Soul {
    var rawq: string
    var wire: string

    constructor ()
      ensures rawq == "" && wire == ""
    {
      rawq := "";
      wire := "";
    }

    /** The splitting part of recv over the bytes just read: the carried
        text is scanned first, complete lines are returned, the unterminated
        rest is carried, and each IAC DO TIMING-MARK is answered. */
    method Recv(data: string) returns (lines: seq<string>)
      modifies this
      ensures var s := Telnet.Scan(old(rawq) + data);
        && lines == s.lines
        && rawq == s.line
        && wire == old(wire) + Telnet.Replies(s.replies)
    {
      var leftover, replies;
      lines, leftover, replies := Telnet.Split(rawq + data);
      rawq := leftover;
      wire := wire + Telnet.Replies(replies);
    }

    /** send: frame the message for the telnet client. */
    method Send(msg: string, newline: bool)
      modifies this`wire
      ensures wire == old(wire) + Telnet.Frame(msg, newline)
    {
      wire := wire + Telnet.WillEcho + msg;
      if newline && !Telnet.EndsWithCrlf(msg) {
        wire := wire + "\r\n";
      }
      wire := wire + Telnet.WontEcho;
    }
  }
}
