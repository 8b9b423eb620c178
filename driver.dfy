/** runner.py: MudDriver, the single consumer of the command queue, and the
    running flag of MudRunner.

    What a queued command does to the world is the business of that
    command (Commands.CallNow); the driver only sees whether calling it
    raises, so that is part of each queued entry. Wall-clock readings are
    integers passed in, one per pass. */
module Driver {
  import opened Base
  import opened MudObjects
  import Telnet

  /** What a `sender` attribute holds: nothing, a soul, another object, or
      (as Soul.loop passes it as written) a line of text. */
  datatype Sender = NoSender | SoulSender(soul: Id) | ObjSender(obj: Id) | TextSender(text: string)

  predicate SenderTruthy(s: Sender)
  {
    match s
    case NoSender => false
    case TextSender(x) => x != ""
    case _ => true
  }

  /** A queue entry: a command object, whose call raises or not, or the
      soul itself (as Soul.loop queues it as written) with its `sender`
      attribute, None while it was never set. */
  datatype Entry =
    | Command(name: string, raises: bool, sender: Sender)
    | SoulEntry(soul: Id, attr: Option<Sender>)

  /** What draining leaves behind: a command was called, a sender was told
      of a failure, a soul was prompted, `_end` ran. */
  datatype Note = Ran(name: string) | Told(to: Id, msg: string) | Prompted(soul: Id) | Ended

  const SeriousError := "A serious error has occurred!"

  /** What Q makes of the entry: a truthy sender becomes `cmd.sender`, a
      falsy one leaves the entry as it was. */
  function Queued(e: Entry, sender: Sender): (r: Entry)
    ensures !SenderTruthy(sender) ==> r == e
    ensures SenderTruthy(sender) && e.Command? ==> r == Command(e.name, e.raises, sender)
    ensures SenderTruthy(sender) && e.SoulEntry? ==> r == SoulEntry(e.soul, Some(sender))
  {
    if !SenderTruthy(sender) then e
    else match e
      case Command(n, x, _) => Command(n, x, sender)
      case SoulEntry(s, _) => SoulEntry(s, Some(sender))
  }

  // ---------------------------------------------------------------------
  // One pass of _action, as functions

  /** One turn of the drain loop: what it leaves, and whether an exception
      escapes `_action`. */
  datatype Turn = Turn(notes: seq<Note>, escapes: bool)

  /** The except clause: `if cmd.sender: cmd.sender.send(...)`. A text has
      no `send`, so telling it raises out of the handler. */
  function Blame(s: Sender): Turn
  {
    match s
    case NoSender => Turn([], false)
    case SoulSender(x) => Turn([Told(x, SeriousError)], false)
    case ObjSender(x) => Turn([Told(x, SeriousError)], false)
    case TextSender(x) => Turn([], x != "")
  }

  /** One popped entry: call it; on success prompt a Soul sender; on
      failure blame the sender. A soul is not callable, and reading its
      unset `sender` attribute raises inside the handler. */
  function Handle(e: Entry): Turn
  {
    match e
    case Command(n, raises, s) =>
      if !raises then Turn([Ran(n)] + (if s.SoulSender? then [Prompted(s.soul)] else []), false)
      else
        var b := Blame(s);
        Turn([Ran(n)] + b.notes, b.escapes)
    case SoulEntry(_, attr) =>
      match attr
      case None => Turn([], true)
      case Some(s) => Blame(s)
  }

  /** The drain loop of `_action`: the notes, what is left queued, and
      whether an exception escaped (which leaves the rest queued). */
  datatype Pass = Pass(notes: seq<Note>, left: seq<Entry>, escapes: bool)

  function Drain(q: seq<Entry>): (r: Pass)
    ensures !r.escapes ==> r.left == []
    ensures r.escapes ==> |r.left| < |q|
  {
    if q == [] then Pass([], [], false)
    else
      var t := Handle(q[0]);
      if t.escapes then Pass(t.notes, q[1..], true)
      else
        var p := Drain(q[1..]);
        Pass(t.notes + p.notes, p.left, p.escapes)
  }

  /** One pass of the drain loop, seen from the notes already written:
      popping `q[0]` either escapes with the rest queued or leaves the
      remainder to drain. */
  lemma DrainStep(q: seq<Entry>, done: seq<Note>)
    requires q != []
    ensures var t := Handle(q[0]);
      t.escapes ==> Pass(done + t.notes, q[1..], true) == Pass(done + Drain(q).notes, Drain(q).left, Drain(q).escapes)
    ensures var t := Handle(q[0]);
      var p := Drain(q[1..]);
      !t.escapes ==> Pass((done + t.notes) + p.notes, p.left, p.escapes) == Pass(done + Drain(q).notes, Drain(q).left, Drain(q).escapes)
  {
    var t := Handle(q[0]);
    if !t.escapes {
      assert (done + t.notes) + Drain(q[1..]).notes == done + (t.notes + Drain(q[1..]).notes);
    }
  }

  /** The names of the commands called, in order. */
  function Runs(notes: seq<Note>): seq<string>
  {
    if notes == [] then []
    else (if notes[0].Ran? then [notes[0].name] else []) + Runs(notes[1..])
  }

  lemma {:induction false} RunsConcat(a: seq<Note>, b: seq<Note>)
    ensures Runs(a + b) == Runs(a) + Runs(b)
  {
    if a == [] {
      assert a + b == b;
    } else {
      assert (a + b)[0] == a[0];
      assert (a + b)[1..] == a[1..] + b;
      RunsConcat(a[1..], b);
    }
  }

  /** The names of the queued commands, in queue order. */
  function Names(q: seq<Entry>): seq<string>
  {
    if q == [] then [] else (if q[0].Command? then [q[0].name] else []) + Names(q[1..])
  }

  /** An entry whose turn cannot escape: a command whose sender, if it is
      told anything, can take it. */
  predicate Safe(e: Entry)
  {
    e.Command? && !e.sender.TextSender?
  }

  // ---------------------------------------------------------------------
  // Properties of a pass

  /** Draining a queue in two halves: when the first half lets nothing
      escape, the second half is drained after it as if on its own. */
  lemma {:induction false} DrainAppend(a: seq<Entry>, b: seq<Entry>)
    requires !Drain(a).escapes
    ensures Drain(a + b) == Pass(Drain(a).notes + Drain(b).notes, Drain(b).left, Drain(b).escapes)
  {
    if a == [] {
      assert a + b == b;
    } else {
      assert (a + b)[0] == a[0];
      assert (a + b)[1..] == a[1..] + b;
      DrainAppend(a[1..], b);
      AppendAssociative(Handle(a[0]).notes, Drain(a[1..]).notes, Drain(b).notes);
    }
  }

  /** Draining a queue of safe commands calls every one of them exactly
      once, oldest first, lets nothing escape and empties the queue. */
  lemma {:induction false} DrainInOrder(q: seq<Entry>)
    requires forall i :: 0 <= i < |q| ==> Safe(q[i])
    ensures !Drain(q).escapes && Drain(q).left == []
    ensures Runs(Drain(q).notes) == Names(q)
  {
    if q != [] {
      DrainInOrder(q[1..]);
      var t := Handle(q[0]);
      RunsOfTurn(q[0]);
      assert q[1..] == q[1..];
      RunsConcat(t.notes, Drain(q[1..]).notes);
    }
  }

  /** A safe entry's turn calls exactly its command. */
  lemma RunsOfTurn(e: Entry)
    requires Safe(e)
    ensures !Handle(e).escapes && Runs(Handle(e).notes) == [e.name]
  {
    var n := Ran(e.name);
    var t := Handle(e);
    assert Runs([n]) == [e.name] by {
      assert [n][1..] == [];
    }
    if |t.notes| == 2 {
      var y := t.notes[1];
      assert t.notes == [n, y] && !y.Ran?;
      assert [n, y][1..] == [y] && [y][1..] == [];
      assert Runs([y]) == [];
    }
  }

  /** An entry that lets nothing escape, followed by a queue: its notes,
      then the queue's. */
  lemma DrainCons(e: Entry, b: seq<Entry>)
    requires !Handle(e).escapes
    ensures Drain([e] + b) == Pass(Handle(e).notes + Drain(b).notes, Drain(b).left, Drain(b).escapes)
  {
    assert ([e] + b)[0] == e && ([e] + b)[1..] == b;
  }

  /** A command that raises does not stop the drain: its sender (a soul or
      an object) is told of the error, and the queue behind it is drained
      as if it had not been there. */
  lemma FailureIsolated(a: seq<Entry>, name: string, x: Id, soul: bool, b: seq<Entry>)
    requires !Drain(a).escapes
    ensures var e := Command(name, true, if soul then SoulSender(x) else ObjSender(x));
      Drain(a + [e] + b)
        == Pass(Drain(a).notes + [Ran(name), Told(x, SeriousError)] + Drain(b).notes, Drain(b).left, Drain(b).escapes)
  {
    var e := Command(name, true, if soul then SoulSender(x) else ObjSender(x));
    var told := [Ran(name), Told(x, SeriousError)];
    assert Handle(e) == Turn(told, false);
    DrainCons(e, b);
    DrainAppend(a, [e] + b);
    AppendAssociative(Drain(a).notes, told, Drain(b).notes);
    AppendAssociative(a, [e], b);
  }

  /** A soul is prompted by a turn exactly when that turn called a command
      that returned and whose sender is that soul. */
  lemma PromptOnlyAfterSuccess(e: Entry, s: Id)
    ensures Prompted(s) in Handle(e).notes <==> e.Command? && !e.raises && e.sender == SoulSender(s)
  {
  }

  /** A sender is told of an error exactly when the call raised and the
      sender is a soul or an object. */
  lemma ToldOnlyAfterFailure(e: Entry, x: Id, msg: string)
    ensures e.Command? ==>
      (Told(x, msg) in Handle(e).notes <==>
         e.raises && msg == SeriousError && (e.sender == SoulSender(x) || e.sender == ObjSender(x)))
  {
  }

  // ---------------------------------------------------------------------
  // What Soul.loop queues

  /** A `sender` attribute a turn cannot survive: never set, or a
      non-empty line of text, which has no `send`. */
  predicate Unsendable(attr: Option<Sender>)
  {
    attr.None? || (attr.value.TextSender? && attr.value.text != "")
  }

  /** Soul.loop as written (MudObjects.py:403): `self.driver.Q(self, cmd)`
      passes the soul where Q expects the command and the stripped line
      where it expects the sender, so each line queues the soul itself and,
      when the line is not empty, sets the soul's `sender` to the line.
      `attr` is that attribute before the first line. */
  function AsWritten(soul: Id, lines: seq<string>, attr: Option<Sender>): (r: seq<Entry>)
    ensures |r| == |lines|
    ensures forall i :: 0 <= i < |r| ==> r[i].SoulEntry? && r[i].soul == soul
    decreases |lines|
  {
    if lines == [] then []
    else
      var e := Queued(SoulEntry(soul, attr), TextSender(Telnet.Strip(lines[0])));
      [e] + AsWritten(soul, lines[1..], e.attr)
  }

  /** The loop as evidently intended: each stripped line is queued as a
      command from the soul, in order; `raises[i]` is whether calling the
      i-th one raises. */
  function Intended(soul: Id, lines: seq<string>, raises: seq<bool>): (r: seq<Entry>)
    requires |raises| == |lines|
    ensures |r| == |lines|
    ensures forall i :: 0 <= i < |r| ==> r[i] == Command(Telnet.Strip(lines[i]), raises[i], SoulSender(soul))
    decreases |lines|
  {
    if lines == [] then []
    else [Command(Telnet.Strip(lines[0]), raises[0], SoulSender(soul))] + Intended(soul, lines[1..], raises[1..])
  }

  /** As written, no line ever gets through: the soul's `sender` attribute
      stays unsendable, so every queued entry escapes `_action`. */
  lemma {:induction false} AsWrittenAllEscape(soul: Id, lines: seq<string>, attr: Option<Sender>)
    requires Unsendable(attr)
    ensures forall i :: 0 <= i < |lines| ==> Unsendable(AsWritten(soul, lines, attr)[i].attr)
    ensures forall i :: 0 <= i < |lines| ==> Handle(AsWritten(soul, lines, attr)[i]) == Turn([], true)
  {
    if lines != [] {
      var r := AsWritten(soul, lines, attr);
      var e := Queued(SoulEntry(soul, attr), TextSender(Telnet.Strip(lines[0])));
      AsWrittenAllEscape(soul, lines[1..], e.attr);
      assert r == [e] + AsWritten(soul, lines[1..], e.attr);
      forall i | 0 <= i < |lines|
        ensures Unsendable(r[i].attr) && Handle(r[i]) == Turn([], true)
      {
        if i > 0 {
          assert r[i] == AsWritten(soul, lines[1..], e.attr)[i - 1];
        }
      }
    }
  }

  /** Counterexample: the soul types one command, `say hi`, behind a queue
      that drains cleanly. The pass runs the queue ahead of it, then the
      soul entry escapes with nothing called, nothing told and no prompt. */
  lemma AsWrittenLosesCommand(soul: Id, ahead: seq<Entry>)
    requires !Drain(ahead).escapes
    ensures Drain(ahead + AsWritten(soul, ["say hi\r"], None)) == Pass(Drain(ahead).notes, [], true)
    ensures Runs(Drain(ahead + AsWritten(soul, ["say hi\r"], None)).notes) == Runs(Drain(ahead).notes)
  {
    var q := AsWritten(soul, ["say hi\r"], None);
    AsWrittenAllEscape(soul, ["say hi\r"], None);
    assert |q| == 1 && Handle(q[0]) == Turn([], true);
    assert Drain(q) == Pass([], [], true);
    DrainAppend(ahead, q);
    assert Drain(ahead).notes + [] == Drain(ahead).notes;
  }

  /** The corrected loop queues one more line at the tail. */
  lemma {:induction false} IntendedSnoc(soul: Id, lines: seq<string>, raises: seq<bool>, line: string, raised: bool)
    requires |raises| == |lines|
    ensures Intended(soul, lines + [line], raises + [raised])
      == Intended(soul, lines, raises) + [Command(Telnet.Strip(line), raised, SoulSender(soul))]
  {
    var l := Intended(soul, lines + [line], raises + [raised]);
    var r := Intended(soul, lines, raises) + [Command(Telnet.Strip(line), raised, SoulSender(soul))];
    assert |l| == |r|;
    forall i | 0 <= i < |l| ensures l[i] == r[i] {
      if i < |lines| {
        assert (lines + [line])[i] == lines[i];
        assert (raises + [raised])[i] == raises[i];
      }
    }
  }

  /** One turn of the as-written loop: queueing the i-th line leaves the
      rest of the lines to queue. */
  lemma AsWrittenStep(q: seq<Entry>, soul: Id, lines: seq<string>, i: nat, attr: Option<Sender>)
    requires i < |lines|
    ensures var e := Queued(SoulEntry(soul, attr), TextSender(Telnet.Strip(lines[i])));
      (q + [e]) + AsWritten(soul, lines[i + 1..], e.attr) == q + AsWritten(soul, lines[i..], attr)
  {
    var e := Queued(SoulEntry(soul, attr), TextSender(Telnet.Strip(lines[i])));
    assert lines[i..][1..] == lines[i + 1..];
    assert AsWritten(soul, lines[i..], attr) == [e] + AsWritten(soul, lines[i + 1..], e.attr);
  }

  /** One turn of the corrected loop: queueing the i-th line extends the
      queue of the first i. */
  lemma IntendedStep(q0: seq<Entry>, q: seq<Entry>, soul: Id, lines: seq<string>, raises: seq<bool>, i: nat)
    requires |raises| == |lines| && i < |lines|
    requires q == q0 + Intended(soul, lines[..i], raises[..i])
    ensures q + [Command(Telnet.Strip(lines[i]), raises[i], SoulSender(soul))]
      == q0 + Intended(soul, lines[..i + 1], raises[..i + 1])
  {
    assert lines[..i + 1] == lines[..i] + [lines[i]];
    assert raises[..i + 1] == raises[..i] + [raises[i]];
    IntendedSnoc(soul, lines[..i], raises[..i], lines[i], raises[i]);
  }

  /** The stripped lines, in the order typed. */
  function Stripped(lines: seq<string>): (r: seq<string>)
    ensures |r| == |lines| && forall i :: 0 <= i < |r| ==> r[i] == Telnet.Strip(lines[i])
  {
    seq(|lines|, i requires 0 <= i < |lines| => Telnet.Strip(lines[i]))
  }

  /** The corrected loop queues exactly the commands typed, in order. */
  lemma {:induction false} NamesOfIntended(soul: Id, lines: seq<string>, raises: seq<bool>)
    requires |raises| == |lines|
    ensures Names(Intended(soul, lines, raises)) == Stripped(lines)
    decreases |lines|
  {
    if lines != [] {
      var q := Intended(soul, lines, raises);
      NamesOfIntended(soul, lines[1..], raises[1..]);
      assert q[1..] == Intended(soul, lines[1..], raises[1..]);
      assert Names(q) == [q[0].name] + Names(q[1..]);
      StrippedCons(lines);
    }
  }

  lemma StrippedCons(lines: seq<string>)
    requires lines != []
    ensures Stripped(lines) == [Telnet.Strip(lines[0])] + Stripped(lines[1..])
  {
    MapCons(Telnet.Strip, lines, Stripped(lines), Stripped(lines[1..]));
  }

  /** A pointwise image of a non-empty sequence is the head's image
      followed by the image of the tail. */
  lemma MapCons<A, B>(f: A -> B, xs: seq<A>, ys: seq<B>, zs: seq<B>)
    requires |xs| > 0 && |ys| == |xs| && |zs| == |xs| - 1
    requires forall i :: 0 <= i < |xs| ==> ys[i] == f(xs[i])
    requires forall i :: 0 <= i < |zs| ==> zs[i] == f(xs[1..][i])
    ensures ys == [f(xs[0])] + zs
  {
    forall i | 1 <= i < |ys|
      ensures ys[i] == zs[i - 1]
    {
      assert xs[1..][i - 1] == xs[i];
    }
  }

  /** With the corrected loop every line a soul types is called, in the
      order typed, whether or not it raises; nothing escapes and the queue
      is left empty. */
  lemma IntendedRunsEveryLine(soul: Id, lines: seq<string>, raises: seq<bool>)
    requires |raises| == |lines|
    ensures var p := Drain(Intended(soul, lines, raises));
      !p.escapes && p.left == [] && Runs(p.notes) == Stripped(lines)
  {
    var q := Intended(soul, lines, raises);
    assert forall i :: 0 <= i < |q| ==> Safe(q[i]);
    DrainInOrder(q);
    NamesOfIntended(soul, lines, raises);
  }

  /** The notes of a clean run of the corrected loop: each line called,
      then the soul prompted. */
  function Prompts(soul: Id, lines: seq<string>): seq<Note>
    decreases |lines|
  {
    if lines == [] then [] else [Ran(Telnet.Strip(lines[0])), Prompted(soul)] + Prompts(soul, lines[1..])
  }

  /** With the corrected loop and no line raising, the soul is prompted
      after each of its lines and is never told of an error. */
  lemma {:induction false} IntendedPromptsEachLine(soul: Id, lines: seq<string>, raises: seq<bool>)
    requires |raises| == |lines|
    requires forall i :: 0 <= i < |raises| ==> !raises[i]
    ensures Drain(Intended(soul, lines, raises)).notes == Prompts(soul, lines)
    decreases |lines|
  {
    if lines != [] {
      var q := Intended(soul, lines, raises);
      IntendedPromptsEachLine(soul, lines[1..], raises[1..]);
      assert q[1..] == Intended(soul, lines[1..], raises[1..]);
      assert Handle(q[0]) == Turn([Ran(Telnet.Strip(lines[0])), Prompted(soul)], false);
    }
  }

  // ---------------------------------------------------------------------
  // The heartbeat

  /** The heartbeat rule: a pass at `now` fires when now is at least
      `lasthb + hbdelay`, and a firing moves `lasthb` to now. */
  function Beat(lasthb: int, hbdelay: int, now: int): (r: int)
    ensures r == now || r == lasthb
    ensures r == now <== now >= lasthb + hbdelay
    ensures now < lasthb + hbdelay ==> r == lasthb
  {
    if now >= lasthb + hbdelay then now else lasthb
  }

  /** The readings at which the heartbeat fires over a run of passes. */
  function Beats(lasthb: int, hbdelay: int, times: seq<int>): seq<int>
    decreases |times|
  {
    if times == [] then []
    else if times[0] >= lasthb + hbdelay then [times[0]] + Beats(times[0], hbdelay, times[1..])
    else Beats(lasthb, hbdelay, times[1..])
  }

  /** `lasthb` after a run of passes. */
  function LastBeat(lasthb: int, hbdelay: int, times: seq<int>): int
    decreases |times|
  {
    if times == [] then lasthb else LastBeat(Beat(lasthb, hbdelay, times[0]), hbdelay, times[1..])
  }

  /** Heartbeats are at least `hbdelay` apart, the first at least
      `hbdelay` after the last one before the run, and `lasthb` ends at the
      last of them. */
  lemma {:induction false} BeatsSpaced(lasthb: int, hbdelay: int, times: seq<int>)
    ensures var b := Beats(lasthb, hbdelay, times);
      && (b != [] ==> b[0] >= lasthb + hbdelay)
      && (forall i :: 0 < i < |b| ==> b[i] >= b[i - 1] + hbdelay)
      && LastBeat(lasthb, hbdelay, times) == (if b == [] then lasthb else b[|b| - 1])
    decreases |times|
  {
    if times != [] {
      var l := Beat(lasthb, hbdelay, times[0]);
      BeatsSpaced(l, hbdelay, times[1..]);
      var rest := Beats(l, hbdelay, times[1..]);
      if times[0] >= lasthb + hbdelay {
        var b := [times[0]] + rest;
        forall i | 0 < i < |b| ensures b[i] >= b[i - 1] + hbdelay {
          assert b[i] == rest[i - 1];
          if i > 1 {
            assert b[i - 1] == rest[i - 2];
          }
        }
        if rest != [] {
          assert b[|b| - 1] == rest[|rest| - 1];
        }
      }
    }
  }

  // ---------------------------------------------------------------------
  // The driver object

  class MudDriver {
    /** The driver's own node: its children are the areas. */
    const id: Id
    var cmdQ: seq<Entry>
    var counter: nat
    var time: int
    var lasthb: int
    var hbdelay: int
    var log: seq<Note>
    var running: bool
    var starting: map<string, Id>

    /** MudDriver.__init__, before `_build_world`. */
    constructor (id: Id)
      ensures this.id == id && cmdQ == [] && counter == 0 && time == 0 && lasthb == 0
      ensures hbdelay == 2 && log == [] && !running && starting == map[]
    {
      this.id := id;
      cmdQ := [];
      counter := 0;
      time := 0;
      lasthb := 0;
      hbdelay := 2;
      log := [];
      running := false;
      starting := map[];
    }

    /** The `nexthb` property. */
    function NextHb(): int
      reads this
    {
      lasthb + hbdelay
    }

    /** Q: the entry goes to the tail; a truthy sender becomes its
        `sender`. */
    method Q(e: Entry, sender: Sender)
      modifies this`cmdQ
      ensures cmdQ == old(cmdQ) + [Queued(e, sender)]
    {
      var cmd := e;
      if SenderTruthy(sender) {
        match cmd {
          case Command(n, x, _) => cmd := Command(n, x, sender);
          case SoulEntry(s, _) => cmd := SoulEntry(s, Some(sender));
        }
      }
      cmdQ := cmdQ + [cmd];
    }

    /** `cmd()` and its except clause, for one popped entry. */
    method RunEntry(e: Entry) returns (escapes: bool)
      modifies this`log
      ensures log == old(log) + Handle(e).notes && escapes == Handle(e).escapes
    {
      var blamed: Sender;
      match e {
        case Command(n, raises, s) =>
          log := log + [Ran(n)];
          if !raises {
            if s.SoulSender? {
              log := log + [Prompted(s.soul)];
            }
            return false;
          }
          blamed := s;
        case SoulEntry(_, attr) =>
          if attr.None? {
            return true;
          }
          blamed := attr.value;
      }
      if SenderTruthy(blamed) {
        match blamed {
          case TextSender(_) => return true;
          case SoulSender(x) => log := log + [Told(x, SeriousError)];
          case ObjSender(x) => log := log + [Told(x, SeriousError)];
        }
      }
      return false;
    }

    /** The queueing half of Soul.loop as written: for each line read,
        `Q(soul, line.strip())`. `attr` is the soul's `sender` attribute
        before, `after` the one left behind. */
    method FeedAsWritten(soul: Id, lines: seq<string>, attr: Option<Sender>) returns (after: Option<Sender>)
      modifies this`cmdQ
      ensures cmdQ == old(cmdQ) + AsWritten(soul, lines, attr)
    {
      after := attr;
      var i := 0;
      while i < |lines|
        invariant 0 <= i <= |lines|
        invariant cmdQ + AsWritten(soul, lines[i..], after) == old(cmdQ) + AsWritten(soul, lines, attr)
      {
        ghost var q := cmdQ;
        var e := Queued(SoulEntry(soul, after), TextSender(Telnet.Strip(lines[i])));
        Q(SoulEntry(soul, after), TextSender(Telnet.Strip(lines[i])));
        AsWrittenStep(q, soul, lines, i, after);
        after := e.attr;
        i := i + 1;
      }
    }

    /** The queueing half of Soul.loop as evidently intended: for each line
        read, `Q(line.strip(), soul)`, the line standing for the command
        it resolves to. */
    method FeedIntended(soul: Id, lines: seq<string>, raises: seq<bool>)
      requires |raises| == |lines|
      modifies this`cmdQ
      ensures cmdQ == old(cmdQ) + Intended(soul, lines, raises)
    {
      var i := 0;
      while i < |lines|
        invariant 0 <= i <= |lines|
        invariant cmdQ == old(cmdQ) + Intended(soul, lines[..i], raises[..i])
      {
        ghost var q := cmdQ;
        Q(Command(Telnet.Strip(lines[i]), raises[i], NoSender), SoulSender(soul));
        IntendedStep(old(cmdQ), q, soul, lines, raises, i);
        i := i + 1;
      }
      assert lines[..i] == lines && raises[..i] == raises;
    }

    /** The `while self.cmdQ` loop of _action: pop the oldest entry and
        run it, until the queue is empty or an exception escapes. */
    method DrainQueue() returns (escaped: bool)
      modifies this`cmdQ, this`log
      ensures var p := Drain(old(cmdQ));
        cmdQ == p.left && log == old(log) + p.notes && escaped == p.escapes
    {
      ghost var done: seq<Note> := [];
      escaped := false;
      while cmdQ != []
        invariant !escaped && log == old(log) + done
        invariant Drain(old(cmdQ)) == Pass(done + Drain(cmdQ).notes, Drain(cmdQ).left, Drain(cmdQ).escapes)
        decreases |cmdQ|
      {
        ghost var q := cmdQ;
        var cmd := cmdQ[0];
        cmdQ := cmdQ[1..];
        var turn := Handle(cmd);
        escaped := RunEntry(cmd);
        DrainStep(q, done);
        done := done + turn.notes;
        if escaped {
          return;
        }
      }
      assert done + Drain(cmdQ).notes == done;
    }

    /** _action: drain the queue oldest first, then count the pass, read
        the clock and fire the heartbeat when it is due. An exception that
        escapes the drain leaves the rest queued and skips the count. */
    method Action(now: int) returns (escaped: bool, beat: bool)
      modifies this`cmdQ, this`log, this`counter, this`time, this`lasthb
      ensures var p := Drain(old(cmdQ));
        cmdQ == p.left && log == old(log) + p.notes && escaped == p.escapes
      ensures escaped ==> counter == old(counter) && time == old(time) && lasthb == old(lasthb) && !beat
      ensures !escaped ==>
        && counter == old(counter) + 1 && time == now
        && beat == (now >= old(NextHb())) && lasthb == Beat(old(lasthb), hbdelay, now)
    {
      beat := false;
      escaped := DrainQueue();
      if escaped {
        return;
      }
      counter := counter + 1;
      time := now;
      if time >= NextHb() {
        lasthb := time;
        beat := true;
      }
    }

    /** stop: `_end` (nothing for the driver) and the flag cleared. */
    method Stop()
      modifies this`log, this`running
      ensures !running && log == old(log) + [Ended]
    {
      log := log + [Ended];
      running := false;
    }

    /** _start: the flag set, one `_action` per clock reading in `times`,
        then `stop` from the other thread, which ends the loop; `_end` runs
        in the finally clause only when the flag is still set, which is
        after an exception escaped a pass. */
    method Start(times: seq<int>) returns (escaped: bool)
      modifies this`cmdQ, this`log, this`counter, this`time, this`lasthb, this`running
      ensures var p := Drain(old(cmdQ));
        && escaped == (times != [] && p.escapes)
        && log == old(log) + (if times == [] then [] else p.notes) + [Ended]
        && running == escaped
        && (escaped ==> counter == old(counter) && cmdQ == p.left)
        && (!escaped ==> counter == old(counter) + |times|
                         && lasthb == LastBeat(old(lasthb), hbdelay, times)
                         && (times != [] ==> cmdQ == [] && time == times[|times| - 1]))
    {
      running := true;
      escaped := false;
      ghost var p := Drain(cmdQ);
      var i := 0;
      while i < |times|
        invariant 0 <= i <= |times|
        invariant counter == old(counter) + i
        invariant lasthb == LastBeat(old(lasthb), hbdelay, times[..i])
        invariant i == 0 ==> cmdQ == old(cmdQ) && log == old(log)
        invariant i > 0 ==> !p.escapes && cmdQ == [] && log == old(log) + p.notes && time == times[i - 1]
        invariant running && hbdelay == old(hbdelay)
      {
        ghost var log0 := log;
        var beat;
        escaped, beat := Action(times[i]);
        assert i > 0 ==> log == log0;
        if escaped {
          assert i == 0;
          log := log + [Ended];
          return;
        }
        LastBeatStep(old(lasthb), hbdelay, times, i);
        i := i + 1;
      }
      assert times[..i] == times;
      Stop();
    }

    /** _build_world: the area is added under the driver, and
        `starting['main']` is the first child of the driver's first
        child (an IndexError when that one has none). */
    method BuildWorld(w: World, area: Id) returns (raised: bool)
      modifies w, this`starting
      ensures w.tree == AddStep(old(w.tree), id, area).tree
      ensures w.events == old(w.events) + AddStep(old(w.tree), id, area).out
      ensures Children(w.tree, id) != []
      ensures var rooms := Children(w.tree, Children(w.tree, id)[0]);
        && raised == (rooms == [])
        && (raised ==> starting == old(starting))
        && (!raised ==> starting == map["main" := rooms[0]])
      ensures old(Children(w.tree, id)) == [] && area != id ==>
        && raised == (old(Children(w.tree, area)) == [])
        && (!raised ==> starting["main"] == old(Children(w.tree, area))[0])
    {
      w.Add(id, area);
      AddAppends(old(w.tree), id, area);
      var areas := Children(w.tree, id);
      var rooms := Children(w.tree, areas[0]);
      if rooms == [] {
        return true;
      }
      starting := map["main" := rooms[0]];
      return false;
    }
  }

  /** One more pass extends the heartbeat fold by one reading. */
  lemma {:induction false} LastBeatStep(l: int, d: int, times: seq<int>, i: nat)
    requires i < |times|
    ensures LastBeat(l, d, times[..i + 1]) == Beat(LastBeat(l, d, times[..i]), d, times[i])
    decreases i
  {
    if i == 0 {
      assert times[..1][1..] == [];
    } else {
      assert times[..i + 1][0] == times[0];
      assert times[..i + 1][1..] == times[1..][..i];
      assert times[..i][1..] == times[1..][..i - 1];
      LastBeatStep(Beat(l, d, times[0]), d, times[1..], i - 1);
    }
  }
}
