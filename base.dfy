/** Shared vocabulary of the model: object handles, optional values, the
    observable effects of running the world, and the few string helpers the
    message builders need. */
module Base {

  /** Handle of a world object. Python objects with identity and cyclic
      parent/child references become handles into one arena
      (MudObjects.World). */
  type Id = nat

  datatype Option<T> = None | Some(value: T)

  /** A value Python code may hold where an object is expected: nothing
      (None), a world object, or a plain string. */
  datatype Party = Nobody | Obj(id: Id) | Text(s: string)

  /** Python truthiness of a Party: objects are always true, None is false,
      a string is true when it is non-empty. */
  predicate PartyTruthy(p: Party)
  {
    p.Obj? || (p.Text? && p.s != "")
  }

  /** Python truthiness of an optional string (a message slot, a trail). */
  predicate Said(m: Option<string>)
  {
    m.Some? && m.value != ""
  }

  /** `'%s' % m` for an optional string: None prints as "None". */
  function Show(m: Option<string>): string
  {
    if m.Some? then m.value else "None"
  }

  /** One observable effect of the world, in the order it happened. */
  datatype Event =
    | Sent(to: Id, text: string)                       // to.send(text)
    | Wrote(to: Id, data: string)                      // to.request.send(data): raw bytes on a soul's socket
    | QuitSoul(soul: Id)                               // soul.quit()
    | MovedTo(mover: Id, dest: Party)                  // mover.move_to(dest)
    | MovedObjTo(holder: Id, obj: Party, dest: Party)  // holder.move_obj_to(obj, dest)

  /** e is a `send` call addressed to x. */
  predicate SentTo(e: Event, x: Id)
  {
    e.Sent? && e.to == x
  }

  /** `s.index(x)`: the position of the first occurrence of x. */
  function IndexOf<T(==)>(s: seq<T>, x: T): (i: nat)
    requires x in s
    ensures i < |s| && s[i] == x && x !in s[..i]
  {
    if s[0] == x then 0
    else
      var j := IndexOf(s[1..], x);
      assert s[..j + 1] == [s[0]] + s[1..][..j];
      j + 1
  }

  /** Python's `list.remove(x)`: drops the first occurrence of x. */
  function RemoveFirst<T(==)>(s: seq<T>, x: T): (r: seq<T>)
    ensures x !in s ==> r == s
    ensures x in s ==> |r| == |s| - 1 && multiset(r) == multiset(s) - multiset{x}
  {
    if s == [] then []
    else
      assert s == [s[0]] + s[1..];
      if s[0] == x then s[1..]
      else [s[0]] + RemoveFirst(s[1..], x)
  }

  /** It is the first occurrence that goes, and everything else keeps its
      place. */
  lemma {:induction false} RemoveFirstDropsFirst<T>(s: seq<T>, x: T)
    requires x in s
    ensures var i := IndexOf(s, x); RemoveFirst(s, x) == s[..i] + s[i + 1..]
  {
    if s[0] == x {
      assert s[..0] + s[1..] == s[1..];
    } else {
      RemoveFirstDropsFirst(s[1..], x);
      ConsStep(s, x);
      ConsDrop(s, IndexOf(s[1..], x));
    }
  }

  /** One step of RemoveFirst and IndexOf past a head that is not x. */
  lemma ConsStep<T>(s: seq<T>, x: T)
    requires x in s && s[0] != x
    ensures RemoveFirst(s, x) == [s[0]] + RemoveFirst(s[1..], x)
    ensures x in s[1..] && IndexOf(s, x) == IndexOf(s[1..], x) + 1
  {
  }

  lemma ConsDrop<T>(s: seq<T>, j: nat)
    requires j + 1 < |s|
    ensures [s[0]] + (s[1..][..j] + s[1..][j + 1..]) == s[..j + 1] + s[j + 2..]
  {
    assert s[..j + 1] == [s[0]] + s[1..][..j];
    assert s[j + 2..] == s[1..][j + 1..];
  }

  /** a is b with some elements deleted: what is left keeps its order. */
  predicate IsSubsequence<T(==)>(a: seq<T>, b: seq<T>)
    decreases |b|
  {
    if a == [] then true
    else if b == [] then false
    else (a[0] == b[0] && IsSubsequence(a[1..], b[1..])) || IsSubsequence(a, b[1..])
  }

  lemma {:induction false} SubsequenceRefl<T>(s: seq<T>)
    ensures IsSubsequence(s, s)
    decreases |s|
  {
    if s != [] {
      SubsequenceRefl(s[1..]);
    }
  }

  /** Dropping one element leaves a subsequence. */
  lemma {:induction false} SubsequenceDrop<T>(s: seq<T>, i: nat)
    requires i < |s|
    ensures IsSubsequence(s[..i] + s[i + 1..], s)
    decreases i
  {
    if i == 0 {
      assert s[..0] + s[1..] == s[1..];
      SubsequenceRefl(s[1..]);
    } else {
      var a := s[..i] + s[i + 1..];
      SubsequenceDrop(s[1..], i - 1);
      assert a[1..] == s[1..][..i - 1] + s[1..][i..];
      assert a[0] == s[0];
    }
  }

  lemma {:induction false} SubsequenceTrans<T>(a: seq<T>, b: seq<T>, c: seq<T>)
    requires IsSubsequence(a, b) && IsSubsequence(b, c)
    ensures IsSubsequence(a, c)
    decreases |c|
  {
    if a != [] {
      if IsSubsequence(b, c[1..]) {
        SubsequenceTrans(a, b, c[1..]);
      } else if a[0] == b[0] && IsSubsequence(a[1..], b[1..]) {
        SubsequenceTrans(a[1..], b[1..], c[1..]);
      } else {
        SubsequenceTrans(a, b[1..], c[1..]);
      }
    }
  }

  /** `remove` keeps the rest of the list in its order. */
  lemma RemoveFirstSubsequence<T>(s: seq<T>, x: T)
    ensures IsSubsequence(RemoveFirst(s, x), s)
  {
    if x in s {
      RemoveFirstDropsFirst(s, x);
      SubsequenceDrop(s, IndexOf(s, x));
    } else {
      SubsequenceRefl(s);
    }
  }

  /** Python's `sep.join(parts)`. */
  function Join(sep: string, parts: seq<string>): string
  {
    if parts == [] then ""
    else if |parts| == 1 then parts[0]
    else parts[0] + sep + Join(sep, parts[1..])
  }

  /** Python's `s.replace('\n', '\r\n')`. */
  function Crlf(s: string): (r: string)
    ensures |r| == |s| + multiset(s)['\n']
    ensures forall i :: 0 <= i < |r| && r[i] == '\n' ==> 0 < i && r[i - 1] == '\r'
  {
    if s == [] then ""
    else
      assert s == [s[0]] + s[1..];
      var rest := Crlf(s[1..]);
      if s[0] == '\n' then
        var r := "\r\n" + rest;
        assert forall i :: 2 <= i < |r| ==> r[i] == rest[i - 2];
        r
      else
        var r := [s[0]] + rest;
        assert forall i :: 1 <= i < |r| ==> r[i] == rest[i - 1];
        r
  }

  /** replace works piece by piece. */
  lemma {:induction false} CrlfAppend(a: string, b: string)
    ensures Crlf(a + b) == Crlf(a) + Crlf(b)
  {
    if a != [] {
      assert (a + b)[0] == a[0];
      assert (a + b)[1..] == a[1..] + b;
      CrlfAppend(a[1..], b);
    } else {
      assert a + b == b;
    }
  }

  /** Text without a newline is left as it is. */
  lemma {:induction false} CrlfPlain(s: string)
    requires '\n' !in s
    ensures Crlf(s) == s
  {
    if s != [] {
      assert s == [s[0]] + s[1..];
      CrlfPlain(s[1..]);
    }
  }

  /** Lines joined by "\n" come out joined by "\r\n". */
  lemma {:induction false} CrlfJoin(lines: seq<string>)
    requires forall i :: 0 <= i < |lines| ==> '\n' !in lines[i]
    ensures Crlf(Join("\n", lines)) == Join("\r\n", lines)
  {
    if |lines| == 1 {
      CrlfPlain(lines[0]);
    } else if |lines| > 1 {
      var rest := Join("\n", lines[1..]);
      assert Join("\n", lines) == lines[0] + "\n" + rest;
      assert Join("\r\n", lines) == lines[0] + "\r\n" + Join("\r\n", lines[1..]);
      CrlfJoin(lines[1..]);
      CrlfPlain(lines[0]);
      CrlfAppend(lines[0] + "\n", rest);
      CrlfAppend(lines[0], "\n");
      assert Crlf("\n") == "\r\n";
    }
  }

  lemma {:induction false} JoinAppend(sep: string, parts: seq<string>, p: string)
    requires parts != []
    ensures Join(sep, parts + [p]) == Join(sep, parts) + sep + p
  {
    if |parts| == 1 {
      assert (parts + [p])[1..] == [p];
    } else {
      assert (parts + [p])[1..] == parts[1..] + [p];
      JoinAppend(sep, parts[1..], p);
    }
  }

  // ---------------------------------------------------------------------
  // Python exceptions

  /** The value of a Python expression that may raise. */
  datatype Result<T> = Ok(value: T) | Raised

  /** The effects of running some Python statements: what was done, in
      order, and whether an exception escaped after those effects. */
  datatype Run = Run(out: seq<Event>, raised: bool)

  const Done := Run([], false)

  /** `a; b`: b runs only when a did not raise. */
  function Then(a: Run, b: Run): Run
  {
    if a.raised then a else Run(a.out + b.out, b.raised)
  }

  /** Events appended in two steps are the events appended at once. */
  lemma AppendAssociative<T>(a: seq<T>, b: seq<T>, c: seq<T>)
    ensures a + b + c == a + (b + c)
  {
  }

  /** Recording one run's events and then another's records the events
      of the two in sequence, when the first does not raise. */
  lemma ThenAppends(e0: seq<Event>, x: Run, y: Run)
    requires !x.raised
    ensures e0 + x.out + y.out == e0 + Then(x, y).out
  {
    AppendAssociative(e0, x.out, y.out);
  }

  /** Whatever two runs in sequence record, one of them recorded. */
  lemma ThenMembers(a: Run, b: Run, x: Event)
    requires x in Then(a, b).out
    ensures x in a.out || (!a.raised && x in b.out)
  {
  }

  lemma ThenAssociative(a: Run, b: Run, c: Run)
    ensures Then(Then(a, b), c) == Then(a, Then(b, c))
  {
  }

  /** Doing nothing before or after changes nothing. */
  lemma ThenDone(a: Run)
    ensures Then(a, Done) == a && Then(Done, a) == a
  {
  }

  /** `p.send(msg)`: only a world object has a send method; calling it on
      None or on a string raises AttributeError. */
  function Deliver(p: Party, msg: string): Run
  {
    if p.Obj? then Run([Sent(p.id, msg)], false) else Run([], true)
  }

  /** `for p in ps: p.send(msg)`. */
  function DeliverAll(ps: seq<Party>, msg: string): Run
  {
    if ps == [] then Done else Then(DeliverAll(ps[..|ps| - 1], msg), Deliver(ps[|ps| - 1], msg))
  }

  /** Once a send raises, the rest of the loop does not run. */
  lemma {:induction false} DeliverAllStops(ps: seq<Party>, k: nat, msg: string)
    requires k <= |ps| && DeliverAll(ps[..k], msg).raised
    ensures DeliverAll(ps, msg) == DeliverAll(ps[..k], msg)
  {
    if k < |ps| {
      assert ps[..|ps| - 1][..k] == ps[..k];
      DeliverAllStops(ps[..|ps| - 1], k, msg);
    } else {
      assert ps[..k] == ps;
    }
  }

  /** The loop raises exactly when some recipient is not a world object, and
      until then it messages the recipients one by one, in order. */
  lemma {:induction false} DeliverAllInOrder(ps: seq<Party>, msg: string)
    ensures var r := DeliverAll(ps, msg);
      && (r.raised <==> exists i :: 0 <= i < |ps| && !ps[i].Obj?)
      && |r.out| <= |ps|
      && (!r.raised ==> |r.out| == |ps|)
      && forall i :: 0 <= i < |r.out| ==> ps[i].Obj? && r.out[i] == Sent(ps[i].id, msg)
  {
    if ps != [] {
      var init := ps[..|ps| - 1];
      DeliverAllInOrder(init, msg);
      if !DeliverAll(init, msg).raised && ps[|ps| - 1].Obj? {
        assert forall i :: 0 <= i < |ps| ==> ps[i].Obj? by {
          forall i | 0 <= i < |ps| ensures ps[i].Obj? {
            if i < |ps| - 1 { assert ps[i] == init[i]; }
          }
        }
      }
    }
  }

  /** Whatever the loop sends goes to one of the recipients, with the
      loop's message. */
  lemma {:induction false} DeliverAllMember(ps: seq<Party>, msg: string, e: Event)
    requires e in DeliverAll(ps, msg).out
    ensures e.Sent? && e.text == msg && Obj(e.to) in ps
  {
    var init := ps[..|ps| - 1];
    ThenMembers(DeliverAll(init, msg), Deliver(ps[|ps| - 1], msg), e);
    if e in DeliverAll(init, msg).out {
      DeliverAllMember(init, msg, e);
    }
  }

  /** A loop over world objects only never raises. */
  lemma {:induction false} DeliverAllToObjects(ps: seq<Party>, msg: string)
    requires forall i :: 0 <= i < |ps| ==> ps[i].Obj?
    ensures !DeliverAll(ps, msg).raised
  {
    if ps != [] {
      DeliverAllToObjects(ps[..|ps| - 1], msg);
    }
  }

  /** Everyone the loop reaches gets the same message. */
  lemma DeliverAllSameText(ps: seq<Party>, msg: string)
    ensures forall e :: e in DeliverAll(ps, msg).out ==> e.Sent? && e.text == msg
  {
    DeliverAllInOrder(ps, msg);
    var out := DeliverAll(ps, msg).out;
    forall e | e in out ensures e.Sent? && e.text == msg {
      var k :| 0 <= k < |out| && out[k] == e;
    }
  }

  // ---------------------------------------------------------------------
  // Python sets of recipients

  /** The elements of xs without repeats, first occurrences kept: what
      `for r in set(xs)` visits (in some order). */
  function Distinct<T(==,!new)>(xs: seq<T>): (r: seq<T>)
    ensures forall x :: x in r <==> x in xs
    ensures forall i, j :: 0 <= i < j < |r| ==> r[i] != r[j]
  {
    if xs == [] then []
    else
      var r := Distinct(xs[..|xs| - 1]);
      var x := xs[|xs| - 1];
      assert forall y :: y in xs <==> y in xs[..|xs| - 1] || y == x by {
        assert xs == xs[..|xs| - 1] + [x];
      }
      if x in r then r else r + [x]
  }

  /** `for r in rs: if r in s: s.remove(r)`. */
  function RemoveAll<T(==)>(s: seq<T>, rs: seq<T>): seq<T>
  {
    if rs == [] then s else RemoveFirst(RemoveAll(s, rs[..|rs| - 1]), rs[|rs| - 1])
  }

  /** One more element to remove is one more `remove` at the end. */
  lemma RemoveAllSnoc<T>(s: seq<T>, rs: seq<T>, x: T)
    ensures RemoveAll(s, rs + [x]) == RemoveFirst(RemoveAll(s, rs), x)
  {
    assert (rs + [x])[..|rs|] == rs;
  }

  /** The removal loop itself: each element of `rs`, in order, is removed once if present. */
  method RemoveEach<T(==)>(s: seq<T>, rs: seq<T>) returns (result: seq<T>)
    ensures result == RemoveAll(s, rs)
  {
    result := s;
    var i := 0;
    while i < |rs|
      invariant 0 <= i <= |rs|
      invariant result == RemoveAll(s, rs[..i])
    {
      assert rs[..i + 1] == rs[..i] + [rs[i]];
      RemoveAllSnoc(s, rs[..i], rs[i]);
      if rs[i] in result {
        result := RemoveFirst(result, rs[i]);
      }
      i := i + 1;
    }
    assert rs[..i] == rs;
  }

  /** `remove` takes one copy away from the multiset, or none when there is none. */
  lemma RemoveFirstMultiset<T>(s: seq<T>, x: T)
    ensures multiset(RemoveFirst(s, x)) == multiset(s) - multiset{x}
  {
    if x !in s {
      assert multiset(s)[x] == 0;
      assert multiset(s) - multiset{x} == multiset(s);
    }
  }

  /** Removing each of several elements once leaves the multiset difference. */
  lemma {:induction false} RemoveAllMultiset<T>(s: seq<T>, rs: seq<T>)
    ensures multiset(RemoveAll(s, rs)) == multiset(s) - multiset(rs)
  {
    if rs != [] {
      var init := rs[..|rs| - 1];
      var x := rs[|rs| - 1];
      calc {
        multiset(RemoveAll(s, rs));
        == { assert rs == init + [x]; RemoveAllSnoc(s, init, x); }
        multiset(RemoveFirst(RemoveAll(s, init), x));
        == { RemoveFirstMultiset(RemoveAll(s, init), x); }
        multiset(RemoveAll(s, init)) - multiset{x};
        == { RemoveAllMultiset(s, init); }
        multiset(s) - multiset(init) - multiset{x};
        == { assert rs == init + [x]; MinusSnoc(multiset(s), init, x); }
        multiset(s) - multiset(rs);
      }
    }
  }

  lemma MinusSnoc<T>(m: multiset<T>, init: seq<T>, x: T)
    ensures m - multiset(init) - multiset{x} == m - multiset(init + [x])
  {
    assert multiset(init + [x]) == multiset(init) + multiset{x};
  }

  /** Removing several elements keeps what is left in its order. */
  lemma {:induction false} RemoveAllSubsequence<T>(s: seq<T>, rs: seq<T>)
    ensures IsSubsequence(RemoveAll(s, rs), s)
  {
    if rs == [] {
      SubsequenceRefl(s);
    } else {
      var init, x := rs[..|rs| - 1], rs[|rs| - 1];
      RemoveAllSubsequence(s, init);
      RemoveFirstSubsequence(RemoveAll(s, init), x);
      SubsequenceTrans(RemoveAll(s, rs), RemoveAll(s, init), s);
    }
  }

  /** Two removals commute, so the order a set is iterated in does not
      change the result. */
  lemma {:induction false} RemoveFirstCommutes<T>(s: seq<T>, a: T, b: T)
    ensures RemoveFirst(RemoveFirst(s, a), b) == RemoveFirst(RemoveFirst(s, b), a)
  {
    if s != [] && a != b {
      var t := s[1..];
      if s[0] == a {
        assert RemoveFirst(s, b) == [a] + RemoveFirst(t, b);
        assert RemoveFirst([a] + RemoveFirst(t, b), a) == RemoveFirst(t, b);
      } else if s[0] == b {
        assert RemoveFirst(s, a) == [b] + RemoveFirst(t, a);
        assert RemoveFirst([b] + RemoveFirst(t, a), b) == RemoveFirst(t, a);
      } else {
        RemoveFirstCommutes(t, a, b);
        assert RemoveFirst(s, a) == [s[0]] + RemoveFirst(t, a);
        assert RemoveFirst(s, b) == [s[0]] + RemoveFirst(t, b);
        assert ([s[0]] + RemoveFirst(t, a))[1..] == RemoveFirst(t, a);
        assert ([s[0]] + RemoveFirst(t, b))[1..] == RemoveFirst(t, b);
      }
    }
  }

  lemma RemoveAllThree<T>(s: seq<T>, x: T, y: T, z: T)
    ensures RemoveAll(s, [x, y, z]) == RemoveFirst(RemoveFirst(RemoveFirst(s, x), y), z)
  {
    assert [x] == [] + [x] && [x, y] == [x] + [y] && [x, y, z] == [x, y] + [z];
    RemoveAllSnoc(s, [], x);
    RemoveAllSnoc(s, [x], y);
    RemoveAllSnoc(s, [x, y], z);
  }

  /** Removing the elements of a three-element set leaves the same list in
      every iteration order. */
  lemma RemoveThreeAnyOrder<T>(s: seq<T>, a: T, b: T, c: T)
    ensures var r := RemoveAll(s, [a, b, c]);
      && r == RemoveAll(s, [a, c, b]) && r == RemoveAll(s, [b, a, c])
      && r == RemoveAll(s, [b, c, a]) && r == RemoveAll(s, [c, a, b])
      && r == RemoveAll(s, [c, b, a])
  {
    RemoveAllThree(s, a, b, c);
    RemoveAllThree(s, a, c, b);
    RemoveAllThree(s, b, a, c);
    RemoveAllThree(s, b, c, a);
    RemoveAllThree(s, c, a, b);
    RemoveAllThree(s, c, b, a);
    RemoveFirstCommutes(s, a, b);
    RemoveFirstCommutes(s, a, c);
    RemoveFirstCommutes(s, b, c);
    RemoveFirstCommutes(RemoveFirst(s, a), b, c);
    RemoveFirstCommutes(RemoveFirst(s, b), a, c);
    RemoveFirstCommutes(RemoveFirst(s, c), a, b);
  }
}
