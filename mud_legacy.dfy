/** mud.py, the first iteration of the server: objects whose commands are a
    dictionary of callables, a player that falls back on its room, a login
    room that collects a name and a password, and a Soul that dispatches a
    typed command and writes the telnet bytes of its answers.

    The line splitter of this Soul.recv is the one Telnet.Split models. A
    command callable is reduced to what it returns (`look` returns its
    object's description); a `str` return is the only kind the Soul
    forwards. */
module Legacy {
  import opened Base
  import Telnet

  /** PASSWORD_PROMPT: IAC WILL ECHO, so the password is not echoed. */
  const PasswordPrompt: string := "\U{FF}\U{FB}\U{01}Password: "
  /** STD_PROMPT, preceded by IAC DO ECHO when prompting. */
  const StdPrompt: string := "> "
  const DoEcho: string := "\U{FF}\U{FD}\U{01}"

  const GlobalAck := "Valid global command was sent"
  const SoulAck := "Valid soul command was sent"
  const NoBodies := "Logins do not work now, so just exist as a soul without a real body."

  /** The module-level `valid_cmd` table, and the Soul's own table. */
  const Globals: set<string> := {"say", "yell"}
  const SoulCmds: set<string> := {"quit"}

  /** What a command returns: a `str`, or anything else (True, False, None). */
  datatype Value = Str(s: string) | NotStr

  /** A command bound to an object: MudRoom.look, or any other callable,
      reduced to its return value. */
  datatype Cmd = Look | Returns(v: Value)

  /** Calling a command bound to an object with this description. */
  function Call(description: string, c: Cmd): Value
  {
    match c
    case Look => Str(description)
    case Returns(v) => v
  }

  datatype Room = Room(description: string, cmds: map<string, Cmd>)

  /** MudRoom(description): its table holds `look` and nothing else. */
  function NewRoom(description: string): (r: Room)
    ensures r.description == description && r.cmds.Keys == {"look"}
  {
    Room(description, map["look" := Look])
  }

  /** MudObject.process_cmd: `self.cmds[cmd]()`, a KeyError for a command
      the table does not hold. */
  function ObjectProcess(description: string, cmds: map<string, Cmd>, cmd: string): (r: Result<Value>)
    ensures r.Raised? <==> cmd !in cmds
  {
    if cmd in cmds then Ok(Call(description, cmds[cmd])) else Raised
  }

  /** A room's `look` returns its description; anything else raises. */
  lemma RoomLooksAtItself(description: string, cmd: string)
    ensures ObjectProcess(description, NewRoom(description).cmds, cmd)
      == if cmd == "look" then Ok(Str(description)) else Raised
  {
  }

  datatype Player = Player(description: string, cmds: map<string, Cmd>, room: Option<Room>)

  /** MudPlayer(soul=...) as the login room makes it: no description, no
      commands, no room. */
  function NewPlayer(): Player
  {
    Player("", map[], None)
  }

  /** MudPlayer.process_cmd: its own table first, then its room's when the
      room accepts the command, and None when neither does. */
  function PlayerProcess(p: Player, cmd: string): (r: Result<Value>)
    ensures !r.Raised?
    ensures cmd in p.cmds ==> r == ObjectProcess(p.description, p.cmds, cmd)
    ensures cmd !in p.cmds && p.room.Some? && cmd in p.room.value.cmds ==>
      r == ObjectProcess(p.room.value.description, p.room.value.cmds, cmd)
    ensures cmd !in p.cmds && (p.room.None? || cmd !in p.room.value.cmds) ==> r == Ok(NotStr)
  {
    if cmd in p.cmds then Ok(Call(p.description, p.cmds[cmd]))
    else if p.room.Some? && cmd in p.room.value.cmds then Ok(Call(p.room.value.description, p.room.value.cmds[cmd]))
    else Ok(NotStr)
  }

  // ---------------------------------------------------------------------
  // The soul and its login room

  /** The soul's body: the LoginRoom it starts in, or the MudPlayer the
      login room gives it. */
  datatype Body = AtLogin | Playing(player: Player)

  /** What one Soul and its LoginRoom hold: the bytes written to the
      connection, `online`, the body, and the login room's `login` and
      `password` (the empty string standing for None; only non-empty
      commands are ever stored). */
  datatype State = State(wire: string, online: bool, body: Body, login: string, password: string)

  /** Soul.send: WILL ECHO, the message, CR LF when a newline is asked
      for (even after one the message already ends with), WONT ECHO. */
  function Framed(msg: string, newline: bool): string
  {
    Telnet.WillEcho + msg + (if newline then "\r\n" else "") + Telnet.WontEcho
  }

  /** Soul.prompt. */
  const Prompt: string := DoEcho + StdPrompt

  /** LoginRoom.process_cmd: a non-empty command fills `login`, then
      `password` (the first with the password prompt written raw); once
      both are set the soul is told, gets a fresh MudPlayer body and is
      prompted. */
  function LoginProcess(s: State, cmd: string): (r: State)
  {
    var t :=
      if cmd == "" then s
      else if s.login == "" then s.(login := cmd, wire := s.wire + PasswordPrompt)
      else if s.password == "" then s.(password := cmd)
      else s;
    if t.login != "" && t.password != "" then
      t.(wire := t.wire + Framed("", true) + Framed("You logged in as " + t.login + "/" + t.password, true)
                 + Framed(NoBodies, true) + Prompt,
         body := Playing(NewPlayer()))
    else t
  }

  function NotValid(cmd: string): string
  {
    "\"" + cmd + "\" is not valid command"
  }

  /** Soul.process_cmd: a global command, then a soul command, then the
      body's. The body is asked through its `valid_cmd`, which for the
      login room accepts everything and for a player is the player's own
      table only. `bodyStr` is `str(self.body)`. */
  function Process(s: State, cmd: string, bodyStr: string): State
  {
    if cmd in Globals then s.(wire := s.wire + Framed(GlobalAck, true) + Prompt)
    else if cmd in SoulCmds then
      s.(online := false, wire := s.wire + Framed(SoulAck, true) + Framed("Goodbye " + bodyStr + ", see you soon.", true))
    else match s.body
      case AtLogin => LoginProcess(s, cmd)
      case Playing(p) =>
        if cmd in p.cmds then
          match PlayerProcess(p, cmd)
          case Ok(Str(x)) => s.(wire := s.wire + Framed(x, true) + Prompt)
          case _ => s
        else s.(wire := s.wire + Framed(NotValid(cmd), true) + Prompt)
  }

  /** What a soul holds once logging in can go on: no password without a
      login, and never both while still at the login room. */
  predicate Consistent(s: State)
  {
    (s.login == "" ==> s.password == "") && (s.body.AtLogin? ==> s.password == "")
  }

  /** Every command keeps a consistent soul consistent. */
  lemma ProcessConsistent(s: State, cmd: string, bodyStr: string)
    requires Consistent(s)
    ensures Consistent(Process(s, cmd, bodyStr))
  {
  }

  /** Only `quit` takes the soul offline, and nothing brings it back. */
  lemma OnlyQuitGoesOffline(s: State, cmd: string, bodyStr: string)
    ensures Process(s, cmd, bodyStr).online == (s.online && cmd != "quit")
  {
  }

  /** Typing a name and then a password, from a fresh login room, logs
      in: the password prompt follows the name, the three login messages
      and a prompt follow the password, and the soul has a player body. */
  lemma {:induction false} LoginTwoLines(s: State, name: string, password: string, bodyStr: string)
    requires s.body == AtLogin && s.login == "" && s.password == ""
    requires name != "" && password != ""
    requires name !in Globals + SoulCmds && password !in Globals + SoulCmds
    ensures Process(Process(s, name, bodyStr), password, bodyStr)
      == State(s.wire + PasswordPrompt + Framed("", true) + Framed("You logged in as " + name + "/" + password, true)
                 + Framed(NoBodies, true) + Prompt,
               s.online, Playing(NewPlayer()), name, password)
  {
    var s1 := Process(s, name, bodyStr);
    assert s1 == s.(login := name, wire := s.wire + PasswordPrompt);
    var s2 := Process(s1, password, bodyStr);
    assert s2 == LoginProcess(s1, password);
  }

  /** At the login room a blank line changes nothing: nothing is stored,
      nothing is written. */
  lemma BlankLineAtLogin(s: State, bodyStr: string)
    requires Consistent(s) && s.body == AtLogin
    ensures Process(s, "", bodyStr) == s
  {
  }

  /** `say`, `yell` and `quit` are never taken as a login name or a
      password: at the login room they leave both as they were. */
  lemma ReservedAtLogin(s: State, cmd: string, bodyStr: string)
    requires s.body == AtLogin && cmd in Globals + SoulCmds
    ensures var r := Process(s, cmd, bodyStr);
      r.login == s.login && r.password == s.password && r.body == AtLogin
  {
  }

  /** A player's room is never asked: a command the player's own table
      lacks is refused as not valid even when the room would answer it
      through MudPlayer.process_cmd. */
  lemma RoomCommandsUnreachable(s: State, cmd: string, bodyStr: string)
    requires s.body.Playing? && cmd !in Globals + SoulCmds && cmd !in s.body.player.cmds
    requires s.body.player.room.Some? && cmd in s.body.player.room.value.cmds
    ensures !PlayerProcess(s.body.player, cmd).Raised?
    ensures Process(s, cmd, bodyStr) == s.(wire := s.wire + Framed(NotValid(cmd), true) + Prompt)
  {
  }

  /** A logged-in soul with the fresh player body answers every command
      that is neither global nor `quit` with "not valid" and a prompt. */
  lemma FreshPlayerRefusesAll(s: State, cmd: string, bodyStr: string)
    requires s.body == Playing(NewPlayer()) && cmd !in Globals + SoulCmds
    ensures Process(s, cmd, bodyStr) == s.(wire := s.wire + Framed(NotValid(cmd), true) + Prompt)
  {
  }

  /** This Soul.send ends the line whatever the message: it writes the
      same bytes as the later Soul.send exactly when the message does not
      already end with CR LF, and an extra blank line when it does. */
  lemma {:induction false} SentAlwaysEndsLine(msg: string)
    ensures Framed(msg, true) == Telnet.Frame(msg, true) <==> !Telnet.EndsWithCrlf(msg)
    ensures Telnet.EndsWithCrlf(msg) ==> |Framed(msg, true)| == |Telnet.Frame(msg, true)| + 2
    ensures Framed(msg, false) == Telnet.Frame(msg, false)
  {
    if Telnet.EndsWithCrlf(msg) {
      assert |Framed(msg, true)| == |Telnet.Frame(msg, true)| + 2;
    }
  }

  // ---------------------------------------------------------------------
  // The objects, in place

  /** LoginRoom: the name and password it has collected so far. */
  class LoginRoom {
    var login: string
    var password: string

    constructor ()
      ensures login == "" && password == ""
    {
      login := "";
      password := "";
    }
  }

  /** Soul: the connection's written bytes, `online`, and its body, which
      starts as its own LoginRoom. */
  class Soul {
    var wire: string
    var online: bool
    var body: Body
    const room: LoginRoom

    /** Soul.__init__; `online` None reads as false until the loop starts. */
    constructor ()
      ensures wire == "" && !online && body == AtLogin && fresh(room)
      ensures room.login == "" && room.password == ""
    {
      wire := "";
      online := false;
      body := AtLogin;
      room := new LoginRoom();
    }

    function Snapshot(): State
      reads this, room
    {
      State(wire, online, body, room.login, room.password)
    }

    /** Soul.send */
    method Send(msg: string, newline: bool)
      modifies this`wire
      ensures wire == old(wire) + Framed(msg, newline)
    {
      wire := wire + Telnet.WillEcho + msg;
      if newline {
        wire := wire + "\r\n";
      }
      wire := wire + Telnet.WontEcho;
    }

    /** Soul.prompt */
    method DoPrompt()
      modifies this`wire
      ensures wire == old(wire) + Prompt
    {
      wire := wire + DoEcho;
      wire := wire + StdPrompt;
    }

    /** Soul.quit */
    method Quit(bodyStr: string)
      modifies this`wire, this`online
      ensures !online && wire == old(wire) + Framed("Goodbye " + bodyStr + ", see you soon.", true)
    {
      online := false;
      Send("Goodbye " + bodyStr + ", see you soon.", true);
    }

    /** LoginRoom.process_cmd, which writes to its soul directly and
        returns True. */
    method LoginCmd(cmd: string)
      modifies this, room
      ensures Snapshot() == LoginProcess(old(Snapshot()), cmd)
    {
      if cmd != "" {
        if room.login == "" {
          room.login := cmd;
          wire := wire + PasswordPrompt;
        } else if room.password == "" {
          room.password := cmd;
        }
      }
      if room.login != "" && room.password != "" {
        Send("", true);
        Send("You logged in as " + room.login + "/" + room.password, true);
        Send(NoBodies, true);
        body := Playing(NewPlayer());
        DoPrompt();
      }
    }

    /** Soul.process_cmd */
    method ProcessCmd(cmd: string, bodyStr: string)
      modifies this, room
      ensures Snapshot() == Process(old(Snapshot()), cmd, bodyStr)
    {
      if cmd in Globals {
        Send(GlobalAck, true);
        DoPrompt();
      } else if cmd in SoulCmds {
        Send(SoulAck, true);
        Quit(bodyStr);
      } else {
        match body {
          case AtLogin =>
            LoginCmd(cmd);
          case Playing(p) =>
            if cmd in p.cmds {
              var v := PlayerProcess(p, cmd);
              if v.Ok? && v.value.Str? {
                Send(v.value.s, true);
                DoPrompt();
              }
            } else {
              Send(NotValid(cmd), true);
              DoPrompt();
            }
        }
      }
    }
  }
}
