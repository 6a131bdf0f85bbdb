/** The first sketch of the application, `draft.py` (Python 2): a `notifier`
    that sends a message to every follower, `routine`s that prefix what they
    report with their short name, and a `runner` that builds each routine and
    runs it once. Nothing is scheduled or remembered between runs, and an
    exception raised by a routine leaves the runner at once. */
module Draft {
  import opened Text
  import opened Transport
  import Core

  /** The argument of `send` and `notify`: `None`, a byte string (`str`), or
      any other object (an ASCII-only `unicode` string included; one with a
      non-ASCII character makes `send`'s log line raise first). */
  datatype Message = NoMessage | Str(text: string) | NotStr

  /** The text `send(message)` transmits, if any: only a `str` that does not
      strip to nothing, that is, one with a character other than ASCII
      whitespace. */
  function Payload(m: Message): (r: Option<string>)
    ensures r.None? <==> !m.Str? || forall i :: 0 <= i < |m.text| ==> IsAsciiSpace(m.text[i])
    ensures r.Some? ==> r.value == m.text
  {
    match m
    case Str(t) =>
      StripsToNothing(t, IsAsciiSpace);
      if IsAsciiBlank(t) then None else Some(t)
    case _ => None
  }

  /** The direct messages of one `send(message)`: one per follower, in
      follower order, or none at all. */
  function SendDeliveries(followers: seq<Follower>, m: Message): (r: seq<DirectMessage>)
    ensures |r| == if Payload(m).Some? then |followers| else 0
    ensures forall i :: 0 <= i < |r| ==> r[i] == DirectMessage(followers[i].id, m.text)
  {
    match Payload(m)
    case None => []
    case Some(t) => Broadcast(followers, t)
  }

  /** What `notify(message)` hands to `send`, if anything: the short name,
      ": " and the message, for a message `send` itself would transmit. The
      prefixed text is never blank, so `send` always passes it on. */
  function NotifyText(shortName: string, m: Message): (r: Option<string>)
    ensures r.None? <==> Payload(m).None?
    ensures r.Some? ==> r.value == shortName + ": " + m.text
    ensures r.Some? ==> Payload(Str(r.value)) == r
  {
    if Payload(m).None? then None
    else
      var t := shortName + ": " + m.text;
      assert !IsAsciiSpace(t[|shortName|]);
      Some(t)
  }

  /** The direct messages of one `notify(message)`: the prefixed text to
      every follower, or nothing. */
  function NotifyDeliveries(followers: seq<Follower>, shortName: string, m: Message): (r: seq<DirectMessage>)
    ensures |r| == if Payload(m).Some? then |followers| else 0
    ensures forall i :: 0 <= i < |r| ==> r[i] == DirectMessage(followers[i].id, shortName + ": " + m.text)
  {
    match NotifyText(shortName, m)
    case None => []
    case Some(t) => SendDeliveries(followers, Str(t))
  }

  /** What a subclass's `run()` does, played back: `notify` each message in
      order, then return or raise. */
  datatype Script = Script(notes: seq<Message>, raises: bool)

  /** A `routine` subclass: its class name, its `name` and `short_name`
      attributes (`None` when unset) and the body of its `run()`. */
  datatype RoutineClass = RoutineClass(className: string, name: Option<string>,
                                       shortName: Option<string>, run: Script)

  function ShortNameOf(c: RoutineClass): string {
    Core.DefaultName(c.shortName, c.className)
  }

  /** The notes `send` would transmit, in order. */
  function Transmitted(notes: seq<Message>): seq<Message>
    decreases |notes|
  {
    if notes == [] then []
    else Transmitted(notes[..|notes| - 1])
         + (if Payload(notes[|notes| - 1]).Some? then [notes[|notes| - 1]] else [])
  }

  /** The direct messages of notifying `notes` one after the other: for every
      note `send` would transmit, in order, exactly `|followers|` direct
      messages; the others add nothing. */
  function ScriptDeliveries(followers: seq<Follower>, shortName: string, notes: seq<Message>): (r: seq<DirectMessage>)
    ensures |r| == |followers| * |Transmitted(notes)|
    decreases |notes|
  {
    if notes == [] then []
    else
      var init, m := notes[..|notes| - 1], notes[|notes| - 1];
      Core.MulAdd(|followers|, |Transmitted(init)|, if Payload(m).Some? then 1 else 0);
      ScriptDeliveries(followers, shortName, init) + NotifyDeliveries(followers, shortName, m)
  }

  lemma ScriptStep(start: seq<DirectMessage>, pre: seq<DirectMessage>, post: seq<DirectMessage>,
                   followers: seq<Follower>, shortName: string, notes: seq<Message>, i: nat)
    requires i < |notes|
    requires pre == start + ScriptDeliveries(followers, shortName, notes[..i])
    requires post == pre + NotifyDeliveries(followers, shortName, notes[i])
    ensures post == start + ScriptDeliveries(followers, shortName, notes[..i + 1])
  {
    assert notes[..i + 1][..i] == notes[..i];
    Core.AppendAssoc(start, ScriptDeliveries(followers, shortName, notes[..i]),
                     NotifyDeliveries(followers, shortName, notes[i]));
  }

  /** What `runner.run()` leaves behind: the direct messages sent, and
      whether an exception escaped. */
  datatype Outcome = Outcome(sent: seq<DirectMessage>, raised: bool)

  /** `runner.run()` over `classes`: each routine runs in turn until one
      raises; the exception escapes and the rest never run. */
  function RunAll(followers: seq<Follower>, classes: seq<RoutineClass>): (r: Outcome)
    ensures r.raised <==> exists k :: 0 <= k < |classes| && classes[k].run.raises
    decreases |classes|
  {
    if classes == [] then Outcome([], false)
    else
      var before := RunAll(followers, classes[..|classes| - 1]);
      var c := classes[|classes| - 1];
      assert forall k :: 0 <= k < |classes| - 1 ==> classes[..|classes| - 1][k] == classes[k];
      if before.raised then before
      else Outcome(before.sent + ScriptDeliveries(followers, ShortNameOf(c), c.run.notes), c.run.raises)
  }

  /** Once a routine has raised, the routines after it change nothing. */
  lemma {:induction false} RaiseIsFinal(followers: seq<Follower>, classes: seq<RoutineClass>, k: nat)
    requires k <= |classes| && RunAll(followers, classes[..k]).raised
    ensures RunAll(followers, classes) == RunAll(followers, classes[..k])
    decreases |classes| - k
  {
    if k < |classes| {
      var init := classes[..|classes| - 1];
      assert init[..k] == classes[..k];
      RaiseIsFinal(followers, init, k);
    } else {
      assert classes[..k] == classes;
    }
  }

  /** The routines of `draft.py`'s own example. */
  const TestRoutine1 := RoutineClass("test_routine1", Some("Rotina 1"), Some("ROT1"), Script([Str("OK")], false))
  const TestRoutine2 := RoutineClass("test_routine2", Some("Rotina 2"), Some("ROT2"), Script([Str("ERRO, verificar")], false))

  /** A script of one non-blank note broadcasts it, prefixed. */
  lemma OneNote(followers: seq<Follower>, shortName: string, t: string)
    requires |t| > 0 && !IsAsciiSpace(t[0])
    ensures ScriptDeliveries(followers, shortName, [Str(t)]) == Broadcast(followers, shortName + ": " + t)
  {
    assert [Str(t)][..0] == [];
    assert Payload(Str(t)).Some?;
    var full := shortName + ": " + t;
    assert NotifyText(shortName, Str(t)) == Some(full) && Payload(Str(full)) == Some(full);
    assert ScriptDeliveries(followers, shortName, [Str(t)]) == [] + Broadcast(followers, full);
  }

  /** Two routines that do not raise send what the first sends, then what the
      second sends. */
  lemma TwoRoutines(followers: seq<Follower>, c1: RoutineClass, c2: RoutineClass)
    requires !c1.run.raises && !c2.run.raises
    ensures RunAll(followers, [c1, c2])
            == Outcome(ScriptDeliveries(followers, ShortNameOf(c1), c1.run.notes)
                       + ScriptDeliveries(followers, ShortNameOf(c2), c2.run.notes), false)
  {
    var sd1 := ScriptDeliveries(followers, ShortNameOf(c1), c1.run.notes);
    assert [c1, c2][..1] == [c1] && [c1][..0] == [];
    assert RunAll(followers, [c1]) == Outcome([] + sd1, false);
    assert [] + sd1 == sd1;
  }

  lemma PrefixedIs(shortName: string, t: string, full: string)
    requires |full| == |shortName| + 2 + |t| && full[|shortName|..|shortName| + 2] == ": "
    requires full[..|shortName|] == shortName && full[|shortName| + 2..] == t
    ensures shortName + ": " + t == full
  {
    assert full == full[..|shortName|] + full[|shortName|..|shortName| + 2] + full[|shortName| + 2..];
  }

  /** A routine whose script is one non-blank note and no raise sends that
      note, prefixed, to every follower. */
  lemma SingleNoteRoutine(followers: seq<Follower>, c: RoutineClass, shortName: string, t: string, full: string)
    requires c.run == Script([Str(t)], false) && ShortNameOf(c) == shortName
    requires |t| > 0 && !IsAsciiSpace(t[0]) && shortName + ": " + t == full
    ensures !c.run.raises
    ensures ScriptDeliveries(followers, ShortNameOf(c), c.run.notes) == Broadcast(followers, full)
  {
    OneNote(followers, shortName, t);
  }

  lemma Routine1Sends(followers: seq<Follower>)
    ensures !TestRoutine1.run.raises
    ensures ScriptDeliveries(followers, ShortNameOf(TestRoutine1), TestRoutine1.run.notes)
            == Broadcast(followers, "ROT1: OK")
  {
    PrefixedIs("ROT1", "OK", "ROT1: OK");
    SingleNoteRoutine(followers, TestRoutine1, "ROT1", "OK", "ROT1: OK");
  }

  lemma Routine2Sends(followers: seq<Follower>)
    ensures !TestRoutine2.run.raises
    ensures ScriptDeliveries(followers, ShortNameOf(TestRoutine2), TestRoutine2.run.notes)
            == Broadcast(followers, "ROT2: ERRO, verificar")
  {
    PrefixedIs("ROT2", "ERRO, verificar", "ROT2: ERRO, verificar");
    SingleNoteRoutine(followers, TestRoutine2, "ROT2", "ERRO, verificar", "ROT2: ERRO, verificar");
  }

  /** Running the two example routines sends "ROT1: OK" and then
      "ROT2: ERRO, verificar" to every follower. */
  lemma ExampleRun(followers: seq<Follower>)
    ensures RunAll(followers, [TestRoutine1, TestRoutine2])
            == Outcome(Broadcast(followers, "ROT1: OK") + Broadcast(followers, "ROT2: ERRO, verificar"), false)
  {
    Routine1Sends(followers);
    Routine2Sends(followers);
    TwoRoutines(followers, TestRoutine1, TestRoutine2);
  }

  // =====================================================================
  // notifier (draft.py:70-103)

  class Notifier {
    const api: Api
    /** `_followers`: the follower list, once fetched. */
    var followers: Option<seq<Follower>>
    /** `api.fetches` when this notifier was built. */
    ghost const fetchesBefore: nat

    /** The cache holds what the API answered, and the API was asked once
        if the cache is filled and never otherwise. */
    ghost predicate Valid()
      reads this, api
    {
      && api.fetches == fetchesBefore + (if followers.Some? then 1 else 0)
      && (followers.Some? ==> followers.value == api.followerList)
    }

    constructor (api: Api)
      ensures Valid() && this.api == api && followers == None && fetchesBefore == api.fetches
    {
      this.api := api;
      followers := None;
      fetchesBefore := api.fetches;
    }

    /** `_get_followers`: fetch the followers the first time, reuse them after. */
    method GetFollowers() returns (fs: seq<Follower>)
      requires Valid()
      modifies this`followers, api`fetches
      ensures Valid() && followers == Some(fs) && fs == api.followerList
      ensures api.fetches == fetchesBefore + 1
    {
      if followers.None? {
        var fetched := api.Followers();
        followers := Some(fetched);
      }
      fs := followers.value;
    }

    /** `send(message)`: nothing for anything but a non-blank `str`;
        otherwise one direct message per follower, in follower order. */
    method Send(m: Message)
      requires Valid()
      modifies this`followers, api
      ensures Valid()
      ensures api.outbox == old(api.outbox) + SendDeliveries(api.followerList, m)
      ensures Payload(m).None? ==> followers == old(followers) && api.fetches == old(api.fetches)
    {
      if m.NoMessage? || m.NotStr? {
        return;
      }
      if IsAsciiBlank(m.text) {
        return;
      }
      var fs := GetFollowers();
      DirectToEach(fs, m.text);
    }

    /** The loop of `send`: one direct message per follower, in order. */
    method DirectToEach(fs: seq<Follower>, text: string)
      modifies api`outbox
      ensures api.outbox == old(api.outbox) + Broadcast(fs, text)
    {
      var i := 0;
      while i < |fs|
        invariant 0 <= i <= |fs|
        invariant api.outbox == old(api.outbox) + Broadcast(fs[..i], text)
      {
        api.SendDirectMessage(fs[i].id, text);
        assert fs[..i + 1][..i] == fs[..i];
        i := i + 1;
      }
      assert fs[..i] == fs;
    }
  }

  // =====================================================================
  // routine (draft.py:106-145)

  class Routine {
    const cls: RoutineClass
    const name: string
    const shortName: string
    const notifier: Notifier

    /** `__init__`: `name` and `short_name` fall back on the class name. */
    constructor (cls: RoutineClass, notifier: Notifier)
      ensures this.cls == cls && this.notifier == notifier
      ensures name == Core.DefaultName(cls.name, cls.className)
      ensures shortName == ShortNameOf(cls)
    {
      this.cls := cls;
      this.notifier := notifier;
      name := Core.DefaultName(cls.name, cls.className);
      shortName := Core.DefaultName(cls.shortName, cls.className);
    }

    /** `notify(message)`: drop anything but a non-blank `str`, otherwise
        send it prefixed with the short name. */
    method Notify(m: Message)
      requires notifier.Valid()
      modifies notifier`followers, notifier.api
      ensures notifier.Valid()
      ensures notifier.api.outbox
              == old(notifier.api.outbox) + NotifyDeliveries(notifier.api.followerList, shortName, m)
    {
      if m.NoMessage? || m.NotStr? {
        return;
      }
      if IsAsciiBlank(m.text) {
        return;
      }
      notifier.Send(Str(shortName + ": " + m.text));
    }

    /** `run()`, the subclass's body, played back from `cls.run`. */
    method Run() returns (raised: bool)
      requires notifier.Valid()
      modifies notifier`followers, notifier.api
      ensures notifier.Valid() && raised == cls.run.raises
      ensures notifier.api.outbox
              == old(notifier.api.outbox) + ScriptDeliveries(notifier.api.followerList, shortName, cls.run.notes)
    {
      var notes := cls.run.notes;
      var api := notifier.api;
      ghost var fl := api.followerList;
      ghost var start := api.outbox;
      var i := 0;
      while i < |notes|
        invariant 0 <= i <= |notes|
        invariant notifier.Valid()
        invariant api.outbox == start + ScriptDeliveries(fl, shortName, notes[..i])
      {
        ghost var pre := api.outbox;
        Notify(notes[i]);
        ScriptStep(start, pre, api.outbox, fl, shortName, notes, i);
        i := i + 1;
      }
      assert notes[..i] == notes;
      raised := cls.run.raises;
    }
  }

  // =====================================================================
  // runner (draft.py:148-162)

  class Runner {
    const notifier: Notifier
    const routines: seq<RoutineClass>

    constructor (notifier: Notifier, routines: seq<RoutineClass>)
      ensures this.notifier == notifier && this.routines == routines
    {
      this.notifier := notifier;
      this.routines := routines;
    }

    /** `run()`: build each routine with the shared notifier and run it; a
        routine's exception leaves the loop and the method. The followers are
        fetched at most once over the whole run. */
    method Run() returns (raised: bool)
      requires notifier.Valid()
      modifies notifier`followers, notifier.api
      ensures notifier.Valid()
      ensures var o := RunAll(notifier.api.followerList, routines);
              notifier.api.outbox == old(notifier.api.outbox) + o.sent && raised == o.raised
    {
      ghost var fl := notifier.api.followerList;
      ghost var sent0 := notifier.api.outbox;
      raised := false;
      var i := 0;
      while i < |routines| && !raised
        invariant 0 <= i <= |routines| && notifier.Valid()
        invariant var o := RunAll(fl, routines[..i]);
                  notifier.api.outbox == sent0 + o.sent && raised == o.raised
      {
        var rt := new Routine(routines[i], notifier);
        ghost var pre := notifier.api.outbox;
        raised := rt.Run();
        RunStep(sent0, pre, notifier.api.outbox, fl, routines, i);
        i := i + 1;
      }
      if raised {
        RaiseIsFinal(fl, routines, i);
      } else {
        assert routines[..i] == routines;
      }
    }
  }

  /** One more routine, run after none has raised, extends the outcome of a
      prefix of `classes` to the next prefix. */
  lemma RunStep(start: seq<DirectMessage>, pre: seq<DirectMessage>, post: seq<DirectMessage>,
                followers: seq<Follower>, classes: seq<RoutineClass>, i: nat)
    requires i < |classes| && !RunAll(followers, classes[..i]).raised
    requires pre == start + RunAll(followers, classes[..i]).sent
    requires post == pre + ScriptDeliveries(followers, ShortNameOf(classes[i]), classes[i].run.notes)
    ensures var o := RunAll(followers, classes[..i + 1]);
            post == start + o.sent && o.raised == classes[i].run.raises
  {
    assert classes[..i + 1][..i] == classes[..i];
    Core.AppendAssoc(start, RunAll(followers, classes[..i]).sent,
                     ScriptDeliveries(followers, ShortNameOf(classes[i]), classes[i].run.notes));
  }
}
