/** What a run leaves on record: the commands a call hands to govc, and its writes to the
    environment file. Both are read off a run, not stored in it. */
module Traces {
  import opened Host
  import opened Machine

  /** A command, the host it met, and whether it reported success. */
  datatype Event = Event(cmd: Cmd, host: Host, ok: bool)

  function Events(s: State, l: Label): seq<Event> {
    if l.Main? && s.t.todo != [] && CommandOf(s.t.todo[0], s.t.own).Some? then
      var cmd := CommandOf(s.t.todo[0], s.t.own).value;
      [Event(cmd, s.w.host, Exec(s.w.host, cmd, l.o).1)]
    else []
  }

  /** The commands of the call itself; its goroutine's power-on is not among them. */
  function Trace(s: State, ls: seq<Label>): seq<Event>
    decreases |ls|
  {
    if ls == [] then [] else Events(s, ls[0]) + Trace(Step(s, ls[0]), ls[1..])
  }

  ghost predicate AllOk(tr: seq<Event>) { forall i :: 0 <= i < |tr| ==> tr[i].ok }

  /** Every event but the last one reports success. */
  ghost predicate FailsLast(tr: seq<Event>) { forall i :: 0 <= i < |tr| - 1 ==> tr[i].ok }

  /** A step of the call itself fails; what the goroutine does is not looked at. */
  predicate SomeStepFails(s: State, ls: seq<Label>)
    decreases |ls|
  {
    ls != [] && (
      || (ls[0].Main? && s.t.todo != [] && !Act(s.t.todo[0], s.w, s.t.own, ls[0].o).1)
      || SomeStepFails(Step(s, ls[0]), ls[1..]))
  }

  /** Fail fast: a call issues nothing after a command that failed, and it fails itself
      exactly if one of its own steps did. A failing goroutine does not count. */
  lemma {:induction false} FailFast(s: State, ls: seq<Label>)
    requires s.t.failed ==> Finished(s.t)
    ensures FailsLast(Trace(s, ls))
    ensures !s.t.failed && !AllOk(Trace(s, ls)) ==> Run(s, ls).t.failed
    ensures !s.t.failed ==> (Run(s, ls).t.failed <==> SomeStepFails(s, ls))
    ensures Run(s, ls).t.failed ==> Finished(Run(s, ls).t)
    decreases |ls|
  {
    if ls != [] {
      var r := Step(s, ls[0]);
      FailFast(r, ls[1..]);
      EventFailure(s, ls[0]);
      if r.t.failed {
        NothingMore(r, ls[1..]);
      }
    }
  }

  lemma EventFailure(s: State, l: Label)
    requires s.t.failed ==> Finished(s.t)
    ensures Step(s, l).t.failed ==> Finished(Step(s, l).t)
    ensures s.t.failed ==> Step(s, l).t.failed
    ensures Events(s, l) != [] && !s.t.failed ==> (Step(s, l).t.failed <==> !Events(s, l)[0].ok)
    ensures s.t.failed ==> Events(s, l) == []
  {
  }

  lemma {:induction false} NothingMore(s: State, ls: seq<Label>)
    requires Finished(s.t)
    ensures Trace(s, ls) == [] && Finished(Run(s, ls).t) && Run(s, ls).t.failed == s.t.failed
    decreases |ls|
  {
    if ls != [] {
      NothingMore(Step(s, ls[0]), ls[1..]);
    }
  }

  // ---------- Legal command sequences ----------

  /** Programs that run straight on, apart from polling. */
  predicate Straight(todo: seq<Action>) {
    forall i :: 0 <= i < |todo| ==> todo[i].Do? || todo[i].Fork? || todo[i].Poll? || todo[i].WriteEnv?
  }

  /** The commands of a straight program, polls left out. */
  function Script(todo: seq<Action>): seq<Cmd> {
    if todo == [] then []
    else (if todo[0].Do? then [todo[0].cmd] else []) + Script(todo[1..])
  }

  /** The commands of a trace, polls left out. */
  function Commands(tr: seq<Event>): seq<Cmd> {
    if tr == [] then []
    else (if tr[0].cmd.VmInfo? then [] else [tr[0].cmd]) + Commands(tr[1..])
  }

  lemma {:induction false} CommandsConcat(x: seq<Event>, y: seq<Event>)
    ensures Commands(x + y) == Commands(x) + Commands(y)
  {
    if x == [] {
      assert x + y == y;
    } else {
      assert (x + y)[1..] == x[1..] + y;
      CommandsConcat(x[1..], y);
    }
  }

  predicate NoInfo(todo: seq<Action>) {
    forall i :: 0 <= i < |todo| && todo[i].Do? ==> !todo[i].cmd.VmInfo?
  }

  /** Whatever fails or stops it, a straight call issues a prefix of its script. */
  lemma {:induction false} IssuesPrefix(s: State, ls: seq<Label>)
    requires Straight(s.t.todo) && NoInfo(s.t.todo) && (s.t.failed ==> Finished(s.t))
    ensures Commands(Trace(s, ls)) <= Script(s.t.todo)
    ensures Succeeded(Run(s, ls).t) && !s.t.failed ==> Commands(Trace(s, ls)) == Script(s.t.todo)
    decreases |ls|
  {
    if ls != [] {
      var r := Step(s, ls[0]);
      CommandsConcat(Events(s, ls[0]), Trace(r, ls[1..]));
      StraightStep(s, ls[0]);
      if r.t.failed && !s.t.failed {
        NothingMore(r, ls[1..]);
      } else {
        IssuesPrefix(r, ls[1..]);
      }
    }
  }

  /** What one step of a straight program issues comes off the front of its script. */
  lemma StraightStep(s: State, l: Label)
    requires Straight(s.t.todo) && NoInfo(s.t.todo) && (s.t.failed ==> Finished(s.t))
    ensures var r := Step(s, l);
            var c := Commands(Events(s, l));
            && Straight(r.t.todo) && NoInfo(r.t.todo)
            && (r.t.failed && !s.t.failed ==> Finished(r.t) && c <= Script(s.t.todo))
            && (r.t.failed == s.t.failed ==> Script(s.t.todo) == c + Script(r.t.todo))
  {
    if l.Main? && s.t.todo != [] {
      var a, rest := s.t.todo[0], s.t.todo[1..];
      var r := MainStep(s, l.o);
      OneCommand(s, l);
      StraightExpands(a, rest, s.w, s.t.own);
      assert r.t.todo == [] || r.t.todo == rest || r.t.todo == s.t.todo;
    }
  }

  lemma StraightExpands(a: Action, rest: seq<Action>, w: World, own: string)
    requires a.Do? || a.Fork? || a.Poll? || a.WriteEnv?
    ensures Expand(a, w, own) + rest == rest || (a.Poll? && Expand(a, w, own) + rest == [a] + rest)
  {
  }

  lemma OneCommand(s: State, l: Label)
    requires l.Main? && s.t.todo != [] && NoInfo(s.t.todo) && Straight(s.t.todo)
    ensures Commands(Events(s, l)) == if s.t.todo[0].Do? then [s.t.todo[0].cmd] else []
  {
    assert Commands([]) == [];
  }

  // ---------- Writes to the environment file ----------

  /** What a step leaves in the environment file by writing to it, if it does. */
  function Writes(s: State, l: Label): Option<Option<Env>> {
    if l.Main? && s.t.todo != [] && s.t.todo[0].WriteEnv? && l.o.write != Kept
    then Some(Saved(None, s.t.todo[0].env, l.o.write)) else None
  }

  /** What the last write that had an effect left in the environment file. */
  function LastWrite(s: State, ls: seq<Label>): Option<Option<Env>>
    decreases |ls|
  {
    if ls == [] then None
    else
      var later := LastWrite(Step(s, ls[0]), ls[1..]);
      if later.Some? then later else Writes(s, ls[0])
  }

  lemma {:induction false} CellIsLastWrite(s: State, ls: seq<Label>)
    ensures Run(s, ls).w.cell == if LastWrite(s, ls).Some? then LastWrite(s, ls).value else s.w.cell
    decreases |ls|
  {
    if ls != [] {
      CellIsLastWrite(Step(s, ls[0]), ls[1..]);
    }
  }

  /** The call wrote the environment file, and the write went well. */
  predicate Wrote(w: World, c: Call, ls: seq<Label>) {
    LastWrite(Start(w, c), ls).Some? && LastWrite(Start(w, c), ls).value.Some?
  }

  /** The environment file is as before. */
  predicate Unwritten(w: World, c: Call, ls: seq<Label>) { LastWrite(Start(w, c), ls) == None }

  /** The environment file can no longer be read. */
  predicate Spoils(w: World, c: Call, ls: seq<Label>) { LastWrite(Start(w, c), ls) == Some(None) }

  // ---------- Uploads ----------

  /** What an upload leaves in the ISO file of the call's VM, if it gets that far: the
      environment, or nothing that can be read. */
  function Uploads(s: State, l: Label): Option<Option<Env>> {
    if l.Main? && s.t.todo != [] && s.t.todo[0].Do? && s.t.todo[0].cmd.DatastoreUpload?
       && Accepts(s.w.host, s.t.todo[0].cmd, l.o) && l.o.fault != Before
    then Some(if l.o.fault != Halfway && l.o.intact then Some(s.t.todo[0].cmd.env) else None)
    else None
  }

  /** What the last upload that had an effect left in the ISO file. */
  function LastUpload(s: State, ls: seq<Label>): Option<Option<Env>>
    decreases |ls|
  {
    if ls == [] then None
    else
      var later := LastUpload(Step(s, ls[0]), ls[1..]);
      if later.Some? then later else Uploads(s, ls[0])
  }

  /** The uploaded ISO file was whole. */
  predicate Burned(s: State, ls: seq<Label>) { LastUpload(s, ls).Some? && LastUpload(s, ls).value.Some? }

  predicate UploadTo(a: Action, own: string) { a.Do? && a.cmd.DatastoreUpload? && a.cmd.vm == own }

  predicate UploadPending(todo: seq<Action>, own: string) {
    exists i | 0 <= i < |todo| :: UploadTo(todo[i], own) || (todo[i].EditEnv? && todo[i].vm == own)
  }

  /** A call that has an upload ahead of it does not succeed without one. */
  lemma {:induction false} UploadHappens(s: State, ls: seq<Label>)
    requires UploadPending(s.t.todo, s.t.own) && !s.t.failed
    ensures Succeeded(Run(s, ls).t) ==> LastUpload(s, ls).Some?
    decreases |ls|
  {
    if ls != [] {
      var r := Step(s, ls[0]);
      UploadStaysPending(s, ls[0]);
      if r.t.failed {
        NothingMore(r, ls[1..]);
      } else if Uploads(s, ls[0]) == None {
        UploadHappens(r, ls[1..]);
      }
    }
  }

  lemma UploadStaysPending(s: State, l: Label)
    requires UploadPending(s.t.todo, s.t.own) && !s.t.failed
    ensures var r := Step(s, l);
            && r.t.own == s.t.own && (r.t.failed ==> Finished(r.t))
            && (!r.t.failed ==> Uploads(s, l).Some? || UploadPending(r.t.todo, r.t.own))
  {
    if l.Main? && !Step(s, l).t.failed {
      var a, rest := s.t.todo[0], s.t.todo[1..];
      var e := Expand(a, s.w, s.t.own);
      var i :| 0 <= i < |s.t.todo| &&
                 (UploadTo(s.t.todo[i], s.t.own) || (s.t.todo[i].EditEnv? && s.t.todo[i].vm == s.t.own));
      if i > 0 {
        assert (e + rest)[|e| + i - 1] == s.t.todo[i];
      } else if a.EditEnv? {
        assert (e + rest)[3] == e[3] && UploadTo(e[3], s.t.own);
      }
    }
  }

  /** What is still to do hands out no environment but `env`. */
  predicate HandsOut(todo: seq<Action>, env: Env) {
    forall i :: 0 <= i < |todo| ==> HandsOutOnly(todo[i], env)
  }

  predicate HandsOutOnly(a: Action, env: Env) {
    && !a.EditEnv? && (a.WriteEnv? ==> a.env == env)
    && (a.Do? && a.cmd.DatastoreUpload? ==> a.cmd.env == env)
  }

  lemma {:induction false} HandsOutRun(s: State, ls: seq<Label>, env: Env)
    requires HandsOut(s.t.todo, env)
    ensures LastWrite(s, ls) in {None, Some(None), Some(Some(env))}
    ensures LastUpload(s, ls) in {None, Some(None), Some(Some(env))}
    decreases |ls|
  {
    if ls != [] {
      var r := Step(s, ls[0]);
      if ls[0].Main? && s.t.todo != [] && !r.t.failed {
        assert HandsOutOnly(s.t.todo[0], env);
        assert r.t.todo == Expand(s.t.todo[0], s.w, s.t.own) + s.t.todo[1..];
      }
      assert s.t.todo != [] ==> HandsOutOnly(s.t.todo[0], env);
      assert HandsOut(r.t.todo, env);
      HandsOutRun(r, ls[1..], env);
    }
  }
}
