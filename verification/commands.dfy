/** The two console commands in front of the generator
    (Classes/Command/GeneratorCommand.php and
    Classes/Command/CreateCommand.php): an argument and two flags are
    turned into a plan of generator calls, and the plan is run in order,
    each call's message written to the output. */
module Commands {
  import opened Wrappers
  import opened Host
  import opened RecordFinder
  import opened Markers
  import opened Scenario
  import opened Generator

  /** Symfony's `Command::SUCCESS` and `Command::FAILURE`. */
  const ExitSuccess := 0
  const ExitFailure := 1

  /** The three fallback types a tree can be generated for, in the order
      "all" visits them. */
  const Types: seq<string> := ["fallback", "strict", "free"]

  const OptionError := "<error>Please specify an option \"--create\" or \"--delete\"</error>"
  const ActionError := "<error>Please specify a valid action. Choose \"fallback\", \"strict\", \"free\" or \"all\"</error>"

  /** One call into the generator. */
  datatype Call = CreateCall(t: string) | DeleteCall(t: string)

  /** What a command does with its input: write an error and fail, or run
      the calls in order. */
  datatype Plan = Reject(error: string) | Run(calls: seq<Call>)

  /** The `switch` on the optional `type` argument: one of the three types
      selects itself, "all" selects the three in order, and anything else,
      a missing argument included, selects nothing. */
  function Selected(arg: Option<string>): (r: Option<seq<string>>)
    ensures r.None? <==> arg.None? || (arg.value !in Types && arg.value != "all")
    ensures r.Some? ==> 0 < |r.value| && forall t :: t in r.value ==> t in Types
    ensures r.Some? && arg.value in Types ==> r.value == [arg.value]
  {
    match arg
    case None => None
    case Some(a) =>
      if a == "fallback" || a == "strict" || a == "free" then Some([a])
      else if a == "all" then Some(["fallback", "strict", "free"])
      else None
  }

  function CreateCalls(ts: seq<string>): (r: seq<Call>)
    ensures |r| == |ts| && forall i :: 0 <= i < |ts| ==> r[i] == CreateCall(ts[i])
  {
    seq(|ts|, i requires 0 <= i < |ts| => CreateCall(ts[i]))
  }

  function DeleteCalls(ts: seq<string>): (r: seq<Call>)
    ensures |r| == |ts| && forall i :: 0 <= i < |ts| ==> r[i] == DeleteCall(ts[i])
  {
    seq(|ts|, i requires 0 <= i < |ts| => DeleteCall(ts[i]))
  }

  /** `GeneratorCommand::execute` as a plan. The flags are checked before
      the argument; per selected type the creates come first, then the
      deletes. */
  function GeneratorPlan(create: bool, delete: bool, arg: Option<string>): (p: Plan)
    ensures !create && !delete ==> p == Reject(OptionError)
    ensures (create || delete) && Selected(arg).None? ==> p == Reject(ActionError)
    ensures p.Run? <==> (create || delete) && Selected(arg).Some?
    ensures p.Run? ==> forall c :: c in p.calls ==> c.t in Types
    ensures p.Run? ==> forall c :: c in p.calls ==> (c.CreateCall? ==> create) && (c.DeleteCall? ==> delete)
    ensures p.Run? ==> forall i, j :: 0 <= i < j < |p.calls| && p.calls[j].CreateCall? ==> p.calls[i].CreateCall?
  {
    if !create && !delete then Reject(OptionError)
    else match Selected(arg)
      case None => Reject(ActionError)
      case Some(ts) => Run((if create then CreateCalls(ts) else []) + (if delete then DeleteCalls(ts) else []))
  }

  /** `CreateCommand::execute` as a plan: no flags, one create per selected
      type. */
  function CreatePlan(arg: Option<string>): (p: Plan)
    ensures p.Reject? ==> p.error == ActionError
    ensures p.Run? ==> forall c :: c in p.calls ==> c.CreateCall? && c.t in Types
  {
    match arg
    case Some("fallback") => Run([CreateCall("fallback")])
    case Some("strict") => Run([CreateCall("strict")])
    case Some("free") => Run([CreateCall("free")])
    case Some("all") => Run([CreateCall("fallback"), CreateCall("strict"), CreateCall("free")])
    case _ => Reject(ActionError)
  }

  // ---------------------------------------------------------------------
  // Properties of the plans

  /** A generator call is planned exactly when its flag is set and the
      argument selects its type. */
  lemma PlanCovers(create: bool, delete: bool, arg: Option<string>, t: string)
    requires GeneratorPlan(create, delete, arg).Run?
    ensures CreateCall(t) in GeneratorPlan(create, delete, arg).calls <==> create && t in Selected(arg).value
    ensures DeleteCall(t) in GeneratorPlan(create, delete, arg).calls <==> delete && t in Selected(arg).value
  {
    var ts := Selected(arg).value;
    var calls := GeneratorPlan(create, delete, arg).calls;
    var cs := if create then CreateCalls(ts) else [];
    var ds := if delete then DeleteCalls(ts) else [];
    assert calls == cs + ds;
    if create && t in ts {
      var i :| 0 <= i < |ts| && ts[i] == t;
      assert cs[i] == CreateCall(t);
    }
    if delete && t in ts {
      var i :| 0 <= i < |ts| && ts[i] == t;
      assert ds[i] == DeleteCall(t);
    }
  }

  /** No call is planned twice. */
  lemma PlanDistinct(create: bool, delete: bool, arg: Option<string>)
    requires GeneratorPlan(create, delete, arg).Run?
    ensures var calls := GeneratorPlan(create, delete, arg).calls;
      forall i, j :: 0 <= i < j < |calls| ==> calls[i] != calls[j]
  {
    var ts := Selected(arg).value;
    assert forall i, j :: 0 <= i < j < |ts| ==> ts[i] != ts[j] by {
      if arg.value == "all" {
        assert ts == ["fallback", "strict", "free"];
      }
    }
  }

  /** The dedicated create command plans exactly what the generator
      command plans with only `--create` set: the same calls, and the same
      error for a bad or missing argument. */
  lemma CreateCommandAgrees(arg: Option<string>)
    ensures CreatePlan(arg) == GeneratorPlan(true, false, arg)
  {
    if arg.Some? && arg.value == "all" {
      assert CreateCalls(Types) == [CreateCall("fallback"), CreateCall("strict"), CreateCall("free")];
    }
  }

  /** With one flag, "all" is the three single-type commands one after the
      other. */
  lemma AllIsEachInTurn(create: bool, delete: bool)
    requires create != delete
    ensures GeneratorPlan(create, delete, Some("all")).calls
      == GeneratorPlan(create, delete, Some("fallback")).calls
       + GeneratorPlan(create, delete, Some("strict")).calls
       + GeneratorPlan(create, delete, Some("free")).calls
  {
    if create {
      assert CreateCalls(Types) == CreateCalls(["fallback"]) + CreateCalls(["strict"]) + CreateCalls(["free"]);
    } else {
      assert DeleteCalls(Types) == DeleteCalls(["fallback"]) + DeleteCalls(["strict"]) + DeleteCalls(["free"]);
    }
  }

  /** With both flags, "all" makes the same calls as the three single-type
      commands (no call twice, by `PlanDistinct`), but all creates come before the first delete, whereas the
      single-type commands in turn would delete "fallback" before creating
      "strict". */
  lemma AllWithBothFlags()
    ensures var all := GeneratorPlan(true, true, Some("all")).calls;
      var each := GeneratorPlan(true, true, Some("fallback")).calls
        + GeneratorPlan(true, true, Some("strict")).calls
        + GeneratorPlan(true, true, Some("free")).calls;
      && |all| == |each|
      && (forall c :: c in all <==> c in each)
      && all != each
  {
    var c0, c1, c2 := CreateCall("fallback"), CreateCall("strict"), CreateCall("free");
    var d0, d1, d2 := DeleteCall("fallback"), DeleteCall("strict"), DeleteCall("free");
    var all := GeneratorPlan(true, true, Some("all")).calls;
    assert all == CreateCalls(Types) + DeleteCalls(Types);
    assert all == [c0, c1, c2, d0, d1, d2];
    var each := GeneratorPlan(true, true, Some("fallback")).calls
      + GeneratorPlan(true, true, Some("strict")).calls
      + GeneratorPlan(true, true, Some("free")).calls;
    assert GeneratorPlan(true, true, Some("fallback")).calls == [c0, d0];
    assert GeneratorPlan(true, true, Some("strict")).calls == [c1, d1];
    assert GeneratorPlan(true, true, Some("free")).calls == [c2, d2];
    assert each == [c0, d0, c1, d1, c2, d2];
    assert all[1] != each[1];
  }

  // ---------------------------------------------------------------------
  // Running a plan

  /** The texts written to the output, in order. */
  function Messages(trace: seq<Effect>): seq<string> {
    if |trace| == 0 then []
    else (if trace[0].Message? then [trace[0].text] else []) + Messages(trace[1..])
  }

  lemma {:induction false} MessagesAppend(a: seq<Effect>, b: seq<Effect>)
    ensures Messages(a + b) == Messages(a) + Messages(b)
    decreases |a|
  {
    if |a| > 0 {
      assert (a + b)[1..] == a[1..] + b;
      MessagesAppend(a[1..], b);
    } else {
      assert a + b == b;
    }
  }

  lemma {:induction false} NoMessages(trace: seq<Effect>)
    requires forall i :: 0 <= i < |trace| ==> !trace[i].Message?
    ensures Messages(trace) == []
    decreases |trace|
  {
    if |trace| > 0 {
      NoMessages(trace[1..]);
    }
  }

  /** A silent step leaves the written output as it was. */
  lemma SilentKeepsMessages(from: seq<Effect>, to: seq<Effect>)
    requires Silent(from, to)
    ensures Messages(to) == Messages(from)
  {
    var rest := to[|from|..];
    assert to == from + rest;
    NoMessages(rest);
    MessagesAppend(from, rest);
  }

  lemma SayAddsMessage(s: Store, text: string)
    ensures Messages(Say(s, text).trace) == Messages(s.trace) + [text]
  {
    MessagesAppend(s.trace, [Message(text)]);
  }

  /** The line a successful call writes: the generator's return value. */
  function CallMessage(c: Call): string {
    match c
    case CreateCall(t) => CreatedText(t)
    case DeleteCall(t) => DeletedMessage(t)
  }

  function CallMessages(calls: seq<Call>): (r: seq<string>)
    ensures |r| == |calls| && forall i :: 0 <= i < |calls| ==> r[i] == CallMessage(calls[i])
  {
    seq(|calls|, i requires 0 <= i < |calls| => CallMessage(calls[i]))
  }

  /** One call and its output line. An exception from the generator
      propagates and nothing is written. */
  method RunCall(env: Env, s: Store, c: Call) returns (r: Exec)
    ensures r.Ok() ==> Messages(r.store.trace) == Messages(s.trace) + [CallMessage(c)]
    ensures r.thrown.Some? ==> Messages(r.store.trace) == Messages(s.trace)
    ensures r.thrown.Some? ==> r.thrown.value in {DbError, Code(SecondTree), WriteError}
    ensures !s.dbOk ==> r == Exec(s, Some(DbError))
    ensures c.CreateCall? && s.dbOk && |FindUidsOfPages(s, [RootMarker(c.t)])| > 0 ==> r == Exec(s, Some(Code(SecondTree)))
    ensures c.DeleteCall? && s.dbOk && !env.deleteFails ==> r.Ok()
    ensures r.store.dbOk == s.dbOk
  {
    var done: Exec;
    match c {
      case CreateCall(t) =>
        var data, g, root, config;
        done, data, g, root, config := Generator.Create(env, s, t);
      case DeleteCall(t) =>
        var plan;
        done, plan := Generator.Delete(env, s, t);
    }
    SilentKeepsMessages(s.trace, done.store.trace);
    if !done.Ok() {
      return done;
    }
    r := Exec(Say(done.store, CallMessage(c)), None);
    SayAddsMessage(done.store, CallMessage(c));
  }

  /** Runs a plan: a rejection writes its error and fails; otherwise the
      calls run in order until one throws, and the command succeeds when
      none does. */
  method RunPlan(env: Env, s: Store, p: Plan) returns (r: Exec, code: int)
    ensures p.Reject? ==> r == Exec(Say(s, p.error), None) && code == ExitFailure
    ensures p.Run? && r.Ok() ==> code == ExitSuccess && Messages(r.store.trace) == Messages(s.trace) + CallMessages(p.calls)
    ensures p.Run? && r.thrown.Some? ==>
      exists i :: 0 <= i < |p.calls| && Messages(r.store.trace) == Messages(s.trace) + CallMessages(p.calls[..i])
    ensures r.thrown.Some? ==> r.thrown.value in {DbError, Code(SecondTree), WriteError}
    ensures !s.dbOk && p.Run? && |p.calls| > 0 ==> r == Exec(s, Some(DbError))
  {
    if p.Reject? {
      return Exec(Say(s, p.error), None), ExitFailure;
    }
    var calls := p.calls;
    r, code := Exec(s, None), ExitSuccess;
    var i := 0;
    while i < |calls|
      invariant 0 <= i <= |calls|
      invariant r.Ok() && r.store.dbOk == s.dbOk
      invariant Messages(r.store.trace) == Messages(s.trace) + CallMessages(calls[..i])
      invariant i == 0 ==> r.store == s
      invariant i > 0 ==> s.dbOk
    {
      var next := RunCall(env, r.store, calls[i]);
      if !next.Ok() {
        return next, ExitFailure;
      }
      assert CallMessages(calls[..i + 1]) == CallMessages(calls[..i]) + [CallMessage(calls[i])];
      r := next;
      i := i + 1;
    }
    assert calls[..i] == calls;
  }

  /** `translation-handling` with its `type` argument and its `--create`
      and `--delete` flags. */
  method GeneratorCommand(env: Env, s: Store, arg: Option<string>, create: bool, delete: bool) returns (r: Exec, code: int)
    ensures !create && !delete ==> r == Exec(Say(s, OptionError), None) && code == ExitFailure
    ensures (create || delete) && Selected(arg).None? ==> r == Exec(Say(s, ActionError), None) && code == ExitFailure
    ensures (create || delete) && Selected(arg).Some? && r.Ok() ==>
      && code == ExitSuccess
      && Messages(r.store.trace) == Messages(s.trace) + CallMessages(GeneratorPlan(create, delete, arg).calls)
    ensures r.thrown.Some? ==> r.thrown.value in {DbError, Code(SecondTree), WriteError}
  {
    r, code := RunPlan(env, s, GeneratorPlan(create, delete, arg));
  }

  /** `translation-handling:create` with its `type` argument. */
  method CreateCommand(env: Env, s: Store, arg: Option<string>) returns (r: Exec, code: int)
    ensures Selected(arg).None? ==> r == Exec(Say(s, ActionError), None) && code == ExitFailure
    ensures Selected(arg).Some? && r.Ok() ==>
      && code == ExitSuccess
      && Messages(r.store.trace) == Messages(s.trace) + CallMessages(CreateCalls(Selected(arg).value))
    ensures r.thrown.Some? ==> r.thrown.value in {DbError, Code(SecondTree), WriteError}
  {
    CreateCommandAgrees(arg);
    r, code := RunPlan(env, s, CreatePlan(arg));
  }

  /** Creating the same type twice: when the engine gave the first entry
      page a uid, the second create's guard finds it and throws 1702623429,
      whatever became of the first call's site configuration. */
  method CreateTwice(env: Env, s: Store, t: string) returns (first: Exec, second: Exec)
    requires s.dbOk && s.nextToken in env.subst
    ensures |FindUidsOfPages(s, [RootMarker(t)])| == 0 ==> second == Exec(first.store, Some(Code(SecondTree)))
    ensures |FindUidsOfPages(s, [RootMarker(t)])| > 0 ==> first == Exec(s, Some(Code(SecondTree)))
  {
    var data, g, root, config;
    first, data, g, root, config := Create(env, s, t);
    if |FindUidsOfPages(s, [RootMarker(t)])| == 0 {
      assert env.subst[s.nextToken] in FindUidsOfPages(first.store, [RootMarker(t)]);
    }
    second, data, g, root, config := Create(env, first.store, t);
  }
}
