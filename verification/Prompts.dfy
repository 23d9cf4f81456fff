/**
 * Adding configured prompts to a chat request. Each schema keeps its prompts in other
 * fields and another shape; prepending is done one insert at a time over the reversed
 * list, and Anthropic's system prompts are one string instead of an array.
 */
module Prompts {
  import opened Common
  import opened Json

  datatype Message = Message(role: string, content: string)
  datatype Action = Prepend | Append
  datatype Outcome = Added | Refused | Threw

  const ANTHROPIC := "anthropic"
  const GEMINI := "gemini"
  const BEDROCK := "bedrock"

  // ---------- What the schemas promise ----------

  predicate IsSystem(role: string) {
    role == "system" || role == "developer"
  }

  /** Anthropic's system and developer prompts do not go into an array. */
  predicate Plain(schema: string, p: Message) {
    !(schema == ANTHROPIC && IsSystem(p.role))
  }

  /** The array a prompt goes into. */
  function Target(schema: string, role: string): string {
    if schema == GEMINI then if IsSystem(role) then "system_instruction" else "contents"
    else if schema == BEDROCK && IsSystem(role) then "system"
    else "messages"
  }

  /** Whether a missing array is created. */
  predicate Creates(schema: string, field: string) {
    schema == BEDROCK || (schema == GEMINI && field == "system_instruction")
  }

  function Text(content: string): Value {
    Obj(map["text" := Str(content)])
  }

  function Rendered(schema: string, p: Message): Value {
    if schema == GEMINI then Obj(map["role" := Str(p.role), "parts" := Arr([Text(p.content)])])
    else if schema == BEDROCK then
      if IsSystem(p.role) then Text(p.content)
      else Obj(map["role" := Str(p.role), "content" := Arr([Text(p.content)])])
    else Obj(map["role" := Str(p.role), "content" := Str(p.content)])
  }

  /** The prompts of the list that go into this array, in order. */
  function Selected(schema: string, ps: seq<Message>, field: string): seq<Value> {
    if ps == [] then []
    else
      var p := ps[|ps| - 1];
      Selected(schema, ps[..|ps| - 1], field)
      + if Plain(schema, p) && Target(schema, p.role) == field then [Rendered(schema, p)] else []
  }

  /** Anthropic's text for one role: the contents in order, a newline after each. */
  function SystemText(schema: string, ps: seq<Message>, role: string): string {
    if ps == [] then ""
    else
      var p := ps[|ps| - 1];
      SystemText(schema, ps[..|ps| - 1], role)
      + if schema == ANTHROPIC && p.role == role then p.content + "\n" else ""
  }

  function Get(j: Value, field: string): Option<Value> {
    if Has(j, field) then Some(j.fields[field]) else None
  }

  function Items(j: Value, field: string): seq<Value> {
    match Get(j, field) case Some(Arr(items)) => items case _ => []
  }

  /** A prompt can be added to this field. */
  predicate Ready(schema: string, j: Value, field: string) {
    match Get(j, field)
    case Some(v) => v.Arr?
    case None => Creates(schema, field) && Fields(j).Some?
  }

  // ---------- One prompt ----------

  function Inserted(items: seq<Value>, v: Value, action: Action): seq<Value> {
    if action.Prepend? then [v] + items else items + [v]
  }

  function AddOne(schema: string, j: Value, p: Message, action: Action): (r: (Outcome, Value))
    ensures r.0 == Added <==> Ready(schema, j, Target(schema, p.role))
    ensures r.0 != Added ==> r.1 == j
    ensures r.0 == Threw ==> Fields(j) == None
  {
    var field := Target(schema, p.role);
    if Ready(schema, j, field) then
      var m := if j.Obj? then j.fields else map[];
      (Added, Obj(m[field := Arr(Inserted(Items(j, field), Rendered(schema, p), action))]))
    else if Get(j, field) == None && Creates(schema, field) then (Threw, j)
    else (Refused, j)
  }

  // ---------- A run of prompts ----------

  datatype Step = Step(prompt: Message, action: Action)

  function Run(schema: string, j: Value, steps: seq<Step>): (Outcome, Value) {
    if steps == [] then (Added, j)
    else
      var (o, k) := Run(schema, j, steps[..|steps| - 1]);
      var last := steps[|steps| - 1];
      if o == Added then AddOne(schema, k, last.prompt, last.action) else (o, k)
  }

  lemma RunMore(schema: string, j: Value, steps: seq<Step>, s: Step)
    ensures var (o, k) := Run(schema, j, steps);
            Run(schema, j, steps + [s]) == if o == Added then AddOne(schema, k, s.prompt, s.action) else (o, k)
  {
    assert (steps + [s])[..|steps|] == steps;
  }

  /** The first failure ends the run. */
  lemma {:induction false} FailureEnds(schema: string, j: Value, a: seq<Step>, b: seq<Step>)
    requires Run(schema, j, a).0 != Added
    ensures Run(schema, j, a + b) == Run(schema, j, a)
    decreases |b|
  {
    if b == [] {
      assert a + b == a;
    } else {
      var front, s := b[..|b| - 1], b[|b| - 1];
      FailureEnds(schema, j, a, front);
      LastOfBoth(a, b);
      RunMore(schema, j, a + front, s);
    }
  }

  predicate Goes(schema: string, s: Step, field: string, action: Action) {
    s.action == action && Target(schema, s.prompt.role) == field
  }

  /** What the steps put before and after the array's original items. */
  function Before(schema: string, steps: seq<Step>, field: string): seq<Value> {
    if steps == [] then []
    else
      var s := steps[|steps| - 1];
      (if Goes(schema, s, field, Prepend) then [Rendered(schema, s.prompt)] else [])
      + Before(schema, steps[..|steps| - 1], field)
  }

  function After(schema: string, steps: seq<Step>, field: string): seq<Value> {
    if steps == [] then []
    else
      var s := steps[|steps| - 1];
      After(schema, steps[..|steps| - 1], field)
      + if Goes(schema, s, field, Append) then [Rendered(schema, s.prompt)] else []
  }

  predicate Aims(schema: string, steps: seq<Step>, field: string) {
    exists s :: s in steps && Target(schema, s.prompt.role) == field
  }

  /** The array after a run that added everything. */
  ghost predicate Enclosed(schema: string, j: Value, steps: seq<Step>, k: Value, field: string) {
    if Aims(schema, steps, field)
    then Get(k, field) == Some(Arr(Before(schema, steps, field) + Items(j, field) + After(schema, steps, field)))
    else Get(k, field) == Get(j, field)
  }

  lemma Wrapped(a: seq<Value>, b: seq<Value>, c: seq<Value>, v: Value)
    ensures [v] + (a + b + c) == ([v] + a) + b + c
    ensures (a + b + c) + [v] == a + b + (c + [v])
  {
  }

  lemma NothingAimed(schema: string, steps: seq<Step>, field: string)
    requires !Aims(schema, steps, field)
    ensures Before(schema, steps, field) == [] && After(schema, steps, field) == []
    decreases |steps|
  {
    if steps != [] {
      var front, s := steps[..|steps| - 1], steps[|steps| - 1];
      assert s in steps;
      assert forall x :: x in front ==> x in steps;
      NothingAimed(schema, front, field);
    }
  }

  lemma AimsMore(schema: string, front: seq<Step>, s: Step, field: string)
    ensures Aims(schema, front + [s], field) <==> Aims(schema, front, field) || Target(schema, s.prompt.role) == field
  {
    assert s in front + [s];
    assert forall x :: x in front + [s] <==> x in front || x == s;
  }

  lemma AroundMore(schema: string, front: seq<Step>, s: Step, field: string)
    ensures var v := [Rendered(schema, s.prompt)];
            && Before(schema, front + [s], field)
               == (if Goes(schema, s, field, Prepend) then v else []) + Before(schema, front, field)
            && After(schema, front + [s], field)
               == After(schema, front, field) + if Goes(schema, s, field, Append) then v else []
  {
    assert (front + [s])[..|front|] == front;
  }

  lemma ItemsEnclosed(schema: string, j: Value, front: seq<Step>, k: Value, field: string)
    requires Enclosed(schema, j, front, k, field)
    ensures Items(k, field) == Before(schema, front, field) + Items(j, field) + After(schema, front, field)
  {
    if !Aims(schema, front, field) {
      NothingAimed(schema, front, field);
      assert [] + Items(j, field) + [] == Items(j, field);
    }
  }

  lemma OneMoreEnclosed(schema: string, j: Value, front: seq<Step>, k: Value, s: Step, field: string)
    requires Enclosed(schema, j, front, k, field) && AddOne(schema, k, s.prompt, s.action).0 == Added
    ensures Enclosed(schema, j, front + [s], AddOne(schema, k, s.prompt, s.action).1, field)
  {
    AimsMore(schema, front, s, field);
    AroundMore(schema, front, s, field);
    ItemsEnclosed(schema, j, front, k, field);
    var a, b, c := Before(schema, front, field), Items(j, field), After(schema, front, field);
    Wrapped(a, b, c, Rendered(schema, s.prompt));
    assert [] + a == a && c + [] == c;
  }

  lemma {:induction false} RunEncloses(schema: string, j: Value, steps: seq<Step>, field: string)
    requires Run(schema, j, steps).0 == Added
    ensures Enclosed(schema, j, steps, Run(schema, j, steps).1, field)
    decreases |steps|
  {
    if steps != [] {
      var front, s := steps[..|steps| - 1], steps[|steps| - 1];
      assert steps == front + [s];
      RunEncloses(schema, j, front, field);
      OneMoreEnclosed(schema, j, front, Run(schema, j, front).1, s, field);
    }
  }

  // ---------- When a run succeeds ----------

  lemma ReadyStays(schema: string, j: Value, p: Message, action: Action, field: string)
    requires Ready(schema, j, Target(schema, p.role))
    ensures Ready(schema, AddOne(schema, j, p, action).1, field) <==> Ready(schema, j, field)
  {
  }

  lemma {:induction false} RunKeepsReady(schema: string, j: Value, steps: seq<Step>, field: string)
    requires Run(schema, j, steps).0 == Added
    ensures Ready(schema, Run(schema, j, steps).1, field) <==> Ready(schema, j, field)
    decreases |steps|
  {
    if steps != [] {
      var front, s := steps[..|steps| - 1], steps[|steps| - 1];
      RunKeepsReady(schema, j, front, field);
      ReadyStays(schema, Run(schema, j, front).1, s.prompt, s.action, field);
    }
  }

  /** Every field a prompt goes into must be ready in the original body. */
  lemma {:induction false} RunAddsExactly(schema: string, j: Value, steps: seq<Step>)
    ensures Run(schema, j, steps).0 == Added
       <==> forall s :: s in steps ==> Ready(schema, j, Target(schema, s.prompt.role))
    ensures Fields(j).Some? ==> Run(schema, j, steps).0 != Threw
    ensures Fields(Run(schema, j, steps).1).Some? <==> Fields(j).Some?
    decreases |steps|
  {
    if steps != [] {
      var front, s := steps[..|steps| - 1], steps[|steps| - 1];
      assert steps == front + [s];
      RunAddsExactly(schema, j, front);
      if Run(schema, j, front).0 == Added {
        RunKeepsReady(schema, j, front, Target(schema, s.prompt.role));
      }
    }
  }

  lemma {:induction false} RunContinues(schema: string, j: Value, a: seq<Step>, b: seq<Step>)
    requires Run(schema, j, a).0 == Added
    ensures Run(schema, j, a + b) == Run(schema, Run(schema, j, a).1, b)
    decreases |b|
  {
    if b == [] {
      assert a + b == a;
    } else {
      var front, s := b[..|b| - 1], b[|b| - 1];
      RunContinues(schema, j, a, front);
      LastOfBoth(a, b);
      RunMore(schema, j, a + front, s);
    }
  }

  lemma {:induction false} RunLosesNothing(schema: string, j: Value, steps: seq<Step>, field: string)
    ensures |Items(Run(schema, j, steps).1, field)| >= |Items(j, field)|
    decreases |steps|
  {
    if steps != [] {
      RunLosesNothing(schema, j, steps[..|steps| - 1], field);
    }
  }

  /** A failed run undoes nothing: the body is unchanged exactly if the very first step failed. */
  lemma FailedRunKeepsBodyExactly(schema: string, j: Value, steps: seq<Step>)
    requires Run(schema, j, steps).0 != Added
    ensures steps != []
    ensures Run(schema, j, steps).1 == j <==> !Ready(schema, j, Target(schema, steps[0].prompt.role))
  {
    var s, rest := steps[0], steps[1..];
    var field := Target(schema, s.prompt.role);
    assert steps == [s] + rest;
    assert [] + [s] == [s];
    RunMore(schema, j, [], s);
    var (o, k) := AddOne(schema, j, s.prompt, s.action);
    if o == Added {
      RunContinues(schema, j, [s], rest);
      RunLosesNothing(schema, k, rest, field);
      assert |Items(k, field)| == |Items(j, field)| + 1;
    } else {
      FailureEnds(schema, j, [s], rest);
    }
  }

  // ---------- The whole enrichment ----------

  function Plains(schema: string, ps: seq<Message>): seq<Message> {
    if ps == [] then []
    else
      var p := ps[|ps| - 1];
      Plains(schema, ps[..|ps| - 1]) + if Plain(schema, p) then [p] else []
  }

  function Reverse(ps: seq<Message>): seq<Message> {
    if ps == [] then [] else [ps[|ps| - 1]] + Reverse(ps[..|ps| - 1])
  }

  function Steps(ps: seq<Message>, action: Action): seq<Step> {
    if ps == [] then [] else Steps(ps[..|ps| - 1], action) + [Step(ps[|ps| - 1], action)]
  }

  function AllSteps(schema: string, prepend: seq<Message>, append: seq<Message>): seq<Step> {
    Steps(Reverse(Plains(schema, prepend)), Prepend) + Steps(Plains(schema, append), Append)
  }

  /** Both lists' texts join the existing string; anything else under the key is replaced. */
  function AddSystem(j: Value, system: string, developer: string): (Outcome, Value) {
    if system == "" && developer == "" then (Added, j)
    else
      match Fields(j)
      case None => (Threw, j)
      case Some(m) => (Added, Obj(m["system" := Joined(Get(j, "system"), system, developer)]))
  }

  function Joined(existing: Option<Value>, system: string, developer: string): Value {
    var before := match existing case Some(Str(s)) => s + "\n" case _ => "";
    Str(before + system + "\n" + developer)
  }

  function Enrich(schema: string, j: Value, prepend: seq<Message>, append: seq<Message>): (Outcome, Value) {
    var (o, k) := Run(schema, j, AllSteps(schema, prepend, append));
    if o != Added then (o, k)
    else
      AddSystem(k, SystemText(schema, prepend, "system") + SystemText(schema, append, "system"),
                SystemText(schema, prepend, "developer") + SystemText(schema, append, "developer"))
  }

  lemma {:induction false} BeforeConcat(schema: string, a: seq<Step>, b: seq<Step>, field: string)
    ensures Before(schema, a + b, field) == Before(schema, b, field) + Before(schema, a, field)
    decreases |b|
  {
    if b == [] {
      assert a + b == a;
    } else {
      var front, s := b[..|b| - 1], b[|b| - 1];
      BeforeConcat(schema, a, front, field);
      LastOfBoth(a, b);
      AroundMore(schema, a + front, s, field);
      AroundMore(schema, front, s, field);
      Associates(if Goes(schema, s, field, Prepend) then [Rendered(schema, s.prompt)] else [],
                 Before(schema, front, field), Before(schema, a, field));
    }
  }

  lemma {:induction false} AfterConcat(schema: string, a: seq<Step>, b: seq<Step>, field: string)
    ensures After(schema, a + b, field) == After(schema, a, field) + After(schema, b, field)
    decreases |b|
  {
    if b == [] {
      assert a + b == a;
    } else {
      var front, s := b[..|b| - 1], b[|b| - 1];
      AfterConcat(schema, a, front, field);
      LastOfBoth(a, b);
      AroundMore(schema, a + front, s, field);
      AroundMore(schema, front, s, field);
      Associates(After(schema, a, field), After(schema, front, field),
                 if Goes(schema, s, field, Append) then [Rendered(schema, s.prompt)] else []);
    }
  }

  lemma {:induction false} StepsConcat(a: seq<Message>, b: seq<Message>, action: Action)
    ensures Steps(a + b, action) == Steps(a, action) + Steps(b, action)
    decreases |b|
  {
    if b == [] {
      assert a + b == a;
    } else {
      StepsConcat(a, b[..|b| - 1], action);
      assert (a + b)[..|a + b| - 1] == a + b[..|b| - 1];
    }
  }

  lemma OneStep(schema: string, p: Message, action: Action, field: string)
    ensures var v := if Target(schema, p.role) == field then [Rendered(schema, p)] else [];
            && Steps([p], action) == [Step(p, action)]
            && Before(schema, Steps([p], action), field) == (if action.Prepend? then v else [])
            && After(schema, Steps([p], action), field) == (if action.Append? then v else [])
  {
    var s := Step(p, action);
    assert [p][..0] == [];
    assert Steps([p], action) == [] + [s];
    assert [] + [s] == [s];
    AroundMore(schema, [], s, field);
  }

  /** Inserting the reversed list one by one at the front restores its order. */
  lemma {:induction false} PrependedInOrder(schema: string, ps: seq<Message>, field: string)
    ensures Before(schema, Steps(Reverse(Plains(schema, ps)), Prepend), field) == Selected(schema, ps, field)
    ensures After(schema, Steps(Reverse(Plains(schema, ps)), Prepend), field) == []
    decreases |ps|
  {
    if ps != [] {
      var front, p := ps[..|ps| - 1], ps[|ps| - 1];
      PrependedInOrder(schema, front, field);
      var rest := Reverse(Plains(schema, front));
      if Plain(schema, p) {
        ReverseMore(Plains(schema, front), p);
        StepsConcat([p], rest, Prepend);
        OneStep(schema, p, Prepend, field);
        BeforeConcat(schema, Steps([p], Prepend), Steps(rest, Prepend), field);
        AfterConcat(schema, Steps([p], Prepend), Steps(rest, Prepend), field);
      } else {
        assert Plains(schema, ps) == Plains(schema, front) + [] == Plains(schema, front);
        assert Selected(schema, ps, field) == Selected(schema, front, field) + [] == Selected(schema, front, field);
      }
    }
  }

  lemma ReverseMore(ps: seq<Message>, p: Message)
    ensures Reverse(ps + [p]) == [p] + Reverse(ps)
  {
    assert (ps + [p])[..|ps|] == ps;
  }

  lemma {:induction false} AppendedInOrder(schema: string, ps: seq<Message>, field: string)
    ensures After(schema, Steps(Plains(schema, ps), Append), field) == Selected(schema, ps, field)
    ensures Before(schema, Steps(Plains(schema, ps), Append), field) == []
    decreases |ps|
  {
    if ps != [] {
      var front, p := ps[..|ps| - 1], ps[|ps| - 1];
      AppendedInOrder(schema, front, field);
      if Plain(schema, p) {
        var done := Plains(schema, front);
        StepsConcat(done, [p], Append);
        OneStep(schema, p, Append, field);
        BeforeConcat(schema, Steps(done, Append), Steps([p], Append), field);
        AfterConcat(schema, Steps(done, Append), Steps([p], Append), field);
      } else {
        assert Plains(schema, ps) == Plains(schema, front) + [] == Plains(schema, front);
        assert Selected(schema, ps, field) == Selected(schema, front, field) + [] == Selected(schema, front, field);
      }
    }
  }

  lemma {:induction false} InSteps(schema: string, ps: seq<Message>, action: Action)
    ensures forall s :: s in Steps(ps, action) <==> s.action == action && s.prompt in ps
    decreases |ps|
  {
    if ps != [] {
      var front, p := ps[..|ps| - 1], ps[|ps| - 1];
      assert ps == front + [p];
      InSteps(schema, front, action);
    }
  }

  lemma {:induction false} InReverse(ps: seq<Message>)
    ensures forall p :: p in Reverse(ps) <==> p in ps
    decreases |ps|
  {
    if ps != [] {
      assert ps == ps[..|ps| - 1] + [ps[|ps| - 1]];
      InReverse(ps[..|ps| - 1]);
    }
  }

  lemma {:induction false} InPlains(schema: string, ps: seq<Message>)
    ensures forall p :: p in Plains(schema, ps) <==> p in ps && Plain(schema, p)
    decreases |ps|
  {
    if ps != [] {
      assert ps == ps[..|ps| - 1] + [ps[|ps| - 1]];
      InPlains(schema, ps[..|ps| - 1]);
    }
  }

  lemma InAllSteps(schema: string, prepend: seq<Message>, append: seq<Message>)
    ensures forall s :: s in AllSteps(schema, prepend, append) <==>
              && Plain(schema, s.prompt)
              && if s.action.Prepend? then s.prompt in prepend else s.prompt in append
  {
    InPlains(schema, prepend);
    InPlains(schema, append);
    InReverse(Plains(schema, prepend));
    InSteps(schema, Reverse(Plains(schema, prepend)), Prepend);
    InSteps(schema, Plains(schema, append), Append);
  }

  lemma TextMore(schema: string, ps: seq<Message>, role: string)
    requires ps != []
    ensures SystemText(schema, ps, role) == "" <==>
              && SystemText(schema, ps[..|ps| - 1], role) == ""
              && !(schema == ANTHROPIC && ps[|ps| - 1].role == role)
  {
    assert |ps[|ps| - 1].content + "\n"| > 0;
  }

  lemma {:induction false} TextEmptyExactly(schema: string, ps: seq<Message>)
    ensures (SystemText(schema, ps, "system") == "" && SystemText(schema, ps, "developer") == "")
       <==> forall p :: p in ps ==> Plain(schema, p)
    decreases |ps|
  {
    if ps != [] {
      var front, p := ps[..|ps| - 1], ps[|ps| - 1];
      assert ps == front + [p];
      assert p in ps && forall x :: x in ps <==> x in front || x == p;
      TextEmptyExactly(schema, front);
      TextMore(schema, ps, "system");
      TextMore(schema, ps, "developer");
    }
  }

  lemma EachHasAStep(schema: string, prepend: seq<Message>, append: seq<Message>, p: Message)
    requires (p in prepend || p in append) && Plain(schema, p)
    ensures exists s :: s in AllSteps(schema, prepend, append) && s.prompt == p
  {
    InAllSteps(schema, prepend, append);
    var s := Step(p, if p in prepend then Prepend else Append);
    assert s in AllSteps(schema, prepend, append);
  }

  ghost predicate AllReady(schema: string, j: Value, prepend: seq<Message>, append: seq<Message>) {
    forall p :: (p in prepend || p in append) && Plain(schema, p) ==> Ready(schema, j, Target(schema, p.role))
  }

  lemma StepsReadyExactly(schema: string, j: Value, prepend: seq<Message>, append: seq<Message>)
    ensures AllReady(schema, j, prepend, append)
       <==> forall s :: s in AllSteps(schema, prepend, append) ==> Ready(schema, j, Target(schema, s.prompt.role))
  {
    InAllSteps(schema, prepend, append);
    forall p | (p in prepend || p in append) && Plain(schema, p)
      ensures exists s :: s in AllSteps(schema, prepend, append) && s.prompt == p
    {
      EachHasAStep(schema, prepend, append, p);
    }
  }

  predicate AllPlain(schema: string, prepend: seq<Message>, append: seq<Message>) {
    (forall p :: p in prepend ==> Plain(schema, p)) && (forall p :: p in append ==> Plain(schema, p))
  }

  lemma NoTextExactly(schema: string, prepend: seq<Message>, append: seq<Message>)
    ensures (&& SystemText(schema, prepend, "system") + SystemText(schema, append, "system") == ""
             && SystemText(schema, prepend, "developer") + SystemText(schema, append, "developer") == "")
       <==> AllPlain(schema, prepend, append)
  {
    TextEmptyExactly(schema, prepend);
    TextEmptyExactly(schema, append);
  }

  /** It succeeds exactly when every field a prompt goes into can take it. */
  lemma EnrichesExactly(schema: string, j: Value, prepend: seq<Message>, append: seq<Message>)
    ensures Enrich(schema, j, prepend, append).0 == Added
       <==> AllReady(schema, j, prepend, append) && (Fields(j).Some? || AllPlain(schema, prepend, append))
    ensures Fields(j).Some? ==> Enrich(schema, j, prepend, append).0 != Threw
  {
    StepsReadyExactly(schema, j, prepend, append);
    NoTextExactly(schema, prepend, append);
    RunAddsExactly(schema, j, AllSteps(schema, prepend, append));
  }

  // ---------- What a failure leaves behind ----------

  function LastPlain(schema: string, ps: seq<Message>): Option<Message> {
    if ps == [] then None
    else if Plain(schema, ps[|ps| - 1]) then Some(ps[|ps| - 1])
    else LastPlain(schema, ps[..|ps| - 1])
  }

  function FirstPlain(schema: string, ps: seq<Message>): Option<Message> {
    if ps == [] then None
    else if Plain(schema, ps[0]) then Some(ps[0])
    else FirstPlain(schema, ps[1..])
  }

  /** The prompt handled first: the last one to prepend, or the first one to append if there is none. */
  function HandledFirst(schema: string, prepend: seq<Message>, append: seq<Message>): Option<Message> {
    if LastPlain(schema, prepend).Some? then LastPlain(schema, prepend) else FirstPlain(schema, append)
  }

  lemma {:induction false} LastOfPlains(schema: string, ps: seq<Message>)
    ensures var r := Reverse(Plains(schema, ps));
            LastPlain(schema, ps) == if r == [] then None else Some(r[0])
    decreases |ps|
  {
    if ps != [] {
      var front, p := ps[..|ps| - 1], ps[|ps| - 1];
      LastOfPlains(schema, front);
      if Plain(schema, p) {
        ReverseMore(Plains(schema, front), p);
      } else {
        assert Plains(schema, ps) == Plains(schema, front) + [] == Plains(schema, front);
      }
    }
  }

  lemma {:induction false} FirstPlainMore(schema: string, ps: seq<Message>, p: Message)
    ensures FirstPlain(schema, ps + [p])
         == if FirstPlain(schema, ps).Some? then FirstPlain(schema, ps) else if Plain(schema, p) then Some(p) else None
    decreases |ps|
  {
    if ps == [] {
      assert [] + [p] == [p] && [p][1..] == [];
    } else {
      assert (ps + [p])[1..] == ps[1..] + [p];
      FirstPlainMore(schema, ps[1..], p);
    }
  }

  lemma {:induction false} FirstOfPlains(schema: string, ps: seq<Message>)
    ensures var r := Plains(schema, ps);
            FirstPlain(schema, ps) == if r == [] then None else Some(r[0])
    decreases |ps|
  {
    if ps != [] {
      var front, p := ps[..|ps| - 1], ps[|ps| - 1];
      assert ps == front + [p];
      FirstOfPlains(schema, front);
      FirstPlainMore(schema, front, p);
    }
  }

  lemma {:induction false} FirstStep(ps: seq<Message>, action: Action)
    ensures |Steps(ps, action)| == |ps|
    ensures ps != [] ==> Steps(ps, action)[0] == Step(ps[0], action)
    decreases |ps|
  {
    if ps != [] {
      FirstStep(ps[..|ps| - 1], action);
    }
  }

  lemma HandledFirstIsFirst(schema: string, prepend: seq<Message>, append: seq<Message>)
    ensures var steps := AllSteps(schema, prepend, append);
            HandledFirst(schema, prepend, append) == if steps == [] then None else Some(steps[0].prompt)
  {
    LastOfPlains(schema, prepend);
    FirstOfPlains(schema, append);
    FirstStep(Reverse(Plains(schema, prepend)), Prepend);
    FirstStep(Plains(schema, append), Append);
  }

  /**
   * A failure undoes nothing: the body is unchanged exactly if no prompt goes into an
   * array, so that it was the system string that failed, or the prompt handled first did.
   */
  lemma FailureKeepsBodyExactly(schema: string, j: Value, prepend: seq<Message>, append: seq<Message>)
    requires Enrich(schema, j, prepend, append).0 != Added
    ensures Enrich(schema, j, prepend, append).1 == j <==>
            match HandledFirst(schema, prepend, append)
            case Some(p) => !Ready(schema, j, Target(schema, p.role))
            case None => true
  {
    var steps := AllSteps(schema, prepend, append);
    HandledFirstIsFirst(schema, prepend, append);
    if Run(schema, j, steps).0 != Added {
      FailedRunKeepsBodyExactly(schema, j, steps);
    } else {
      RunMakesObject(schema, j, steps);
    }
  }

  lemma RunMakesObject(schema: string, j: Value, steps: seq<Step>)
    requires Run(schema, j, steps).0 == Added
    ensures if steps == [] then Run(schema, j, steps).1 == j else Run(schema, j, steps).1.Obj?
  {
  }

  lemma {:induction false} AimedShows(schema: string, steps: seq<Step>, field: string)
    ensures Aims(schema, steps, field) <==> Before(schema, steps, field) + After(schema, steps, field) != []
    decreases |steps|
  {
    if steps != [] {
      var front, s := steps[..|steps| - 1], steps[|steps| - 1];
      assert steps == front + [s];
      AimedShows(schema, front, field);
      AimsMore(schema, front, s, field);
    }
  }

  lemma AroundAll(schema: string, prepend: seq<Message>, append: seq<Message>, field: string)
    ensures Before(schema, AllSteps(schema, prepend, append), field) == Selected(schema, prepend, field)
    ensures After(schema, AllSteps(schema, prepend, append), field) == Selected(schema, append, field)
  {
    var a, b := Steps(Reverse(Plains(schema, prepend)), Prepend), Steps(Plains(schema, append), Append);
    PrependedInOrder(schema, prepend, field);
    AppendedInOrder(schema, append, field);
    BeforeConcat(schema, a, b, field);
    AfterConcat(schema, a, b, field);
    assert [] + Selected(schema, prepend, field) == Selected(schema, prepend, field);
    assert [] + Selected(schema, append, field) == Selected(schema, append, field);
  }

  /** What each field of the enriched body holds. */
  function Promised(schema: string, j: Value, prepend: seq<Message>, append: seq<Message>, field: string)
    : Option<Value>
  {
    var first, last := Selected(schema, prepend, field), Selected(schema, append, field);
    var system := SystemText(schema, prepend, "system") + SystemText(schema, append, "system");
    var developer := SystemText(schema, prepend, "developer") + SystemText(schema, append, "developer");
    if field == "system" && (system != "" || developer != "") then Some(Joined(Get(j, field), system, developer))
    else if first + last != [] then Some(Arr(first + Items(j, field) + last))
    else Get(j, field)
  }

  lemma {:induction false} AnthropicLeavesSystem(ps: seq<Message>)
    ensures Selected(ANTHROPIC, ps, "system") == []
    decreases |ps|
  {
    if ps != [] {
      AnthropicLeavesSystem(ps[..|ps| - 1]);
    }
  }

  lemma {:induction false} OnlyAnthropicHasText(schema: string, ps: seq<Message>, role: string)
    ensures SystemText(schema, ps, role) != "" ==> schema == ANTHROPIC
    decreases |ps|
  {
    if ps != [] {
      OnlyAnthropicHasText(schema, ps[..|ps| - 1], role);
    }
  }

  lemma RunAsPromised(schema: string, j: Value, prepend: seq<Message>, append: seq<Message>, field: string)
    requires Run(schema, j, AllSteps(schema, prepend, append)).0 == Added
    ensures var first, last := Selected(schema, prepend, field), Selected(schema, append, field);
            Get(Run(schema, j, AllSteps(schema, prepend, append)).1, field)
            == if first + last != [] then Some(Arr(first + Items(j, field) + last)) else Get(j, field)
  {
    var steps := AllSteps(schema, prepend, append);
    RunEncloses(schema, j, steps, field);
    AimedShows(schema, steps, field);
    AroundAll(schema, prepend, append, field);
  }

  lemma SystemAdded(k: Value, system: string, developer: string, field: string)
    requires AddSystem(k, system, developer).0 == Added
    ensures Get(AddSystem(k, system, developer).1, field)
         == if field == "system" && (system != "" || developer != "")
            then Some(Joined(Get(k, field), system, developer))
            else Get(k, field)
  {
  }

  lemma NoTextUnlessAnthropic(schema: string, ps: seq<Message>)
    requires schema != ANTHROPIC
    ensures SystemText(schema, ps, "system") == "" && SystemText(schema, ps, "developer") == ""
  {
    OnlyAnthropicHasText(schema, ps, "system");
    OnlyAnthropicHasText(schema, ps, "developer");
  }

  /** Every array is prepends, original, appends, each in order; no other field changes. */
  lemma EnrichedAsPromised(schema: string, j: Value, prepend: seq<Message>, append: seq<Message>, field: string)
    requires Enrich(schema, j, prepend, append).0 == Added
    ensures Get(Enrich(schema, j, prepend, append).1, field) == Promised(schema, j, prepend, append, field)
  {
    RunAsPromised(schema, j, prepend, append, field);
    var k := Run(schema, j, AllSteps(schema, prepend, append)).1;
    SystemAdded(k, SystemText(schema, prepend, "system") + SystemText(schema, append, "system"),
                SystemText(schema, prepend, "developer") + SystemText(schema, append, "developer"), field);
    if schema == ANTHROPIC {
      AnthropicLeavesSystem(prepend);
      AnthropicLeavesSystem(append);
    } else {
      NoTextUnlessAnthropic(schema, prepend);
      NoTextUnlessAnthropic(schema, append);
    }
  }

  // ---------- The code ----------

  class ChatBody {
    var json: Value

    constructor (body: Value)
      ensures json == body
    {
      json := body;
    }

    /** json[field] = v; throws unless the body is an object or null. */
    method Assign(field: string, v: Value) returns (ok: bool)
      modifies this
      ensures ok == Fields(old(json)).Some?
      ensures json == if ok then Obj(Fields(old(json)).value[field := v]) else old(json)
    {
      match Fields(json) {
        case None =>
          ok := false;
        case Some(m) =>
          json := Obj(m[field := v]);
          ok := true;
      }
    }

    method Insert(field: string, v: Value, action: Action)
      requires Has(json, field) && json.fields[field].Arr?
      modifies this
      ensures json == Obj(old(json.fields)[field := Arr(Inserted(Items(old(json), field), v, action))])
    {
      var items := json.fields[field].items;
      if action == Prepend {
        items := [v] + items;
      } else {
        items := items + [v];
      }
      json := Obj(json.fields[field := Arr(items)]);
    }

    /** The field is an array, created when missing if it may be. */
    method Require(field: string, create: bool) returns (o: Outcome)
      modifies this
      ensures o == Added ==> Has(json, field) && json.fields[field].Arr?
      ensures o == Added ==> if Has(old(json), field) then json == old(json)
                             else
                               && create && Fields(old(json)).Some?
                               && json == Obj(Fields(old(json)).value[field := Arr([])])
      ensures o == Refused ==> json == old(json) && if Has(json, field) then !json.fields[field].Arr? else !create
      ensures o == Threw ==> json == old(json) && create && !Has(json, field) && Fields(json) == None
    {
      if !Has(json, field) {
        if !create {
          return Refused;
        }
        var ok := Assign(field, Arr([]));
        if !ok {
          return Threw;
        }
      }
      return if json.fields[field].Arr? then Added else Refused;
    }

    method AddGeminiPrompts(prompt: Message, field: string, action: Action)
      requires Has(json, field) && json.fields[field].Arr?
      modifies this
      ensures json == Obj(old(json.fields)[field := Arr(Inserted(Items(old(json), field),
                                                                 Rendered(GEMINI, prompt), action))])
    {
      var newPrompt := map["role" := Str(prompt.role)];
      newPrompt := newPrompt["parts" := Arr([Obj(map["text" := Str(prompt.content)])])];
      Insert(field, Obj(newPrompt), action);
    }

    method AddBedrockPrompts(prompt: Message, action: Action) returns (o: Outcome)
      modifies this
      ensures (o, json) == AddOne(BEDROCK, old(json), prompt, action)
    {
      if prompt.role == "system" || prompt.role == "developer" {
        o := Require("system", true);
        if o == Added {
          Insert("system", Obj(map["text" := Str(prompt.content)]), action);
          CreatedOrFound(old(json), "system", Text(prompt.content), action);
        }
        return;
      }
      o := Require("messages", true);
      if o == Added {
        var newPrompt := map["role" := Str(prompt.role)];
        newPrompt := newPrompt["content" := Arr([Obj(map["text" := Str(prompt.content)])])];
        Insert("messages", Obj(newPrompt), action);
        CreatedOrFound(old(json), "messages", Obj(newPrompt), action);
      }
    }

    method AddPrompt(schema: string, prompt: Message, action: Action) returns (o: Outcome)
      requires Plain(schema, prompt)
      modifies this
      ensures (o, json) == AddOne(schema, old(json), prompt, action)
    {
      if schema == GEMINI {
        if prompt.role == "system" || prompt.role == "developer" {
          o := Require("system_instruction", true);
          if o == Added {
            AddGeminiPrompts(prompt, "system_instruction", action);
            CreatedOrFound(old(json), "system_instruction", Rendered(GEMINI, prompt), action);
          }
        } else {
          o := Require("contents", false);
          if o == Added {
            AddGeminiPrompts(prompt, "contents", action);
          }
        }
      } else if schema == BEDROCK {
        o := AddBedrockPrompts(prompt, action);
      } else {
        o := Require("messages", false);
        if o == Added {
          var newPrompt := map["role" := Str(prompt.role)];
          newPrompt := newPrompt["content" := Str(prompt.content)];
          Insert("messages", Obj(newPrompt), action);
        }
      }
    }

    /** The first loop: Anthropic's texts are gathered, the other prompts reversed. */
    static method Sort(schema: string, prepend: seq<Message>)
      returns (reversed: seq<Message>, system: string, developer: string)
      ensures reversed == Reverse(Plains(schema, prepend))
      ensures system == SystemText(schema, prepend, "system")
      ensures developer == SystemText(schema, prepend, "developer")
    {
      reversed, system, developer := [], "", "";
      for n := 0 to |prepend|
        invariant reversed == Reverse(Plains(schema, prepend[..n]))
        invariant system == "" + SystemText(schema, prepend[..n], "system")
        invariant developer == "" + SystemText(schema, prepend[..n], "developer")
      {
        var prompt := prepend[n];
        PlainsMore(schema, prepend, n);
        TextGrows(schema, prepend, n, "", "system");
        TextGrows(schema, prepend, n, "", "developer");
        if schema == ANTHROPIC {
          if prompt.role == "system" {
            system := system + (prompt.content + "\n");
            continue;
          } else if prompt.role == "developer" {
            developer := developer + (prompt.content + "\n");
            continue;
          }
        }
        ReverseMore(Plains(schema, prepend[..n]), prompt);
        reversed := [prompt] + reversed;
      }
      assert prepend[..|prepend|] == prepend;
    }

    /** The second loop: each prompt of the reversed list goes to the front. */
    method PrependAll(schema: string, reversed: seq<Message>) returns (o: Outcome)
      requires forall p :: p in reversed ==> Plain(schema, p)
      modifies this
      ensures (o, json) == Run(schema, old(json), Steps(reversed, Prepend))
    {
      for n := 0 to |reversed|
        invariant Run(schema, old(json), Steps(reversed[..n], Prepend)) == (Added, json)
      {
        o := AddPrompt(schema, reversed[n], Prepend);
        StepsMore(reversed, n, Prepend);
        RunMore(schema, old(json), Steps(reversed[..n], Prepend), Step(reversed[n], Prepend));
        if o != Added {
          StepsSplit(reversed, n + 1, Prepend);
          FailureEnds(schema, old(json), Steps(reversed[..n + 1], Prepend), Steps(reversed[n + 1..], Prepend));
          return;
        }
      }
      assert reversed[..|reversed|] == reversed;
      o := Added;
    }

    /** The third loop: the texts grow on, the other prompts go to the end. */
    method AppendAll(schema: string, append: seq<Message>, system0: string, developer0: string)
      returns (o: Outcome, system: string, developer: string)
      modifies this
      ensures (o, json) == Run(schema, old(json), Steps(Plains(schema, append), Append))
      ensures o == Added ==> system == system0 + SystemText(schema, append, "system")
      ensures o == Added ==> developer == developer0 + SystemText(schema, append, "developer")
    {
      system, developer := system0, developer0;
      for n := 0 to |append|
        invariant Run(schema, old(json), Steps(Plains(schema, append[..n]), Append)) == (Added, json)
        invariant system == system0 + SystemText(schema, append[..n], "system")
        invariant developer == developer0 + SystemText(schema, append[..n], "developer")
      {
        var prompt := append[n];
        TextGrows(schema, append, n, system0, "system");
        TextGrows(schema, append, n, developer0, "developer");
        if schema == ANTHROPIC {
          if prompt.role == "system" {
            system := system + (prompt.content + "\n");
            PlainsMore(schema, append, n);
            continue;
          } else if prompt.role == "developer" {
            developer := developer + (prompt.content + "\n");
            PlainsMore(schema, append, n);
            continue;
          }
        }
        o := AddPrompt(schema, prompt, Append);
        AppendMore(schema, old(json), append, n);
        if o != Added {
          return;
        }
      }
      assert append[..|append|] == append;
      o := Added;
    }

    /** The three loops, then Anthropic's single system string. */
    method AddPrompts(schema: string, prepend: seq<Message>, append: seq<Message>) returns (o: Outcome)
      modifies this
      ensures (o, json) == Enrich(schema, old(json), prepend, append)
    {
      var reversed, system, developer := Sort(schema, prepend);
      InPlains(schema, prepend);
      InReverse(Plains(schema, prepend));
      ghost var a, b := Steps(reversed, Prepend), Steps(Plains(schema, append), Append);
      o := PrependAll(schema, reversed);
      if o != Added {
        FailureEnds(schema, old(json), a, b);
        return;
      }
      RunContinues(schema, old(json), a, b);
      o, system, developer := AppendAll(schema, append, system, developer);
      if o != Added {
        return;
      }
      if system != "" || developer != "" {
        var existing := "";
        if Has(json, "system") && json.fields["system"].Str? {
          existing := json.fields["system"].s + "\n";
        }
        var ok := Assign("system", Str(existing + system + "\n" + developer));
        o := if ok then Added else Threw;
      }
    }
  }

  lemma CreatedOrFound(j: Value, field: string, v: Value, action: Action)
    ensures Fields(j).Some? ==>
              Fields(j).value[field := Arr([])][field := Arr(Inserted([], v, action))]
              == Fields(j).value[field := Arr(Inserted([], v, action))]
  {
  }

  lemma PlainsMore(schema: string, ps: seq<Message>, n: nat)
    requires n < |ps|
    ensures Plains(schema, ps[..n + 1])
         == if Plain(schema, ps[n]) then Plains(schema, ps[..n]) + [ps[n]] else Plains(schema, ps[..n])
  {
    assert ps[..n + 1][..n] == ps[..n];
  }

  /** The text so far, behind what was there before, with one more prompt. */
  lemma TextGrows(schema: string, ps: seq<Message>, n: nat, text: string, role: string)
    requires n < |ps|
    ensures text + SystemText(schema, ps[..n + 1], role)
         == if schema == ANTHROPIC && ps[n].role == role
            then (text + SystemText(schema, ps[..n], role)) + (ps[n].content + "\n")
            else text + SystemText(schema, ps[..n], role)
  {
    assert ps[..n + 1][..n] == ps[..n];
    Associates(text, SystemText(schema, ps[..n], role), ps[n].content + "\n");
  }

  lemma StepsMore(ps: seq<Message>, n: nat, action: Action)
    requires n < |ps|
    ensures Steps(ps[..n + 1], action) == Steps(ps[..n], action) + [Step(ps[n], action)]
  {
    assert ps[..n + 1][..n] == ps[..n];
  }

  lemma StepsSplit(ps: seq<Message>, n: nat, action: Action)
    requires n <= |ps|
    ensures Steps(ps, action) == Steps(ps[..n], action) + Steps(ps[n..], action)
  {
    StepsConcat(ps[..n], ps[n..], action);
    assert ps == ps[..n] + ps[n..];
  }

  /** One more appended prompt; if it fails, so does the whole run, with the same body. */
  lemma AppendMore(schema: string, j: Value, append: seq<Message>, n: nat)
    requires n < |append| && Plain(schema, append[n])
    requires Run(schema, j, Steps(Plains(schema, append[..n]), Append)).0 == Added
    ensures var k := Run(schema, j, Steps(Plains(schema, append[..n]), Append)).1;
            var r := AddOne(schema, k, append[n], Append);
            && Run(schema, j, Steps(Plains(schema, append[..n + 1]), Append)) == r
            && (r.0 != Added ==> Run(schema, j, Steps(Plains(schema, append), Append)) == r)
  {
    var done, s := Steps(Plains(schema, append[..n]), Append), Step(append[n], Append);
    PlainsMore(schema, append, n);
    StepsConcat(Plains(schema, append[..n]), [append[n]], Append);
    OneStep(schema, append[n], Append, "");
    RunMore(schema, j, done, s);
    PlainsSplit(schema, append, n + 1);
    StepsConcat(Plains(schema, append[..n + 1]), Plains(schema, append[n + 1..]), Append);
    if Run(schema, j, done + [s]).0 != Added {
      FailureEnds(schema, j, done + [s], Steps(Plains(schema, append[n + 1..]), Append));
    }
  }

  lemma {:induction false} PlainsSplit(schema: string, ps: seq<Message>, n: nat)
    requires n <= |ps|
    ensures Plains(schema, ps) == Plains(schema, ps[..n]) + Plains(schema, ps[n..])
    decreases |ps|
  {
    if n == |ps| {
      assert ps[..n] == ps;
    } else {
      var front, p := ps[..|ps| - 1], ps[|ps| - 1];
      PlainsSplit(schema, front, n);
      assert front[..n] == ps[..n];
      assert ps[n..][..|ps| - 1 - n] == front[n..] && ps[n..][|ps| - 1 - n] == p;
      Associates(Plains(schema, ps[..n]), Plains(schema, front[n..]), if Plain(schema, p) then [p] else []);
    }
  }
}
