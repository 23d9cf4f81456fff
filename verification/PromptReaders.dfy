/**
 * The enriched chat request as each provider reads it: which field holds which prompts,
 * and where in an entry the role and the text are.
 */
module PromptReaders {
  import opened Common
  import opened Json
  import opened Prompts

  /** What a provider gets from an entry; a Bedrock system prompt has no role. */
  datatype Entry = Entry(role: Option<string>, text: string)

  // ---------- Readers ----------

  function ReadString(v: Value): Option<string> {
    match v case Str(s) => Some(s) case _ => None
  }

  /** An object with nothing but a text. */
  function ReadText(v: Value): Option<string> {
    if v.Obj? && v.fields.Keys == {"text"} then ReadString(v.fields["text"]) else None
  }

  /** An array of one text. */
  function ReadOneText(v: Value): Option<string> {
    match v case Arr(items) => if |items| == 1 then ReadText(items[0]) else None case _ => None
  }

  function WithRole(role: Value, text: Option<string>): Option<Entry> {
    if text.Some? && role.Str? then Some(Entry(Some(role.s), text.value)) else None
  }

  /** Role under "role", and one text under this field. */
  function ReadParts(v: Value, field: string): Option<Entry> {
    if v.Obj? && v.fields.Keys == {"role", field} then WithRole(v.fields["role"], ReadOneText(v.fields[field]))
    else None
  }

  function ReadBare(v: Value): Option<Entry> {
    match ReadText(v) case Some(s) => Some(Entry(None, s)) case None => None
  }

  function ReadMessage(v: Value): Option<Entry> {
    if v.Obj? && v.fields.Keys == {"role", "content"} then
      WithRole(v.fields["role"], ReadString(v.fields["content"]))
    else None
  }

  /** How the provider of this schema reads an entry of this field. */
  function Read(schema: string, field: string, v: Value): Option<Entry> {
    if schema == "gemini" then ReadParts(v, "parts")
    else if schema == "bedrock" then if field == "system" then ReadBare(v) else ReadParts(v, "content")
    else ReadMessage(v)
  }

  // ---------- What is asked for ----------

  /** The prompts with this role belong into the array under this field. */
  predicate Belongs(schema: string, role: string, field: string) {
    if role == "system" || role == "developer" then
      if schema == "gemini" then field == "system_instruction"
      else if schema == "bedrock" then field == "system"
      else schema != "anthropic" && field == "messages"
    else
      field == if schema == "gemini" then "contents" else "messages"
  }

  function Asked(schema: string, p: Message, field: string): Entry {
    Entry(if schema == "bedrock" && field == "system" then None else Some(p.role), p.content)
  }

  /** The entries that the list asks for in this field, in the list's order. */
  function Wanted(schema: string, ps: seq<Message>, field: string): seq<Entry> {
    if ps == [] then []
    else
      (if Belongs(schema, ps[0].role, field) then [Asked(schema, ps[0], field)] else [])
      + Wanted(schema, ps[1..], field)
  }

  ghost predicate ReadAs(schema: string, field: string, items: seq<Value>, entries: seq<Entry>) {
    |items| == |entries| && forall i :: 0 <= i < |items| ==> Read(schema, field, items[i]) == Some(entries[i])
  }

  lemma {:induction false} WantedMore(schema: string, ps: seq<Message>, p: Message, field: string)
    ensures Wanted(schema, ps + [p], field)
         == Wanted(schema, ps, field) + if Belongs(schema, p.role, field) then [Asked(schema, p, field)] else []
    decreases |ps|
  {
    if ps == [] {
      assert [] + [p] == [p] && [p][1..] == [];
    } else {
      assert (ps + [p])[1..] == ps[1..] + [p];
      WantedMore(schema, ps[1..], p, field);
      Associates(if Belongs(schema, ps[0].role, field) then [Asked(schema, ps[0], field)] else [],
                 Wanted(schema, ps[1..], field),
                 if Belongs(schema, p.role, field) then [Asked(schema, p, field)] else []);
    }
  }

  /** An entry as it is written is read as what was asked for, and goes where it belongs. */
  lemma {:induction false} WrittenIsRead(schema: string, p: Message, field: string)
    ensures Plain(schema, p) && Target(schema, p.role) == field <==> Belongs(schema, p.role, field)
    ensures Belongs(schema, p.role, field) ==> Read(schema, field, Rendered(schema, p)) == Some(Asked(schema, p, field))
  {
    if schema == "gemini" {
      assert Rendered(schema, p).fields.Keys == {"role", "parts"};
    } else if schema == "bedrock" && !IsSystem(p.role) {
      assert Rendered(schema, p).fields.Keys == {"role", "content"};
    } else if schema != "bedrock" {
      assert Rendered(schema, p).fields.Keys == {"role", "content"};
    }
    assert Text(p.content).fields.Keys == {"text"};
  }

  lemma {:induction false} SelectedIsRead(schema: string, ps: seq<Message>, field: string)
    ensures ReadAs(schema, field, Selected(schema, ps, field), Wanted(schema, ps, field))
    decreases |ps|
  {
    if ps != [] {
      var front, p := ps[..|ps| - 1], ps[|ps| - 1];
      assert ps == front + [p];
      SelectedIsRead(schema, front, field);
      WantedMore(schema, front, p, field);
      WrittenIsRead(schema, p, field);
    }
  }

  /**
   * After a successful enrichment each provider reads in every array what the prepended
   * prompts say, the items that were there, and what the appended prompts say, all in
   * order; a field no prompt belongs to is as it was, Anthropic's system string apart.
   */
  lemma {:induction false} ReadsAsConfigured(
    schema: string, j: Value, prepend: seq<Message>, append: seq<Message>, field: string)
    returns (first: seq<Value>, last: seq<Value>)
    requires Enrich(schema, j, prepend, append).0 == Added
    ensures ReadAs(schema, field, first, Wanted(schema, prepend, field))
    ensures ReadAs(schema, field, last, Wanted(schema, append, field))
    ensures var k := Enrich(schema, j, prepend, append).1;
            if first + last != [] then Get(k, field) == Some(Arr(first + Items(j, field) + last))
            else (schema == "anthropic" && field == "system") || Get(k, field) == Get(j, field)
  {
    first, last := Selected(schema, prepend, field), Selected(schema, append, field);
    SelectedIsRead(schema, prepend, field);
    SelectedIsRead(schema, append, field);
    EnrichedAsPromised(schema, j, prepend, append, field);
    if schema == "anthropic" {
      AnthropicLeavesSystem(prepend);
      AnthropicLeavesSystem(append);
    } else {
      NoTextUnlessAnthropic(schema, prepend);
      NoTextUnlessAnthropic(schema, append);
    }
  }

  // ---------- Anthropic's system string ----------

  /** The contents of the prompts with this role, in order, each on a line of its own. */
  function Lines(ps: seq<Message>, role: string): string {
    if ps == [] then ""
    else (if ps[0].role == role then ps[0].content + "\n" else "") + Lines(ps[1..], role)
  }

  lemma {:induction false} LinesMore(ps: seq<Message>, p: Message, role: string)
    ensures Lines(ps + [p], role) == Lines(ps, role) + if p.role == role then p.content + "\n" else ""
    decreases |ps|
  {
    if ps == [] {
      assert [] + [p] == [p] && [p][1..] == [];
    } else {
      assert (ps + [p])[1..] == ps[1..] + [p];
      LinesMore(ps[1..], p, role);
    }
  }

  lemma {:induction false} TextIsLines(ps: seq<Message>, role: string)
    ensures SystemText("anthropic", ps, role) == Lines(ps, role)
    decreases |ps|
  {
    if ps != [] {
      var front, p := ps[..|ps| - 1], ps[|ps| - 1];
      assert ps == front + [p];
      TextIsLines(front, role);
      LinesMore(front, p, role);
    }
  }

  /** Some prompt goes into the system string. */
  ghost predicate HasText(schema: string, prepend: seq<Message>, append: seq<Message>) {
    schema == "anthropic"
    && exists p :: (p in prepend || p in append) && (p.role == "system" || p.role == "developer")
  }

  lemma {:induction false} HasTextExactly(schema: string, prepend: seq<Message>, append: seq<Message>)
    ensures HasText(schema, prepend, append) <==> !AllPlain(schema, prepend, append)
  {
  }

  /**
   * Anthropic reads one system string: what was there if it was a string, then the lines
   * of the system prompts, then those of the developer prompts, prepended before appended.
   */
  lemma {:induction false} AnthropicSystem(j: Value, prepend: seq<Message>, append: seq<Message>)
    requires Enrich("anthropic", j, prepend, append).0 == Added
    ensures Get(Enrich("anthropic", j, prepend, append).1, "system")
         == if HasText("anthropic", prepend, append) then
              Some(Str((if j.Obj? && "system" in j.fields && j.fields["system"].Str? then j.fields["system"].s + "\n"
                        else "")
                       + (Lines(prepend, "system") + Lines(append, "system")) + "\n"
                       + (Lines(prepend, "developer") + Lines(append, "developer"))))
            else Get(j, "system")
  {
    EnrichedAsPromised("anthropic", j, prepend, append, "system");
    NoTextExactly("anthropic", prepend, append);
    HasTextExactly("anthropic", prepend, append);
    AnthropicLeavesSystem(prepend);
    AnthropicLeavesSystem(append);
    TextIsLines(prepend, "system");
    TextIsLines(append, "system");
    TextIsLines(prepend, "developer");
    TextIsLines(append, "developer");
  }

  // ---------- Success and failure in the same terms ----------

  /** The body has an array under this field, or may be given one. */
  predicate Takes(schema: string, j: Value, field: string) {
    if j.Obj? && field in j.fields then j.fields[field].Arr?
    else (j.Obj? || j.Null?) && (schema == "bedrock" || (schema == "gemini" && field == "system_instruction"))
  }

  /**
   * Enrichment succeeds exactly if every array that a prompt belongs into is there or may
   * be created, and, when a system string is written, the body is an object or null.
   */
  lemma {:induction false} SucceedsExactly(schema: string, j: Value, prepend: seq<Message>, append: seq<Message>)
    ensures Enrich(schema, j, prepend, append).0 == Added <==>
              && (forall p, field :: (p in prepend || p in append) && Belongs(schema, p.role, field) ==>
                    Takes(schema, j, field))
              && (HasText(schema, prepend, append) ==> j.Obj? || j.Null?)
  {
    EnrichesExactly(schema, j, prepend, append);
    HasTextExactly(schema, prepend, append);
    forall p | p in prepend || p in append
      ensures (Plain(schema, p) ==> Ready(schema, j, Target(schema, p.role)))
         <==> forall field :: Belongs(schema, p.role, field) ==> Takes(schema, j, field)
    {
      TakesExactly(schema, j, p);
    }
  }

  lemma {:induction false} TakesExactly(schema: string, j: Value, p: Message)
    ensures (Plain(schema, p) ==> Ready(schema, j, Target(schema, p.role)))
       <==> forall field :: Belongs(schema, p.role, field) ==> Takes(schema, j, field)
  {
    WrittenIsRead(schema, p, Target(schema, p.role));
  }

  /** A body that is neither an object nor null fails at the first step. */
  lemma {:induction false} ScalarFails(schema: string, j: Value, steps: seq<Step>)
    requires !j.Obj? && !j.Null? && steps != []
    ensures var role := steps[0].prompt.role;
            Run(schema, j, steps).0
            == if schema == "bedrock" || (schema == "gemini" && (role == "system" || role == "developer")) then Threw
               else Refused
    decreases |steps|
  {
    var front, s := steps[..|steps| - 1], steps[|steps| - 1];
    assert steps == front + [s];
    if front != [] {
      ScalarFails(schema, j, front);
    }
  }

  /**
   * It throws, instead of refusing, exactly if the body is neither an object nor null and
   * the prompt handled first is one whose array would be created, or there is none and a
   * system string would be written.
   */
  lemma {:induction false} ThrowsExactly(schema: string, j: Value, prepend: seq<Message>, append: seq<Message>)
    ensures Enrich(schema, j, prepend, append).0 == Threw <==>
              && !j.Obj? && !j.Null?
              && match HandledFirst(schema, prepend, append)
                 case Some(p) =>
                   schema == "bedrock" || (schema == "gemini" && (p.role == "system" || p.role == "developer"))
                 case None => HasText(schema, prepend, append)
  {
    var steps := AllSteps(schema, prepend, append);
    EnrichesExactly(schema, j, prepend, append);
    HandledFirstIsFirst(schema, prepend, append);
    NoTextExactly(schema, prepend, append);
    HasTextExactly(schema, prepend, append);
    if !j.Obj? && !j.Null? && steps != [] {
      ScalarFails(schema, j, steps);
    }
  }
}
