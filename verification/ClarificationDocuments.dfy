/**
The strict reader of clarification result documents, against the result schema
the Host publishes to the model.
*/
module ClarificationDocuments {
  import opened Json
  import opened Documents

  const CLARIFICATION_CONTRACT: Text := U("clarification-step.v1")
  const MAX_DOCUMENT_BYTES: int := 16384

  const QUESTION_ID: Text := U("questionId")
  const QUESTION: Text := U("question")
  const CHECKPOINT: Text := U("checkpoint")
  const ANSWER_KIND: Text := U("answerKind")
  const OPTIONS: Text := U("options")
  const ID: Text := U("id")
  const LABEL: Text := U("label")

  datatype Choice = Choice(id: Text, labelText: Text)

  /** A text question has no options, a single-choice question has 2 to 8. */
  datatype Question = Question(questionId: Text, question: Text, checkpoint: Text, options: Option<seq<Choice>>)

  datatype StepResult = Done | Stuck(reason: Text) | NeedsInput(q: Question)

  // ---------------------------------------------------------------------
  // Options
  // ---------------------------------------------------------------------

  function ParseChoice(v: Value): Result<Choice>
  {
    if v.Obj? && SameLine(v, [ID, LABEL]) && TextField(Get(v, ID), 100) && TextField(Get(v, LABEL), 500)
    then Ok(Choice(Get(v, ID).value.text, Get(v, LABEL).value.text)) else Err
  }

  /** The option has exactly an id and a label, both within their limits. */
  ghost predicate IsChoice(v: Value, c: Choice)
  {
    && HasExactly(v, [ID, LABEL])
    && Is(Get(v, ID), c.id) && !Blank(c.id) && |c.id| <= 100
    && Is(Get(v, LABEL), c.labelText) && !Blank(c.labelText) && |c.labelText| <= 500
  }

  lemma ParseChoiceIsExact(v: Value, c: Choice)
    requires WellFormed(v)
    ensures ParseChoice(v) == Ok(c) <==> IsChoice(v, c)
  {
    if v.Obj? && Get(v, ID).Some? && Get(v, LABEL).Some? {
      OptionLine(v);
    }
  }

  lemma OptionLine(v: Value)
    requires v.Obj? && DistinctKeys(v.members) && Get(v, ID).Some? && Get(v, LABEL).Some?
    ensures SameLine(v, [ID, LABEL]) <==> HasExactly(v, [ID, LABEL])
  {
    assert ID != LABEL;
    LineIsExact(v, [ID, LABEL]);
  }

  function ParseChoices(items: seq<Value>, seen: set<Text>): Result<seq<Choice>>
  {
    if items == [] then Ok([])
    else
      var c := ParseChoice(items[0]);
      if c.Err? || c.value.id in seen then Err
      else
        var rest := ParseChoices(items[1..], seen + {c.value.id});
        if rest.Err? then Err else Ok([c.value] + rest.value)
  }

  /** The options in order, no id twice and none already seen. */
  ghost predicate AreChoices(items: seq<Value>, seen: set<Text>, cs: seq<Choice>)
  {
    && |cs| == |items|
    && (forall i :: 0 <= i < |cs| ==> IsChoice(items[i], cs[i]) && cs[i].id !in seen)
    && (forall i, j :: 0 <= i < j < |cs| ==> cs[i].id != cs[j].id)
  }

  lemma {:induction false} ParseChoicesIsExact(items: seq<Value>, seen: set<Text>, cs: seq<Choice>)
    requires forall i :: 0 <= i < |items| ==> WellFormed(items[i])
    ensures ParseChoices(items, seen) == Ok(cs) <==> AreChoices(items, seen, cs)
    decreases |items|
  {
    if items != [] {
      if cs != [] {
        ParseChoiceIsExact(items[0], cs[0]);
        ParseChoicesIsExact(items[1..], seen + {cs[0].id}, cs[1..]);
        ChoicesSplit(items, seen, cs);
        assert cs == [cs[0]] + cs[1..];
      }
    }
  }

  lemma ChoicesSplit(items: seq<Value>, seen: set<Text>, cs: seq<Choice>)
    requires items != [] && cs != []
    ensures AreChoices(items, seen, cs) <==>
      IsChoice(items[0], cs[0]) && cs[0].id !in seen && AreChoices(items[1..], seen + {cs[0].id}, cs[1..])
  {
    if IsChoice(items[0], cs[0]) && cs[0].id !in seen && AreChoices(items[1..], seen + {cs[0].id}, cs[1..]) {
      ChoicesJoin(items, seen, cs);
    }
  }

  lemma ChoicesJoin(items: seq<Value>, seen: set<Text>, cs: seq<Choice>)
    requires items != [] && cs != []
    requires IsChoice(items[0], cs[0]) && cs[0].id !in seen && AreChoices(items[1..], seen + {cs[0].id}, cs[1..])
    ensures AreChoices(items, seen, cs)
  {
    forall i | 0 <= i < |cs| ensures IsChoice(items[i], cs[i]) && cs[i].id !in seen {
      if i > 0 { assert cs[i] == cs[1..][i - 1] && items[i] == items[1..][i - 1]; }
    }
    forall i, j | 0 <= i < j < |cs| ensures cs[i].id != cs[j].id {
      assert cs[j] == cs[1..][j - 1];
      if i > 0 { assert cs[i] == cs[1..][i - 1]; }
    }
  }

  function Prepend(done: seq<Choice>, rest: Result<seq<Choice>>): Result<seq<Choice>>
  {
    if rest.Err? then Err else Ok(done + rest.value)
  }

  lemma PrependNothing(r: Result<seq<Choice>>)
    ensures Prepend([], r) == r
  {
    assert r.Ok? ==> [] + r.value == r.value;
  }

  lemma ChoicesStep(items: seq<Value>, i: nat, seen: set<Text>, done: seq<Choice>, c: Choice)
    requires i < |items| && ParseChoice(items[i]) == Ok(c) && c.id !in seen
    ensures Prepend(done, ParseChoices(items[i..], seen)) == Prepend(done + [c], ParseChoices(items[i + 1..], seen + {c.id}))
  {
    assert items[i..][1..] == items[i + 1..];
    var rest := ParseChoices(items[i + 1..], seen + {c.id});
    assert rest.Ok? ==> done + ([c] + rest.value) == (done + [c]) + rest.value;
  }

  /** The option loop with its set of seen ids. */
  method ReadChoices(items: seq<Value>) returns (r: Result<seq<Choice>>)
    ensures r == ParseChoices(items, {})
  {
    var seen: set<Text> := {};
    var done: seq<Choice> := [];
    var i := 0;
    assert items[0..] == items;
    PrependNothing(ParseChoices(items, {}));
    while i < |items|
      invariant 0 <= i <= |items|
      invariant ParseChoices(items, {}) == Prepend(done, ParseChoices(items[i..], seen))
    {
      var c := ParseChoice(items[i]);
      if c.Err? || c.value.id in seen { return Err; }
      ChoicesStep(items, i, seen, done, c.value);
      seen := seen + {c.value.id};
      done := done + [c.value];
      i := i + 1;
    }
    assert items[i..] == [];
    assert done + [] == done;
    r := Ok(done);
  }

  // ---------------------------------------------------------------------
  // The document
  // ---------------------------------------------------------------------

  /** UTF-8 bytes of a serialized text, in which surrogates only stand in pairs. */
  function Utf8Bytes(t: Text): nat
  {
    if t == [] then 0
    else (if t[0] < 0x80 then 1 else if t[0] < 0x800 || High(t[0]) || Low(t[0]) then 2 else 3) + Utf8Bytes(t[1..])
  }

  const QUESTION_FIELDS: seq<Text> := [CONTRACT, OUTCOME, QUESTION_ID, QUESTION, CHECKPOINT, ANSWER_KIND]

  function ParseClarification(document: Option<Value>): Result<StepResult>
  {
    if document.None? || Utf8Bytes(Canonical(document.value)) > MAX_DOCUMENT_BYTES || !document.value.Obj? then Err
    else
      var d := document.value;
      if !Is(Get(d, CONTRACT), CLARIFICATION_CONTRACT) then Err
      else if Is(Get(d, OUTCOME), U("complete")) then
        if SameLine(d, [CONTRACT, OUTCOME]) then Ok(Done) else Err
      else if Is(Get(d, OUTCOME), U("blocked")) then
        ParseStuck(d)
      else if Is(Get(d, OUTCOME), U("needs_input")) then ParseQuestion(d)
      else Err
  }

  function ParseStuck(d: Value): Result<StepResult>
  {
    if SameLine(d, [CONTRACT, OUTCOME, REASON]) && TextField(Get(d, REASON), 4096)
    then Ok(Stuck(Get(d, REASON).value.text)) else Err
  }

  function ParseQuestion(d: Value): Result<StepResult>
  {
    var id, q, c := Get(d, QUESTION_ID), Get(d, QUESTION), Get(d, CHECKPOINT);
    if Is(Get(d, ANSWER_KIND), U("single_choice")) then
      if SameLine(d, QUESTION_FIELDS + [OPTIONS]) then ChoiceFrom(id, q, c, Get(d, OPTIONS)) else Err
    else if Is(Get(d, ANSWER_KIND), U("text")) then
      if SameLine(d, QUESTION_FIELDS) then TextFrom(id, q, c) else Err
    else Err
  }

  predicate QuestionTexts(id: Option<Value>, q: Option<Value>, c: Option<Value>)
  {
    TextField(id, 200) && TextField(q, 4096) && TextField(c, 4096)
  }

  function TextFrom(id: Option<Value>, q: Option<Value>, c: Option<Value>): (r: Result<StepResult>)
    ensures r.Ok? ==> r.value.NeedsInput? && r.value.q.options.None?
  {
    if !QuestionTexts(id, q, c) then Err
    else Ok(NeedsInput(Question(id.value.text, q.value.text, c.value.text, None)))
  }

  function OptionsFrom(options: Option<Value>): Result<seq<Choice>>
  {
    if options.None? || !options.value.Arr? || !(2 <= |options.value.items| <= 8) then Err
    else ParseChoices(options.value.items, {})
  }

  function ChoiceFrom(id: Option<Value>, q: Option<Value>, c: Option<Value>, options: Option<Value>): Result<StepResult>
  {
    var question, cs := TextFrom(id, q, c), OptionsFrom(options);
    if question.Err? || cs.Err? then Err else Ok(NeedsInput(question.value.q.(options := Some(cs.value))))
  }

  /** The document says exactly this and has no other field. */
  ghost predicate Asks(d: Value, r: StepResult)
  {
    && Is(Get(d, CONTRACT), CLARIFICATION_CONTRACT)
    && match r
       case Done => HasExactly(d, [CONTRACT, OUTCOME]) && Is(Get(d, OUTCOME), U("complete"))
       case Stuck(reason) =>
         && HasExactly(d, [CONTRACT, OUTCOME, REASON]) && Is(Get(d, OUTCOME), U("blocked"))
         && Is(Get(d, REASON), reason) && !Blank(reason) && |reason| <= 4096
       case NeedsInput(q) => Is(Get(d, OUTCOME), U("needs_input")) && AsksQuestion(d, q)
  }

  ghost predicate AsksQuestion(d: Value, q: Question)
  {
    && AsksTexts(Get(d, QUESTION_ID), Get(d, QUESTION), Get(d, CHECKPOINT), q)
    && (q.options.None? ==> HasExactly(d, QUESTION_FIELDS) && Is(Get(d, ANSWER_KIND), U("text")))
    && (q.options.Some? ==>
          && HasExactly(d, QUESTION_FIELDS + [OPTIONS]) && Is(Get(d, ANSWER_KIND), U("single_choice"))
          && HasChoices(Get(d, OPTIONS), q.options.value))
  }

  ghost predicate AsksTexts(id: Option<Value>, question: Option<Value>, checkpoint: Option<Value>, q: Question)
  {
    && Is(id, q.questionId) && !Blank(q.questionId) && |q.questionId| <= 200
    && Is(question, q.question) && !Blank(q.question) && |q.question| <= 4096
    && Is(checkpoint, q.checkpoint) && !Blank(q.checkpoint) && |q.checkpoint| <= 4096
  }

  ghost predicate HasChoices(v: Option<Value>, cs: seq<Choice>)
  {
    v.Some? && v.value.Arr? && 2 <= |v.value.items| <= 8 && AreChoices(v.value.items, {}, cs)
  }

  lemma FieldsDistinct()
    ensures Distinct(QUESTION_FIELDS) && Distinct(QUESTION_FIELDS + [OPTIONS])
  {
    assert CONTRACT[0] != QUESTION[0] && OUTCOME[1] != OPTIONS[1];
    assert QUESTION_ID[0] != CHECKPOINT[0] && QUESTION_ID[0] != ANSWER_KIND[0] && CHECKPOINT[0] != ANSWER_KIND[0];
  }

  // ---------------------------------------------------------------------
  // The reader is exact
  // ---------------------------------------------------------------------

  lemma WordsDistinct()
    ensures U("complete") != U("blocked") && U("complete") != U("needs_input") && U("blocked") != U("needs_input")
    ensures U("text") != U("single_choice")
  {
  }

  /** A clarification document that names the contract and this outcome. */
  ghost predicate Step(d: Value, outcome: Text)
  {
    d.Obj? && WellFormed(d) && Is(Get(d, CONTRACT), CLARIFICATION_CONTRACT) && Is(Get(d, OUTCOME), outcome)
  }

  ghost predicate HasQuestionFields(d: Value)
  {
    && d.Obj? && DistinctKeys(d.members)
    && Get(d, CONTRACT).Some? && Get(d, OUTCOME).Some? && Get(d, ANSWER_KIND).Some?
    && Get(d, QUESTION_ID).Some? && Get(d, QUESTION).Some? && Get(d, CHECKPOINT).Some?
  }

  lemma QuestionFieldsPresent(d: Value)
    requires HasQuestionFields(d)
    ensures forall i :: 0 <= i < |QUESTION_FIELDS| ==> Get(d, QUESTION_FIELDS[i]).Some?
    ensures Get(d, OPTIONS).Some? ==>
      forall i :: 0 <= i < |QUESTION_FIELDS + [OPTIONS]| ==> Get(d, (QUESTION_FIELDS + [OPTIONS])[i]).Some?
  {
    SixPresent(d, CONTRACT, OUTCOME, QUESTION_ID, QUESTION, CHECKPOINT, ANSWER_KIND);
    if Get(d, OPTIONS).Some? { OneMorePresent(d, QUESTION_FIELDS, OPTIONS); }
  }

  lemma SixPresent(d: Value, a: Text, b: Text, c: Text, e: Text, f: Text, g: Text)
    requires Get(d, a).Some? && Get(d, b).Some? && Get(d, c).Some? && Get(d, e).Some? && Get(d, f).Some? && Get(d, g).Some?
    ensures forall i :: 0 <= i < 6 ==> Get(d, [a, b, c, e, f, g][i]).Some?
  {
  }

  lemma OneMorePresent(d: Value, ks: seq<Text>, k: Text)
    requires Get(d, k).Some? && forall i :: 0 <= i < |ks| ==> Get(d, ks[i]).Some?
    ensures forall i :: 0 <= i < |ks + [k]| ==> Get(d, (ks + [k])[i]).Some?
  {
  }

  lemma TextLine(d: Value)
    requires HasQuestionFields(d)
    ensures SameLine(d, QUESTION_FIELDS) <==> HasExactly(d, QUESTION_FIELDS)
  {
    FieldsDistinct();
    QuestionFieldsPresent(d);
    LineIsExact(d, QUESTION_FIELDS);
  }

  lemma ChoiceLine(d: Value)
    requires HasQuestionFields(d) && Get(d, OPTIONS).Some?
    ensures SameLine(d, QUESTION_FIELDS + [OPTIONS]) <==> HasExactly(d, QUESTION_FIELDS + [OPTIONS])
  {
    FieldsDistinct();
    QuestionFieldsPresent(d);
    LineIsExact(d, QUESTION_FIELDS + [OPTIONS]);
  }

  lemma TextFromIsExact(id: Option<Value>, question: Option<Value>, checkpoint: Option<Value>, q: Question)
    ensures TextFrom(id, question, checkpoint) == Ok(NeedsInput(q)) <==> q.options.None? && AsksTexts(id, question, checkpoint, q)
  {
  }

  lemma OptionsFromIsExact(options: Option<Value>, cs: seq<Choice>)
    requires options.Some? ==> WellFormed(options.value)
    ensures OptionsFrom(options) == Ok(cs) <==> HasChoices(options, cs)
  {
    if options.Some? && options.value.Arr? { ParseChoicesIsExact(options.value.items, {}, cs); }
  }

  lemma ChoiceFromIsExact(id: Option<Value>, question: Option<Value>, checkpoint: Option<Value>, options: Option<Value>, q: Question)
    requires options.Some? ==> WellFormed(options.value)
    ensures ChoiceFrom(id, question, checkpoint, options) == Ok(NeedsInput(q)) <==>
      q.options.Some? && AsksTexts(id, question, checkpoint, q) && HasChoices(options, q.options.value)
  {
    var bare := q.(options := None);
    TextFromIsExact(id, question, checkpoint, bare);
    assert AsksTexts(id, question, checkpoint, q) <==> AsksTexts(id, question, checkpoint, bare);
    if q.options.Some? {
      OptionsFromIsExact(options, q.options.value);
      assert q == bare.(options := Some(q.options.value));
    }
  }

  lemma GetWellFormed(d: Value, key: Text)
    requires WellFormed(d) && Get(d, key).Some?
    ensures WellFormed(Get(d, key).value)
  {
  }

  lemma ChoiceQuestionIsExact(d: Value, q: Question)
    requires Step(d, U("needs_input")) && Is(Get(d, ANSWER_KIND), U("single_choice"))
    ensures ParseQuestion(d) == Ok(NeedsInput(q)) <==> AsksQuestion(d, q)
  {
    WordsDistinct();
    if Get(d, OPTIONS).Some? {
      GetWellFormed(d, OPTIONS);
      if HasQuestionFields(d) { ChoiceLine(d); }
    }
    ChoiceFromIsExact(Get(d, QUESTION_ID), Get(d, QUESTION), Get(d, CHECKPOINT), Get(d, OPTIONS), q);
  }

  lemma TextQuestionIsExact(d: Value, q: Question)
    requires Step(d, U("needs_input")) && Is(Get(d, ANSWER_KIND), U("text"))
    ensures ParseQuestion(d) == Ok(NeedsInput(q)) <==> AsksQuestion(d, q)
  {
    WordsDistinct();
    if HasQuestionFields(d) { TextLine(d); }
    TextFromIsExact(Get(d, QUESTION_ID), Get(d, QUESTION), Get(d, CHECKPOINT), q);
  }

  lemma ParseQuestionIsExact(d: Value, q: Question)
    requires Step(d, U("needs_input"))
    ensures ParseQuestion(d) == Ok(NeedsInput(q)) <==> AsksQuestion(d, q)
  {
    if Is(Get(d, ANSWER_KIND), U("single_choice")) {
      ChoiceQuestionIsExact(d, q);
    } else if Is(Get(d, ANSWER_KIND), U("text")) {
      TextQuestionIsExact(d, q);
    }
  }

  lemma DoneIsExact(d: Value, r: StepResult)
    requires Step(d, U("complete")) && Utf8Bytes(Canonical(d)) <= MAX_DOCUMENT_BYTES
    ensures ParseClarification(Some(d)) == Ok(r) <==> Asks(d, r)
  {
    WordsDistinct();
    FlatLine(d);
  }

  lemma StuckIsExact(d: Value, r: StepResult)
    requires Step(d, U("blocked"))
    ensures ParseStuck(d) == Ok(r) <==> Asks(d, r)
  {
    WordsDistinct();
    if Get(d, REASON).Some? { ReasonLine(d); }
  }

  /** The reader accepts a document exactly when it is small enough and asks exactly that. */
  lemma ParseClarificationIsExact(d: Value, r: StepResult)
    requires WellFormed(d)
    ensures ParseClarification(Some(d)) == Ok(r) <==> Utf8Bytes(Canonical(d)) <= MAX_DOCUMENT_BYTES && Asks(d, r)
  {
    WordsDistinct();
    if Utf8Bytes(Canonical(d)) <= MAX_DOCUMENT_BYTES {
      if Step(d, U("complete")) {
        DoneIsExact(d, r);
      } else if Step(d, U("blocked")) {
        StuckIsExact(d, r);
      } else if Step(d, U("needs_input")) && r.NeedsInput? {
        ParseQuestionIsExact(d, r.q);
      }
    }
  }

  // ---------------------------------------------------------------------
  // The published schema
  // ---------------------------------------------------------------------

  /** JSON Schema counts a string's length in code points. */
  function CodePoints(t: Text): (n: nat)
    ensures n <= |t|
    ensures t != [] ==> n >= 1
  {
    if t == [] then 0 else 1 + CodePoints(t[HeadLength(t)..])
  }

  predicate Bounded(v: Option<Value>, max: nat)
  {
    v.Some? && v.value.Str? && 1 <= CodePoints(v.value.text) <= max
  }

  ghost predicate OptionSchema(v: Value)
  {
    HasExactly(v, [ID, LABEL]) && Bounded(Get(v, ID), 100) && Bounded(Get(v, LABEL), 500)
  }

  ghost predicate QuestionSchema(d: Value, kind: Text)
  {
    && Is(Get(d, OUTCOME), U("needs_input")) && Is(Get(d, ANSWER_KIND), kind)
    && Bounded(Get(d, QUESTION_ID), 200) && Bounded(Get(d, QUESTION), 4096) && Bounded(Get(d, CHECKPOINT), 4096)
  }

  /** Branch `n` of the `oneOf` the Host publishes. */
  ghost predicate SchemaBranch(d: Value, n: nat)
  {
    && Is(Get(d, CONTRACT), CLARIFICATION_CONTRACT)
    && match n
       case 0 => HasExactly(d, [CONTRACT, OUTCOME]) && Is(Get(d, OUTCOME), U("complete"))
       case 1 => HasExactly(d, [CONTRACT, OUTCOME, REASON]) && Is(Get(d, OUTCOME), U("blocked")) && Bounded(Get(d, REASON), 4096)
       case 2 => HasExactly(d, QUESTION_FIELDS) && QuestionSchema(d, U("text"))
       case 3 =>
         && HasExactly(d, QUESTION_FIELDS + [OPTIONS]) && QuestionSchema(d, U("single_choice"))
         && Get(d, OPTIONS).Some? && Get(d, OPTIONS).value.Arr? && 2 <= |Get(d, OPTIONS).value.items| <= 8
         && (forall i :: 0 <= i < |Get(d, OPTIONS).value.items| ==> OptionSchema(Get(d, OPTIONS).value.items[i]))
       case _ => false
  }

  lemma BranchesAreExclusive(d: Value, n: nat, m: nat)
    requires SchemaBranch(d, n) && SchemaBranch(d, m)
    ensures n == m
  {
    WordsDistinct();
  }

  function BranchOf(r: StepResult): nat
  {
    match r
    case Done => 0
    case Stuck(_) => 1
    case NeedsInput(q) => if q.options.None? then 2 else 3
  }

  lemma AsksFitsSchema(d: Value, r: StepResult)
    requires Asks(d, r)
    ensures SchemaBranch(d, BranchOf(r))
  {
    if r.NeedsInput? && r.q.options.Some? {
      var items, cs := Get(d, OPTIONS).value.items, r.q.options.value;
      forall i | 0 <= i < |items| ensures OptionSchema(items[i]) {
        assert IsChoice(items[i], cs[i]);
      }
    }
  }

  /** Every accepted document has the field set, constants and limits of exactly one published branch. */
  lemma AcceptedFitsOneBranch(d: Value, r: StepResult)
    requires WellFormed(d) && ParseClarification(Some(d)) == Ok(r)
    ensures forall n :: SchemaBranch(d, n) <==> n == BranchOf(r)
  {
    ParseClarificationIsExact(d, r);
    AsksFitsSchema(d, r);
    forall n | SchemaBranch(d, n) ensures n == BranchOf(r) { BranchesAreExclusive(d, n, BranchOf(r)); }
  }
}
