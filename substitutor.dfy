/** Prompt generation (`generate_prompt_action`, main.py:133-185): the
    variable mapping, the template check, the key-by-key fill and the batch
    loop over answers. */
module Substitutor {
  import opened Wrappers
  import opened Replace
  import opened Variables
  import opened Scanner

  /** `d.get(key, "")`. */
  function GetOrEmpty(d: map<string, string>, key: string): string
  {
    if key in d then d[key] else ""
  }

  /** The mapping the fill uses (main.py:138 and 154/175): every whitelisted
      name, a fetched value or `""` for the six content variables, and the
      answer for `student_answer` whatever the fetched mapping holds. */
  function Bindings(fetched: map<string, string>, answer: string): (b: map<string, string>)
    ensures forall k :: k in b <==> k in AllVariables
    ensures forall k :: k in Predefined ==> b[k] == GetOrEmpty(fetched, k)
    ensures b[AnswerVariable] == answer
  {
    AnswerLast();
    map k | k in AllVariables :: if k == AnswerVariable then answer else GetOrEmpty(fetched, k)
  }

  /** Every whitelisted name is a key of the mapping. */
  lemma BindingsCover(fetched: map<string, string>, answer: string)
    ensures forall k :: k in AllVariables ==> k in Bindings(fetched, answer)
  {
  }

  /** The fill over `keys`: the template is rewritten once per key, in order,
      each step replacing that key's token in the text the earlier steps left. */
  function FillWith(s: string, keys: seq<string>, vars: map<string, string>): string
    requires forall k :: k in keys ==> k in vars
    decreases |keys|
  {
    if |keys| == 0 then s
    else
      var k := keys[|keys| - 1];
      ReplaceAll(FillWith(s, keys[..|keys| - 1], vars), Token(k), vars[k])
  }

  /** The prompt produced for one answer. */
  function Fill(template: string, fetched: map<string, string>, answer: string): string
  {
    FillWith(template, AllVariables, Bindings(fetched, answer))
  }

  /** The single answer of the text box, `""` when it is missing or empty (main.py:150). */
  function SingleAnswer(answer: Option<string>): string
  {
    if answer.Some? then answer.value else ""
  }

  /** Filling over `a + b` is filling over `a`, then over `b`. */
  lemma {:induction false} FillWithAppend(s: string, a: seq<string>, b: seq<string>, vars: map<string, string>)
    requires forall k :: k in a + b ==> k in vars
    ensures FillWith(s, a + b, vars) == FillWith(FillWith(s, a, vars), b, vars)
    decreases |b|
  {
    if |b| == 0 {
      assert a + b == a;
    } else {
      assert (a + b)[..|a + b| - 1] == a + b[..|b| - 1];
      FillWithAppend(s, a, b[..|b| - 1], vars);
    }
  }

  /** The fill over the whole whitelist is the fill over the six fetched
      variables followed by the replacement of `{{student_answer}}`. */
  lemma {:induction false} FillLastStep(template: string, fetched: map<string, string>, answer: string)
    ensures Fill(template, fetched, answer) ==
      ReplaceAll(FillWith(template, Predefined, Bindings(fetched, answer)), Token(AnswerVariable), answer)
  {
    AnswerLast();
  }

  /** The six fetched variables are replaced in the order of main.py:9-16. */
  lemma {:induction false} FillPredefinedOrder(template: string, vars: map<string, string>)
    requires forall k :: k in Predefined ==> k in vars
    ensures FillWith(template, Predefined, vars) ==
      ReplaceAll(ReplaceAll(ReplaceAll(ReplaceAll(ReplaceAll(ReplaceAll(template,
        Token("task_instruction"), vars["task_instruction"]),
        Token("vocabulary_list"), vars["vocabulary_list"]),
        Token("grammar_reference"), vars["grammar_reference"]),
        Token("communication_reference"), vars["communication_reference"]),
        Token("guiding_questions"), vars["guiding_questions"]),
        Token("can_do_statements"), vars["can_do_statements"])
  {
    var ks := Predefined;
    var s1 := FillWith(template, ks[..1], vars);
    assert ks[..1][..0] == [] && ks[..1][0] == ks[0];
    assert FillWith(template, [], vars) == template;
    assert s1 == ReplaceAll(template, Token(ks[0]), vars[ks[0]]);
    var s2 := FillWith(template, ks[..2], vars);
    assert ks[..2][..1] == ks[..1];
    assert s2 == ReplaceAll(s1, Token(ks[1]), vars[ks[1]]);
    var s3 := FillWith(template, ks[..3], vars);
    assert ks[..3][..2] == ks[..2];
    assert s3 == ReplaceAll(s2, Token(ks[2]), vars[ks[2]]);
    var s4 := FillWith(template, ks[..4], vars);
    assert ks[..4][..3] == ks[..3];
    assert s4 == ReplaceAll(s3, Token(ks[3]), vars[ks[3]]);
    var s5 := FillWith(template, ks[..5], vars);
    assert ks[..5][..4] == ks[..4];
    assert s5 == ReplaceAll(s4, Token(ks[4]), vars[ks[4]]);
    assert ks[..6][..5] == ks[..5];
    assert ks[..6] == ks;
  }

  /** The order of the fill: `task_instruction` first and `student_answer`
      last, each fetched key absent from the mapping replaced by `""`. */
  lemma {:induction false} FillOrder(template: string, fetched: map<string, string>, answer: string)
    ensures Fill(template, fetched, answer) ==
      ReplaceAll(ReplaceAll(ReplaceAll(ReplaceAll(ReplaceAll(ReplaceAll(ReplaceAll(template,
        Token("task_instruction"), GetOrEmpty(fetched, "task_instruction")),
        Token("vocabulary_list"), GetOrEmpty(fetched, "vocabulary_list")),
        Token("grammar_reference"), GetOrEmpty(fetched, "grammar_reference")),
        Token("communication_reference"), GetOrEmpty(fetched, "communication_reference")),
        Token("guiding_questions"), GetOrEmpty(fetched, "guiding_questions")),
        Token("can_do_statements"), GetOrEmpty(fetched, "can_do_statements")),
        Token("student_answer"), answer)
  {
    var b := Bindings(fetched, answer);
    FillLastStep(template, fetched, answer);
    FillPredefinedOrder(template, b);
  }

  /** A text that holds none of the keys' tokens passes every step unchanged. */
  lemma {:induction false} FillWithAbsent(s: string, keys: seq<string>, vars: map<string, string>)
    requires forall k :: k in keys ==> k in vars && Absent(s, Token(k))
    ensures FillWith(s, keys, vars) == s
    decreases |keys|
  {
    if |keys| > 0 {
      FillWithAbsent(s, keys[..|keys| - 1], vars);
      AbsentUnchanged(s, Token(keys[|keys| - 1]), vars[keys[|keys| - 1]]);
    }
  }

  /** No token, no change: a template holding no whitelisted placeholder is
      returned as it is, whatever the values. */
  lemma {:induction false} NoTokenNoChange(template: string, fetched: map<string, string>, answer: string)
    requires forall k :: k in AllVariables ==> Absent(template, Token(k))
    ensures Fill(template, fetched, answer) == template
  {
    FillWithAbsent(template, AllVariables, Bindings(fetched, answer));
  }

  /** A placeholder of a brace-free name outside `keys` survives every step,
      and the text on either side of it is filled on its own. */
  lemma {:induction false} FillWithAround(x: string, n: string, y: string, keys: seq<string>, vars: map<string, string>)
    requires BraceFree(n) && n !in keys
    requires forall k :: k in keys ==> k in vars
    requires forall k :: k in keys ==> BraceFree(k)
    ensures FillWith(x + Token(n) + y, keys, vars) == FillWith(x, keys, vars) + Token(n) + FillWith(y, keys, vars)
    decreases |keys|
  {
    if |keys| > 0 {
      var init, k := keys[..|keys| - 1], keys[|keys| - 1];
      FillWithAround(x, n, y, init, vars);
      var x', y' := FillWith(x, init, vars), FillWith(y, init, vars);
      forall p: nat | p < |x'| + |Token(n)| && |x'| < p + |Token(k)|
        ensures !OccursAt(x' + Token(n) + y', Token(k), p)
      {
        TokensDisjoint(x', n, y', k, p);
      }
      ReplaceAround(x', Token(n), y', Token(k), vars[k]);
    }
  }

  /** Unknown placeholders stay verbatim: a placeholder whose brace-free name
      is not whitelisted is kept in the output, and the text around it is
      filled as if it were apart. */
  lemma {:induction false} UnknownTokenVerbatim(x: string, n: string, y: string, fetched: map<string, string>, answer: string)
    requires BraceFree(n) && n !in AllVariables
    ensures Fill(x + Token(n) + y, fetched, answer) == Fill(x, fetched, answer) + Token(n) + Fill(y, fetched, answer)
  {
    BindingsCover(fetched, answer);
    FillAllAround(x, n, y, Bindings(fetched, answer));
  }

  /** FillWithAround over the whole whitelist. */
  lemma FillAllAround(x: string, n: string, y: string, vars: map<string, string>)
    requires BraceFree(n) && n !in AllVariables
    requires forall k :: k in AllVariables ==> k in vars
    ensures FillWith(x + Token(n) + y, AllVariables, vars) ==
      FillWith(x, AllVariables, vars) + Token(n) + FillWith(y, AllVariables, vars)
  {
    WhitelistBraceFree();
    FillWithAround(x, n, y, AllVariables, vars);
  }

  /** Text without `{` holds no placeholder. */
  lemma {:induction false} NoBraceAbsent(s: string, k: string)
    requires '{' !in s
    ensures Absent(s, Token(k))
  {
    forall p: nat ensures !OccursAt(s, Token(k), p) {
      if p + |Token(k)| <= |s| {
        assert s[p..p + |Token(k)|][0] == s[p];
      }
    }
  }

  /** In text without `{`, no placeholder starts before the end. */
  lemma {:induction false} NoBraceFirstAtEnd(x: string, k: string)
    requires '{' !in x
    ensures FirstAtEnd(x, Token(k))
  {
    var t := Token(k);
    forall p: nat | p < |x| ensures !OccursAt(x + t, t, p) {
      assert (x + t)[p] == x[p];
    }
  }

  /** In a template whose only placeholder is `{{student_answer}}`, set in
      text without `{`, that placeholder becomes the answer and nothing else changes. */
  lemma {:induction false} AnswerOnlyTemplate(x: string, y: string, fetched: map<string, string>, answer: string)
    requires '{' !in x && '{' !in y
    ensures Fill(x + Token(AnswerVariable) + y, fetched, answer) == x + answer + y
  {
    BindingsCover(fetched, answer);
    AnswerOnlyWith(x, y, Bindings(fetched, answer));
  }

  /** AnswerOnlyTemplate for any mapping that covers the whitelist. */
  lemma {:induction false} AnswerOnlyWith(x: string, y: string, vars: map<string, string>)
    requires '{' !in x && '{' !in y
    requires forall k :: k in AllVariables ==> k in vars
    ensures FillWith(x + Token(AnswerVariable) + y, AllVariables, vars) == x + vars[AnswerVariable] + y
  {
    var t, v := Token(AnswerVariable), vars[AnswerVariable];
    AnswerLast();
    WhitelistBraceFree();
    FillWithAround(x, AnswerVariable, y, Predefined, vars);
    forall k | k in Predefined ensures Absent(x, Token(k)) && Absent(y, Token(k)) {
      NoBraceAbsent(x, k);
      NoBraceAbsent(y, k);
    }
    FillWithAbsent(x, Predefined, vars);
    FillWithAbsent(y, Predefined, vars);
    assert FillWith(x + t + y, AllVariables, vars) == ReplaceAll(x + t + y, t, v);
    NoBraceFirstAtEnd(x, AnswerVariable);
    ReplaceFirst(x, t, y, v);
    NoBraceAbsent(y, AnswerVariable);
    AbsentUnchanged(y, t, v);
  }

  /** `Hello {{student_answer}}!` with the answer `world` gives `Hello world!`,
      whatever was fetched. */
  lemma HelloWorld(fetched: map<string, string>)
    ensures Fill("Hello " + Token(AnswerVariable) + "!", fetched, "world") == "Hello " + "world" + "!"
  {
    assert '{' !in "Hello " && '{' !in "!";
    AnswerOnlyTemplate("Hello ", "!", fetched, "world");
  }

  /** A placeholder of a brace-free name outside `keys` is left as it is. */
  lemma {:induction false} FillWithKeepsToken(n: string, keys: seq<string>, vars: map<string, string>)
    requires BraceFree(n) && n !in keys
    requires forall k :: k in keys ==> k in vars
    requires forall k :: k in keys ==> BraceFree(k)
    ensures FillWith(Token(n), keys, vars) == Token(n)
  {
    FillWithAround("", n, "", keys, vars);
    forall k | k in keys ensures Absent("", Token(k)) {
      NoBraceAbsent("", k);
    }
    FillWithAbsent("", keys, vars);
    assert "" + Token(n) + "" == Token(n);
  }

  /** The fill is sequential: when the value fetched for `task_instruction`
      is `{{student_answer}}`, the template `{{task_instruction}}` ends up as
      the answer, because the last step expands what the first inserted. */
  lemma {:induction false} EarlierValueExpandedLater(fetched: map<string, string>, answer: string)
    requires "task_instruction" in fetched && fetched["task_instruction"] == Token(AnswerVariable)
    ensures Fill(Token("task_instruction"), fetched, answer) == answer
  {
    var b := Bindings(fetched, answer);
    BindingsCover(fetched, answer);
    assert Predefined[0] == "task_instruction";
    EarlierValueWith(b);
  }

  /** EarlierValueExpandedLater for any mapping that covers the whitelist. */
  lemma {:induction false} EarlierValueWith(vars: map<string, string>)
    requires forall k :: k in AllVariables ==> k in vars
    requires vars[Predefined[0]] == Token(AnswerVariable)
    ensures FillWith(Token(Predefined[0]), AllVariables, vars) == vars[AnswerVariable]
  {
    var ti, sa := Token(Predefined[0]), Token(AnswerVariable);
    var rest := Predefined[1..];
    AnswerLast();
    assert AllVariables == [Predefined[0]] + (rest + [AnswerVariable]);
    FillWithAppend(ti, [Predefined[0]], rest + [AnswerVariable], vars);
    assert [Predefined[0]][..0] == [];
    assert FillWith(ti, [Predefined[0]], vars) == ReplaceAll(ti, ti, sa);
    ReplaceFirst("", ti, "", sa);
    assert "" + ti + "" == ti && "" + sa + "" == sa;
    WhitelistBraceFree();
    FillWithAppend(sa, rest, [AnswerVariable], vars);
    FillWithKeepsToken(AnswerVariable, rest, vars);
    assert (rest + [AnswerVariable])[..|rest|] == rest;
    ReplaceFirst("", sa, "", vars[AnswerVariable]);
    assert "" + vars[AnswerVariable] + "" == vars[AnswerVariable];
  }

  /** The fill key by key, as main.py:156-159 and main.py:177-180 do it. */
  method FillPrompt(template: string, fetched: map<string, string>, answer: string) returns (prompt: string)
    ensures prompt == Fill(template, fetched, answer)
  {
    var vars := Bindings(fetched, answer);
    BindingsCover(fetched, answer);
    prompt := ReplaceEach(template, AllVariables, vars);
  }

  /** The replacement loop over `keys`, in order. */
  method ReplaceEach(template: string, keys: seq<string>, vars: map<string, string>) returns (prompt: string)
    requires forall k :: k in keys ==> k in vars
    ensures prompt == FillWith(template, keys, vars)
  {
    prompt := template;
    for i := 0 to |keys|
      invariant prompt == FillWith(template, keys[..i], vars)
    {
      var key := keys[i];
      assert keys[..i + 1][..i] == keys[..i];
      prompt := ReplaceAll(prompt, Token(key), vars[key]);
    }
    assert keys[..|keys|] == keys;
  }

  /** The batch loop (main.py:172-185): one prompt per answer, in order, the
      i-th being the single-answer fill with the i-th answer. */
  method GenerateBatch(template: string, fetched: map<string, string>, answers: seq<string>)
    returns (prompts: seq<string>)
    ensures |prompts| == |answers|
    ensures forall i :: 0 <= i < |answers| ==> prompts[i] == Fill(template, fetched, answers[i])
  {
    prompts := [];
    for i := 0 to |answers|
      invariant |prompts| == i
      invariant forall j :: 0 <= j < i ==> prompts[j] == Fill(template, fetched, answers[j])
    {
      var prompt := FillPrompt(template, fetched, answers[i]);
      prompts := prompts + [prompt];
    }
  }

  /** How the answers reach the generator: the text box, the answers read
      from an uploaded table (absent when none was read), or neither. */
  datatype AnswerInput =
    | TextBox(answer: Option<string>)
    | TableUpload(rows: Option<seq<string>>)
    | NoMethod

  /** What one generation shows: whether the unknown-name warning is shown,
      the unknown names it lists, the generated prompts, and whether the note
      about a missing text-box answer is shown. */
  datatype Report = Report(warned: bool, unknownNames: set<string>, prompts: seq<string>, missingAnswerNote: bool)

  /** `generate_prompt_action` without its display calls. */
  method GeneratePrompts(template: string, fetched: map<string, string>, input: AnswerInput)
    returns (report: Report)
    ensures report.warned <==> WarnsUnknown(template)
    ensures report.unknownNames == UnknownNames(template)
    ensures report.missingAnswerNote <==>
      input.TextBox? && SingleAnswer(input.answer) == "" && AnswerVariable in Scan(template)
    ensures input.TextBox? ==> report.prompts == [Fill(template, fetched, SingleAnswer(input.answer))]
    ensures input.TableUpload? && input.rows.Some? ==>
      |report.prompts| == |input.rows.value| &&
      forall i :: 0 <= i < |input.rows.value| ==> report.prompts[i] == Fill(template, fetched, input.rows.value[i])
    ensures input.TableUpload? && input.rows.None? ==> report.prompts == []
    ensures input.NoMethod? ==> report.prompts == []
  {
    var unknown := UnknownNames(template);
    var prompts: seq<string> := [];
    var note := false;
    match input {
      case TextBox(answer) =>
        var current := SingleAnswer(answer);
        note := current == "" && AnswerVariable in Scan(template);
        var prompt := FillPrompt(template, fetched, current);
        prompts := [prompt];
      case TableUpload(rows) =>
        if rows.Some? && |rows.value| > 0 {
          prompts := GenerateBatch(template, fetched, rows.value);
        }
      case NoMethod =>
    }
    report := Report(unknown != {}, unknown, prompts, note);
  }
}
